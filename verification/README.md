# gosri-site: scroll reactor, partners carousel and stats proxy in Dafny

This project models the three pieces of logic in the gosri-site marketing
page and proves properties about them:

- **Scroll reactor** (`ScrollReactor`, `scroll_reactor.dfy`). This is the
  Lenis `scroll` handler of `script.js`. On each scroll sample it hides or
  shows the navbar and picks the navbar's light or dark theme. It also
  computes the zoom progress, scale and opacity of the "How we collaborate"
  section. The values fixed at page load are a `Config`: the theme switch
  point and the zoom bounds. The state carried between ticks is a `Reactor`:
  `lastScroll` and the navbar's class list. Every DOM read of a tick is a
  parameter, in a `Sample`.
- **Partners carousel** (`Carousel`, `carousel.dfy`). The logo row is
  duplicated, one copy is measured (each logo's width plus a 40px gap), and
  every animation frame moves the row 0.8px left. The row jumps back to 0
  once a whole copy has passed. The closure variables `offset`, `isPaused`
  and `halfWidth` form a `Carousel` record, together with the last
  `translateX` written. Frames, hover enter/leave and window resizes are
  `Event`s of a step function.
- **Stats proxy** (`SocialStats`, `social_stats.dfy`). This is the Netlify
  function `exports.handler`. Its inputs are the four optional settings and,
  for each upstream, what its request would end with: `Threw` (the fetch or
  the JSON parse threw) or `Parsed(body)`. It returns the list of outbound
  calls it made and the response record. JavaScript values are a small
  `Value` datatype that includes `undefined`. Truthiness and property
  access follow JavaScript. `Number()` follows JavaScript for numbers,
  booleans, null, the empty string and plain digit strings.

`optional.dfy` holds the `Option` type the three modules share. It stands
for a missing DOM element, an unset setting or a null count.

Notes on the model:

- Progress is exactly 1 at or past `effectEnd` only when the scroll is also
  past `effectStart`, because the first branch wins when the two coincide.
  On a rendered page with a non-empty section or viewport the window is
  never empty (`ProgressFullPastEnd`).
- The carousel's wrap invariant `-halfWidth < offset <= 0` holds after every
  frame that moves. It also holds over any run of frames and hovers without
  a resize. A resize that shrinks `halfWidth` while the row is paused leaves
  `|offset| >= halfWidth` until the first moving frame, and that frame
  always restores the invariant (`Frame`, `PausedResizeUnwraps`).
- `youtubeSubscribers` and `youtubeViews` are computed together: both are
  numbers or both are null (`YouTubeCounts`). In the response body, a count
  that coerces to NaN is written as `null` by `JSON.stringify`. So one body
  field can be null while the other is a number.
- An Instagram request that throws ends the handler before the YouTube
  request is made (`OutboundCalls`). A YouTube body of `null` throws at
  `ytData.items` and also gives the 500 (`FailsExactlyOnThrow`).

## Model

| member | source | states |
|---|---|---|
| ScrollReactor.Init | script.js:35-40 | The theme switch point is the hero height (the viewport height without a hero) less 100. The zoom bounds are (0.95, 1.08) below 640px width and (0.9, 1.25) otherwise, so min < 1 < max. |
| ScrollReactor.UpdateNavbar | script.js:46-60 | `nav-hidden` is present iff the scroll moved down and is past 80. Exactly one of `nav-light` and `nav-dark` is present, `nav-light` iff scroll > switch point. All other classes are kept. |
| ScrollReactor.Interpolate | script.js:73-80 | The unclamped three-way progress already lies in [0,1]. The body asserts that the divisor is positive on the division branch, which is reached only strictly inside the effect window; Dafny checks that assertion when it verifies the body. |
| ScrollReactor.Progress | script.js:65-82 | Progress lies in [0,1]. It is 0 at or before `effectStart` and 1 past both ends. Strictly inside the window it is the linear fraction. The clamp never changes the interpolated value. |
| ScrollReactor.ProgressFullPastEnd | script.js:70-82 | With non-negative heights, not both zero, `effectStart < effectEnd`, and progress is exactly 1 at or past `effectEnd`. |
| ScrollReactor.ProgressMonotone | script.js:70-82 | For fixed metrics, progress is non-decreasing in the scroll position. |
| ScrollReactor.Scale | script.js:84-86 | The scale is the min bound at progress 0 and the max bound at progress 1. For progress in [0,1] it lies between the bounds. |
| ScrollReactor.ScaleMonotone | script.js:84-86 | The scale is non-decreasing in the progress when min <= max. |
| ScrollReactor.Opacity | script.js:89-90 | Opacity is at most 1 and non-negative for non-negative progress. It is exactly 1 iff progress >= 0.3, and progress/0.3 below that. |
| ScrollReactor.Style | script.js:63-93 | The written scale lies in the bounds and the opacity in [0,1]. Before the window the style is (min, 0); past it the style is (max, 1). |
| ScrollReactor.StyleMonotone | script.js:70-93 | Scrolling further down never lowers the scale or the opacity. |
| ScrollReactor.Start | script.js:42 | The reactor starts with `lastScroll` 0 and the page's own navbar classes. |
| ScrollReactor.Tick | script.js:44-97 | After a tick, `lastScroll` is the tick's scroll. A present navbar satisfies the visibility and exclusive-theme rules, with its other classes unchanged. The section style is written iff the section and its content exist. |
| ScrollReactor.FirstTickFromStart | script.js:42-60 | From page load (`lastScroll` 0), the first sample hides the navbar iff its scroll is past 80 and sets `nav-light` iff it is past the switch point. |
| ScrollReactor.RunInvariant | script.js:42-97 | After any non-empty stream of samples, `lastScroll` is the last sample's position. The navbar's hidden flag follows the last two positions. Exactly one theme class is set, by the switch point fixed at load. No other class has changed. |
| Carousel.AppendClones | script.js:133-138 | Cloning turns N children into 2N. The first half is the originals and the second half copies them in order. |
| Carousel.MeasureWidth | script.js:146-152 | The left-to-right `reduce` equals the sum of the widths plus 40 per original. With non-negative widths it is at least 40 per logo. |
| Carousel.EmptyRowIsFalsy | script.js:146-166 | With non-negative widths, the measured width is 0, which freezes the row, iff there are no logos. Otherwise it is positive. |
| Carousel.ClonesDoubleTheWidth | script.js:134-151 | Measuring the duplicated track would give twice the half-width, so the clones form one more copy of exactly the measured length. |
| Carousel.Start | script.js:140-154 | At load the offset is 0, the row is not paused, nothing is written yet, and `halfWidth` is the originals' widths plus the gaps. |
| Carousel.Frame | script.js:165-172 | Paused or with a zero `halfWidth`, a frame changes nothing. Otherwise the transform is set to the new offset. With a positive `halfWidth` and a non-positive offset, the row steps 0.8 left and resets to 0 exactly when that step would reach a whole copy. With a positive `halfWidth` and an offset of at most 0.8, the offset ends in (-halfWidth, 0], even right after a resize. |
| Carousel.Step | script.js:155-172 | A frame is `Frame`. A resize sets `halfWidth` to the re-measured originals (widths plus 40 each) and changes nothing else. Hover enter sets the pause flag and hover leave clears it, changing nothing else. |
| Carousel.RunNeverPositive | script.js:140-176 | Whatever frames, hovers and resizes arrive, the offset never becomes positive. |
| Carousel.RunStaysWrapped | script.js:157-176 | With a positive `halfWidth` and no resize, any sequence of frames and hovers keeps `-halfWidth < offset <= 0`, and `halfWidth` is unchanged. |
| Carousel.StartStaysWrapped | script.js:134-176 | From page load with at least one logo, all widths non-negative (as rendered widths are) and no resize, the carousel is wrapped after every event. |
| Carousel.PausedResizeUnwraps | script.js:155-172 | A resize that shrinks `halfWidth` from 200 to 50 while the row is paused at offset -100 leaves it unwrapped. A frame while still paused leaves it unwrapped. After hover leave, the next frame wraps it again. |
| Carousel.Period | script.js:141-169 | The loop period is the least positive number of 0.8px steps that covers `halfWidth`. |
| Carousel.FrameFromSteps | script.js:166-171 | A moving frame from r steps left of the origin, r below the period, lands r+1 steps left, or at the origin when r+1 is the period. |
| Carousel.FramesCycle | script.js:165-172 | From offset 0, after k uninterrupted frames the offset is -0.8 * (k mod period). The row jumps back exactly once per period. |
| SocialStats.Count | netlify/functions/social-stats.js:35-36 | Coercing `v`, or 0 when `v` is falsy, gives 0 for a missing or falsy count. It keeps a numeric count, and reads a digit-string count as its decimal value. |
| SocialStats.DigitsExample | netlify/functions/social-stats.js:35-36 | The digit strings "500" and "9999" read as 500 and 9999. |
| SocialStats.InstagramFollowers | netlify/functions/social-stats.js:17-19 | The follower count is absent iff the parsed body is falsy or has a truthy `error`. Otherwise it is the coerced `followers_count`. |
| SocialStats.StatisticsOf | netlify/functions/social-stats.js:32-33 | The `items[0].statistics` chain throws iff the body is null. |
| SocialStats.YouTubeCounts | netlify/functions/social-stats.js:32-37 | It throws iff the body is null. Otherwise subscribers and views are both present or both absent. They are present iff `items && items[0] && items[0].statistics` is truthy, and then they are that value's coerced `subscriberCount` and `viewCount`. In particular, when `items` is an array whose first element is an object with a truthy `statistics`, both are that object's coerced counts. Both are absent when that `statistics` is falsy, when the body is not an object, or when an object body has no `statistics` and its `items` is missing or an array. |
| SocialStats.Handler | netlify/functions/social-stats.js:3-59 | The status is 200 or 500, and at most two calls are made. A 500 is the fixed error response with no other data. A 200 carries the JSON and CORS headers and exactly the three fields, in order. |
| SocialStats.FailsExactlyOnThrow | netlify/functions/social-stats.js:7-57 | The status is 500 iff a request that was made threw, or the YouTube body was null. In that case the response is the fixed error body. |
| SocialStats.OutboundCalls | netlify/functions/social-stats.js:11-29 | Instagram is called, first and with its settings, iff both of its settings are non-empty. YouTube is called, last, iff both of its settings are non-empty and the Instagram request did not throw. No YouTube call precedes an Instagram call. |
| SocialStats.InstagramField | netlify/functions/social-stats.js:9-19 | On a 200, the Instagram field is null without both settings or for a falsy or `error` body. It is 0 for a falsy `followers_count`, and otherwise the serialized coerced count. |
| SocialStats.YouTubeFields | netlify/functions/social-stats.js:23-37 | On a 200, both YouTube fields are null in these cases: the two settings are not both set, the statistics chain is falsy, `items[0].statistics` is present but falsy, or the body is not an object. An object body whose `items` is missing or an array and has no `statistics` gives nulls too. When both settings are set and the chain `items && items[0] && items[0].statistics` is truthy, the fields are that value's `subscriberCount` and `viewCount`, coerced and serialized. In particular this holds when `items` is an array whose first element is an object with truthy `statistics`. |
| SocialStats.UpstreamsIndependent | netlify/functions/social-stats.js:8-38 | On success, the Instagram field does not depend on the YouTube outcome, and the YouTube fields do not depend on the Instagram outcome. |
| SocialStats.ExampleAllCounts | netlify/functions/social-stats.js:3-51 | With all settings, a body of 1234 followers and a channel body with "500" and "9999", the handler makes both calls and answers 200 with 1234, 500 and 9999. |
| SocialStats.ExampleUnconfigured | netlify/functions/social-stats.js:9-51 | With no settings, no call is made and the answer is 200 with three nulls. |

## Left out

- Lenis setup, its `raf` loop and the anchor-link smooth scrolling (script.js:4-28): these are wiring around a third-party library. Their only logic is the missing-target guard.
- The IntersectionObserver card reveal (script.js:103-126): it is a class toggle driven by the library's callback.
- `loadSocialStats` (script.js:180-209): it is a fetch plus dataset writes. Its skip of falsy values is not modelled.
- `requestAnimationFrame` scheduling and the resize and hover listener registration: their effects are the `Event`s of `Carousel.Step`.
- A page without the `partner-track` element (script.js:131): the carousel block returns before doing anything, so there is no carousel state to model.
- A `Resize` event carries the widths of the original logos measured again. The source always re-measures the same `originalChildren`, so the count of widths never changes. The model does not force a `Resize` to keep that count, so its results also cover inputs the page cannot produce.
- DOM reads: offsets, heights, widths and `innerWidth`/`innerHeight` are parameters. A missing navbar or section is `None`. The section style is modelled as computed values; their `toString()` formatting is not.
- IEEE-754 arithmetic: JavaScript numbers are Dafny reals. So there is no rounding drift from repeated `-= 0.8`, and no overflow to Infinity.
- `process.env`, URL construction, the real network and `console.error` logging in the proxy. The settings and each upstream's outcome are inputs; the calls record only which settings they carry.
- The response body is the object handed to `JSON.stringify`, with keys in order; the JSON text itself is not produced.
- `Number()` coercion is exact for numbers, booleans, null, the empty string, plain decimal digit strings and the empty array. Other strings (whitespace, signs, fractions, exponents, hex, "Infinity") and non-empty arrays are taken as NaN here, although JavaScript can give a number for some of them.
- Property access models only the property names the handler reads (`error`, `followers_count`, `items`, `statistics`, `subscriberCount`, `viewCount`), plus `[0]`. None of them is a built-in property of a primitive or an array.
