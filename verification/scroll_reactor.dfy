/** The scroll reactor of the landing page (script.js, the Lenis "scroll"
    handler): on every scroll sample it hides or shows the navbar, picks the
    navbar theme, and computes the zoom-and-fade of the "How we collaborate"
    section. The DOM reads become parameters and the DOM writes become the
    result; the only state carried from one tick to the next is the previous
    scroll position and the navbar's class list. */
module ScrollReactor {
  import opened Optional

  /** The navbar never hides while the page is scrolled less than this */
  const HideThreshold: real := 80.0
  /** The theme switches this far above the bottom of the hero */
  const ThemeMargin: real := 100.0
  /** Viewports narrower than this use the mobile zoom bounds */
  const MobileWidth: real := 640.0
  /** The zoom starts when the section top is this fraction of a viewport below the scroll position */
  const StartFraction: real := 0.3
  /** The zoom ends this fraction of the way down the section */
  const EndFraction: real := 0.6
  /** The fade-in completes at this fraction of the zoom */
  const FadeSpan: real := 0.3

  const NavHidden: string := "nav-hidden"
  const NavLight: string := "nav-light"
  const NavDark: string := "nav-dark"

  /** The values the page fixes once, at load time */
  datatype Config = Config(switchPoint: real, minScale: real, maxScale: real)

  /** Page-load initialisation: the theme switch point comes from the hero's
      height (the viewport height when there is no hero), the zoom bounds from
      the viewport width. */
  function Init(heroHeight: Option<real>, innerHeight: real, innerWidth: real): (c: Config)
    ensures c.switchPoint == heroHeight.GetOr(innerHeight) - ThemeMargin
    ensures innerWidth < MobileWidth ==> c.minScale == 0.95 && c.maxScale == 1.08
    ensures innerWidth >= MobileWidth ==> c.minScale == 0.9 && c.maxScale == 1.25
    ensures 0.0 < c.minScale < 1.0 < c.maxScale
  {
    var isMobile := innerWidth < MobileWidth;
    Config(heroHeight.GetOr(innerHeight) - ThemeMargin,
           if isMobile then 0.95 else 0.9,
           if isMobile then 1.08 else 1.25)
  }

  // ---------------------------------------------------------------------
  // Navbar
  // ---------------------------------------------------------------------

  /** Moving down, and already past the threshold */
  predicate HidesNavbar(lastScroll: real, scroll: real) {
    scroll > lastScroll && scroll > HideThreshold
  }

  /** Past the bottom of the hero (less the margin) */
  predicate IsLight(cfg: Config, scroll: real) {
    scroll > cfg.switchPoint
  }

  /** Classes of the navbar the scroll handler never touches */
  function Untouched(classes: set<string>): set<string> {
    classes - {NavHidden, NavLight, NavDark}
  }

  /** The class-list edits of one tick on the navbar element. */
  function UpdateNavbar(cfg: Config, classes: set<string>, lastScroll: real, scroll: real): (r: set<string>)
    ensures NavHidden in r <==> HidesNavbar(lastScroll, scroll)
    ensures NavLight in r <==> IsLight(cfg, scroll)
    ensures NavDark in r <==> !IsLight(cfg, scroll)
    ensures Untouched(r) == Untouched(classes)
  {
    var visibility := if HidesNavbar(lastScroll, scroll) then classes + {NavHidden} else classes - {NavHidden};
    if IsLight(cfg, scroll) then visibility + {NavLight} - {NavDark}
    else visibility + {NavDark} - {NavLight}
  }

  // ---------------------------------------------------------------------
  // Zoom and fade of the collaboration section
  // ---------------------------------------------------------------------

  /** The layout values read on each tick: the section's offsetTop and
      offsetHeight and the window's innerHeight */
  datatype Metrics = Metrics(sectionTop: real, sectionHeight: real, viewportHeight: real)

  function EffectStart(m: Metrics): real {
    m.sectionTop - m.viewportHeight * StartFraction
  }

  function EffectEnd(m: Metrics): real {
    m.sectionTop + m.sectionHeight * EndFraction
  }

  /** Metrics a rendered page can produce: no negative heights */
  predicate Rendered(m: Metrics) {
    m.sectionHeight >= 0.0 && m.viewportHeight >= 0.0
  }

  function Min(a: real, b: real): real { if a <= b then a else b }

  function Max(a: real, b: real): real { if a >= b then a else b }

  /** The three-way choice before clamping. The division is reached only
      strictly inside the effect window, so its divisor is positive (Dafny
      checks the divisor is non-zero). */
  function Interpolate(scroll: real, m: Metrics): (p: real)
    ensures 0.0 <= p <= 1.0
  {
    if scroll <= EffectStart(m) then 0.0
    else if scroll >= EffectEnd(m) then 1.0
    else
      var d := EffectEnd(m) - EffectStart(m);
      assert 0.0 < scroll - EffectStart(m) < d;
      FractionInUnit(scroll - EffectStart(m), d);
      (scroll - EffectStart(m)) / d
  }

  lemma MulNonneg(a: real, b: real)
    requires a >= 0.0 && b >= 0.0
    ensures a * b >= 0.0
  {
  }

  lemma FractionInUnit(x: real, d: real)
    requires 0.0 < x < d
    ensures 0.0 < x / d < 1.0
  {
    var q := x / d;
    assert q * d == x;
    if q <= 0.0 {
      MulNonneg(-q, d);
      assert false;
    }
    if q >= 1.0 {
      MulNonneg(q - 1.0, d);
      assert false;
    }
  }

  /** Zoom progress after the clamp to [0, 1]. The clamp never changes the
      interpolated value. */
  function Progress(scroll: real, m: Metrics): (p: real)
    ensures 0.0 <= p <= 1.0
    ensures scroll <= EffectStart(m) ==> p == 0.0
    ensures EffectStart(m) < scroll && EffectEnd(m) <= scroll ==> p == 1.0
    ensures EffectStart(m) < scroll < EffectEnd(m) ==>
              && EffectStart(m) < EffectEnd(m)
              && p == (scroll - EffectStart(m)) / (EffectEnd(m) - EffectStart(m))
    ensures p == Interpolate(scroll, m)
  {
    Max(0.0, Min(1.0, Interpolate(scroll, m)))
  }

  /** On a rendered page with a visible section or viewport the window is
      non-empty, so past its end the progress is exactly 1. */
  lemma ProgressFullPastEnd(scroll: real, m: Metrics)
    requires Rendered(m) && (m.sectionHeight > 0.0 || m.viewportHeight > 0.0)
    requires scroll >= EffectEnd(m)
    ensures EffectStart(m) < EffectEnd(m)
    ensures Progress(scroll, m) == 1.0
  {
  }

  lemma DivideMonotone(x: real, y: real, d: real)
    requires x <= y && d > 0.0
    ensures x / d <= y / d
  {
  }

  /** Scrolling further down never undoes any of the zoom. */
  lemma ProgressMonotone(m: Metrics, s1: real, s2: real)
    requires s1 <= s2
    ensures Progress(s1, m) <= Progress(s2, m)
  {
    var a, b := EffectStart(m), EffectEnd(m);
    if a < s1 < b && a < s2 < b {
      DivideMonotone(s1 - a, s2 - a, b - a);
    }
  }

  /** The scale written to `--collab-scale`: linear in the progress between
      the configured bounds. */
  function Scale(cfg: Config, progress: real): (s: real)
    ensures progress == 0.0 ==> s == cfg.minScale
    ensures progress == 1.0 ==> s == cfg.maxScale
    ensures cfg.minScale <= cfg.maxScale && 0.0 <= progress <= 1.0 ==> cfg.minScale <= s <= cfg.maxScale
  {
    LerpBetween(cfg.minScale, cfg.maxScale, progress);
    Lerp(cfg.minScale, cfg.maxScale, progress)
  }

  /** Linear interpolation from `lo` (at 0) to `hi` (at 1) */
  function Lerp(lo: real, hi: real, t: real): real {
    lo + (hi - lo) * t
  }

  lemma LerpBetween(lo: real, hi: real, t: real)
    ensures lo <= hi && 0.0 <= t <= 1.0 ==> lo <= Lerp(lo, hi, t) <= hi
  {
    if lo <= hi && 0.0 <= t <= 1.0 {
      MulNonneg(hi - lo, t);
      MulNonneg(hi - lo, 1.0 - t);
    }
  }

  /** A larger progress never gives a smaller scale. */
  lemma ScaleMonotone(cfg: Config, p1: real, p2: real)
    requires cfg.minScale <= cfg.maxScale && p1 <= p2
    ensures Scale(cfg, p1) <= Scale(cfg, p2)
  {
    var width := cfg.maxScale - cfg.minScale;
    assert Scale(cfg, p2) - Scale(cfg, p1) == width * (p2 - p1);
    MulNonneg(width, p2 - p1);
  }

  /** The opacity of the section content: the fade completes at 30% of the
      zoom and then stays at 1. */
  function Opacity(progress: real): (o: real)
    ensures o <= 1.0
    ensures progress >= 0.0 ==> o >= 0.0
    ensures o == 1.0 <==> progress >= FadeSpan
    ensures progress < FadeSpan ==> o == progress / FadeSpan
  {
    Min(progress / FadeSpan, 1.0)
  }

  /** What the handler writes on the section content */
  datatype CollabStyle = CollabStyle(scale: real, opacity: real)

  /** The whole zoom-and-fade computation for one scroll position. */
  function Style(cfg: Config, scroll: real, m: Metrics): (st: CollabStyle)
    ensures cfg.minScale <= cfg.maxScale ==> cfg.minScale <= st.scale <= cfg.maxScale
    ensures 0.0 <= st.opacity <= 1.0
    ensures scroll <= EffectStart(m) ==> st == CollabStyle(cfg.minScale, 0.0)
    ensures EffectStart(m) < scroll && EffectEnd(m) <= scroll ==> st == CollabStyle(cfg.maxScale, 1.0)
  {
    var p := Progress(scroll, m);
    CollabStyle(Scale(cfg, p), Opacity(p))
  }

  /** Scrolling down never shrinks the section nor fades it out. */
  lemma StyleMonotone(cfg: Config, m: Metrics, s1: real, s2: real)
    requires cfg.minScale <= cfg.maxScale && s1 <= s2
    ensures Style(cfg, s1, m).scale <= Style(cfg, s2, m).scale
    ensures Style(cfg, s1, m).opacity <= Style(cfg, s2, m).opacity
  {
    ProgressMonotone(m, s1, s2);
    ScaleMonotone(cfg, Progress(s1, m), Progress(s2, m));
    DivideMonotone(Progress(s1, m), Progress(s2, m), FadeSpan);
  }

  // ---------------------------------------------------------------------
  // The tick as a step function
  // ---------------------------------------------------------------------

  /** The state carried across ticks: the previous scroll position and the
      navbar's class list (None when the page has no navbar). */
  datatype Reactor = Reactor(lastScroll: real, header: Option<set<string>>)

  /** The reactor right after page load */
  function Start(header: Option<set<string>>): (r: Reactor)
    ensures r.lastScroll == 0.0 && r.header == header
  {
    Reactor(0.0, header)
  }

  /** One scroll notification: the new position and, when both the section
      and its content exist, the section's layout metrics. */
  datatype Sample = Sample(scroll: real, section: Option<Metrics>)

  datatype TickResult = TickResult(reactor: Reactor, collab: Option<CollabStyle>)

  /** True when a navbar class list matches what a tick from `lastScroll` to
      `scroll` must leave behind */
  predicate NavbarAfter(cfg: Config, classes: set<string>, lastScroll: real, scroll: real) {
    && (NavHidden in classes <==> HidesNavbar(lastScroll, scroll))
    && (NavLight in classes <==> IsLight(cfg, scroll))
    && (NavDark in classes <==> !IsLight(cfg, scroll))
  }

  /** One run of the scroll handler. */
  function Tick(cfg: Config, r: Reactor, s: Sample): (t: TickResult)
    ensures t.reactor.lastScroll == s.scroll
    ensures t.reactor.header.Some? <==> r.header.Some?
    ensures r.header.Some? ==>
              && NavbarAfter(cfg, t.reactor.header.value, r.lastScroll, s.scroll)
              && Untouched(t.reactor.header.value) == Untouched(r.header.value)
    ensures t.collab.Some? <==> s.section.Some?
    ensures s.section.Some? ==> t.collab.value == Style(cfg, s.scroll, s.section.value)
  {
    var header := match r.header
      case None => None
      case Some(classes) => Some(UpdateNavbar(cfg, classes, r.lastScroll, s.scroll));
    var collab := match s.section
      case None => None
      case Some(m) => Some(Style(cfg, s.scroll, m));
    TickResult(Reactor(s.scroll, header), collab)
  }

  /** The reactor after a whole stream of scroll samples, oldest first */
  function Run(cfg: Config, r: Reactor, samples: seq<Sample>): Reactor
    decreases |samples|
  {
    if |samples| == 0 then r
    else Run(cfg, Tick(cfg, r, samples[0]).reactor, samples[1..])
  }

  /** The scroll position before the last sample of a stream */
  function PreviousScroll(r: Reactor, samples: seq<Sample>): real
    requires |samples| > 0
  {
    if |samples| == 1 then r.lastScroll else samples[|samples| - 2].scroll
  }

  /** After any non-empty stream, `lastScroll` is the last sample's position;
      the navbar is hidden exactly when the last move went down past the
      threshold; exactly one theme class is present, chosen by the switch
      point fixed at load; and no other class of the navbar has changed. */
  lemma {:induction false} RunInvariant(cfg: Config, r: Reactor, samples: seq<Sample>)
    requires |samples| > 0
    ensures Run(cfg, r, samples).lastScroll == samples[|samples| - 1].scroll
    ensures Run(cfg, r, samples).header.Some? <==> r.header.Some?
    ensures r.header.Some? ==>
              && NavbarAfter(cfg, Run(cfg, r, samples).header.value,
                             PreviousScroll(r, samples), samples[|samples| - 1].scroll)
              && Untouched(Run(cfg, r, samples).header.value) == Untouched(r.header.value)
    decreases |samples|
  {
    var next := Tick(cfg, r, samples[0]).reactor;
    if |samples| > 1 {
      var rest := samples[1..];
      RunInvariant(cfg, next, rest);
      assert rest[|rest| - 1] == samples[|samples| - 1];
      assert PreviousScroll(next, rest) == PreviousScroll(r, samples);
    }
  }

  /** From page load, the first scroll sample hides the navbar exactly when it
      is past the threshold, since `lastScroll` starts at 0. */
  lemma FirstTickFromStart(cfg: Config, header: set<string>, s: Sample)
    ensures var r := Tick(cfg, Start(Some(header)), s).reactor;
            && r.header.Some?
            && (NavHidden in r.header.value <==> s.scroll > HideThreshold)
            && (NavLight in r.header.value <==> s.scroll > cfg.switchPoint)
            && r.lastScroll == s.scroll
  {
  }
}
