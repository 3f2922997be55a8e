/** The partners carousel (script.js, the immediately-invoked block after
    the card reveal): the row of logos is duplicated once, the width of one
    copy is measured, and every animation frame slides the row left by a
    fixed step, jumping back to the start once a whole copy has scrolled
    past. Hover and resize listeners become events of the step function. */
module Carousel {
  import opened Optional

  /** Pixels the row moves per animation frame */
  const Speed: real := 0.8
  /** The gap counted after every logo when measuring */
  const Gap: real := 40.0

  // ---------------------------------------------------------------------
  // Duplicating the row
  // ---------------------------------------------------------------------

  /** Appends a copy of every original child to the track, one at a time and
      in order, as the `forEach` over the original children does. */
  method AppendClones<T>(children: seq<T>) returns (track: seq<T>)
    ensures |track| == 2 * |children|
    ensures track[..|children|] == children
    ensures forall i :: 0 <= i < |children| ==> track[|children| + i] == children[i]
  {
    track := children;
    var i := 0;
    while i < |children|
      invariant 0 <= i <= |children|
      invariant track == children + children[..i]
    {
      track := track + [children[i]];
      i := i + 1;
    }
  }

  // ---------------------------------------------------------------------
  // Measuring one copy
  // ---------------------------------------------------------------------

  /** Plain sum of a sequence of widths */
  function Sum(ws: seq<real>): real {
    if |ws| == 0 then 0.0 else ws[0] + Sum(ws[1..])
  }

  lemma {:induction false} SumAppend(a: seq<real>, b: seq<real>)
    ensures Sum(a + b) == Sum(a) + Sum(b)
  {
    if |a| == 0 {
      assert a + b == b;
    } else {
      assert (a + b)[1..] == a[1..] + b;
      SumAppend(a[1..], b);
    }
  }

  predicate NonNegative(ws: seq<real>) {
    forall i :: 0 <= i < |ws| ==> ws[i] >= 0.0
  }

  /** The width of one copy of the row: the `reduce` over the original
      children, adding each rendered width and the gap, left to right. It is
      the total width plus one gap per logo. */
  function MeasureWidth(ws: seq<real>): (w: real)
    ensures w == Sum(ws) + Gap * |ws| as real
    ensures NonNegative(ws) ==> w >= Gap * |ws| as real
    decreases |ws|
  {
    if |ws| == 0 then 0.0
    else
      var init := ws[..|ws| - 1];
      assert ws == init + [ws[|ws| - 1]];
      SumAppend(init, [ws[|ws| - 1]]);
      MeasureWidth(init) + ws[|ws| - 1] + Gap
  }

  /** With rendered (non-negative) widths the measured width is zero, which
      stops the animation, exactly when the row has no logos. */
  lemma EmptyRowIsFalsy(ws: seq<real>)
    requires NonNegative(ws)
    ensures MeasureWidth(ws) == 0.0 <==> |ws| == 0
    ensures |ws| > 0 ==> MeasureWidth(ws) > 0.0
  {
  }

  /** Measuring the whole duplicated track would give twice the half-width:
      the clones are a second copy of exactly the measured length. */
  lemma {:induction false} ClonesDoubleTheWidth(ws: seq<real>)
    ensures MeasureWidth(ws + ws) == 2.0 * MeasureWidth(ws)
  {
    SumAppend(ws, ws);
  }

  // ---------------------------------------------------------------------
  // The animation as a step function
  // ---------------------------------------------------------------------

  /** The closure state of the carousel (`offset`, `isPaused`, `halfWidth`)
      and the translation last written to the track's transform (None before
      the first moving frame). `halfWidth` is a number from the start:
      the measurement runs before the first frame is requested. */
  datatype Carousel = Carousel(offset: real, paused: bool, halfWidth: real, transform: Option<real>)

  /** The carousel once the clones are appended and the originals measured */
  function Start(originalWidths: seq<real>): (c: Carousel)
    ensures c.offset == 0.0 && !c.paused && c.transform == None
    ensures c.halfWidth == Sum(originalWidths) + Gap * |originalWidths| as real
  {
    Carousel(0.0, false, MeasureWidth(originalWidths), None)
  }

  function Abs(x: real): real {
    if x < 0.0 then -x else x
  }

  /** Not hovered, and a truthy (non-zero) half-width */
  predicate Moves(c: Carousel) {
    !c.paused && c.halfWidth != 0.0
  }

  /** The offset kept between frames: never positive, and less than one copy
      of the row away from the start */
  predicate Wrapped(c: Carousel) {
    -c.halfWidth < c.offset <= 0.0
  }

  /** One animation frame. A frozen carousel is left exactly as it was;
      a moving one with a positive half-width ends the frame wrapped, even if
      a resize had just shrunk the half-width below the current offset. */
  function Frame(c: Carousel): (d: Carousel)
    ensures !Moves(c) ==> d == c
    ensures d.paused == c.paused && d.halfWidth == c.halfWidth
    ensures Moves(c) ==> d.transform == Some(d.offset)
    ensures Moves(c) && c.halfWidth > 0.0 && c.offset <= Speed ==> Wrapped(d)
    ensures Moves(c) && c.halfWidth > 0.0 && c.offset <= 0.0 ==>
              if c.offset - Speed <= -c.halfWidth then d.offset == 0.0 else d.offset == c.offset - Speed
  {
    if Moves(c) then
      var next := c.offset - Speed;
      var offset := if Abs(next) >= c.halfWidth then 0.0 else next;
      c.(offset := offset, transform := Some(offset))
    else c
  }

  /** The listeners that feed the animation */
  datatype Event =
    | AnimationFrame
    | Resize(originalWidths: seq<real>)
    | MouseEnter
    | MouseLeave

  /** One event: a frame advances the row; a resize re-measures the original
      logos and touches nothing else; hover enter and leave set and clear the
      pause flag and touch nothing else. */
  function Step(c: Carousel, e: Event): (d: Carousel)
    ensures e.AnimationFrame? ==> d == Frame(c)
    ensures e.Resize? ==>
              && d.halfWidth == Sum(e.originalWidths) + Gap * |e.originalWidths| as real
              && d.offset == c.offset && d.paused == c.paused && d.transform == c.transform
    ensures e.MouseEnter? ==>
              d.paused && d.offset == c.offset && d.halfWidth == c.halfWidth && d.transform == c.transform
    ensures e.MouseLeave? ==>
              !d.paused && d.offset == c.offset && d.halfWidth == c.halfWidth && d.transform == c.transform
  {
    match e
    case AnimationFrame => Frame(c)
    case Resize(ws) => c.(halfWidth := MeasureWidth(ws))
    case MouseEnter => c.(paused := true)
    case MouseLeave => c.(paused := false)
  }

  /** The carousel after a stream of events, oldest first */
  function Run(c: Carousel, events: seq<Event>): Carousel
    decreases |events|
  {
    if |events| == 0 then c else Run(Step(c, events[0]), events[1..])
  }

  /** The offset never becomes positive, whatever the events. */
  lemma {:induction false} RunNeverPositive(c: Carousel, events: seq<Event>)
    requires c.offset <= 0.0
    ensures Run(c, events).offset <= 0.0
    decreases |events|
  {
    if |events| > 0 {
      RunNeverPositive(Step(c, events[0]), events[1..]);
    }
  }

  predicate NoResize(events: seq<Event>) {
    forall i :: 0 <= i < |events| ==> !events[i].Resize?
  }

  /** With a fixed positive half-width, any mix of frames and hovers keeps
      the offset wrapped: |offset| < halfWidth after every frame. */
  lemma {:induction false} RunStaysWrapped(c: Carousel, events: seq<Event>)
    requires c.halfWidth > 0.0 && Wrapped(c) && NoResize(events)
    ensures Wrapped(Run(c, events))
    ensures Run(c, events).halfWidth == c.halfWidth
    decreases |events|
  {
    if |events| > 0 {
      assert !events[0].Resize?;
      RunStaysWrapped(Step(c, events[0]), events[1..]);
    }
  }

  /** From page load, as long as the window is not resized, the carousel is
      wrapped after every event. */
  lemma StartStaysWrapped(originalWidths: seq<real>, events: seq<Event>)
    requires NonNegative(originalWidths) && |originalWidths| > 0 && NoResize(events)
    ensures Wrapped(Run(Start(originalWidths), events))
  {
    EmptyRowIsFalsy(originalWidths);
    RunStaysWrapped(Start(originalWidths), events);
  }

  /** A resize that shrinks the half-width while the row is paused leaves it
      unwrapped, and a paused frame keeps it so: the wrap invariant holds
      only after moving frames. */
  lemma PausedResizeUnwraps()
    ensures var c := Carousel(-100.0, true, 200.0, Some(-100.0));
            var d := Step(c, Resize([10.0]));
            && Wrapped(c)
            && d.halfWidth == 50.0
            && !Wrapped(d)
            && !Wrapped(Step(d, AnimationFrame))
            && Wrapped(Run(d, [MouseLeave, AnimationFrame]))
  {
  }

  // ---------------------------------------------------------------------
  // The loop period
  // ---------------------------------------------------------------------

  /** The number of frames one cycle takes: the least positive count of
      steps that covers the half-width */
  function Period(halfWidth: real): (m: nat)
    requires halfWidth > 0.0
    ensures m >= 1
    ensures Speed * m as real >= halfWidth
    ensures Speed * (m - 1) as real < halfWidth
  {
    var q := (halfWidth / Speed).Floor;
    if q as real * Speed >= halfWidth then q else q + 1
  }

  /** `k` uninterrupted frames */
  function Frames(c: Carousel, k: nat): Carousel {
    if k == 0 then c else Frame(Frames(c, k - 1))
  }

  lemma MulBound(d: int, m: int)
    requires m >= 1 && -m < d * m < m
    ensures d == 0
  {
  }

  /** A remainder is determined by any quotient-remainder split */
  lemma ModUnique(k: int, m: int, q: int, r: int)
    requires m >= 1 && 0 <= r < m && k == q * m + r
    ensures k % m == r
  {
    var q', r' := k / m, k % m;
    assert k == q' * m + r';
    assert (q - q') * m == r' - r;
    MulBound(q - q', m);
  }

  lemma ModStep(k: nat, m: nat)
    requires m >= 1
    ensures (k + 1) % m == if k % m + 1 == m then 0 else k % m + 1
  {
    var q, r := k / m, k % m;
    assert k == q * m + r;
    if r + 1 == m {
      ModUnique(k + 1, m, q + 1, 0);
    } else {
      ModUnique(k + 1, m, q, r + 1);
    }
  }

  /** One moving frame from `r` steps left of the origin, with `r` short of a
      whole period, takes one more step, or jumps back to the origin when
      that step completes the period. */
  lemma FrameFromSteps(c: Carousel, r: nat)
    requires !c.paused && c.halfWidth > 0.0 && r < Period(c.halfWidth)
    requires c.offset == -Speed * r as real
    ensures Frame(c).offset == -Speed * (if r + 1 == Period(c.halfWidth) then 0 else r + 1) as real
  {
  }

  /** Started from the origin, the offset after `k` frames is `k mod period`
      steps to the left: the row slides one step per frame and jumps back to
      the start exactly once per period. */
  lemma {:induction false} FramesCycle(c: Carousel, k: nat)
    requires c.offset == 0.0 && !c.paused && c.halfWidth > 0.0
    ensures Frames(c, k).offset == -Speed * (k % Period(c.halfWidth)) as real
    ensures Frames(c, k).halfWidth == c.halfWidth && !Frames(c, k).paused
  {
    if k > 0 {
      FramesCycle(c, k - 1);
      ModStep(k - 1, Period(c.halfWidth));
      FrameFromSteps(Frames(c, k - 1), (k - 1) % Period(c.halfWidth));
    }
  }
}
