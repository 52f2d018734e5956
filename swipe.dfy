// The two-page swipe controller of the assistant panel: a horizontal slider
// whose offset `x` runs from 0 (the Audio page is shown) to -width (the Chat
// page is shown). A pan gesture records where the slider was when it began,
// drags the slider by the gesture's translation, and on release snaps to one
// of the two pages.

module Swipe {
  import opened Interpolation

  /** A release at least this fast (in either direction) is a fling. */
  const FlingVelocity: real := 600.0

  datatype Page = Audio | Chat

  /** The slider offset at which `page` is fully shown. */
  function Offset(page: Page, width: real): (r: real)
    requires width > 0.0
    ensures r == 0.0 || r == -width
    ensures (r == 0.0) <==> page == Audio
  {
    match page
    case Audio => 0.0
    case Chat => -width
  }

  function Other(page: Page): Page {
    match page
    case Audio => Chat
    case Chat => Audio
  }

  /** The offset that divides "nearer to Audio" from "nearer to Chat". */
  function Halfway(width: real): (h: real)
    requires width > 0.0
    ensures -width < h < 0.0
    ensures h - -width == 0.0 - h
  {
    -width / 2.0
  }

  function Distance(a: real, b: real): real {
    if a <= b then b - a else a - b
  }

  /** The page a released gesture settles on: a fast fling left picks Chat,
      a fast fling right picks Audio, otherwise the page nearer to `x`, with
      the exact halfway point going to Audio. */
  function SnapPage(x: real, velocityX: real, width: real): (page: Page)
    requires width > 0.0
    ensures velocityX <= -FlingVelocity ==> page == Chat
    ensures FlingVelocity <= velocityX ==> page == Audio
    ensures -FlingVelocity < velocityX < FlingVelocity ==>
              (page == Chat <==> x < Halfway(width))
  {
    if velocityX <= -FlingVelocity then Chat
    else if velocityX >= FlingVelocity then Audio
    else if x < Halfway(width) then Chat
    else Audio
  }

  /** No release is a fling in both directions, so testing the right fling
      before the left one picks the same page. */
  lemma FlingTestsCommute(x: real, velocityX: real, width: real)
    requires width > 0.0
    ensures SnapPage(x, velocityX, width) ==
              if velocityX >= FlingVelocity then Audio
              else if velocityX <= -FlingVelocity then Chat
              else if x < Halfway(width) then Chat
              else Audio
  {
  }

  /** Without a fling the slider settles on a nearest page: the chosen page's
      offset is no farther from `x` than the other page's, strictly nearer
      unless `x` is exactly halfway, and a tie goes to Audio. */
  lemma SlowReleaseSnapsToNearestPage(x: real, velocityX: real, width: real)
    requires width > 0.0
    requires -FlingVelocity < velocityX < FlingVelocity
    ensures var page := SnapPage(x, velocityX, width);
            Distance(x, Offset(page, width)) <= Distance(x, Offset(Other(page), width))
    ensures var page := SnapPage(x, velocityX, width);
            (Distance(x, Offset(page, width)) == Distance(x, Offset(Other(page), width)) ==>
               x == Halfway(width) && page == Audio)
  {
  }

  /** The page-indicator progress: 0 on the Audio page, 1 on the Chat page. */
  function ProgressOf(x: real, width: real): (p: real)
    requires width > 0.0
    ensures -width <= x <= 0.0 ==> 0.0 <= p <= 1.0
    ensures x == -p * width
    ensures (p == 0.0) <==> x == 0.0
    ensures (p == 1.0) <==> x == -width
  {
    -x / width
  }

  /** Progress reaches exactly the two page values at the two page offsets. */
  lemma ProgressAtPages(width: real)
    requires width > 0.0
    ensures ProgressOf(Offset(Audio, width), width) == 0.0
    ensures ProgressOf(Offset(Chat, width), width) == 1.0
  {
  }

  /** Dragging towards Chat (a smaller offset) never lowers the progress. */
  lemma ProgressAntitone(x: real, y: real, width: real)
    requires width > 0.0
    requires x <= y
    ensures ProgressOf(y, width) <= ProgressOf(x, width)
  {
    var px, py := ProgressOf(x, width), ProgressOf(y, width);
    assert px - py == (y - x) / width;
    DivNonNegative(y - x, width);
  }

  lemma DivNonNegative(a: real, b: real)
    requires 0.0 <= a && 0.0 < b
    ensures 0.0 <= a / b
  {
  }

  // ---------------------------------------------------------------------
  // The gesture callbacks as a state machine over the two stored numbers.

  datatype SliderState = SliderState(x: real, startX: real)

  /** The callbacks the pan gesture delivers, one at a time. */
  datatype PanEvent = Begin | Change(translationX: real) | End(velocityX: real)

  ghost predicate InBounds(s: SliderState, width: real) {
    -width <= s.x <= 0.0 && -width <= s.startX <= 0.0
  }

  /** One callback: Begin records the position, Change drags from that
      recorded position by the cumulative translation, End settles on the
      snap target. */
  function Step(s: SliderState, e: PanEvent, width: real): (r: SliderState)
    requires width > 0.0
    ensures e.Begin? ==> r.x == s.x && r.startX == s.x
    ensures e.Change? ==> r.startX == s.startX && -width <= r.x <= 0.0
    ensures e.End? ==> r.startX == s.startX && (r.x == 0.0 || r.x == -width)
  {
    match e
    case Begin => s.(startX := s.x)
    case Change(t) => s.(x := Clamp(s.startX + t, -width, 0.0))
    case End(v) => s.(x := Offset(SnapPage(s.x, v, width), width))
  }

  /** The state after the callbacks `es`, delivered in order. */
  function Replay(s: SliderState, es: seq<PanEvent>, width: real): SliderState
    requires width > 0.0
    decreases |es|
  {
    if es == [] then s else Replay(Step(s, es[0], width), es[1..], width)
  }

  lemma {:induction false} ReplaySnoc(s: SliderState, es: seq<PanEvent>, e: PanEvent, width: real)
    requires width > 0.0
    ensures Replay(s, es + [e], width) == Step(Replay(s, es, width), e, width)
    decreases |es|
  {
    if es == [] {
      assert [e][1..] == [];
    } else {
      assert (es + [e])[1..] == es[1..] + [e];
      ReplaySnoc(Step(s, es[0], width), es[1..], e, width);
    }
  }

  /** Whatever the callbacks and their arguments, a slider that starts inside
      [-width, 0] stays inside it. */
  lemma {:induction false} ReplayStaysInBounds(s: SliderState, es: seq<PanEvent>, width: real)
    requires width > 0.0
    requires InBounds(s, width)
    ensures InBounds(Replay(s, es, width), width)
    decreases |es|
  {
    if es != [] {
      ReplayStaysInBounds(Step(s, es[0], width), es[1..], width);
    }
  }

  /** After a gesture has ended, the slider rests exactly on one of the two
      pages. */
  lemma ReplaySettlesOnPage(s: SliderState, es: seq<PanEvent>, velocityX: real, width: real)
    requires width > 0.0
    ensures var r := Replay(s, es + [End(velocityX)], width);
            r.x == 0.0 || r.x == -width
  {
    ReplaySnoc(s, es, End(velocityX), width);
  }

  /** A run of drag events after Begin measures each drag from where the
      slider was when the gesture began: the slider ends at the clamped sum
      of that start position and the last translation, however many drag
      events came before it. */
  lemma {:induction false} DragFromGestureStart(s: SliderState, ts: seq<real>, width: real)
    requires width > 0.0
    requires |ts| > 0
    ensures var r := Replay(s, [Begin] + seq(|ts|, i requires 0 <= i < |ts| => Change(ts[i])), width);
            r.startX == s.x && r.x == Clamp(s.x + ts[|ts| - 1], -width, 0.0)
  {
    var begun := Step(s, Begin, width);
    var drags := seq(|ts|, i requires 0 <= i < |ts| => Change(ts[i]));
    assert ([Begin] + drags)[1..] == drags;
    DragsFromStart(begun, ts, width);
  }

  lemma {:induction false} DragsFromStart(s: SliderState, ts: seq<real>, width: real)
    requires width > 0.0
    requires |ts| > 0
    ensures var r := Replay(s, seq(|ts|, i requires 0 <= i < |ts| => Change(ts[i])), width);
            r.startX == s.startX && r.x == Clamp(s.startX + ts[|ts| - 1], -width, 0.0)
    decreases |ts|
  {
    var drags := seq(|ts|, i requires 0 <= i < |ts| => Change(ts[i]));
    var next := Step(s, drags[0], width);
    if |ts| == 1 {
      assert drags[1..] == [];
    } else {
      var rest := seq(|ts| - 1, i requires 0 <= i < |ts| - 1 => Change(ts[1..][i]));
      assert drags[1..] == rest;
      DragsFromStart(next, ts[1..], width);
    }
  }

  // ---------------------------------------------------------------------
  // The controller object: the two shared values the callbacks overwrite.

  class SwipeController {
    const width: real
    var x: real
    var startX: real

    function State(): SliderState
      reads this
    {
      SliderState(x, startX)
    }

    ghost predicate Valid()
      reads this
    {
      width > 0.0 && InBounds(State(), width)
    }

    /** Both shared values start at 0: the Audio page is shown. */
    constructor (width: real)
      requires width > 0.0
      ensures this.width == width && x == 0.0 && startX == 0.0
      ensures Valid()
    {
      this.width := width;
      x := 0.0;
      startX := 0.0;
    }

    /** The gesture began: remember where the slider is. */
    method OnBegin()
      requires Valid()
      modifies this
      ensures Valid()
      ensures State() == Step(old(State()), Begin, width)
      ensures startX == x == old(x)
    {
      startX := x;
    }

    /** A drag event: the slider follows the cumulative translation from the
        gesture's start, pinned to [-width, 0]. */
    method OnChange(translationX: real)
      requires Valid()
      modifies this
      ensures Valid()
      ensures State() == Step(old(State()), Change(translationX), width)
      ensures startX == old(startX)
      ensures -width <= old(startX) + translationX <= 0.0 ==> x == old(startX) + translationX
      ensures old(startX) + translationX < -width ==> x == -width
      ensures 0.0 < old(startX) + translationX ==> x == 0.0
    {
      x := Clamp(startX + translationX, -width, 0.0);
    }

    /** The gesture ended: pick the target page and settle the slider there. */
    method OnEnd(velocityX: real) returns (target: real)
      requires Valid()
      modifies this
      ensures Valid()
      ensures target == Offset(SnapPage(old(x), velocityX, width), width)
      ensures target == 0.0 || target == -width
      ensures State() == Step(old(State()), End(velocityX), width)
      ensures x == target && startX == old(startX)
    {
      var halfway := Halfway(width);
      target := 0.0;
      if velocityX <= -FlingVelocity {
        target := -width;
      } else if velocityX >= FlingVelocity {
        target := 0.0;
      } else {
        target := if x < halfway then -width else 0.0;
      }
      x := target;
    }

    /** The progress the page dots are driven by. */
    function Progress(): (p: real)
      reads this
      requires width > 0.0
      ensures Valid() ==> 0.0 <= p <= 1.0
      ensures x == -p * width
    {
      ProgressOf(x, width)
    }
  }
}
