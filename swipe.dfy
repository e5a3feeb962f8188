/** The page swipe of the location panel (`setupSwipe`): a pointer pressed on a
    page, dragged sideways and released turns to the neighbouring page of the
    three (photos, details, more) when the drag was long enough. Every decision
    is on the integer horizontal distance dragged; the page index is the
    container's `data-current`, shared with the navigation buttons. */
module Swipe {

  /** The closure variables of one set of swipe handlers. */
  datatype Gesture = Gesture(isDragging: bool, hasMoved: bool, startX: int, currentX: int)

  /** The gesture state and the current page. */
  datatype SwipeState = SwipeState(gesture: Gesture, page: int)

  /** Touch and mouse events reduced to what the handlers read: touchstart and
      mousedown start, touchmove and mousemove move, touchend, mouseup and
      mouseleave end. */
  datatype PointerEvent = Press(x: int) | Drag(x: int) | Release

  const Idle: Gesture := Gesture(false, false, 0, 0)

  /** Below this distance a drag has not started moving. */
  const Deadzone: int := 15
  /** Below this distance a release always snaps back. */
  const SnapDistance: int := 80
  /** A release beyond this distance turns the page. */
  const TurnDistance: int := 100
  /** The last page index. */
  const LastPage: int := 2

  function Abs(n: int): nat { if n < 0 then -n else n }

  function Dx(g: Gesture): int { g.currentX - g.startX }

  /** `handleStart`: a press always starts a fresh drag at `x`. */
  function OnPress(g: Gesture, x: int): (r: Gesture)
    ensures r.isDragging && !r.hasMoved && Dx(r) == 0 && r.startX == x
  {
    Gesture(true, false, x, x)
  }

  /** `handleMove`: while dragging, the pointer position is recorded; the drag
      counts as moving once it is at least the dead zone away from its start. */
  function OnDrag(g: Gesture, x: int): (r: Gesture)
    ensures !g.isDragging ==> r == g
    ensures g.isDragging ==> r.isDragging && r.startX == g.startX && r.currentX == x
    ensures g.isDragging ==> (r.hasMoved <==> g.hasMoved || Abs(x - g.startX) >= Deadzone)
  {
    if !g.isDragging then g
    else
      var moved := g.(currentX := x);
      if Abs(x - g.startX) < Deadzone then moved else moved.(hasMoved := true)
  }

  /** `handleEnd`: the page a release leaves the panel on. */
  function ReleasePage(g: Gesture, page: int): int {
    var diff := Dx(g);
    if !g.hasMoved || Abs(diff) < SnapDistance then page
    else if diff > TurnDistance && page < LastPage then page + 1
    else if diff < -TurnDistance && page > 0 then page - 1
    else page
  }

  /** The state after one pointer event. A release outside a drag is ignored. */
  function Step(s: SwipeState, e: PointerEvent): SwipeState {
    match e
    case Press(x) => s.(gesture := OnPress(s.gesture, x))
    case Drag(x) => s.(gesture := OnDrag(s.gesture, x))
    case Release =>
      if !s.gesture.isDragging then s
      else SwipeState(s.gesture.(isDragging := false), ReleasePage(s.gesture, s.page))
  }

  function Run(s: SwipeState, events: seq<PointerEvent>): SwipeState
    decreases |events|
  {
    if events == [] then s else Run(Step(s, events[0]), events[1..])
  }

  // ------------------------------------------------------------ properties

  /** A release turns the page exactly when the drag moved and ended more than
      100 px to one side with a page on that side; it turns by one page. */
  lemma ReleaseTurnsPage(s: SwipeState)
    ensures var g := s.gesture; var r := Step(s, Release);
      && (r.page != s.page <==>
            g.isDragging && g.hasMoved
            && ((Dx(g) > TurnDistance && s.page < LastPage) || (Dx(g) < -TurnDistance && s.page > 0)))
      && (r.page == s.page + 1 <==> g.isDragging && g.hasMoved && Dx(g) > TurnDistance && s.page < LastPage)
      && (r.page == s.page - 1 <==> g.isDragging && g.hasMoved && Dx(g) < -TurnDistance && s.page > 0)
      && !r.gesture.isDragging
  {
  }

  /** A release between 80 and 100 px snaps back. */
  lemma ShortReleaseSnapsBack(s: SwipeState)
    requires SnapDistance <= Abs(Dx(s.gesture)) <= TurnDistance
    ensures Step(s, Release).page == s.page
  {
  }

  /** Pressing and dragging never turn the page. */
  lemma PressAndDragKeepPage(s: SwipeState, x: int)
    ensures Step(s, Press(x)).page == s.page && Step(s, Drag(x)).page == s.page
  {
  }

  predicate InRange(page: int) { 0 <= page <= LastPage }

  /** Swiping alone keeps the page among the three. */
  lemma {:induction false} RunKeepsPageInRange(s: SwipeState, events: seq<PointerEvent>)
    requires InRange(s.page)
    ensures InRange(Run(s, events).page)
    decreases |events|
  {
    if events != [] {
      RunKeepsPageInRange(Step(s, events[0]), events[1..]);
    }
  }

  predicate AllDrags(events: seq<PointerEvent>) {
    forall i :: 0 <= i < |events| ==> events[i].Drag?
  }

  /** Some drag of the sequence reached the dead zone from `x0`. */
  predicate LeftDeadzone(x0: int, drags: seq<PointerEvent>)
    requires AllDrags(drags)
  {
    exists i :: 0 <= i < |drags| && Abs(drags[i].x - x0) >= Deadzone
  }

  /** During a drag, moves keep the start and the page, record the last
      position, and the drag has moved exactly when some position reached the
      dead zone. */
  lemma {:induction false} DragsDuringGesture(s: SwipeState, drags: seq<PointerEvent>)
    requires s.gesture.isDragging && AllDrags(drags)
    ensures var r := Run(s, drags);
      && r.page == s.page && r.gesture.isDragging && r.gesture.startX == s.gesture.startX
      && r.gesture.currentX == (if drags == [] then s.gesture.currentX else drags[|drags| - 1].x)
      && (r.gesture.hasMoved <==> s.gesture.hasMoved || LeftDeadzone(s.gesture.startX, drags))
    decreases |drags|
  {
    if drags != [] {
      LeftDeadzoneCons(s.gesture.startX, drags);
      DragsDuringGesture(Step(s, drags[0]), drags[1..]);
    }
  }

  /** Reaching the dead zone somewhere in a sequence of drags is reaching it at
      the first drag or somewhere in the rest. */
  lemma LeftDeadzoneCons(x0: int, drags: seq<PointerEvent>)
    requires AllDrags(drags) && drags != []
    ensures AllDrags(drags[1..])
    ensures LeftDeadzone(x0, drags) <==> Abs(drags[0].x - x0) >= Deadzone || LeftDeadzone(x0, drags[1..])
  {
    assert AllDrags(drags[1..]);
    if LeftDeadzone(x0, drags) {
      var i :| 0 <= i < |drags| && Abs(drags[i].x - x0) >= Deadzone;
      if i > 0 {
        assert drags[1..][i - 1] == drags[i];
      }
    }
    if LeftDeadzone(x0, drags[1..]) {
      var i :| 0 <= i < |drags[1..]| && Abs(drags[1..][i].x - x0) >= Deadzone;
      assert drags[i + 1] == drags[1..][i];
    }
  }

  /** One whole gesture (press, drags, release) turns the page by at most one,
      and only if some drag got at least the dead zone away from the press. */
  lemma {:induction false} GestureTurnsAtMostOnePage(s: SwipeState, x: int, drags: seq<PointerEvent>)
    requires AllDrags(drags)
    ensures var r := Run(s, [Press(x)] + drags + [Release]);
      && s.page - 1 <= r.page <= s.page + 1
      && (r.page != s.page ==> LeftDeadzone(x, drags))
      && !r.gesture.isDragging
  {
    var pressed := Step(s, Press(x));
    DragsDuringGesture(pressed, drags);
    RunAppend(s, [Press(x)], drags + [Release]);
    RunAppend(pressed, drags, [Release]);
    assert [Press(x)] + drags + [Release] == [Press(x)] + (drags + [Release]);
  }

  /** Running two sequences of events is running their concatenation. */
  lemma {:induction false} RunAppend(s: SwipeState, a: seq<PointerEvent>, b: seq<PointerEvent>)
    ensures Run(s, a + b) == Run(Run(s, a), b)
    decreases |a|
  {
    if a != [] {
      assert (a + b)[0] == a[0] && (a + b)[1..] == a[1..] + b;
      RunAppend(Step(s, a[0]), a[1..], b);
    } else {
      assert a + b == b;
    }
  }
}
