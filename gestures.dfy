/**
 * The component as an event-driven machine: every input event the host delivers is
 * one Event, Step applies the matching handler, and Run applies a whole sequence.
 * The lemmas state what holds in every state the handlers can reach.
 */
module Gestures {
  import opened Geometry
  import opened ViewModel

  /**
   * One input event with everything the handler reads from it. `factor` stands for the
   * `Math.exp` scale factor, `distance` for `getTouchDistance`, `rect` for the bounding
   * rectangle of the event's current target, and `container` for the rectangle found by
   * the document query (absent when the query finds no element).
   */
  datatype Event =
    | WheelEvent(deltaX: real, deltaY: real, clientX: real, clientY: real, ctrlKey: bool,
                 factor: real, rect: Rect)
    | MousedownEvent(button: int, clientX: real, clientY: real, overDesksOrRooms: bool)
    | MousemoveEvent(clientX: real, clientY: real, rect: Rect)
    | MouseupEvent(container: Option<Rect>)
    | TouchStartEvent(touches: seq<Point>, distance: real, rect: Rect)
    | TouchMoveEvent(touches: seq<Point>, distance: real, factor: real, rect: Rect)
    | TouchEndEvent(container: Option<Rect>)

  /** The handler the host binds to each event. */
  function Step(s: ViewState, e: Event): (r: ViewState)
    requires ScaleBounded(s)
    ensures ScaleBounded(r)
  {
    match e
    case WheelEvent(dx, dy, cx, cy, ctrl, f, rect) => Wheel(s, dx, dy, cx, cy, ctrl, f, rect)
    case MousedownEvent(button, cx, cy, over) => Mousedown(s, button, cx, cy, over)
    case MousemoveEvent(cx, cy, rect) => Mousemove(s, cx, cy, rect)
    case MouseupEvent(container) => Mouseup(s, container)
    case TouchStartEvent(touches, d, rect) => TouchStart(s, touches, d, rect)
    case TouchMoveEvent(touches, d, f, rect) => TouchMove(s, touches, d, f, rect)
    case TouchEndEvent(container) => TouchEnd(s, container)
  }

  /** The handlers applied to a sequence of events in arrival order; every state on the way keeps the scale bound. */
  function Run(s: ViewState, events: seq<Event>): (r: ViewState)
    requires ScaleBounded(s)
    ensures ScaleBounded(r)
    decreases |events|
  {
    if events == [] then s else Run(Step(s, events[0]), events[1..])
  }

  /** The rectangle an event clamps against, if it clamps at all. */
  function ClampRect(e: Event): Option<Rect>
  {
    match e
    case WheelEvent(_, _, _, _, _, _, rect) => Some(rect)
    case MousedownEvent(_, _, _, _) => None
    case MousemoveEvent(_, _, rect) => Some(rect)
    case MouseupEvent(container) => container
    case TouchStartEvent(_, _, _) => None
    case TouchMoveEvent(_, _, _, rect) => Some(rect)
    case TouchEndEvent(container) => container
  }

  /** The event is delivered while the viewport has rectangle b (or clamps against nothing). */
  predicate InViewport(e: Event, b: Rect)
  {
    ClampRect(e).None? || ClampRect(e) == Some(b)
  }

  /** Every event either leaves the view where it was or leaves it contained in the rectangle it clamps against. */
  lemma StepContainedOrStill(s: ViewState, e: Event)
    requires ScaleBounded(s)
    ensures var r := Step(s, e);
            SameView(r, s) || (ClampRect(e).Some? && Contained(r, ClampRect(e).value))
  {
  }

  /** While the viewport keeps one rectangle, a contained state stays contained through any event. */
  lemma StepKeepsContained(s: ViewState, e: Event, b: Rect)
    requires ScaleBounded(s) && Contained(s, b) && InViewport(e, b)
    ensures Contained(Step(s, e), b)
  {
    StepContainedOrStill(s, e);
  }

  /** The containment invariant over whole gesture sequences on an unchanging viewport. */
  lemma {:induction false} RunKeepsContained(s: ViewState, events: seq<Event>, b: Rect)
    requires ScaleBounded(s) && Contained(s, b)
    requires forall i :: 0 <= i < |events| ==> InViewport(events[i], b)
    ensures Contained(Run(s, events), b)
    decreases |events|
  {
    if events != [] {
      StepKeepsContained(s, events[0], b);
      RunKeepsContained(Step(s, events[0]), events[1..], b);
    }
  }

  /** Every state reachable from the settled initial state keeps the scale bound and, on a fixed viewport, containment. */
  lemma ReachableStates(container: Rect, events: seq<Event>)
    requires forall i :: 0 <= i < |events| ==> InViewport(events[i], container)
    ensures ScaleBounded(Run(Settle(Some(container)), events))
    ensures Contained(Run(Settle(Some(container)), events), container)
  {
    RunKeepsContained(Settle(Some(container)), events, container);
  }

  /**
   * Pan and pinch flags are not exclusive: a two-finger touch followed by a left-button
   * press outside DESKS/ROOMS leaves both set.
   */
  lemma PanAndPinchCanBothBeActive()
    ensures var rect := Rect(0.0, 0.0, 463.0, 700.0);
            var s := Run(Initial, [TouchStartEvent([Point(10.0, 10.0), Point(40.0, 50.0)], 50.0, rect),
                                   MousedownEvent(0, 20.0, 20.0, false)]);
            s.isPanning && s.isPinching
  {
    var rect := Rect(0.0, 0.0, 463.0, 700.0);
    var e0 := TouchStartEvent([Point(10.0, 10.0), Point(40.0, 50.0)], 50.0, rect);
    var e1 := MousedownEvent(0, 20.0, 20.0, false);
    var s1 := Step(Initial, e0);
    assert s1.isPinching;
    assert [e0, e1][1..] == [e1];
    assert Run(Initial, [e0, e1]) == Run(s1, [e1]);
    assert Run(s1, [e1]) == Run(Step(s1, e1), []);
  }

  /** A touch end always brings the gesture state back to rest, whatever came before. */
  lemma TouchEndRestores(s: ViewState, events: seq<Event>, container: Option<Rect>)
    requires ScaleBounded(s)
    ensures var r := Run(s, events + [TouchEndEvent(container)]);
            !r.isPanning && !r.isPinching && r.lastTouchDistance == 0.0
  {
    RunAppend(s, events, [TouchEndEvent(container)]);
  }

  /** Running two sequences one after the other is running their concatenation. */
  lemma {:induction false} RunAppend(s: ViewState, xs: seq<Event>, ys: seq<Event>)
    requires ScaleBounded(s)
    ensures Run(s, xs + ys) == Run(Run(s, xs), ys)
    decreases |xs|
  {
    if xs == [] {
      assert xs + ys == ys;
    } else {
      assert (xs + ys)[0] == xs[0];
      assert (xs + ys)[1..] == xs[1..] + ys;
      RunAppend(Step(s, xs[0]), xs[1..], ys);
    }
  }
}
