/**
 * The map component itself: its private view state as mutable fields and its gesture
 * handlers as methods that update those fields step by step. Every handler is proved
 * to leave exactly the state the matching ViewModel function describes.
 */
module MapView {
  import opened Geometry
  import opened ViewModel

  class MapComponent {
    var currentScale: real
    var currentTranslateX: real
    var currentTranslateY: real
    var isPanning: bool
    var isPinching: bool
    // Set when a press lands on a DESKS/ROOMS element; nothing clears it.
    var isOverInteractive: bool
    var startPanX: real
    var startPanY: real
    var lastTouchDistance: real
    // Map point under the midpoint of the last two-finger touch start.
    var centerSVG: Point

    /** The fields as one value. */
    function State(): ViewState
      reads this
    {
      ViewState(currentScale, currentTranslateX, currentTranslateY, isPanning, isPinching,
                isOverInteractive, startPanX, startPanY, lastTouchDistance, centerSVG)
    }

    /** The object invariant: the scale stays within [0.8, 10]. */
    ghost predicate Valid()
      reads this
    {
      ScaleBounded(State())
    }

    constructor ()
      ensures Valid() && State() == Initial
    {
      currentScale := 1.0;
      currentTranslateX := 0.0;
      currentTranslateY := 0.0;
      isPanning := false;
      isPinching := false;
      isOverInteractive := false;
      startPanX := 0.0;
      startPanY := 0.0;
      lastTouchDistance := 0.0;
      centerSVG := Point(0.0, 0.0);
    }

    /** Initial positioning once the view exists: clamp against the container's rectangle. */
    method NgAfterViewInit(container: Option<Rect>)
      requires Valid()
      modifies this
      ensures Valid() && State() == Clamp(old(State()), container)
      ensures container.Some? ==> Contained(State(), container.value)
    {
      ClampTranslation(container);
    }

    /** Keep the map covering the viewport, or centred on an axis where it fits. */
    method ClampTranslation(rect: Option<Rect>)
      modifies this
      ensures State() == Clamp(old(State()), rect)
      ensures rect.Some? ==> Contained(State(), rect.value)
      ensures currentScale == old(currentScale)
    {
      if rect.None? {
        return;
      }
      var b := rect.value;
      var limits := BoundaryLimits(currentScale, b);
      if MapWidth * currentScale > b.width {
        currentTranslateX := Min(Max(currentTranslateX, limits.minX), limits.maxX);
      } else {
        currentTranslateX := limits.minX / 2.0;
      }
      if MapHeight * currentScale > b.height {
        currentTranslateY := Min(Max(currentTranslateY, limits.minY), limits.maxY);
      } else {
        currentTranslateY := limits.minY / 2.0;
      }
    }

    /** Wheel: zoom about the cursor while ctrl is held, pan otherwise. */
    method OnWheel(deltaX: real, deltaY: real, clientX: real, clientY: real, ctrlKey: bool,
                   scaleFactor: real, rect: Rect)
      requires Valid()
      requires ctrlKey ==> IsExpOf(scaleFactor, -deltaY * WheelZoomRate)
      modifies this
      ensures Valid() && Contained(State(), rect)
      ensures State() == Wheel(old(State()), deltaX, deltaY, clientX, clientY, ctrlKey, scaleFactor, rect)
    {
      var oldScale := currentScale;
      if ctrlKey {
        var newScale := oldScale * scaleFactor;
        newScale := Max(MinScale, Min(newScale, MaxScale));
        var svgX := (clientX - rect.left) / oldScale - currentTranslateX;
        var svgY := (clientY - rect.top) / oldScale - currentTranslateY;
        currentTranslateX := (clientX - rect.left) / newScale - svgX;
        currentTranslateY := (clientY - rect.top) / newScale - svgY;
        currentScale := newScale;
        assert State() == ZoomAt(old(State()), scaleFactor, clientX, clientY, rect);
        ClampTranslation(Some(rect));
        return;
      }
      var panX := deltaX * PanSensitivity;
      var panY := deltaY * PanSensitivity;
      currentTranslateX := currentTranslateX - panX / currentScale;
      currentTranslateY := currentTranslateY - panY / currentScale;
      assert State() == WheelPanTarget(old(State()), deltaX, deltaY);
      ClampTranslation(Some(rect));
    }

    /** Left-button press: start a pan unless it lands on a DESKS/ROOMS element. */
    method OnMousedown(button: int, clientX: real, clientY: real, overDesksOrRooms: bool)
      requires Valid()
      modifies this
      ensures Valid()
      ensures State() == Mousedown(old(State()), button, clientX, clientY, overDesksOrRooms)
    {
      if button != 0 {
        return;
      }
      if overDesksOrRooms {
        isOverInteractive := true;
        return;
      }
      isPanning := true;
      startPanX := clientX;
      startPanY := clientY;
    }

    /** Pointer move: drag the map while a pan is active. */
    method OnMousemove(clientX: real, clientY: real, rect: Rect)
      requires Valid()
      modifies this
      ensures Valid()
      ensures State() == Mousemove(old(State()), clientX, clientY, rect)
      ensures old(isPanning) ==> Contained(State(), rect)
    {
      if !isPanning {
        return;
      }
      var deltaX := clientX - startPanX;
      var deltaY := clientY - startPanY;
      currentTranslateX := currentTranslateX + deltaX;
      currentTranslateY := currentTranslateY + deltaY;
      startPanX := clientX;
      startPanY := clientY;
      ClampTranslation(Some(rect));
    }

    /** Button release anywhere in the document: end an active pan and re-clamp. */
    method OnMouseup(container: Option<Rect>)
      requires Valid()
      modifies this
      ensures Valid() && !isPanning
      ensures State() == Mouseup(old(State()), container)
    {
      if isPanning {
        isPanning := false;
        ClampTranslation(container);
      }
    }

    /** Touch start: one contact starts a pan, two start a pinch. */
    method OnTouchStart(touches: seq<Point>, distance: real, rect: Rect)
      requires Valid()
      requires |touches| == 2 ==> IsTouchDistance(distance, touches[0], touches[1])
      modifies this
      ensures Valid()
      ensures State() == TouchStart(old(State()), touches, distance, rect)
    {
      if |touches| == 1 {
        isPanning := true;
        startPanX := touches[0].x;
        startPanY := touches[0].y;
      } else if |touches| == 2 {
        isPinching := true;
        lastTouchDistance := distance;
        isPanning := false;
        var centerX := (touches[0].x + touches[1].x) / 2.0;
        var centerY := (touches[0].y + touches[1].y) / 2.0;
        centerSVG := Point((centerX - rect.left) / currentScale - currentTranslateX,
                           (centerY - rect.top) / currentScale - currentTranslateY);
      }
    }

    /** Touch move: pinch with two contacts while pinching, pan with one while panning. */
    method OnTouchMove(touches: seq<Point>, distance: real, scaleFactor: real, rect: Rect)
      requires Valid()
      requires |touches| == 2 ==> IsTouchDistance(distance, touches[0], touches[1])
      requires |touches| == 2 ==> IsExpOf(scaleFactor, (distance - lastTouchDistance) * PinchZoomRate)
      modifies this
      ensures Valid()
      ensures State() == TouchMove(old(State()), touches, distance, scaleFactor, rect)
    {
      if isPinching && |touches| == 2 {
        HandlePinch(touches[0], touches[1], distance, scaleFactor, rect);
      } else if isPanning && |touches| == 1 {
        HandleTouchPan(touches[0], rect);
      }
    }

    /** Touch end: clear both gestures and the pinch distance, then re-clamp. */
    method OnTouchEnd(container: Option<Rect>)
      requires Valid()
      modifies this
      ensures Valid() && !isPanning && !isPinching && lastTouchDistance == 0.0
      ensures State() == TouchEnd(old(State()), container)
    {
      isPanning := false;
      isPinching := false;
      lastTouchDistance := 0.0;
      ClampTranslation(container);
    }

    /** One-finger drag step. */
    method HandleTouchPan(touch: Point, rect: Rect)
      requires Valid()
      modifies this
      ensures Valid() && Contained(State(), rect)
      ensures State() == PanTo(old(State()), touch.x, touch.y, rect)
    {
      var deltaX := touch.x - startPanX;
      var deltaY := touch.y - startPanY;
      currentTranslateX := currentTranslateX + deltaX;
      currentTranslateY := currentTranslateY + deltaY;
      startPanX := touch.x;
      startPanY := touch.y;
      ClampTranslation(Some(rect));
    }

    /** Two-finger zoom step about the midpoint of the contacts. */
    method HandlePinch(t0: Point, t1: Point, currentDistance: real, scaleFactor: real, rect: Rect)
      requires Valid()
      requires IsTouchDistance(currentDistance, t0, t1)
      requires IsExpOf(scaleFactor, (currentDistance - lastTouchDistance) * PinchZoomRate)
      modifies this
      ensures Valid() && Contained(State(), rect) && lastTouchDistance == currentDistance
      ensures State() == Pinch(old(State()), t0, t1, currentDistance, scaleFactor, rect)
    {
      var oldScale := currentScale;
      var newScale := oldScale * scaleFactor;
      newScale := Max(MinScale, Min(newScale, MaxScale));
      var centerX := (t0.x + t1.x) / 2.0;
      var centerY := (t0.y + t1.y) / 2.0;
      var svgX := (centerX - rect.left) / oldScale - currentTranslateX;
      var svgY := (centerY - rect.top) / oldScale - currentTranslateY;
      currentTranslateX := (centerX - rect.left) / newScale - svgX;
      currentTranslateY := (centerY - rect.top) / newScale - svgY;
      currentScale := newScale;
      lastTouchDistance := currentDistance;
      assert Midpoint(t0, t1) == Point(centerX, centerY);
      assert State() == ZoomAt(old(State()), scaleFactor, centerX, centerY, rect).(lastTouchDistance := currentDistance);
      ClampTranslation(Some(rect));
    }
  }
}
