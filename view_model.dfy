/**
 * The view state of the map component as a value, and one function per gesture
 * handler giving the state the handler leaves behind. These functions are the
 * specification the imperative handlers of MapView.MapComponent are proved against;
 * the lemmas here state what the handlers promise.
 */
module ViewModel {
  import opened Geometry

  /** The component's private view state. */
  datatype ViewState = ViewState(
    scale: real,
    translateX: real,
    translateY: real,
    isPanning: bool,
    isPinching: bool,
    isOverInteractive: bool,
    startPanX: real,
    startPanY: real,
    lastTouchDistance: real,
    centerSVG: Point)

  /** The state the component is constructed with. */
  const Initial: ViewState :=
    ViewState(InitialScale, 0.0, 0.0, false, false, false, 0.0, 0.0, 0.0, Point(0.0, 0.0))

  /** The state invariant: the scale lies in [0.8, 10]. */
  predicate ScaleBounded(s: ViewState) { ScaleInRange(s.scale) }

  /** The containment rule on both axes for the map at the state's scale inside rect. */
  predicate Contained(s: ViewState, rect: Rect)
  {
    AxisContained(s.translateX, MapWidth * s.scale, rect.width) &&
    AxisContained(s.translateY, MapHeight * s.scale, rect.height)
  }

  /** Neither the scale nor the translation differs: the map does not move on screen. */
  predicate SameView(r: ViewState, s: ViewState)
  {
    r.scale == s.scale && r.translateX == s.translateX && r.translateY == s.translateY
  }

  /** The gesture bookkeeping (flags, pan anchor, pinch distance and centre) is unchanged. */
  predicate SameGesture(r: ViewState, s: ViewState)
  {
    r.isPanning == s.isPanning && r.isPinching == s.isPinching &&
    r.isOverInteractive == s.isOverInteractive &&
    r.startPanX == s.startPanX && r.startPanY == s.startPanY &&
    r.lastTouchDistance == s.lastTouchDistance && r.centerSVG == s.centerSVG
  }

  // ---------------------------------------------------------------------------
  // Boundary clamping

  /**
   * `clampTranslation`: with no container rectangle nothing happens; otherwise each
   * axis is clamped into the admissible range, or centred when the map fits.
   */
  function Clamp(s: ViewState, rect: Option<Rect>): (r: ViewState)
    ensures rect.None? ==> r == s
    ensures rect.Some? ==> Contained(r, rect.value)
    ensures r == s.(translateX := r.translateX, translateY := r.translateY)
    ensures rect.Some? && Contained(s, rect.value) ==> r == s
  {
    match rect
    case None => s
    case Some(b) =>
      var limits := BoundaryLimits(s.scale, b);
      s.(translateX :=
           if MapWidth * s.scale > b.width then Min(Max(s.translateX, limits.minX), limits.maxX)
           else limits.minX / 2.0,
         translateY :=
           if MapHeight * s.scale > b.height then Min(Max(s.translateY, limits.minY), limits.maxY)
           else limits.minY / 2.0)
  }

  /**
   * The clamp moves a translation no further than it must: no admissible translation
   * on an axis is closer to the old one than the clamped translation is.
   */
  lemma ClampNearest(s: ViewState, b: Rect)
    ensures var r := Clamp(s, Some(b));
            var cw := MapWidth * s.scale;
            forall t {:trigger AxisContained(t, cw, b.width)} ::
              AxisContained(t, cw, b.width) ==> Abs(r.translateX - s.translateX) <= Abs(t - s.translateX)
    ensures var r := Clamp(s, Some(b));
            var ch := MapHeight * s.scale;
            forall t {:trigger AxisContained(t, ch, b.height)} ::
              AxisContained(t, ch, b.height) ==> Abs(r.translateY - s.translateY) <= Abs(t - s.translateY)
  {
  }

  /** Clamping twice with the same rectangle is the same as clamping once. */
  lemma ClampIdempotent(s: ViewState, rect: Option<Rect>)
    ensures Clamp(Clamp(s, rect), rect) == Clamp(s, rect)
  {
  }

  /** A translation that is already admissible on an axis is left alone there. */
  lemma ClampKeepsAdmissibleAxis(s: ViewState, b: Rect)
    ensures AxisContained(s.translateX, MapWidth * s.scale, b.width) ==>
              Clamp(s, Some(b)).translateX == s.translateX
    ensures AxisContained(s.translateY, MapHeight * s.scale, b.height) ==>
              Clamp(s, Some(b)).translateY == s.translateY
  {
  }

  /** The component's settle step after its view is created: clamp the initial state once. */
  function Settle(rect: Option<Rect>): (r: ViewState)
    ensures rect.Some? ==> Contained(r, rect.value)
    ensures r.scale == InitialScale && SameGesture(r, Initial)
  {
    Clamp(Initial, rect)
  }

  /** The sanity case: a 463 x 700 viewport centres the map horizontally and leaves it at the top. */
  lemma SettleExample()
    ensures Settle(Some(Rect(0.0, 0.0, 463.0, 700.0))).translateX == 0.0
    ensures Settle(Some(Rect(0.0, 0.0, 463.0, 700.0))).translateY == 0.0
  {
  }

  // ---------------------------------------------------------------------------
  // Zoom about an anchor point

  /**
   * The unclamped zoom step shared by the wheel and the pinch: scale by factor within
   * [0.8, 10], then translate so that the map point under (x, y) stays there.
   */
  function ZoomAt(s: ViewState, factor: real, x: real, y: real, rect: Rect): (r: ViewState)
    requires ScaleBounded(s)
    ensures ScaleBounded(r) && r.scale == ClampScale(s.scale * factor)
    ensures ToContent(x, rect.left, r.scale, r.translateX) == ToContent(x, rect.left, s.scale, s.translateX)
    ensures ToContent(y, rect.top, r.scale, r.translateY) == ToContent(y, rect.top, s.scale, s.translateY)
    ensures SameGesture(r, s)
  {
    var newScale := ClampScale(s.scale * factor);
    var svgX := ToContent(x, rect.left, s.scale, s.translateX);
    var svgY := ToContent(y, rect.top, s.scale, s.translateY);
    s.(translateX := (x - rect.left) / newScale - svgX,
       translateY := (y - rect.top) / newScale - svgY,
       scale := newScale)
  }

  /**
   * After the zoom step, the code's own svgX formula (`ToContent`) at the new scale and
   * translation recovers the map point it computed under (x, y) before the step.
   */
  lemma ZoomKeepsSvgPointUnderAnchor(s: ViewState, factor: real, x: real, y: real, rect: Rect)
    requires ScaleBounded(s)
    ensures var r := ZoomAt(s, factor, x, y, rect);
            ToScreen(ToContent(x, rect.left, s.scale, s.translateX), rect.left, r.scale, r.translateX) == x &&
            ToScreen(ToContent(y, rect.top, s.scale, s.translateY), rect.top, r.scale, r.translateY) == y
  {
    var r := ZoomAt(s, factor, x, y, rect);
    ScreenContentRoundTrip(x, rect.left, r.scale, r.translateX);
    ScreenContentRoundTrip(y, rect.top, r.scale, r.translateY);
  }

  /**
   * Under the emitted `translate(t) scale(s)` reading (`DrawnAt`) the zoom step does not
   * keep its anchor: zooming the initial view to scale 2 about any screen x moves the map
   * point drawn at x before the step to 1.5 x.
   */
  lemma ZoomAnchorMovesWhenDrawn(s: ViewState, x: real, y: real, rect: Rect)
    requires s.scale == 1.0 && s.translateX == 0.0 && rect.left == 0.0
    ensures var r := ZoomAt(s, 2.0, x, y, rect);
            DrawnAt(x, 0.0, s.scale, s.translateX) == x &&
            DrawnAt(x, 0.0, r.scale, r.translateX) == 1.5 * x
  {
    assert ClampScale(1.0 * 2.0) == 2.0;
  }

  /**
   * Under the zoom code's reading (`ToScreen`) the clamp admits a view of nothing: at
   * scale 2 in a 463 x 700 viewport a contained state draws the map's far corner at the
   * viewport's origin, the whole map off-screen.
   */
  lemma ContainedYetOffScreen()
    ensures var s := Initial.(scale := 2.0, translateX := -463.0, translateY := -1355.0);
            Contained(s, Rect(0.0, 0.0, 463.0, 700.0)) &&
            ToScreen(MapWidth, 0.0, s.scale, s.translateX) == 0.0 &&
            ToScreen(MapHeight, 0.0, s.scale, s.translateY) == 0.0
  {
  }

  // ---------------------------------------------------------------------------
  // Wheel

  /** `onWheel`: with ctrl held, zoom about the cursor; otherwise pan by the deltas. */
  function Wheel(s: ViewState, deltaX: real, deltaY: real, clientX: real, clientY: real,
                 ctrlKey: bool, factor: real, rect: Rect): (r: ViewState)
    requires ScaleBounded(s)
    ensures ScaleBounded(r) && Contained(r, rect) && SameGesture(r, s)
    ensures ctrlKey ==> r.scale == ClampScale(s.scale * factor)
    ensures !ctrlKey ==> r.scale == s.scale
  {
    if ctrlKey then
      Clamp(ZoomAt(s, factor, clientX, clientY, rect), Some(rect))
    else
      Clamp(WheelPanTarget(s, deltaX, deltaY), Some(rect))
  }

  /** The unclamped wheel pan: the deltas, times the sensitivity, in map units. */
  function WheelPanTarget(s: ViewState, deltaX: real, deltaY: real): ViewState
    requires ScaleBounded(s)
  {
    s.(translateX := s.translateX - deltaX * PanSensitivity / s.scale,
       translateY := s.translateY - deltaY * PanSensitivity / s.scale)
  }

  /** A wheel pan that stays admissible moves the map by exactly twice the deltas over the scale. */
  lemma WheelPanExact(s: ViewState, deltaX: real, deltaY: real, clientX: real, clientY: real,
                      factor: real, rect: Rect)
    requires ScaleBounded(s)
    requires Contained(WheelPanTarget(s, deltaX, deltaY), rect)
    ensures var r := Wheel(s, deltaX, deltaY, clientX, clientY, false, factor, rect);
            r.translateX == s.translateX - 2.0 * deltaX / s.scale &&
            r.translateY == s.translateY - 2.0 * deltaY / s.scale
  {
  }

  /** Wheel zoom direction: scrolling up never zooms out, scrolling down never zooms in. */
  lemma WheelZoomDirection(s: ViewState, deltaX: real, deltaY: real, clientX: real, clientY: real,
                           factor: real, rect: Rect)
    requires ScaleBounded(s)
    requires IsExpOf(factor, -deltaY * WheelZoomRate)
    ensures var r := Wheel(s, deltaX, deltaY, clientX, clientY, true, factor, rect);
            (deltaY < 0.0 ==> r.scale >= s.scale) &&
            (deltaY > 0.0 ==> r.scale <= s.scale) &&
            (deltaY == 0.0 ==> r.scale == s.scale)
  {
    ClampedZoomDirection(s.scale, factor);
  }

  // ---------------------------------------------------------------------------
  // Mouse

  /**
   * `onMousedown`: only the left button counts; over a DESKS/ROOMS element it marks the
   * pointer as over an interactive element instead of starting a pan.
   */
  function Mousedown(s: ViewState, button: int, clientX: real, clientY: real,
                     overDesksOrRooms: bool): (r: ViewState)
    ensures SameView(r, s)
    ensures button != 0 ==> r == s
    ensures r.isPanning <==> s.isPanning || (button == 0 && !overDesksOrRooms)
    ensures r.isOverInteractive <==> s.isOverInteractive || (button == 0 && overDesksOrRooms)
    ensures r.isPinching == s.isPinching && r.lastTouchDistance == s.lastTouchDistance
    ensures button == 0 && !overDesksOrRooms ==> r.startPanX == clientX && r.startPanY == clientY
    ensures button != 0 || overDesksOrRooms ==> r.startPanX == s.startPanX && r.startPanY == s.startPanY
    ensures r.centerSVG == s.centerSVG
  {
    if button != 0 then s
    else if overDesksOrRooms then s.(isOverInteractive := true)
    else s.(isPanning := true, startPanX := clientX, startPanY := clientY)
  }

  /** One drag step: add the pointer's displacement since the anchor, then move the anchor to the pointer. */
  function Drag(s: ViewState, x: real, y: real): ViewState
  {
    s.(translateX := s.translateX + (x - s.startPanX),
       translateY := s.translateY + (y - s.startPanY),
       startPanX := x, startPanY := y)
  }

  /** Incremental dragging does not drift: two drag steps are one step to the final position. */
  lemma DragComposes(s: ViewState, x1: real, y1: real, x2: real, y2: real)
    ensures Drag(Drag(s, x1, y1), x2, y2) == Drag(s, x2, y2)
  {
  }

  /** The pan step shared by `onMousemove` and `handleTouchPan`: drag, then clamp. */
  function PanTo(s: ViewState, x: real, y: real, rect: Rect): (r: ViewState)
    ensures Contained(r, rect) && r.scale == s.scale
    ensures r.startPanX == x && r.startPanY == y
    ensures r.isPanning == s.isPanning && r.isPinching == s.isPinching
    ensures r.isOverInteractive == s.isOverInteractive && r.lastTouchDistance == s.lastTouchDistance
    ensures r.centerSVG == s.centerSVG
    ensures Contained(Drag(s, x, y), rect) ==>
              r.translateX == s.translateX + (x - s.startPanX) &&
              r.translateY == s.translateY + (y - s.startPanY)
  {
    Clamp(Drag(s, x, y), Some(rect))
  }

  /** `onMousemove`: pans only while a pan is active. */
  function Mousemove(s: ViewState, clientX: real, clientY: real, rect: Rect): (r: ViewState)
    ensures !s.isPanning ==> r == s
    ensures s.isPanning ==> r == PanTo(s, clientX, clientY, rect)
  {
    if !s.isPanning then s else PanTo(s, clientX, clientY, rect)
  }

  /** `onMouseup` (on the whole document): ends an active pan and re-clamps; otherwise does nothing. */
  function Mouseup(s: ViewState, container: Option<Rect>): (r: ViewState)
    ensures !s.isPanning ==> r == s
    ensures !r.isPanning
    ensures r.scale == s.scale && r.isPinching == s.isPinching
    ensures r.startPanX == s.startPanX && r.startPanY == s.startPanY
    ensures r.lastTouchDistance == s.lastTouchDistance
    ensures r.isOverInteractive == s.isOverInteractive && r.centerSVG == s.centerSVG
    ensures s.isPanning && container.Some? ==> Contained(r, container.value)
    ensures container.None? ==> SameView(r, s)
  {
    if s.isPanning then Clamp(s.(isPanning := false), container) else s
  }

  // ---------------------------------------------------------------------------
  // Touch

  /**
   * `onTouchStart`: one contact starts a pan at it; two contacts start a pinch, cancel
   * the pan, record their distance and the map point under their midpoint; any other
   * count changes nothing. The view itself never moves here.
   */
  function TouchStart(s: ViewState, touches: seq<Point>, distance: real, rect: Rect): (r: ViewState)
    requires ScaleBounded(s)
    ensures SameView(r, s) && r.isOverInteractive == s.isOverInteractive
    ensures |touches| != 1 && |touches| != 2 ==> r == s
    ensures |touches| == 1 ==>
              r.isPanning && r.isPinching == s.isPinching &&
              r.startPanX == touches[0].x && r.startPanY == touches[0].y &&
              r.lastTouchDistance == s.lastTouchDistance && r.centerSVG == s.centerSVG
    ensures |touches| == 2 ==>
              r.isPinching && !r.isPanning && r.lastTouchDistance == distance &&
              r.startPanX == s.startPanX && r.startPanY == s.startPanY &&
              var c := Midpoint(touches[0], touches[1]);
              ToScreen(r.centerSVG.x, rect.left, s.scale, s.translateX) == c.x &&
              ToScreen(r.centerSVG.y, rect.top, s.scale, s.translateY) == c.y
  {
    if |touches| == 1 then
      s.(isPanning := true, startPanX := touches[0].x, startPanY := touches[0].y)
    else if |touches| == 2 then
      var c := Midpoint(touches[0], touches[1]);
      ScreenContentRoundTrip(c.x, rect.left, s.scale, s.translateX);
      ScreenContentRoundTrip(c.y, rect.top, s.scale, s.translateY);
      s.(isPinching := true, lastTouchDistance := distance, isPanning := false,
         centerSVG := Point(ToContent(c.x, rect.left, s.scale, s.translateX),
                            ToContent(c.y, rect.top, s.scale, s.translateY)))
    else
      s
  }

  /**
   * `handlePinch`: zoom about the midpoint of the two contacts by the factor derived
   * from the change in their distance, remember the new distance, and clamp.
   */
  function Pinch(s: ViewState, t0: Point, t1: Point, distance: real, factor: real, rect: Rect): (r: ViewState)
    requires ScaleBounded(s)
    ensures ScaleBounded(r) && r.scale == ClampScale(s.scale * factor)
    ensures Contained(r, rect) && r.lastTouchDistance == distance
    ensures r.isPanning == s.isPanning && r.isPinching == s.isPinching
    ensures r.isOverInteractive == s.isOverInteractive
    ensures r.startPanX == s.startPanX && r.startPanY == s.startPanY && r.centerSVG == s.centerSVG
  {
    var c := Midpoint(t0, t1);
    Clamp(ZoomAt(s, factor, c.x, c.y, rect).(lastTouchDistance := distance), Some(rect))
  }

  /** Pinch direction: spreading the fingers never zooms out, bringing them together never zooms in. */
  lemma PinchDirection(s: ViewState, t0: Point, t1: Point, distance: real, factor: real, rect: Rect)
    requires ScaleBounded(s)
    requires IsExpOf(factor, (distance - s.lastTouchDistance) * PinchZoomRate)
    ensures var r := Pinch(s, t0, t1, distance, factor, rect);
            (distance > s.lastTouchDistance ==> r.scale >= s.scale) &&
            (distance < s.lastTouchDistance ==> r.scale <= s.scale) &&
            (distance == s.lastTouchDistance ==> r.scale == s.scale)
  {
    var r := Pinch(s, t0, t1, distance, factor, rect);
    assert r.scale == ClampScale(s.scale * factor);
    ClampedZoomDirection(s.scale, factor);
  }

  /** `onTouchMove`: pinch if pinching with two contacts, else pan if panning with one, else nothing. */
  function TouchMove(s: ViewState, touches: seq<Point>, distance: real, factor: real, rect: Rect): (r: ViewState)
    requires ScaleBounded(s)
    ensures ScaleBounded(r)
    ensures s.isPinching && |touches| == 2 ==> r == Pinch(s, touches[0], touches[1], distance, factor, rect)
    ensures !(s.isPinching && |touches| == 2) && s.isPanning && |touches| == 1 ==>
              r == PanTo(s, touches[0].x, touches[0].y, rect)
    ensures !(s.isPinching && |touches| == 2) && !(s.isPanning && |touches| == 1) ==> r == s
  {
    if s.isPinching && |touches| == 2 then Pinch(s, touches[0], touches[1], distance, factor, rect)
    else if s.isPanning && |touches| == 1 then PanTo(s, touches[0].x, touches[0].y, rect)
    else s
  }

  /** `onTouchEnd`: always clears both gestures and the pinch distance, then re-clamps. */
  function TouchEnd(s: ViewState, container: Option<Rect>): (r: ViewState)
    ensures !r.isPanning && !r.isPinching && r.lastTouchDistance == 0.0
    ensures r.scale == s.scale && r.isOverInteractive == s.isOverInteractive
    ensures r.startPanX == s.startPanX && r.startPanY == s.startPanY && r.centerSVG == s.centerSVG
    ensures container.Some? ==> Contained(r, container.value)
    ensures container.None? ==> SameView(r, s)
  {
    Clamp(s.(isPanning := false, isPinching := false, lastTouchDistance := 0.0), container)
  }

  /** Ending a touch gesture twice is the same as ending it once. */
  lemma TouchEndIdempotent(s: ViewState, container: Option<Rect>)
    ensures TouchEnd(TouchEnd(s, container), container) == TouchEnd(s, container)
  {
    ClampIdempotent(s.(isPanning := false, isPinching := false, lastTouchDistance := 0.0), container);
  }
}
