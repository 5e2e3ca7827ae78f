/**
 * Plain geometry of the map viewport: the fixed map size, the viewport rectangle,
 * the scale bound, the admissible translation range on each axis, the mapping
 * between screen and map coordinates, and the two transcendental helpers of the
 * component (Math.exp and Math.sqrt) reduced to the facts the component relies on.
 */
module Geometry {

  datatype Option<T> = None | Some(value: T)

  /** A position in client (screen) coordinates, e.g. one touch contact. */
  datatype Point = Point(x: real, y: real)

  /** The bounding client rectangle of the map container. */
  datatype Rect = Rect(left: real, top: real, width: real, height: real)

  /** The admissible translation range on both axes. */
  datatype Limits = Limits(minX: real, maxX: real, minY: real, maxY: real)

  // Size of the map drawing, in map units.
  const MapWidth: real := 463.0
  const MapHeight: real := 1355.0

  // Slack allowed past the map's near edges; the component never changes it.
  const BorderMargin: real := 0.0

  const InitialScale: real := 1.0
  const MinScale: real := 0.8
  const MaxScale: real := 10.0

  // Tuning constants: exponent per wheel unit, exponent per pixel of pinch travel,
  // and the multiplier applied to wheel deltas when the wheel pans.
  const WheelZoomRate: real := 0.005
  const PinchZoomRate: real := 0.004
  const PanSensitivity: real := 2.0

  function Min(a: real, b: real): real { if a <= b then a else b }

  function Max(a: real, b: real): real { if a >= b then a else b }

  function Abs(a: real): real { if a >= 0.0 then a else -a }

  predicate ScaleInRange(s: real) { MinScale <= s <= MaxScale }

  /** `Math.max(0.8, Math.min(s, 10))`: the projection of a candidate scale onto the bound. */
  function ClampScale(s: real): (r: real)
    ensures ScaleInRange(r)
    ensures ScaleInRange(s) ==> r == s
    ensures s < MinScale ==> r == MinScale
    ensures s > MaxScale ==> r == MaxScale
  {
    Max(MinScale, Min(s, MaxScale))
  }

  /**
   * What the model keeps of `f == Math.exp(x)`: f is positive, above 1 exactly when
   * x is positive and below 1 exactly when x is negative.
   */
  predicate IsExpOf(f: real, x: real)
  {
    f > 0.0 && (x > 0.0 <==> f > 1.0) && (x < 0.0 <==> f < 1.0)
  }

  lemma ProductNonNegative(a: real, b: real)
    requires a >= 0.0 && b >= 0.0
    ensures a * b >= 0.0
  {
  }

  lemma SumOfSquaresFacts(u: real, v: real)
    ensures u * u + v * v >= 0.0
    ensures u == 0.0 && v == 0.0 ==> u * u + v * v == 0.0
  {
  }

  /** A zoom by a factor of at least 1 never shrinks a bounded scale, one of at most 1 never grows it. */
  lemma ClampedZoomDirection(s: real, f: real)
    requires ScaleInRange(s) && f > 0.0
    ensures f >= 1.0 ==> ClampScale(s * f) >= s
    ensures f <= 1.0 ==> ClampScale(s * f) <= s
    ensures f == 1.0 ==> ClampScale(s * f) == s
  {
    if f >= 1.0 {
      assert s * f - s == s * (f - 1.0);
      ProductNonNegative(s, f - 1.0);
    }
    if f <= 1.0 {
      assert s - s * f == s * (1.0 - f);
      ProductNonNegative(s, 1.0 - f);
    }
  }

  /**
   * The range of translations `getBoundaryLimits` admits at a given scale: at the
   * lower limit the map's far edge lies on the viewport's far edge; the upper
   * limit puts its near edge on the viewport's near edge, plus the margin.
   */
  function BoundaryLimits(scale: real, rect: Rect): (l: Limits)
    ensures l.minX + MapWidth * scale == rect.width
    ensures l.minY + MapHeight * scale == rect.height
    ensures l.maxX == BorderMargin && l.maxY == BorderMargin
    ensures MapWidth * scale > rect.width ==> l.minX < l.maxX
    ensures MapHeight * scale > rect.height ==> l.minY < l.maxY
  {
    var scaledMapWidth := MapWidth * scale - rect.width;
    var scaledMapHeight := MapHeight * scale - rect.height;
    Limits(-scaledMapWidth, 0.0 + BorderMargin, -scaledMapHeight, 0.0 + BorderMargin)
  }

  /**
   * The containment rule on one axis, for a translation t, a scaled map extent and
   * a viewport extent: a map larger than the viewport keeps its far edge at or past
   * the viewport's far edge and its near edge at or before the viewport's near edge
   * (plus the margin); a map that fits is centred exactly.
   */
  predicate AxisContained(t: real, content: real, view: real)
  {
    if content > view then view - content <= t <= BorderMargin
    else t == (view - content) / 2.0
  }

  /** A centred axis leaves the same gap before the map as after it. */
  lemma CentredMeansEqualGaps(t: real, content: real, view: real)
    requires content <= view
    ensures AxisContained(t, content, view) <==> t - 0.0 == view - (t + content)
  {
  }

  /**
   * The map coordinate the component computes under a screen coordinate
   * (`(client - rect.left) / scale - translate`, the `svgX` of the zoom handlers).
   */
  function ToContent(screen: real, origin: real, scale: real, t: real): real
    requires scale != 0.0
  {
    (screen - origin) / scale - t
  }

  /** The screen coordinate at which that convention draws map coordinate p. */
  function ToScreen(p: real, origin: real, scale: real, t: real): real
  {
    origin + scale * (p + t)
  }

  /**
   * Where the transform string the component emits, `translate(t) scale(s)`, places map
   * coordinate p: the translation in screen pixels, added after scaling. The clamp and
   * the drag read the translation this way; the zoom code reads it as `ToScreen` does.
   */
  function DrawnAt(p: real, origin: real, scale: real, t: real): real
  {
    origin + t + scale * p
  }

  /** Screen to map and back is the identity. */
  lemma ScreenContentRoundTrip(screen: real, origin: real, scale: real, t: real)
    requires scale != 0.0
    ensures ToScreen(ToContent(screen, origin, scale, t), origin, scale, t) == screen
  {
  }

  /** Map to screen and back is the identity. */
  lemma ContentScreenRoundTrip(p: real, origin: real, scale: real, t: real)
    requires scale != 0.0
    ensures ToContent(ToScreen(p, origin, scale, t), origin, scale, t) == p
  {
  }

  /** The midpoint of two touch contacts, the centre of a pinch. */
  function Midpoint(a: Point, b: Point): (m: Point)
    ensures m.x - a.x == b.x - m.x && m.y - a.y == b.y - m.y
  {
    Point((a.x + b.x) / 2.0, (a.y + b.y) / 2.0)
  }

  /** The squared distance between two touch contacts (the argument of `Math.sqrt`). */
  function SquaredDistance(a: Point, b: Point): (r: real)
    ensures r >= 0.0
    ensures a == b ==> r == 0.0
  {
    SumOfSquaresFacts(a.x - b.x, a.y - b.y);
    (a.x - b.x) * (a.x - b.x) + (a.y - b.y) * (a.y - b.y)
  }

  /** What the model keeps of `getTouchDistance`: d is the non-negative square root of the squared distance. */
  predicate IsTouchDistance(d: real, a: Point, b: Point)
  {
    d >= 0.0 && d * d == SquaredDistance(a, b)
  }

  lemma ProductPositive(a: real, b: real)
    requires a > 0.0 && b > 0.0
    ensures a * b > 0.0
  {
  }

  /** Squaring is strictly increasing on the non-negative reals. */
  lemma SquareStrictlyIncreasing(x: real, y: real)
    requires 0.0 <= x < y
    ensures x * x < y * y
  {
    assert y * y - x * x == (y - x) * (y + x);
    ProductPositive(y - x, y + x);
  }

  /** The touch distance is determined by the two contacts. */
  lemma TouchDistanceUnique(d1: real, d2: real, a: Point, b: Point)
    requires IsTouchDistance(d1, a, b) && IsTouchDistance(d2, a, b)
    ensures d1 == d2
  {
    var sq := SquaredDistance(a, b);
    assert d1 * d1 == sq && d2 * d2 == sq;
    if d1 < d2 {
      SquareStrictlyIncreasing(d1, d2);
      assert false;
    } else if d2 < d1 {
      SquareStrictlyIncreasing(d2, d1);
      assert false;
    }
  }

  /** Coinciding contacts are at distance zero. */
  lemma TouchDistanceZero(d: real, a: Point, b: Point)
    requires IsTouchDistance(d, a, b)
    requires a == b
    ensures d == 0.0
  {
    assert IsTouchDistance(0.0, a, a);
    TouchDistanceUnique(d, 0.0, a, b);
  }
}
