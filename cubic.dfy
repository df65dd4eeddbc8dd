/**
 * Cubic Bézier segments (src/cubic.rs): two anchors and two control
 * points, and the value-type operations on them.
 */
module Cubics {
  import opened Geometry

  /** The curve's four points in order: anchor0, control0, control1, anchor1. */
  datatype Cubic = Cubic(anchor0: Point, control0: Point, control1: Point, anchor1: Point)
  {
    function Points(): (ps: seq<Point>)
      ensures |ps| == 4 && ps[0] == anchor0 && ps[3] == anchor1
    {
      [anchor0, control0, control1, anchor1]
    }
  }

  /** An axis-aligned box given by its two corners. */
  datatype Aabb = Aabb(min: Point, max: Point)

  /** `Cubic::new`: the points are stored in the order given and read back unchanged. */
  function New(anchor0: Point, control0: Point, control1: Point, anchor1: Point): (c: Cubic)
    ensures c.Points() == [anchor0, control0, control1, anchor1]
  {
    Cubic(anchor0, control0, control1, anchor1)
  }

  /** The same curve traced backwards: the point array in reverse order. */
  function Reversed(c: Cubic): (r: Cubic)
    ensures forall i :: 0 <= i < 4 ==> r.Points()[i] == c.Points()[3 - i]
  {
    Cubic(c.anchor1, c.control1, c.control0, c.anchor0)
  }

  lemma ReversedTwice(c: Cubic)
    ensures Reversed(Reversed(c)) == c
  {
  }

  /** A straight segment: controls at one and two thirds of the way from `start` to `end`. */
  function StraightLine(start: Point, end: Point): (r: Cubic)
    ensures r.anchor0 == start && r.anchor1 == end
    ensures Sub(r.control0, start) == Scale(Sub(end, start), 1.0 / 3.0)
    ensures Sub(r.control1, start) == Scale(Sub(end, start), 2.0 / 3.0)
    ensures InBox(r.control0, start, end) && InBox(r.control1, start, end)
  {
    Cubic(start, Lerp(start, end, 1.0 / 3.0), Lerp(start, end, 2.0 / 3.0), end)
  }

  /** p lies in the axis-aligned box spanned by a and b. */
  ghost predicate InBox(p: Point, a: Point, b: Point)
  {
    Min(a.x, b.x) <= p.x <= Max(a.x, b.x) && Min(a.y, b.y) <= p.y <= Max(a.y, b.y)
  }

  function Min(a: real, b: real): real { if a <= b then a else b }

  function Max(a: real, b: real): real { if a >= b then a else b }

  /** `transformed`: f applied to each of the four points. */
  function Transformed(c: Cubic, f: Transformer): (r: Cubic)
    ensures forall i :: 0 <= i < 4 ==> r.Points()[i] == f(c.Points()[i])
  {
    Cubic(f(c.anchor0), f(c.control0), f(c.control1), f(c.anchor1))
  }

  lemma TransformedByIdentity(c: Cubic)
    ensures Transformed(c, p => p) == c
  {
  }

  /** Both anchor coordinate differences are below DISTANCE_EPSILON. */
  predicate ZeroLength(c: Cubic): (r: bool)
    ensures c.anchor0 == c.anchor1 ==> r
  {
    -DISTANCE_EPSILON < c.anchor0.x - c.anchor1.x < DISTANCE_EPSILON
    && -DISTANCE_EPSILON < c.anchor0.y - c.anchor1.y < DISTANCE_EPSILON
  }

  lemma PointCubicIsZeroLength(p: Point)
    ensures ZeroLength(Cubic(p, p, p, p)) && ZeroLength(StraightLine(p, p))
  {
  }

  /** One coordinate of the Bernstein form at t. */
  function Bezier(p0: real, p1: real, p2: real, p3: real, t: real): real
  {
    var u := 1.0 - t;
    p0 * (u * u * u) + p1 * (3.0 * t * u * u) + p2 * (3.0 * t * t * u) + p3 * (t * t * t)
  }

  /** The point of the curve at parameter t; t = 0 and t = 1 give the anchors. */
  function PointOnCurve(c: Cubic, t: real): (r: Point)
    ensures t == 0.0 ==> r == c.anchor0
    ensures t == 1.0 ==> r == c.anchor1
  {
    Point(Bezier(c.anchor0.x, c.control0.x, c.control1.x, c.anchor1.x, t),
          Bezier(c.anchor0.y, c.control0.y, c.control1.y, c.anchor1.y, t))
  }

  /** De Casteljau subdivision at t, one coordinate: the first half's inner points. */
  function FirstControl0(a0: real, c0: real, t: real): real
  {
    a0 * (1.0 - t) + c0 * t
  }

  function FirstControl1(a0: real, c0: real, c1: real, t: real): real
  {
    var u := 1.0 - t;
    c1 * t * t + a0 * u * u + c0 * (2.0 * u * t)
  }

  function SecondControl0(c0: real, c1: real, a1: real, t: real): real
  {
    var u := 1.0 - t;
    a1 * t * t + c0 * u * u + c1 * (2.0 * u * t)
  }

  function SecondControl1(c1: real, a1: real, t: real): real
  {
    c1 * (1.0 - t) + a1 * t
  }

  /**
   * `split(t)`: the halves before and after t. They start and end at the
   * original anchors and meet at the point of the curve at t; splitting at 0
   * leaves the whole curve as the second half, splitting at 1 as the first.
   */
  function Split(c: Cubic, t: real): (r: (Cubic, Cubic))
    ensures r.0.anchor0 == c.anchor0 && r.1.anchor1 == c.anchor1
    ensures r.0.anchor1 == PointOnCurve(c, t) == r.1.anchor0
    ensures t == 0.0 ==> r.1 == c
    ensures t == 1.0 ==> r.0 == c
  {
    var p := PointOnCurve(c, t);
    var (a0, c0, c1, a1) := (c.anchor0, c.control0, c.control1, c.anchor1);
    (Cubic(a0,
           Point(FirstControl0(a0.x, c0.x, t), FirstControl0(a0.y, c0.y, t)),
           Point(FirstControl1(a0.x, c0.x, c1.x, t), FirstControl1(a0.y, c0.y, c1.y, t)),
           p),
     Cubic(p,
           Point(SecondControl0(c0.x, c1.x, a1.x, t), SecondControl0(c0.y, c1.y, a1.y, t)),
           Point(SecondControl1(c1.x, a1.x, t), SecondControl1(c1.y, a1.y, t)),
           a1))
  }

  /** The first half of a split at t traces the original curve over [0, t]. */
  lemma {:induction false} SplitFirstHalfTraces(c: Cubic, t: real, s: real)
    ensures PointOnCurve(Split(c, t).0, s) == PointOnCurve(c, t * s)
  {
    var h := Split(c, t).0;
    BezierFirstHalf(c.anchor0.x, c.control0.x, c.control1.x, c.anchor1.x, t, s);
    BezierFirstHalf(c.anchor0.y, c.control0.y, c.control1.y, c.anchor1.y, t, s);
  }

  /** The second half of a split at t traces the original curve over [t, 1]. */
  lemma {:induction false} SplitSecondHalfTraces(c: Cubic, t: real, s: real)
    ensures PointOnCurve(Split(c, t).1, s) == PointOnCurve(c, t + (1.0 - t) * s)
  {
    var a, b := 1.0 - t, 1.0 - s;
    SecondHalfAsReversed(c, t, s);
    ReversedFirstHalfTraces(c, a, b);
    ComplementOfProduct(t, s, a, b);
    assert PointOnCurve(c, 1.0 - a * b) == PointOnCurve(c, t + (1.0 - t) * s);
  }

  /** The second half at s is the first half of the reversed curve's split at 1 - s. */
  lemma SecondHalfAsReversed(c: Cubic, t: real, s: real)
    ensures PointOnCurve(Split(c, t).1, s) == PointOnCurve(Split(Reversed(c), 1.0 - t).0, 1.0 - s)
  {
    SecondHalfIsReversedFirst(c, t);
    PointOnReversed(Split(Reversed(c), 1.0 - t).0, s);
  }

  lemma ReversedFirstHalfTraces(c: Cubic, a: real, b: real)
    ensures PointOnCurve(Split(Reversed(c), a).0, b) == PointOnCurve(c, 1.0 - a * b)
  {
    var x := a * b;
    SplitFirstHalfTraces(Reversed(c), a, b);
    assert PointOnCurve(Split(Reversed(c), a).0, b) == PointOnCurve(Reversed(c), x);
    PointOnReversed(c, x);
  }

  lemma ComplementOfProduct(t: real, s: real, a: real, b: real)
    requires a == 1.0 - t && b == 1.0 - s
    ensures 1.0 - a * b == t + (1.0 - t) * s
  {
  }

  /** The reversed curve at t is the curve at 1 - t. */
  lemma PointOnReversed(c: Cubic, t: real)
    ensures PointOnCurve(Reversed(c), t) == PointOnCurve(c, 1.0 - t)
  {
    BezierReversed(c.anchor0.x, c.control0.x, c.control1.x, c.anchor1.x, t);
    BezierReversed(c.anchor0.y, c.control0.y, c.control1.y, c.anchor1.y, t);
  }

  lemma BezierReversed(p0: real, p1: real, p2: real, p3: real, t: real)
    ensures Bezier(p3, p2, p1, p0, t) == Bezier(p0, p1, p2, p3, 1.0 - t)
  {
    var u := 1.0 - t;
    assert 1.0 - u == t;
  }

  /** The second half of a split at t is the first half of the reversed curve's split at 1 - t, reversed. */
  lemma SecondHalfIsReversedFirst(c: Cubic, t: real)
    ensures Split(c, t).1 == Reversed(Split(Reversed(c), 1.0 - t).0)
  {
    var u := 1.0 - t;
    PointOnReversed(c, u);
    assert 1.0 - u == t;
    MirroredControls(c.control0.x, c.control1.x, c.anchor1.x, t);
    MirroredControls(c.control0.y, c.control1.y, c.anchor1.y, t);
  }

  /** The reversed first-half controls at 1 - t are the second-half controls at t. */
  lemma MirroredControls(c0: real, c1: real, a1: real, t: real)
    ensures FirstControl0(a1, c1, 1.0 - t) == SecondControl1(c1, a1, t)
    ensures FirstControl1(a1, c1, c0, 1.0 - t) == SecondControl0(c0, c1, a1, t)
  {
    var u := 1.0 - t;
    assert 1.0 - u == t;
  }

  lemma BezierFirstHalf(p0: real, p1: real, p2: real, p3: real, t: real, s: real)
    ensures Bezier(p0, FirstControl0(p0, p1, t), FirstControl1(p0, p1, p2, t), Bezier(p0, p1, p2, p3, t), s)
         == Bezier(p0, p1, p2, p3, t * s)
  {
    var q1, q2, q3 := FirstControl0(p0, p1, t), FirstControl1(p0, p1, p2, t), Bezier(p0, p1, p2, p3, t);
    var a, b, c := p1 - p0, p2 - 2.0 * p1 + p0, p3 - 3.0 * p2 + 3.0 * p1 - p0;
    var a1, b1, c1 := q1 - p0, q2 - 2.0 * q1 + p0, q3 - 3.0 * q2 + 3.0 * q1 - p0;
    FirstHalfInPowers(p0, p1, p2, p3, t);
    Regrouping(p0, a, b, c, t, s, a1, b1, c1);
    PowerBasis(p0, q1, q2, q3, s);
    PowerBasis(p0, p1, p2, p3, t * s);
  }

  /** The first half's coefficients in powers of s are those of the curve scaled by t, t² and t³. */
  lemma FirstHalfInPowers(p0: real, p1: real, p2: real, p3: real, t: real)
    ensures var q1, q2, q3 := FirstControl0(p0, p1, t), FirstControl1(p0, p1, p2, t), Bezier(p0, p1, p2, p3, t);
      && q1 - p0 == (p1 - p0) * t
      && q2 - 2.0 * q1 + p0 == (p2 - 2.0 * p1 + p0) * (t * t)
      && q3 - 3.0 * q2 + 3.0 * q1 - p0 == (p3 - 3.0 * p2 + 3.0 * p1 - p0) * (t * t * t)
  {
    var q1, q2, q3 := FirstControl0(p0, p1, t), FirstControl1(p0, p1, p2, t), Bezier(p0, p1, p2, p3, t);
    var a, b, c := p1 - p0, p2 - 2.0 * p1 + p0, p3 - 3.0 * p2 + 3.0 * p1 - p0;
    FirstHalfCoefficients(p0, p1, p2, t);
    PowerBasis(p0, p1, p2, p3, t);
    ThirdCoefficient(p0, q1, q2, q3, a * t, b * (t * t), c * (t * t * t));
  }

  /** A cubic polynomial in powers of t: p0 + 3a·t + 3b·t² + c·t³. */
  function Power(p0: real, a: real, b: real, c: real, t: real): real
  {
    p0 + 3.0 * a * t + 3.0 * b * (t * t) + c * (t * t * t)
  }

  /** The Bernstein form rewritten in powers of t. */
  lemma PowerBasis(p0: real, p1: real, p2: real, p3: real, t: real)
    ensures Bezier(p0, p1, p2, p3, t) == Power(p0, p1 - p0, p2 - 2.0 * p1 + p0, p3 - 3.0 * p2 + 3.0 * p1 - p0, t)
  {
  }

  lemma FirstHalfCoefficients(p0: real, p1: real, p2: real, t: real)
    ensures FirstControl0(p0, p1, t) - p0 == (p1 - p0) * t
    ensures FirstControl1(p0, p1, p2, t) - 2.0 * FirstControl0(p0, p1, t) + p0 == (p2 - 2.0 * p1 + p0) * (t * t)
  {
  }

  lemma ThirdCoefficient(p0: real, q1: real, q2: real, q3: real, at: real, bt: real, ct: real)
    requires q1 - p0 == at && q2 - 2.0 * q1 + p0 == bt
    requires q3 == Power(p0, at, bt, ct, 1.0)
    ensures q3 - 3.0 * q2 + 3.0 * q1 - p0 == ct
  {
  }

  lemma Regrouping(p0: real, a: real, b: real, c: real, t: real, s: real, a1: real, b1: real, c1: real)
    requires a1 == a * t && b1 == b * (t * t) && c1 == c * (t * t * t)
    ensures Power(p0, a1, b1, c1, s) == Power(p0, a, b, c, t * s)
  {
  }

  /** `+`: pointwise sum of the four points. */
  function Plus(a: Cubic, b: Cubic): (r: Cubic)
    ensures forall i :: 0 <= i < 4 ==> r.Points()[i] == Add(a.Points()[i], b.Points()[i])
  {
    Cubic(Add(a.anchor0, b.anchor0), Add(a.control0, b.control0), Add(a.control1, b.control1), Add(a.anchor1, b.anchor1))
  }

  /** `*`: every point scaled by k. */
  function Times(c: Cubic, k: real): (r: Cubic)
    ensures forall i :: 0 <= i < 4 ==> r.Points()[i] == Scale(c.Points()[i], k)
    ensures k == 1.0 ==> r == c
  {
    Cubic(Scale(c.anchor0, k), Scale(c.control0, k), Scale(c.control1, k), Scale(c.anchor1, k))
  }

  /** `/`: every point divided by k. */
  function Over(c: Cubic, k: real): (r: Cubic)
    requires k != 0.0
    ensures forall i :: 0 <= i < 4 ==> r.Points()[i] == Div(c.Points()[i], k)
    ensures k == 1.0 ==> r == c
  {
    Cubic(Div(c.anchor0, k), Div(c.control0, k), Div(c.control1, k), Div(c.anchor1, k))
  }

  /** Dividing by k undoes multiplying by k. */
  lemma TimesThenOver(c: Cubic, k: real)
    requires k != 0.0
    ensures Over(Times(c, k), k) == c
  {
    ScaleThenDivide(c.anchor0, k);
    ScaleThenDivide(c.control0, k);
    ScaleThenDivide(c.control1, k);
    ScaleThenDivide(c.anchor1, k);
  }

  lemma ScaleThenDivide(p: Point, k: real)
    requires k != 0.0
    ensures Div(Scale(p, k), k) == p
  {
    assert p.x * k / k == p.x;
    assert p.y * k / k == p.y;
  }

  /**
   * The approximate `aabb`: the box of all four points, or the single
   * anchor0 point when the cubic has zero length.
   */
  function ApproxAabb(c: Cubic): (b: Aabb)
    ensures ZeroLength(c) ==> b.min == c.anchor0 == b.max
    ensures !ZeroLength(c) ==> forall i :: 0 <= i < 4 ==> b.min.x <= c.Points()[i].x <= b.max.x && b.min.y <= c.Points()[i].y <= b.max.y
    ensures !ZeroLength(c) ==> b.min.x in {c.anchor0.x, c.control0.x, c.control1.x, c.anchor1.x}
    ensures !ZeroLength(c) ==> b.max.x in {c.anchor0.x, c.control0.x, c.control1.x, c.anchor1.x}
    ensures !ZeroLength(c) ==> b.min.y in {c.anchor0.y, c.control0.y, c.control1.y, c.anchor1.y}
    ensures !ZeroLength(c) ==> b.max.y in {c.anchor0.y, c.control0.y, c.control1.y, c.anchor1.y}
  {
    if ZeroLength(c) then Aabb(c.anchor0, c.anchor0)
    else
      var lo := Point(Min(c.anchor0.x, c.anchor1.x), Min(c.anchor0.y, c.anchor1.y));
      var hi := Point(Max(c.anchor0.x, c.anchor1.x), Max(c.anchor0.y, c.anchor1.y));
      var clo := Point(Min(c.control0.x, c.control1.x), Min(c.control0.y, c.control1.y));
      var chi := Point(Max(c.control0.x, c.control1.x), Max(c.control0.y, c.control1.y));
      Aabb(Point(Min(lo.x, clo.x), Min(lo.y, clo.y)), Point(Max(hi.x, chi.x), Max(hi.y, chi.y)))
  }
}
