/**
 * Points, vectors and the few geometric predicates of src/geometry.rs.
 * Coordinates are reals; a vector is represented by the same type as a point.
 */
module Geometry {
  import opened Wrappers

  /** Distances below this are treated as zero. */
  const DISTANCE_EPSILON: real := 0.0001
  /** Progress differences below this are treated as zero when matching. */
  const ANGLE_EPSILON: real := 0.000001

  datatype Point = Point(x: real, y: real)

  /**
   * The Euclidean length of a vector (`hypot`, `length()`), left unspecified
   * apart from being non-negative; the geometry that needs square roots is
   * given this function as a parameter.
   */
  type Length = f: Point -> real | forall v :: f(v) >= 0.0 witness (v: Point) => 0.0

  /** A point mapping, as applied by `transformed`. */
  type Transformer = Point -> Point

  function Add(a: Point, b: Point): Point { Point(a.x + b.x, a.y + b.y) }

  function Sub(a: Point, b: Point): Point { Point(a.x - b.x, a.y - b.y) }

  function Scale(a: Point, k: real): Point { Point(a.x * k, a.y * k) }

  function Div(a: Point, k: real): Point
    requires k != 0.0
  {
    Point(a.x / k, a.y / k)
  }

  /** Linear interpolation `a * (1 - t) + b * t`. */
  function Lerp(a: Point, b: Point, t: real): (r: Point)
    ensures t == 0.0 ==> r == a
    ensures t == 1.0 ==> r == b
    ensures a == b ==> r == a
  {
    Point((1.0 - t) * a.x + t * b.x, (1.0 - t) * a.y + t * b.y)
  }

  function Dot(a: Point, b: Point): real { a.x * b.x + a.y * b.y }

  /** The z component of the cross product of two vectors. */
  function Cross(a: Point, b: Point): real { a.x * b.y - a.y * b.x }

  /** The vector turned a quarter turn counter-clockwise: perpendicular to it and of the same length. */
  function Rotate90(p: Point): (r: Point)
    ensures Dot(r, p) == 0.0
    ensures Dot(r, r) == Dot(p, p)
    ensures Cross(p, r) == Dot(p, p)
  {
    Point(-p.y, p.x)
  }

  lemma Rotate90FourTimes(p: Point)
    ensures Rotate90(Rotate90(Rotate90(Rotate90(p)))) == p
    ensures Rotate90(Rotate90(p)) == Scale(p, -1.0)
  {
  }

  /**
   * `prev.is_convex(current, next)`: the turn at `current` is strictly
   * counter-clockwise.
   */
  predicate IsConvex(prev: Point, current: Point, next: Point): (r: bool)
    ensures r ==> prev != current && current != next
  {
    Cross(Sub(current, prev), Sub(next, current)) > 0.0
  }

  /** Three collinear points never form a convex corner. */
  lemma CollinearIsNotConvex(prev: Point, current: Point, k: real)
    ensures !IsConvex(prev, current, Add(current, Scale(Sub(current, prev), k)))
  {
    var a := Sub(current, prev);
    var b := Sub(Add(current, Scale(a, k)), current);
    assert b == Scale(a, k);
    assert Cross(a, b) == k * (a.x * a.y) - k * (a.y * a.x);
  }

  /** Walking the same three points in the opposite direction flips convexity. */
  lemma {:induction false} ConvexityFlipsWithWinding(a: Point, b: Point, c: Point)
    ensures Cross(Sub(b, a), Sub(c, b)) == -Cross(Sub(b, c), Sub(a, b))
    ensures IsConvex(a, b, c) ==> !IsConvex(c, b, a)
  {
    var u := Sub(b, a);
    var v := Sub(c, b);
    assert Sub(b, c) == Scale(v, -1.0);
    assert Sub(a, b) == Scale(u, -1.0);
    assert Cross(Scale(v, -1.0), Scale(u, -1.0)) == v.x * u.y - v.y * u.x;
  }

  /**
   * `get_direction`: the unit vector of `v`; the source asserts that the
   * length is positive, so a zero-length vector yields None.
   */
  function GetDirection(v: Point, len: Length): (r: Option<Point>)
    ensures r.Some? <==> len(v) > 0.0
    ensures r.Some? ==> Scale(r.value, len(v)) == v
  {
    var d := len(v);
    if d > 0.0 then Some(Div(v, d)) else None
  }
}
