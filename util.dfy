/**
 * Arithmetic on progress values, which live on the circle [0, 1)
 * (src/util.rs), and the float remainders the other files use.
 */
module Util {

  /**
   * Whether `progress` lies on the arc that runs forward from `from` to `to`,
   * both ends included; when `to < from` the arc wraps past 1 back to 0.
   */
  predicate ProgressInRange(progress: real, from: real, to: real): (r: bool)
    ensures from == to ==> (r <==> progress == from)
    ensures to < from ==> (r <==> !(to < progress < from))
  {
    if to >= from then from <= progress <= to else progress >= from || progress <= to
  }

  /** The position before i in a cycle of n: `(i + n - 1) % n`. */
  function PrevIndex(n: nat, i: nat): (j: nat)
    requires i < n
    ensures j < n
  {
    if i == 0 then n - 1 else i - 1
  }

  /** The position after i in a cycle of n, `(i + 1) % n`; the one before it is i again. */
  function NextIndex(n: nat, i: nat): (j: nat)
    requires i < n
    ensures j < n
    ensures PrevIndex(n, j) == i
  {
    if i == n - 1 then 0 else i + 1
  }

  /** Both ends of an arc belong to it, whichever way it runs. */
  lemma EndpointsInRange(from: real, to: real)
    ensures ProgressInRange(from, from, to) && ProgressInRange(to, from, to)
  {
  }

  function Abs(x: real): (r: real)
    ensures r >= 0.0 && (r == x || r == -x)
  {
    if x >= 0.0 then x else -x
  }

  /** The distance between two progress values going the shorter way round. */
  function ProgressDistance(p1: real, p2: real): (r: real)
    ensures r <= 0.5
    ensures p1 == p2 ==> r == 0.0
    ensures r == Abs(p1 - p2) || r == 1.0 - Abs(p1 - p2)
    ensures Abs(p1 - p2) <= 1.0 ==> r >= 0.0
  {
    var value := Abs(p1 - p2);
    if value <= 1.0 - value then value else 1.0 - value
  }

  lemma ProgressDistanceSymmetric(p1: real, p2: real)
    ensures ProgressDistance(p1, p2) == ProgressDistance(p2, p1)
  {
  }

  /** For progress values in [0, 1) the distance lies in [0, 0.5]. */
  lemma ProgressDistanceBounds(p1: real, p2: real)
    requires 0.0 <= p1 < 1.0 && 0.0 <= p2 < 1.0
    ensures 0.0 <= ProgressDistance(p1, p2) <= 0.5
  {
  }

  /** Largest integer not above x. */
  function Floor(x: real): (r: int)
    ensures r as real <= x < r as real + 1.0
  {
    x.Floor
  }

  /**
   * `positive_modulo(x, 1.0)`: x wrapped into [0, 1); it differs from x by
   * a whole number.
   */
  function PositiveModulo(x: real): (r: real)
    ensures 0.0 <= r < 1.0
    ensures (x - r).Floor as real == x - r
    ensures 0.0 <= x < 1.0 ==> r == x
  {
    x - Floor(x) as real
  }

  /** Whole numbers wrap to 0. */
  lemma PositiveModuloOfShift(x: real, k: int)
    ensures PositiveModulo(x + k as real) == PositiveModulo(x)
  {
    assert Floor(x + k as real) == Floor(x) + k;
  }

  /** Integer part rounded toward zero. */
  function Trunc(x: real): (r: int)
    ensures x >= 0.0 ==> 0 <= r && r as real <= x < r as real + 1.0
    ensures x < 0.0 ==> r <= 0 && r as real - 1.0 < x <= r as real
  {
    if x >= 0.0 then Floor(x) else -Floor(-x)
  }

  /** Fractional part rounded toward zero: in (-1, 1), with the sign of x. */
  function TruncFraction(x: real): (r: real)
    ensures -1.0 < r < 1.0
    ensures x >= 0.0 ==> 0.0 <= r
    ensures x <= 0.0 ==> r <= 0.0
    ensures 0.0 <= x < 1.0 ==> r == x
  {
    x - Trunc(x) as real
  }

  /**
   * Rust's `%` on floats for a positive divisor, `a - b * trunc(a / b)`:
   * the remainder takes the sign of the dividend and is smaller than the
   * divisor in magnitude.
   */
  function FloatRem(a: real, b: real): (r: real)
    requires b > 0.0
    ensures -b < r < b
    ensures a >= 0.0 ==> r >= 0.0
    ensures a <= 0.0 ==> r <= 0.0
    ensures 0.0 <= a < b ==> r == a
  {
    QuotientSign(a, b);
    ScaledFraction(b, a / b, TruncFraction(a / b))
  }

  /** `b * d` for a fraction d of magnitude below 1, with the sign of d. */
  function ScaledFraction(b: real, q: real, d: real): (r: real)
    requires b > 0.0 && -1.0 < d < 1.0
    ensures -b < r < b
    ensures d >= 0.0 ==> r >= 0.0
    ensures d <= 0.0 ==> r <= 0.0
    ensures d == q ==> r == b * q
  {
    ScaleBelowOne(b, d);
    b * d
  }

  lemma QuotientSign(a: real, b: real)
    requires b > 0.0
    ensures a >= 0.0 ==> a / b >= 0.0
    ensures a <= 0.0 ==> a / b <= 0.0
    ensures a < b ==> a / b < 1.0
    ensures b * (a / b) == a
  {
    if a < b && a / b >= 1.0 {
      ScaleAtLeastOne(b, a / b);
    }
  }

  lemma ScaleAtLeastOne(b: real, f: real)
    requires b > 0.0 && f >= 1.0
    ensures b * f >= b
  {
  }

  lemma ScaleBelowOne(b: real, d: real)
    requires b > 0.0 && -1.0 < d < 1.0
    ensures -b < b * d < b
    ensures d >= 0.0 ==> b * d >= 0.0
    ensures d <= 0.0 ==> b * d <= 0.0
  {
  }

  /** Between one and two, the remainder by 1 takes one off. */
  lemma FloatRemWrapsOnce(a: real)
    requires 1.0 <= a < 2.0
    ensures FloatRem(a, 1.0) == a - 1.0
  {
    assert a / 1.0 == a;
    assert Trunc(a) == 1;
  }
}
