/**
 * The piecewise-linear map between two circular progress lists
 * (src/mapper.rs).
 */
module Mapper {
  import opened Wrappers
  import opened Geometry
  import opened Util

  /** Whether the list steps down at position i, coming from its cyclic predecessor. */
  predicate DropsAt(p: seq<real>, i: nat)
    requires i < |p|
  {
    p[i] < p[PrevIndex(|p|, i)]
  }

  /** The number of positions below i where the list steps down. */
  function Drops(p: seq<real>, i: nat): nat
    requires i <= |p|
  {
    if i == 0 then 0 else Drops(p, i - 1) + (if DropsAt(p, i - 1) then 1 else 0)
  }

  /**
   * What `validate_progress` accepts: every value in [0, 1), every value
   * more than DISTANCE_EPSILON from its cyclic predecessor, and at most one
   * step down when the list is read starting from its last element.
   */
  predicate ValidProgress(p: seq<real>)
  {
    (forall i :: 0 <= i < |p| ==> 0.0 <= p[i] < 1.0)
    && (forall i :: 0 <= i < |p| ==> ProgressDistance(p[i], p[PrevIndex(|p|, i)]) > DISTANCE_EPSILON)
    && Drops(p, |p|) <= 1
  }

  /** `validate_progress`: returns false exactly where the source panics. */
  method ValidateProgress(p: seq<real>) returns (ok: bool)
    ensures ok == ValidProgress(p)
  {
    var prev := if |p| == 0 then 0.0 else p[|p| - 1];
    var wraps := 0;
    for i := 0 to |p|
      invariant wraps == Drops(p, i) <= 1
      invariant i < |p| ==> prev == p[PrevIndex(|p|, i)]
      invariant forall j :: 0 <= j < i ==> 0.0 <= p[j] < 1.0
      invariant forall j :: 0 <= j < i ==> ProgressDistance(p[j], p[PrevIndex(|p|, j)]) > DISTANCE_EPSILON
    {
      var curr := p[i];
      if !(0.0 <= curr < 1.0) {
        return false;
      }
      if !(ProgressDistance(curr, prev) > DISTANCE_EPSILON) {
        return false;
      }
      if curr < prev {
        wraps := wraps + 1;
        if wraps > 1 {
          DropsGrow(p, i + 1, |p|);
          return false;
        }
      }
      prev := curr;
    }
    return true;
  }

  lemma {:induction false} DropsGrow(p: seq<real>, i: nat, j: nat)
    requires i <= j <= |p|
    ensures Drops(p, i) <= Drops(p, j)
    decreases j - i
  {
    if i < j {
      DropsGrow(p, i, j - 1);
    }
  }

  /** `p` read from position k on, then from 0 up to k. */
  function Rotate(p: seq<real>, k: nat): (q: seq<real>)
    requires k <= |p|
    ensures |q| == |p|
    ensures forall m :: 0 <= m < |p| - k ==> q[m] == p[k + m]
    ensures forall m :: |p| - k <= m < |p| ==> q[m] == p[m - (|p| - k)]
  {
    p[k..] + p[..k]
  }

  predicate StrictlyIncreasing(q: seq<real>)
  {
    forall m :: 0 < m < |q| ==> q[m - 1] < q[m]
  }

  /** Values in [0, 1) whose cyclic neighbours are more than DISTANCE_EPSILON apart. */
  predicate Separated(p: seq<real>)
  {
    (forall i :: 0 <= i < |p| ==> 0.0 <= p[i] < 1.0)
    && (forall i :: 0 <= i < |p| ==> ProgressDistance(p[i], p[PrevIndex(|p|, i)]) > DISTANCE_EPSILON)
  }

  /**
   * The accepted lists are exactly the separated lists that are a rotation
   * of a strictly increasing list; none of them has a single element.
   */
  lemma {:induction false} ValidProgressIsRotatedIncreasing(p: seq<real>)
    ensures ValidProgress(p) <==> Separated(p) && (|p| == 0 || exists k :: 0 <= k < |p| && StrictlyIncreasing(Rotate(p, k)))
    ensures ValidProgress(p) ==> |p| != 1
  {
    if |p| == 0 {
      return;
    }
    if ValidProgress(p) {
      var k := ValidHasOneDrop(p);
      RotationAtDropIncreases(p, k);
    }
    if Separated(p) && exists k :: 0 <= k < |p| && StrictlyIncreasing(Rotate(p, k)) {
      var k :| 0 <= k < |p| && StrictlyIncreasing(Rotate(p, k));
      forall j | 0 <= j < |p| && j != k
        ensures !DropsAt(p, j)
      {
        IncreasingRotationRises(p, k, j);
      }
      AtMostOneDrop(p, k, |p|);
    }
    if ValidProgress(p) {
      assert ProgressDistance(p[0], p[PrevIndex(|p|, 0)]) > DISTANCE_EPSILON;
    }
  }

  /** In a valid non-empty list exactly one position steps down. */
  lemma ValidHasOneDrop(p: seq<real>) returns (k: nat)
    requires ValidProgress(p) && |p| > 0
    ensures k < |p| && DropsAt(p, k)
    ensures forall j :: 0 <= j < |p| && j != k ==> p[PrevIndex(|p|, j)] < p[j]
  {
    forall j | 0 <= j < |p|
      ensures p[j] != p[PrevIndex(|p|, j)]
    {
      assert ProgressDistance(p[j], p[PrevIndex(|p|, j)]) > DISTANCE_EPSILON;
    }
    if forall j :: 0 <= j < |p| ==> !DropsAt(p, j) {
      assert p[|p| - 1] < p[0] by {
        assert !DropsAt(p, 0) && p[0] != p[PrevIndex(|p|, 0)];
      }
      RisingChain(p, |p| - 1);
      assert false;
    }
    k :| 0 <= k < |p| && DropsAt(p, k);
    forall j | 0 <= j < |p| && j != k
      ensures p[PrevIndex(|p|, j)] < p[j]
    {
      if DropsAt(p, j) {
        TwoDrops(p, j, k, |p|);
      }
    }
  }

  lemma {:induction false} RisingChain(p: seq<real>, i: nat)
    requires i < |p|
    requires forall j :: 0 <= j < |p| ==> !DropsAt(p, j)
    ensures p[0] <= p[i]
  {
    if i > 0 {
      RisingChain(p, i - 1);
      assert !DropsAt(p, i);
    }
  }

  lemma {:induction false} TwoDrops(p: seq<real>, j: nat, k: nat, i: nat)
    requires j < i && k < i && i <= |p| && j != k
    requires DropsAt(p, j) && DropsAt(p, k)
    ensures Drops(p, i) >= 2
  {
    if j == i - 1 || k == i - 1 {
      OneDrop(p, if j == i - 1 then k else j, i - 1);
    } else {
      TwoDrops(p, j, k, i - 1);
    }
  }

  lemma {:induction false} OneDrop(p: seq<real>, j: nat, i: nat)
    requires j < i <= |p| && DropsAt(p, j)
    ensures Drops(p, i) >= 1
  {
    if j != i - 1 {
      OneDrop(p, j, i - 1);
    }
  }

  lemma {:induction false} AtMostOneDrop(p: seq<real>, k: nat, i: nat)
    requires i <= |p|
    requires forall j :: 0 <= j < |p| && j != k ==> !DropsAt(p, j)
    ensures Drops(p, i) <= (if k < i then 1 else 0)
  {
    if i > 0 {
      AtMostOneDrop(p, k, i - 1);
    }
  }

  lemma RotationAtDropIncreases(p: seq<real>, k: nat)
    requires k < |p|
    requires forall j :: 0 <= j < |p| && j != k ==> p[PrevIndex(|p|, j)] < p[j]
    ensures StrictlyIncreasing(Rotate(p, k))
  {
    var q, n := Rotate(p, k), |p|;
    forall m | 0 < m < n
      ensures q[m - 1] < q[m]
    {
      if m < n - k {
        assert p[PrevIndex(n, k + m)] < p[k + m];
      } else if m == n - k {
        assert p[PrevIndex(n, 0)] < p[0];
      } else {
        assert p[PrevIndex(n, m - (n - k))] < p[m - (n - k)];
      }
    }
  }

  lemma IncreasingRotationRises(p: seq<real>, k: nat, j: nat)
    requires k < |p| && j < |p| && j != k
    requires StrictlyIncreasing(Rotate(p, k))
    ensures p[PrevIndex(|p|, j)] < p[j]
  {
    var q, n := Rotate(p, k), |p|;
    if j > k {
      assert q[j - k - 1] < q[j - k];
    } else if j == 0 {
      assert q[n - k - 1] < q[n - k];
    } else {
      assert q[j + n - k - 1] < q[j + n - k];
    }
  }

  /** The two progress lists of a `DoubleMapper`, source and target. */
  datatype DoubleMapper = DoubleMapper(sourceValues: seq<real>, targetValues: seq<real>)
  {
    ghost predicate Valid()
    {
      |sourceValues| == |targetValues| && ValidProgress(sourceValues) && ValidProgress(targetValues)
    }

    /** The mapper read back as (source, target) pairs. */
    function Pairs(): (r: seq<(real, real)>)
      requires |sourceValues| == |targetValues|
      ensures |r| == |sourceValues|
    {
      seq(|sourceValues|, i requires 0 <= i < |sourceValues| => (sourceValues[i], targetValues[i]))
    }
  }

  function Firsts(pairs: seq<(real, real)>): (r: seq<real>)
    ensures |r| == |pairs| && forall i :: 0 <= i < |pairs| ==> r[i] == pairs[i].0
  {
    seq(|pairs|, i requires 0 <= i < |pairs| => pairs[i].0)
  }

  function Seconds(pairs: seq<(real, real)>): (r: seq<real>)
    ensures |r| == |pairs| && forall i :: 0 <= i < |pairs| ==> r[i] == pairs[i].1
  {
    seq(|pairs|, i requires 0 <= i < |pairs| => pairs[i].1)
  }

  /**
   * `DoubleMapper::new`: unzips the pairs and validates both lists; None
   * where the source panics. The mapper gives back the pairs it was built from.
   */
  function New(pairs: seq<(real, real)>): (r: Option<DoubleMapper>)
    ensures r.Some? <==> ValidProgress(Firsts(pairs)) && ValidProgress(Seconds(pairs))
    ensures r.Some? ==> r.value.Valid() && r.value.Pairs() == pairs
  {
    var m := DoubleMapper(Firsts(pairs), Seconds(pairs));
    if ValidProgress(m.sourceValues) && ValidProgress(m.targetValues) then Some(m) else None
  }

  const IdentityPairs: seq<(real, real)> := [(0.0, 0.0), (0.5, 0.5)]

  /** `DoubleMapper::identity`: the mapper built from (0, 0) and (0.5, 0.5). */
  function Identity(): (m: DoubleMapper)
    ensures New(IdentityPairs) == Some(m)
  {
    assert Firsts(IdentityPairs) == Seconds(IdentityPairs) == [0.0, 0.5];
    assert Drops([0.0, 0.5], 2) == 1;
    DoubleMapper([0.0, 0.5], [0.0, 0.5])
  }

  /** Whether x lies on the arc from xs[it] to the next breakpoint. */
  predicate InSegment(xs: seq<real>, x: real, it: nat)
    requires it < |xs|
  {
    ProgressInRange(x, xs[it], xs[(it + 1) % |xs|])
  }

  /** The first segment index at or after i containing x, or 0 if none does. */
  function FirstSegmentFrom(xs: seq<real>, x: real, i: nat): (s: nat)
    requires 0 < |xs| && i <= |xs|
    ensures s < |xs|
    ensures (exists it :: i <= it < |xs| && InSegment(xs, x, it)) ==>
              i <= s && InSegment(xs, x, s) && forall j :: i <= j < s ==> !InSegment(xs, x, j)
    ensures (forall it :: i <= it < |xs| ==> !InSegment(xs, x, it)) ==> s == 0
    decreases |xs| - i
  {
    if i == |xs| then 0
    else if InSegment(xs, x, i) then i
    else FirstSegmentFrom(xs, x, i + 1)
  }

  /** The width of segment s on the circle. */
  function SegmentSize(vs: seq<real>, s: nat): (r: real)
    requires s < |vs|
    ensures 0.0 <= r < 1.0
  {
    PositiveModulo(vs[(s + 1) % |vs|] - vs[s])
  }

  /**
   * `linear_map`: the value over x of the map through the points
   * (xs[i], ys[i]), taken on the circle; None where the source panics
   * (x outside [0, 1], or no breakpoints at all).
   */
  function LinearMap(xs: seq<real>, ys: seq<real>, x: real): (r: Option<real>)
    requires |xs| == |ys|
    ensures r.Some? <==> 0.0 <= x <= 1.0 && |xs| > 0
    ensures r.Some? ==> 0.0 <= r.value < 1.0
  {
    if !(0.0 <= x <= 1.0) || |xs| == 0 then None
    else
      var s := FirstSegmentFrom(xs, x, 0);
      Some(MapInSegment(xs, ys, x, s))
  }

  /** The map evaluated on segment s, which runs from breakpoint s to the next one. */
  function MapInSegment(xs: seq<real>, ys: seq<real>, x: real, s: nat): (r: real)
    requires |xs| == |ys| && s < |xs|
    ensures 0.0 <= r < 1.0
  {
    PositiveModulo(Interpolate(PositiveModulo(x - xs[s]), SegmentSize(xs, s), SegmentSize(ys, s)) + ys[s])
  }

  /**
   * The offset into a target segment of size `sizeTo` that matches `offset`
   * into a source segment of size `sizeFrom`: the same share of the
   * segment, or half of it when the source segment is narrower than 0.001.
   */
  function Interpolate(offset: real, sizeFrom: real, sizeTo: real): real
  {
    sizeTo * (if sizeFrom < 0.001 then 0.5 else offset / sizeFrom)
  }

  /**
   * `map`: source progress to target progress. A value exists exactly for
   * x in [0, 1] on a mapper with breakpoints, and it lies in [0, 1).
   */
  function Map(m: DoubleMapper, x: real): (r: Option<real>)
    requires |m.sourceValues| == |m.targetValues|
    ensures r.Some? <==> 0.0 <= x <= 1.0 && |m.sourceValues| > 0
    ensures r.Some? ==> 0.0 <= r.value < 1.0
  {
    LinearMap(m.sourceValues, m.targetValues, x)
  }

  /** `map_back`: the same map with the two lists swapped, with the same guarantees. */
  function MapBack(m: DoubleMapper, x: real): (r: Option<real>)
    requires |m.sourceValues| == |m.targetValues|
    ensures r.Some? <==> 0.0 <= x <= 1.0 && |m.targetValues| > 0
    ensures r.Some? ==> 0.0 <= r.value < 1.0
  {
    LinearMap(m.targetValues, m.sourceValues, x)
  }

  /** The identity mapper sends every progress in [0, 1) to itself and 1 to 0, both ways. */
  lemma IdentityMapsToItself(x: real)
    requires 0.0 <= x <= 1.0
    ensures Map(Identity(), x) == MapBack(Identity(), x) == Some(if x < 1.0 then x else 0.0)
  {
    var xs := [0.0, 0.5];
    if x <= 0.5 {
      assert FirstSegmentFrom(xs, x, 0) == 0;
      assert SegmentSize(xs, 0) == 0.5;
      assert PositiveModulo(x - 0.0) == x;
    } else {
      assert !InSegment(xs, x, 0);
      assert FirstSegmentFrom(xs, x, 0) == 1;
      assert SegmentSize(xs, 1) == 0.5 by {
        assert 0.0 - 0.5 + 1.0 == 0.5;
        PositiveModuloOfShift(-0.5, 1);
      }
      assert PositiveModulo(x - 0.5) == x - 0.5;
      if x < 1.0 {
        assert PositiveModulo(x) == x;
      } else {
        PositiveModuloOfShift(0.0, 1);
      }
    }
  }

  /** Breakpoint values of the map, whichever of its two segments is chosen. */
  lemma {:induction false} MapAtSegmentStart(xs: seq<real>, ys: seq<real>, s: nat)
    requires |xs| == |ys| && s < |xs| && 0.0 <= ys[s] < 1.0
    requires SegmentSize(xs, s) >= 0.001
    ensures MapInSegment(xs, ys, xs[s], s) == ys[s]
  {
    assert PositiveModulo(xs[s] - xs[s]) == 0.0;
  }

  lemma {:induction false} MapAtSegmentEnd(xs: seq<real>, ys: seq<real>, s: nat)
    requires |xs| == |ys| && s < |xs|
    requires 0.0 <= ys[(s + 1) % |ys|] < 1.0
    requires SegmentSize(xs, s) >= 0.001
    ensures MapInSegment(xs, ys, xs[(s + 1) % |xs|], s) == ys[(s + 1) % |ys|]
  {
    var e := (s + 1) % |xs|;
    var sizeX, sizeY := SegmentSize(xs, s), SegmentSize(ys, s);
    assert PositiveModulo(xs[e] - xs[s]) == sizeX;
    assert sizeX / sizeX == 1.0;
    var k := (ys[e] - ys[s] - sizeY).Floor;
    assert sizeY + ys[s] == ys[e] + (-k) as real;
    PositiveModuloOfShift(ys[e], -k);
  }

  /**
   * At every source breakpoint the map takes the matching target value,
   * provided every source segment is at least 0.001 wide.
   */
  lemma {:induction false} MapAtBreakpoint(xs: seq<real>, ys: seq<real>, i: nat)
    requires |xs| == |ys| && i < |xs|
    requires ValidProgress(xs) && ValidProgress(ys)
    requires forall j :: 0 <= j < |xs| ==> SegmentSize(xs, j) >= 0.001
    ensures LinearMap(xs, ys, xs[i]) == Some(ys[i])
  {
    var n := |xs|;
    EndpointsInRange(xs[i], xs[(i + 1) % n]);
    assert InSegment(xs, xs[i], i);
    var s := FirstSegmentFrom(xs, xs[i], 0);
    OnlyNeighbouringSegmentsContain(xs, s, i);
    if s == i {
      MapAtSegmentStart(xs, ys, s);
    } else {
      MapAtSegmentEnd(xs, ys, s);
    }
  }

  /** `map_back` undoes `map` at the breakpoints. */
  lemma MapBackUndoesMapAtBreakpoint(m: DoubleMapper, i: nat)
    requires m.Valid() && i < |m.sourceValues|
    requires forall j :: 0 <= j < |m.sourceValues| ==> SegmentSize(m.sourceValues, j) >= 0.001
    requires forall j :: 0 <= j < |m.targetValues| ==> SegmentSize(m.targetValues, j) >= 0.001
    ensures Map(m, m.sourceValues[i]) == Some(m.targetValues[i])
    ensures MapBack(m, m.targetValues[i]) == Some(m.sourceValues[i])
  {
    MapAtBreakpoint(m.sourceValues, m.targetValues, i);
    MapAtBreakpoint(m.targetValues, m.sourceValues, i);
  }

  /**
   * `map_back` undoes `map` for every x in [0, 1), on a valid mapper whose
   * segments are at least 0.001 wide on both sides.
   */
  lemma {:induction false} MapBackUndoesMap(m: DoubleMapper, x: real)
    requires m.Valid() && |m.sourceValues| > 0 && 0.0 <= x < 1.0
    requires forall j :: 0 <= j < |m.sourceValues| ==> SegmentSize(m.sourceValues, j) >= 0.001
    requires forall j :: 0 <= j < |m.targetValues| ==> SegmentSize(m.targetValues, j) >= 0.001
    ensures Map(m, x).Some? && MapBack(m, Map(m, x).value) == Some(x)
  {
    var xs, ys := m.sourceValues, m.targetValues;
    var n := |xs|;
    if i :| 0 <= i < n && x == xs[i] {
      MapBackUndoesMapAtBreakpoint(m, i);
      return;
    }
    SomeSegmentContains(xs, x);
    var s := FirstSegmentFrom(xs, x, 0);
    var e := (s + 1) % n;
    InSegmentByOffset(xs, x, s);
    OffsetZeroOnlyAtStart(x, xs[s]);
    OffsetsDiffer(x, xs[e], xs[s]);
    var y := MapInSegment(xs, ys, x, s);
    assert Map(m, x) == Some(y);
    InverseInsideSegment(xs, ys, x, s);
    InSegmentByOffset(ys, y, s);
    OffsetZeroOnlyAtStart(y, ys[s]);
    OffsetsDiffer(y, ys[e], ys[s]);
    var s' := FirstSegmentFrom(ys, y, 0);
    if s' != s {
      SegmentsMeetAtBreakpoints(ys, y, s', s);
    }
  }

  /**
   * A point strictly inside source segment s maps strictly inside target
   * segment s, and the same segment of the reverse map brings it back.
   */
  lemma InverseInsideSegment(xs: seq<real>, ys: seq<real>, x: real, s: nat)
    requires |xs| == |ys| && s < |xs| && 0.0 <= x < 1.0
    requires SegmentSize(xs, s) >= 0.001 && SegmentSize(ys, s) >= 0.001
    requires 0.0 < PositiveModulo(x - xs[s]) < SegmentSize(xs, s)
    ensures var y := MapInSegment(xs, ys, x, s);
      && 0.0 < PositiveModulo(y - ys[s]) < SegmentSize(ys, s)
      && MapInSegment(ys, xs, y, s) == x
  {
    var d := PositiveModulo(x - xs[s]);
    var w := Interpolate(d, SegmentSize(xs, s), SegmentSize(ys, s));
    InterpolateInside(d, SegmentSize(xs, s), SegmentSize(ys, s));
    ShiftBack(w, ys[s]);
    ShiftToOffset(x, xs[s]);
  }

  /** Strictly inside the source segment, the offset lands strictly inside the target segment, and interpolating back recovers it. */
  lemma InterpolateInside(d: real, sizeFrom: real, sizeTo: real)
    requires 0.0 < d < sizeFrom && 0.001 <= sizeFrom && 0.001 <= sizeTo < 1.0
    ensures 0.0 < Interpolate(d, sizeFrom, sizeTo) < sizeTo
    ensures Interpolate(Interpolate(d, sizeFrom, sizeTo), sizeTo, sizeFrom) == d
  {
    var f := d / sizeFrom;
    assert f * sizeFrom == d;
    assert 0.0 < f < 1.0;
    assert (sizeTo * f) / sizeTo == f;
  }

  /** Adding a back to x's offset from a gives x modulo 1. */
  lemma ShiftToOffset(x: real, a: real)
    requires 0.0 <= x < 1.0
    ensures PositiveModulo(PositiveModulo(x - a) + a) == x
  {
    var k := Floor(x - a);
    assert PositiveModulo(x - a) + a == x + (-k) as real;
    PositiveModuloOfShift(x, -k);
  }

  /** `PositiveModulo(v + a) - a` taken modulo 1 gives v back, for v in [0, 1). */
  lemma ShiftBack(v: real, a: real)
    requires 0.0 <= v < 1.0
    ensures PositiveModulo(PositiveModulo(v + a) - a) == v
  {
    var k := Floor(v + a);
    assert PositiveModulo(v + a) - a == v + (-k) as real;
    PositiveModuloOfShift(v, -k);
  }

  /** On the circle, x lies on segment s exactly when its offset from the segment start is at most the segment's size. */
  lemma InSegmentByOffset(xs: seq<real>, x: real, s: nat)
    requires s < |xs| && 0.0 <= x < 1.0
    requires forall i :: 0 <= i < |xs| ==> 0.0 <= xs[i] < 1.0
    ensures InSegment(xs, x, s) <==> PositiveModulo(x - xs[s]) <= SegmentSize(xs, s)
  {
    var a, b := xs[s], xs[(s + 1) % |xs|];
    if x >= a {
      assert PositiveModulo(x - a) == x - a;
    } else {
      assert Floor(x - a) == -1;
    }
    if b >= a {
      assert PositiveModulo(b - a) == b - a;
    } else {
      assert Floor(b - a) == -1;
    }
  }

  /** The offset of x from a is zero only at a itself. */
  lemma OffsetZeroOnlyAtStart(x: real, a: real)
    requires 0.0 <= x < 1.0 && 0.0 <= a < 1.0
    ensures PositiveModulo(x - a) == 0.0 <==> x == a
  {
    if x < a {
      assert Floor(x - a) == -1;
    }
  }

  /** Two points of [0, 1) with the same offset from a are the same point. */
  lemma OffsetsDiffer(x: real, b: real, a: real)
    requires 0.0 <= x < 1.0 && 0.0 <= b < 1.0 && 0.0 <= a < 1.0
    ensures PositiveModulo(x - a) == PositiveModulo(b - a) <==> x == b
  {
    if x < a {
      assert Floor(x - a) == -1;
    }
    if b < a {
      assert Floor(b - a) == -1;
    }
  }

  /** The segments of a valid non-empty list cover the whole circle. */
  lemma SomeSegmentContains(xs: seq<real>, x: real)
    requires ValidProgress(xs) && |xs| > 0
    ensures exists j :: 0 <= j < |xs| && InSegment(xs, x, j)
  {
    ValidProgressIsRotatedIncreasing(xs);
    var n := |xs|;
    var k := ValidHasOneDrop(xs);
    RotationAtDropIncreases(xs, k);
    var q := Rotate(xs, k);
    var a := SortedSegmentContains(q, x);
    var j := Unpos(n, k, a);
    PosFacts(n, k, j);
    var c := Pos(n, k, (j + 1) % n);
    assert xs[j] == q[a] && xs[(j + 1) % n] == q[c];
    assert InSegment(xs, x, j);
  }

  /** Two different segments of a valid list share a point only at a breakpoint of the second. */
  lemma SegmentsMeetAtBreakpoints(xs: seq<real>, y: real, j: nat, s: nat)
    requires ValidProgress(xs) && j < |xs| && s < |xs| && j != s
    requires InSegment(xs, y, j) && InSegment(xs, y, s)
    ensures y == xs[s] || y == xs[(s + 1) % |xs|]
  {
    var n := |xs|;
    ValidProgressIsRotatedIncreasing(xs);
    var k := ValidHasOneDrop(xs);
    RotationAtDropIncreases(xs, k);
    var q := Rotate(xs, k);
    var a, b := Pos(n, k, s), Pos(n, k, j);
    PosFacts(n, k, s);
    PosFacts(n, k, j);
    assert xs[s] == q[a] && xs[(s + 1) % n] == q[if a + 1 < n then a + 1 else 0];
    assert xs[j] == q[b] && xs[(j + 1) % n] == q[if b + 1 < n then b + 1 else 0];
    SortedSegmentsMeet(q, y, a, b);
  }

  /** The position in the rotation starting at k that holds position a of the rotated list. */
  function Unpos(n: nat, k: nat, a: nat): (j: nat)
    requires k < n && a < n
    ensures j < n && Pos(n, k, j) == a
  {
    if a < n - k then a + k else a - (n - k)
  }

  lemma {:induction false} SortedLe(q: seq<real>, a: nat, b: nat)
    requires StrictlyIncreasing(q) && a <= b < |q|
    ensures q[a] <= q[b]
  {
    if a < b {
      IncreasingIsSorted(q, a, b);
    }
  }

  /** In a strictly increasing list of two or more values read cyclically, some segment holds x. */
  lemma SortedSegmentContains(q: seq<real>, x: real) returns (a: nat)
    requires StrictlyIncreasing(q) && |q| >= 2
    ensures a < |q| && ProgressInRange(x, q[a], q[if a + 1 < |q| then a + 1 else 0])
  {
    var n := |q|;
    IncreasingIsSorted(q, 0, n - 1);
    if x <= q[0] || x >= q[n - 1] {
      return n - 1;
    }
    a := SortedScan(q, x, 0);
  }

  lemma {:induction false} SortedScan(q: seq<real>, x: real, a: nat) returns (b: nat)
    requires StrictlyIncreasing(q) && a + 1 < |q| && q[a] <= x < q[|q| - 1]
    ensures a <= b && b + 1 < |q| && q[b] <= x <= q[b + 1]
    decreases |q| - a
  {
    if x <= q[a + 1] {
      return a;
    }
    b := SortedScan(q, x, a + 1);
  }

  /** Two different segments of a strictly increasing cyclic list meet only at an end of the second. */
  lemma SortedSegmentsMeet(q: seq<real>, y: real, a: nat, b: nat)
    requires StrictlyIncreasing(q) && a < |q| && b < |q| && a != b
    requires ProgressInRange(y, q[a], q[if a + 1 < |q| then a + 1 else 0])
    requires ProgressInRange(y, q[b], q[if b + 1 < |q| then b + 1 else 0])
    ensures y == q[a] || y == q[if a + 1 < |q| then a + 1 else 0]
  {
    var n := |q|;
    IncreasingIsSorted(q, 0, n - 1);
    SortedLe(q, 0, a);
    SortedLe(q, 0, b);
    SortedLe(q, a, n - 1);
    SortedLe(q, b, n - 1);
    if a < n - 1 {
      SortedLe(q, a + 1, n - 1);
    }
    if b < n - 1 {
      SortedLe(q, b + 1, n - 1);
    }
    if a < n - 1 && b < n - 1 {
      if a < b {
        SortedLe(q, a + 1, b);
      } else {
        SortedLe(q, b + 1, a);
      }
    }
  }

  /** In a valid list, breakpoint i lies only on the segments that end or start at it. */
  lemma OnlyNeighbouringSegmentsContain(xs: seq<real>, j: nat, i: nat)
    requires ValidProgress(xs) && j < |xs| && i < |xs|
    requires InSegment(xs, xs[i], j)
    ensures j == i || (j + 1) % |xs| == i
  {
    var n := |xs|;
    var k := ValidHasOneDrop(xs);
    RotationAtDropIncreases(xs, k);
    var q := Rotate(xs, k);
    var e := (j + 1) % n;
    var a, b, c := Pos(n, k, j), Pos(n, k, i), Pos(n, k, e);
    PosFacts(n, k, j);
    assert xs[j] == q[a] && xs[i] == q[b] && xs[e] == q[c];
    SortedOnlyNeighbours(q, a, b);
  }

  /** In a strictly increasing list read cyclically, q[b] lies on segment a only when b is one of its ends. */
  lemma SortedOnlyNeighbours(q: seq<real>, a: nat, b: nat)
    requires StrictlyIncreasing(q) && a < |q| && b < |q|
    requires ProgressInRange(q[b], q[a], q[if a + 1 < |q| then a + 1 else 0])
    ensures b == a || b == (if a + 1 < |q| then a + 1 else 0)
  {
    var n := |q|;
    var c := if a + 1 < n then a + 1 else 0;
    if b != a && b != c {
      if a < n - 1 {
        IncreasingIsSorted(q, a, c);
        if b < a {
          IncreasingIsSorted(q, b, a);
        } else {
          IncreasingIsSorted(q, c, b);
        }
      } else {
        assert 0 < b < n - 1;
        IncreasingIsSorted(q, 0, n - 1);
        IncreasingIsSorted(q, 0, b);
        IncreasingIsSorted(q, b, n - 1);
      }
    }
  }

  /** Where position j of a list lands in its rotation starting at k. */
  function Pos(n: nat, k: nat, j: nat): (a: nat)
    requires k < n && j < n
    ensures a < n
  {
    if j >= k then j - k else j + n - k
  }

  lemma PosFacts(n: nat, k: nat, j: nat)
    requires k < n && j < n
    ensures Pos(n, k, (j + 1) % n) == if Pos(n, k, j) + 1 < n then Pos(n, k, j) + 1 else 0
  {
    NextIndexWraps(n, j);
  }

  lemma NextIndexWraps(n: nat, j: nat)
    requires j < n
    ensures (j + 1) % n == if j + 1 < n then j + 1 else 0
  {
  }

  lemma {:induction false} IncreasingIsSorted(q: seq<real>, a: nat, b: nat)
    requires StrictlyIncreasing(q) && a < b < |q|
    ensures q[a] < q[b]
    decreases b - a
  {
    if a + 1 < b {
      IncreasingIsSorted(q, a, b - 1);
    }
  }
}
