/**
 * Matching the corners of two measured outlines (src/feature_mapper.rs):
 * candidate pairs of same-convexity corners, ordered by the squared
 * distance of their representative points, are fed one by one to a helper
 * that keeps a mapping sorted by source progress and refuses pairs that
 * would reuse a feature, crowd a neighbour or cross another pair.
 *
 * The flag `fixed` selects between the source as written (`false`) and the
 * two corrections recorded in README.md: a candidate exactly
 * DISTANCE_EPSILON away from a neighbour is refused, and a helper mapping
 * that ends with a single pair gets the opposite pair added.
 */
module FeatureMapper {
  import opened Wrappers
  import opened Geometry
  import opened Util
  import opened Cubics
  import opened Features
  import opened MeasuredPolygons
  import opened Mapper

  // ---------------------------------------------------------------------
  // Representative points and distances
  // ---------------------------------------------------------------------

  /** `feature_representative_point`: the midpoint of the feature's first and last anchor. */
  function RepresentativePoint(f: Feature): (p: Point)
    requires |f.cubics| > 0
    ensures 2.0 * p.x == f.cubics[0].anchor0.x + f.cubics[|f.cubics| - 1].anchor1.x
    ensures 2.0 * p.y == f.cubics[0].anchor0.y + f.cubics[|f.cubics| - 1].anchor1.y
  {
    Div(Add(f.cubics[0].anchor0, f.cubics[|f.cubics| - 1].anchor1), 2.0)
  }

  function SquareLength(v: Point): (r: real)
    ensures r >= 0.0
    ensures v == Point(0.0, 0.0) ==> r == 0.0
  {
    v.x * v.x + v.y * v.y
  }

  /** The test `feature_dist_squared` makes: both corners, one convex and one concave. */
  predicate DifferentConvexity(f1: Feature, f2: Feature)
    ensures DifferentConvexity(f1, f2) <==> IsCorner(f1) && IsCorner(f2) && f1.ty.convex != f2.ty.convex
  {
    IsCornerAnd(f1, c1 => IsCornerAnd(f2, c2 => c1 != c2))
  }

  /**
   * `feature_dist_squared`; None stands for the `f32::MAX` the source
   * returns for two corners of different convexity.
   */
  function FeatureDistSquared(f1: Feature, f2: Feature): (r: Option<real>)
    requires |f1.cubics| > 0 && |f2.cubics| > 0
    ensures r.None? <==> IsCorner(f1) && IsCorner(f2) && f1.ty.convex != f2.ty.convex
    ensures r.Some? ==> r.value >= 0.0
    ensures r.Some? && RepresentativePoint(f1) == RepresentativePoint(f2) ==> r.value == 0.0
  {
    if DifferentConvexity(f1, f2) then None
    else Some(SquareLength(Sub(RepresentativePoint(f1), RepresentativePoint(f2))))
  }

  lemma FeatureDistSymmetric(f1: Feature, f2: Feature)
    requires |f1.cubics| > 0 && |f2.cubics| > 0
    ensures FeatureDistSquared(f1, f2) == FeatureDistSquared(f2, f1)
  {
    if FeatureDistSquared(f1, f2).Some? {
      var d := Sub(RepresentativePoint(f1), RepresentativePoint(f2));
      var e := Sub(RepresentativePoint(f2), RepresentativePoint(f1));
      NegatedSquare(d.x, e.x);
      NegatedSquare(d.y, e.y);
      assert SquareLength(d) == SquareLength(e);
      assert !DifferentConvexity(f2, f1);
      assert FeatureDistSquared(f2, f1) == Some(SquareLength(e));
    } else {
      assert FeatureDistSquared(f2, f1).None?;
    }
  }

  lemma NegatedSquare(a: real, b: real)
    requires b == -a
    ensures b * b == a * a
  {
  }

  // ---------------------------------------------------------------------
  // Candidate list
  // ---------------------------------------------------------------------

  datatype DistanceVertex = DistanceVertex(distance: real, f1: ProgressableFeature, f2: ProgressableFeature)

  predicate NonEmptyFeatures(fs: seq<ProgressableFeature>)
  {
    forall i :: 0 <= i < |fs| ==> |fs[i].feature.cubics| > 0
  }

  /** The corner features of `fs`, in order. */
  function Corners(fs: seq<ProgressableFeature>): (cs: seq<ProgressableFeature>)
    ensures forall f :: f in cs <==> f in fs && IsCorner(f.feature)
    ensures |cs| <= |fs|
  {
    if |fs| == 0 then []
    else
      assert fs == fs[..|fs| - 1] + [fs[|fs| - 1]];
      Corners(fs[..|fs| - 1]) + (if IsCorner(fs[|fs| - 1].feature) then [fs[|fs| - 1]] else [])
  }

  /** The pairs (f1, f2) for f2 in `c2`, except those of different convexity. */
  function Row(f1: ProgressableFeature, c2: seq<ProgressableFeature>): (row: seq<DistanceVertex>)
    requires |f1.feature.cubics| > 0 && NonEmptyFeatures(c2)
    ensures forall dv :: dv in row ==>
      dv.f1 == f1 && dv.f2 in c2 && FeatureDistSquared(f1.feature, dv.f2.feature) == Some(dv.distance)
    ensures forall f2 :: f2 in c2 && FeatureDistSquared(f1.feature, f2.feature).Some? ==>
      DistanceVertex(FeatureDistSquared(f1.feature, f2.feature).value, f1, f2) in row
  {
    if |c2| == 0 then []
    else
      var f2 := c2[|c2| - 1];
      assert c2 == c2[..|c2| - 1] + [f2];
      var d := FeatureDistSquared(f1.feature, f2.feature);
      Row(f1, c2[..|c2| - 1]) + (if d.Some? then [DistanceVertex(d.value, f1, f2)] else [])
  }

  /**
   * The candidate list of the nested loops: every pair of a feature of `c1`
   * with a feature of `c2`, by `c1` then `c2` order, except pairs of
   * different convexity; each carries its squared distance.
   */
  function Candidates(c1: seq<ProgressableFeature>, c2: seq<ProgressableFeature>): (dvs: seq<DistanceVertex>)
    requires NonEmptyFeatures(c1) && NonEmptyFeatures(c2)
    ensures forall dv :: dv in dvs ==>
      dv.f1 in c1 && dv.f2 in c2 && FeatureDistSquared(dv.f1.feature, dv.f2.feature) == Some(dv.distance)
    ensures forall f1, f2 :: f1 in c1 && f2 in c2 && FeatureDistSquared(f1.feature, f2.feature).Some? ==>
      DistanceVertex(FeatureDistSquared(f1.feature, f2.feature).value, f1, f2) in dvs
  {
    if |c1| == 0 then []
    else
      assert c1 == c1[..|c1| - 1] + [c1[|c1| - 1]];
      Candidates(c1[..|c1| - 1], c2) + Row(c1[|c1| - 1], c2)
  }

  predicate SortedByDistance(dvs: seq<DistanceVertex>)
  {
    forall i, j :: 0 <= i < j < |dvs| ==> dvs[i].distance <= dvs[j].distance
  }

  /**
   * Places dv after every element of `sorted` whose distance is not larger,
   * so dv comes after the candidates of equal distance.
   */
  function InsertByDistance(dv: DistanceVertex, sorted: seq<DistanceVertex>): (r: seq<DistanceVertex>)
    requires SortedByDistance(sorted)
    ensures SortedByDistance(r)
    ensures multiset(r) == multiset(sorted) + multiset{dv}
  {
    if |sorted| == 0 then [dv]
    else
      var last := sorted[|sorted| - 1];
      if last.distance <= dv.distance then sorted + [dv]
      else
        var front := InsertByDistance(dv, sorted[..|sorted| - 1]);
        InsertBeforeLast(sorted, dv, front);
        front + [last]
  }

  /** The recursive case of the insertion: dv went into the list before its last element. */
  lemma InsertBeforeLast(sorted: seq<DistanceVertex>, dv: DistanceVertex, front: seq<DistanceVertex>)
    requires SortedByDistance(sorted) && |sorted| > 0 && dv.distance < sorted[|sorted| - 1].distance
    requires SortedByDistance(front) && multiset(front) == multiset(sorted[..|sorted| - 1]) + multiset{dv}
    ensures SortedByDistance(front + [sorted[|sorted| - 1]])
    ensures multiset(front + [sorted[|sorted| - 1]]) == multiset(sorted) + multiset{dv}
  {
    var last := sorted[|sorted| - 1];
    assert sorted == sorted[..|sorted| - 1] + [last];
    forall i | 0 <= i < |front|
      ensures front[i].distance <= last.distance
    {
      assert front[i] in multiset(front);
    }
  }

  /** The sort of `distance_vertex_list.sort_by`: ascending squared distance, none added or lost. */
  function SortByDistance(dvs: seq<DistanceVertex>): (r: seq<DistanceVertex>)
    ensures SortedByDistance(r)
    ensures multiset(r) == multiset(dvs)
  {
    if |dvs| == 0 then []
    else
      assert dvs == dvs[..|dvs| - 1] + [dvs[|dvs| - 1]];
      InsertByDistance(dvs[|dvs| - 1], SortByDistance(dvs[..|dvs| - 1]))
  }

  /** The candidates at distance d, in their order in dvs. */
  function WithDistance(dvs: seq<DistanceVertex>, d: real): seq<DistanceVertex>
  {
    if |dvs| == 0 then []
    else WithDistance(dvs[..|dvs| - 1], d) + (if dvs[|dvs| - 1].distance == d then [dvs[|dvs| - 1]] else [])
  }

  lemma WithDistanceOfSnoc(dvs: seq<DistanceVertex>, dv: DistanceVertex, d: real)
    ensures WithDistance(dvs + [dv], d) == WithDistance(dvs, d) + (if dv.distance == d then [dv] else [])
  {
    assert (dvs + [dv])[..|dvs|] == dvs;
  }

  /** Among the candidates at dv's distance, the inserted one comes last; the others keep their order. */
  lemma {:induction false} InsertByDistanceIsStable(dv: DistanceVertex, sorted: seq<DistanceVertex>, d: real)
    requires SortedByDistance(sorted)
    ensures WithDistance(InsertByDistance(dv, sorted), d) == WithDistance(sorted, d) + (if dv.distance == d then [dv] else [])
  {
    if |sorted| == 0 {
      WithDistanceOfSnoc([], dv, d);
      assert [] + [dv] == [dv];
    } else {
      var last := sorted[|sorted| - 1];
      var init := sorted[..|sorted| - 1];
      assert sorted == init + [last];
      if last.distance <= dv.distance {
        WithDistanceOfSnoc(sorted, dv, d);
      } else {
        var front := InsertByDistance(dv, init);
        assert InsertByDistance(dv, sorted) == front + [last];
        InsertByDistanceIsStable(dv, init, d);
        WithDistanceOfSnoc(front, last, d);
        WithDistanceOfSnoc(init, last, d);
      }
    }
  }

  /** The sort is stable: for every distance, the candidates at it keep their input order. */
  lemma {:induction false} SortByDistanceIsStable(dvs: seq<DistanceVertex>, d: real)
    ensures WithDistance(SortByDistance(dvs), d) == WithDistance(dvs, d)
  {
    if |dvs| > 0 {
      var init := dvs[..|dvs| - 1];
      var last := dvs[|dvs| - 1];
      assert dvs == init + [last];
      SortByDistanceIsStable(init, d);
      InsertByDistanceIsStable(last, SortByDistance(init), d);
      WithDistanceOfSnoc(init, last, d);
    }
  }

  // ---------------------------------------------------------------------
  // The helper's insertion step
  // ---------------------------------------------------------------------

  /** `s` with `x` placed at position k. */
  function Insert<T>(s: seq<T>, k: nat, x: T): (t: seq<T>)
    requires k <= |s|
    ensures |t| == |s| + 1 && t[k] == x
    ensures forall j {:trigger t[j]} :: 0 <= j < k ==> t[j] == s[j]
    ensures forall j {:trigger t[j]} :: k < j < |t| ==> t[j] == s[j - 1]
  {
    s[..k] + [x] + s[k..]
  }

  predicate SortedBySource(m: seq<(real, real)>)
  {
    forall i, j :: 0 <= i < j < |m| ==> m[i].0 < m[j].0
  }

  /** The insertion point of `binary_search_by`: how many entries have source progress below x. */
  function InsertionIndex(m: seq<(real, real)>, x: real): (k: nat)
    ensures k <= |m|
    ensures forall j :: 0 <= j < k ==> m[j].0 < x
    ensures k < |m| ==> m[k].0 >= x
  {
    if |m| == 0 || m[0].0 >= x then 0 else 1 + InsertionIndex(m[1..], x)
  }

  /**
   * `binary_search_by` on the source progress: `found` when some entry has
   * exactly x (the source's `Ok`), and the insertion point otherwise.
   */
  method BinarySearch(m: seq<(real, real)>, x: real) returns (found: bool, k: nat)
    requires SortedBySource(m)
    ensures k == InsertionIndex(m, x)
    ensures found <==> exists j :: 0 <= j < |m| && m[j].0 == x
  {
    var lo, hi := 0, |m|;
    while lo < hi
      invariant 0 <= lo <= hi <= |m|
      invariant forall j :: 0 <= j < lo ==> m[j].0 < x
      invariant forall j :: hi <= j < |m| ==> m[j].0 >= x
      decreases hi - lo
    {
      var mid := (lo + hi) / 2;
      if m[mid].0 < x {
        lo := mid + 1;
      } else {
        hi := mid;
      }
    }
    k := lo;
    found := k < |m| && m[k].0 == x;
    if !found {
      forall j | 0 <= j < |m|
        ensures m[j].0 != x
      {
        if k < j {
          assert m[k].0 < m[j].0;
        }
      }
    }
  }

  /** The entry before the insertion point, cyclically: `(k + n - 1) % n`. */
  function BeforeIndex(n: nat, k: nat): (j: nat)
    requires 0 < n && k <= n
    ensures j < n
  {
    if k == 0 then n - 1 else k - 1
  }

  /** The entry at the insertion point, cyclically: `k % n`. */
  function AfterIndex(n: nat, k: nat): (j: nat)
    requires 0 < n && k <= n
    ensures j < n
  {
    if k == n then 0 else k
  }

  lemma NeighbourIndicesAreModulo(n: nat, k: nat)
    requires 0 < n && k <= n
    ensures BeforeIndex(n, k) == (k + n - 1) % n
    ensures AfterIndex(n, k) == k % n
  {
    if k == 0 {
      ModOfSmall(n - 1, n);
      ModOfSmall(0, n);
    } else {
      ModWrap(k + n - 1, n);
      if k < n {
        ModOfSmall(k, n);
      } else {
        ModWrap(k, n);
      }
    }
  }

  /** The neighbour test: `< DISTANCE_EPSILON` as written, `<=` once fixed. */
  predicate TooClose(d: real, fixed: bool)
  {
    if fixed then d <= DISTANCE_EPSILON else d < DISTANCE_EPSILON
  }

  /**
   * Whether the pair (p1, p2), to be inserted at k, keeps clear of its
   * cyclic neighbours on both sides and, with two or more entries, has its
   * target between the neighbours' targets.
   */
  predicate Fits(m: seq<(real, real)>, k: nat, p1: real, p2: real, fixed: bool)
    requires k <= |m|
  {
    var n := |m|;
    n == 0 ||
    (var before := m[BeforeIndex(n, k)];
     var after := m[AfterIndex(n, k)];
     !TooClose(ProgressDistance(p1, before.0), fixed) && !TooClose(ProgressDistance(p1, after.0), fixed)
     && !TooClose(ProgressDistance(p2, before.1), fixed) && !TooClose(ProgressDistance(p2, after.1), fixed)
     && (n > 1 ==> ProgressInRange(p2, before.1, after.1)))
  }

  datatype HelperState = HelperState(mapping: seq<(real, real)>, usedF1: seq<ProgressableFeature>, usedF2: seq<ProgressableFeature>)

  const EmptyHelper := HelperState([], [], [])

  /** Whether one of the two features has been used already. */
  predicate Used(s: HelperState, f1: ProgressableFeature, f2: ProgressableFeature)
  {
    f1 in s.usedF1 || f2 in s.usedF2
  }

  /** Whether some entry already has source progress x. */
  predicate HasSource(m: seq<(real, real)>, x: real)
  {
    exists j :: 0 <= j < |m| && m[j].0 == x
  }

  /**
   * `add_mapping` on a state: used features are skipped, a repeated source
   * progress panics (None), a pair that does not fit is skipped, and
   * otherwise the pair goes in at the insertion point and both features
   * are recorded.
   */
  function AddMappingOf(s: HelperState, f1: ProgressableFeature, f2: ProgressableFeature, fixed: bool): (r: Option<HelperState>)
    requires SortedBySource(s.mapping)
    ensures Used(s, f1, f2) ==> r == Some(s)
    ensures r.None? <==> !Used(s, f1, f2) && HasSource(s.mapping, f1.progress)
    ensures !Used(s, f1, f2) && !HasSource(s.mapping, f1.progress) ==>
      var fits := Fits(s.mapping, InsertionIndex(s.mapping, f1.progress), f1.progress, f2.progress, fixed);
      (fits ==> r.Some? && r.value != s) && (!fits ==> r == Some(s))
    ensures r.Some? ==> SortedBySource(r.value.mapping)
    ensures r.Some? && r.value != s ==>
      r.value.mapping == Insert(s.mapping, InsertionIndex(s.mapping, f1.progress), (f1.progress, f2.progress))
      && r.value.usedF1 == s.usedF1 + [f1] && r.value.usedF2 == s.usedF2 + [f2]
      && Fits(s.mapping, InsertionIndex(s.mapping, f1.progress), f1.progress, f2.progress, fixed)
  {
    if Used(s, f1, f2) then Some(s)
    else
      var k := InsertionIndex(s.mapping, f1.progress);
      SearchFindsSource(s.mapping, f1.progress);
      if k < |s.mapping| && s.mapping[k].0 == f1.progress then None
      else if !Fits(s.mapping, k, f1.progress, f2.progress, fixed) then Some(s)
      else
        InsertKeepsSorted(s.mapping, f1.progress, f2.progress);
        Some(HelperState(Insert(s.mapping, k, (f1.progress, f2.progress)), s.usedF1 + [f1], s.usedF2 + [f2]))
  }

  /** In a sorted mapping, x is present exactly when it sits at its insertion point. */
  lemma SearchFindsSource(m: seq<(real, real)>, x: real)
    requires SortedBySource(m)
    ensures HasSource(m, x) <==> InsertionIndex(m, x) < |m| && m[InsertionIndex(m, x)].0 == x
  {
    var k := InsertionIndex(m, x);
    if HasSource(m, x) {
      var j :| 0 <= j < |m| && m[j].0 == x;
    }
  }

  /** Inserting a new source progress at its insertion point keeps the mapping sorted. */
  lemma InsertKeepsSorted(m: seq<(real, real)>, x: real, y: real)
    requires SortedBySource(m) && !HasSource(m, x)
    ensures SortedBySource(Insert(m, InsertionIndex(m, x), (x, y)))
  {
    var k := InsertionIndex(m, x);
    var t := Insert(m, k, (x, y));
    forall i, j | 0 <= i < j < |t|
      ensures t[i].0 < t[j].0
    {
      if j == k {
        assert t[i] == m[i];
      } else if i == k {
        assert t[j] == m[j - 1] && m[k].0 >= x && m[j - 1].0 != x;
        if k < j - 1 {
          assert m[k].0 < m[j - 1].0;
        }
      }
    }
  }

  /** The first pair offered to an empty helper is always taken. */
  lemma AddToEmpty(f1: ProgressableFeature, f2: ProgressableFeature, fixed: bool)
    ensures AddMappingOf(EmptyHelper, f1, f2, fixed) == Some(HelperState([(f1.progress, f2.progress)], [f1], [f2]))
  {
    assert !Used(EmptyHelper, f1, f2) && InsertionIndex([], f1.progress) == 0;
    assert Fits([], 0, f1.progress, f2.progress, fixed);
    var r := AddMappingOf(EmptyHelper, f1, f2, fixed);
    assert r.Some?;
    assert r.value == HelperState(Insert([], 0, (f1.progress, f2.progress)), EmptyHelper.usedF1 + [f1], EmptyHelper.usedF2 + [f2]);
    assert Insert([], 0, (f1.progress, f2.progress)) == [(f1.progress, f2.progress)];
    assert EmptyHelper.usedF1 + [f1] == [f1] && EmptyHelper.usedF2 + [f2] == [f2];
  }

  /** `MappingHelper`: the mapping built so far and the features it uses. */
  class MappingHelper {
    var mapping: seq<(real, real)>
    var usedF1: seq<ProgressableFeature>
    var usedF2: seq<ProgressableFeature>

    function State(): HelperState
      reads this
    {
      HelperState(mapping, usedF1, usedF2)
    }

    /** `MappingHelper::default()`. */
    constructor ()
      ensures State() == EmptyHelper
    {
      mapping, usedF1, usedF2 := [], [], [];
    }

    /**
     * `add_mapping`: inserts in place at the binary-search point and records
     * both features; returns false where the source panics.
     */
    method AddMapping(f1: ProgressableFeature, f2: ProgressableFeature, fixed: bool) returns (ok: bool)
      requires SortedBySource(mapping)
      modifies this
      ensures ok ==> AddMappingOf(old(State()), f1, f2, fixed) == Some(State())
      ensures !ok ==> AddMappingOf(old(State()), f1, f2, fixed).None? && State() == old(State())
    {
      if f1 in usedF1 || f2 in usedF2 {
        return true;
      }
      var found, insertionIndex := BinarySearch(mapping, f1.progress);
      if found {
        return false;
      }
      var n := |mapping|;
      if n >= 1 {
        NeighbourIndicesAreModulo(n, insertionIndex);
        var (before1, before2) := mapping[(insertionIndex + n - 1) % n];
        var (after1, after2) := mapping[insertionIndex % n];
        if TooClose(ProgressDistance(f1.progress, before1), fixed)
          || TooClose(ProgressDistance(f1.progress, after1), fixed)
          || TooClose(ProgressDistance(f2.progress, before2), fixed)
          || TooClose(ProgressDistance(f2.progress, after2), fixed)
        {
          return true;
        }
        if n > 1 && !ProgressInRange(f2.progress, before2, after2) {
          return true;
        }
      }
      mapping := mapping[..insertionIndex] + [(f1.progress, f2.progress)] + mapping[insertionIndex..];
      usedF1 := usedF1 + [f1];
      usedF2 := usedF2 + [f2];
      return true;
    }
  }

  /** The helper state after offering every candidate in order; None once one panics. */
  function Fold(dvs: seq<DistanceVertex>, fixed: bool): (r: Option<HelperState>)
    ensures r.Some? ==> SortedBySource(r.value.mapping)
  {
    if |dvs| == 0 then Some(EmptyHelper)
    else
      match Fold(dvs[..|dvs| - 1], fixed)
      case None => None
      case Some(s) => AddMappingOf(s, dvs[|dvs| - 1].f1, dvs[|dvs| - 1].f2, fixed)
  }

  // ---------------------------------------------------------------------
  // What the helper keeps true
  // ---------------------------------------------------------------------

  /** 1 when going from a to its cyclic successor b steps down. */
  function StepDown(a: real, b: real): (r: nat)
  {
    if b < a then 1 else 0
  }

  /** Where the old entry at the insertion point sits once y has gone in at k. */
  function NewAfterIndex(n: nat, k: nat): (j: nat)
    requires k <= n
    ensures j <= n
  {
    if k < n then k + 1 else 0
  }

  /**
   * The cyclic neighbour pairs of `Insert(s, k, y)`: the pair (before, after)
   * of `s` becomes (before, y) and (y, after); every other pair is a pair of
   * `s` other than (before, after).
   */
  lemma InsertedPair(s: seq<real>, k: nat, y: real, j: nat)
    requires 0 < |s| && k <= |s| && j <= |s|
    ensures var t := Insert(s, k, y);
      var n := |s|;
      (j == k ==> t[PrevIndex(n + 1, j)] == s[BeforeIndex(n, k)] && t[j] == y)
      && (j == NewAfterIndex(n, k) ==> t[PrevIndex(n + 1, j)] == y && t[j] == s[AfterIndex(n, k)])
      && (j != k && j != NewAfterIndex(n, k) ==>
            var o := if j < k then j else j - 1;
            o < n && o != AfterIndex(n, k) && t[PrevIndex(n + 1, j)] == s[PrevIndex(n, o)] && t[j] == s[o])
  {
  }

  /**
   * Two lists that agree on positions a-1 .. b-1 (the second shifted by d)
   * step down equally often between a and b.
   */
  lemma {:induction false} DropsOfShifted(s: seq<real>, t: seq<real>, a: nat, b: nat, d: nat)
    requires 1 <= a <= b <= |s| && b + d <= |t|
    requires forall j :: a - 1 <= j < b ==> t[j + d] == s[j]
    ensures Drops(t, b + d) + Drops(s, a) == Drops(s, b) + Drops(t, a + d)
    decreases b - a
  {
    if a < b {
      DropsOfShifted(s, t, a, b - 1, d);
      assert DropsAt(t, b - 1 + d) == DropsAt(s, b - 1);
    }
  }

  /**
   * Inserting y at k trades the step from `before` to `after` for the steps
   * from `before` to y and from y to `after`.
   */
  lemma {:induction false} InsertKeepsOtherSteps(s: seq<real>, k: nat, y: real)
    requires 0 < |s| && k <= |s|
    ensures var n := |s|;
      var before := s[BeforeIndex(n, k)];
      var after := s[AfterIndex(n, k)];
      Drops(Insert(s, k, y), n + 1) + StepDown(before, after) == Drops(s, n) + StepDown(before, y) + StepDown(y, after)
  {
    if k < |s| {
      InsertInsideKeepsOtherSteps(s, k, y);
    } else {
      InsertAtEndKeepsOtherSteps(s, y);
    }
  }

  /** Positions before the insertion point step down as they did. */
  lemma {:induction false} InsertKeepsHeadDrops(s: seq<real>, k: nat, y: real)
    requires k < |s|
    ensures Drops(Insert(s, k, y), k) == Drops(s, k)
  {
    var n := |s|;
    var t := Insert(s, k, y);
    if k >= 1 {
      assert DropsAt(t, 0) == DropsAt(s, 0) by {
        assert t[0] == s[0] && t[n] == s[n - 1];
      }
      DropsOfShifted(s, t, 1, k, 0);
    }
  }

  /** Positions after the insertion point step down as they did, one place later. */
  lemma {:induction false} InsertKeepsTailDrops(s: seq<real>, k: nat, y: real)
    requires k < |s|
    ensures Drops(Insert(s, k, y), |s| + 1) + Drops(s, k + 1) == Drops(s, |s|) + Drops(Insert(s, k, y), k + 2)
  {
    DropsOfShifted(s, Insert(s, k, y), k + 1, |s|, 1);
  }

  lemma {:induction false} InsertInsideKeepsOtherSteps(s: seq<real>, k: nat, y: real)
    requires k < |s|
    ensures var n := |s|;
      var before := s[BeforeIndex(n, k)];
      Drops(Insert(s, k, y), n + 1) + StepDown(before, s[k]) == Drops(s, n) + StepDown(before, y) + StepDown(y, s[k])
  {
    var n := |s|;
    var t := Insert(s, k, y);
    var a := StepDown(s[BeforeIndex(n, k)], y);
    var b := StepDown(y, s[k]);
    var c := StepDown(s[BeforeIndex(n, k)], s[k]);
    assert Drops(t, k + 2) == Drops(s, k) + a + b by {
      InsertKeepsHeadDrops(s, k, y);
      assert DropsAt(t, k) == (a == 1) by {
        assert t[PrevIndex(n + 1, k)] == s[BeforeIndex(n, k)];
      }
      assert DropsAt(t, k + 1) == (b == 1);
    }
    assert Drops(s, k + 1) == Drops(s, k) + c by {
      assert DropsAt(s, k) == (c == 1);
    }
    InsertKeepsTailDrops(s, k, y);
  }

  lemma {:induction false} InsertAtEndKeepsOtherSteps(s: seq<real>, y: real)
    requires 0 < |s|
    ensures var n := |s|;
      Drops(Insert(s, n, y), n + 1) + StepDown(s[n - 1], s[0]) == Drops(s, n) + StepDown(s[n - 1], y) + StepDown(y, s[0])
  {
    var n := |s|;
    var t := Insert(s, n, y);
    DropsOfShifted(s, t, 1, n, 0);
    assert DropsAt(t, 0) == (StepDown(y, s[0]) == 1);
    assert DropsAt(t, n) == (StepDown(s[n - 1], y) == 1);
    assert DropsAt(s, 0) == (StepDown(s[n - 1], s[0]) == 1);
  }

  /** A value on the arc from b to a adds no step down between them. */
  lemma StepsAcrossArc(b: real, y: real, a: real)
    requires ProgressInRange(y, b, a)
    ensures StepDown(b, y) + StepDown(y, a) == StepDown(b, a)
  {
  }

  predicate InUnit(p: seq<real>)
  {
    forall i :: 0 <= i < |p| ==> 0.0 <= p[i] < 1.0
  }

  /** No value is too close to its cyclic predecessor, in the sense of `TooClose`. */
  predicate Spaced(p: seq<real>, fixed: bool)
  {
    forall i :: 0 <= i < |p| ==> !TooClose(ProgressDistance(p[i], p[PrevIndex(|p|, i)]), fixed)
  }

  lemma InsertKeepsSpacing(s: seq<real>, k: nat, y: real, fixed: bool)
    requires 0 < |s| && k <= |s|
    requires |s| >= 2 ==> Spaced(s, fixed)
    requires !TooClose(ProgressDistance(y, s[BeforeIndex(|s|, k)]), fixed)
    requires !TooClose(ProgressDistance(y, s[AfterIndex(|s|, k)]), fixed)
    ensures Spaced(Insert(s, k, y), fixed)
  {
    var t := Insert(s, k, y);
    forall j | 0 <= j < |t|
      ensures !TooClose(ProgressDistance(t[j], t[PrevIndex(|t|, j)]), fixed)
    {
      InsertedPair(s, k, y, j);
      ProgressDistanceSymmetric(y, s[AfterIndex(|s|, k)]);
    }
  }

  lemma InsertProjections(m: seq<(real, real)>, k: nat, p: (real, real))
    requires k <= |m|
    ensures Firsts(Insert(m, k, p)) == Insert(Firsts(m), k, p.0)
    ensures Seconds(Insert(m, k, p)) == Insert(Seconds(m), k, p.1)
  {
  }

  /** The source progress values of the used features. */
  function Progresses(used: seq<ProgressableFeature>): set<real>
  {
    set f | f in used :: f.progress
  }

  /**
   * What every helper state reached from the empty one satisfies: sorted
   * by source progress, one used feature of each side per pair, values in
   * [0, 1), the targets stepping down at most once round the circle, no
   * value crowding its neighbour once there are two pairs, and every source
   * progress belonging to a used feature.
   */
  predicate HelperInvariant(s: HelperState, fixed: bool)
  {
    var m := s.mapping;
    SortedBySource(m) && |m| == |s.usedF1| == |s.usedF2|
    && InUnit(Firsts(m)) && InUnit(Seconds(m))
    && Drops(Seconds(m), |m|) <= 1
    && (|m| >= 2 ==> Spaced(Firsts(m), fixed) && Spaced(Seconds(m), fixed))
    && (forall j :: 0 <= j < |m| ==> m[j].0 in Progresses(s.usedF1))
  }

  predicate UnitProgress(f: ProgressableFeature)
  {
    0.0 <= f.progress < 1.0
  }

  /** The targets still step down at most once after an insertion that `Fits`. */
  lemma {:induction false} InsertKeepsDrops(m: seq<(real, real)>, k: nat, p1: real, p2: real, fixed: bool)
    requires k <= |m| && Fits(m, k, p1, p2, fixed)
    requires Drops(Seconds(m), |m|) <= 1
    ensures Drops(Seconds(Insert(m, k, (p1, p2))), |m| + 1) <= 1
  {
    var n := |m|;
    InsertProjections(m, k, (p1, p2));
    var q := Seconds(m);
    if n >= 1 {
      InsertKeepsOtherSteps(q, k, p2);
      if n > 1 {
        StepsAcrossArc(q[BeforeIndex(n, k)], p2, q[AfterIndex(n, k)]);
      } else {
        assert StepDown(q[0], q[0]) == 0;
      }
    } else {
      var q' := Insert(q, k, p2);
      assert Drops(q', 1) == Drops(q', 0) + StepDown(p2, p2);
    }
  }

  /** Inserting a value in [0, 1) keeps every value in [0, 1). */
  lemma InsertKeepsInUnit(s: seq<real>, k: nat, y: real)
    requires k <= |s| && InUnit(s) && 0.0 <= y < 1.0
    ensures InUnit(Insert(s, k, y))
  {
    var t := Insert(s, k, y);
    forall i | 0 <= i < |t|
      ensures 0.0 <= t[i] < 1.0
    {
      if i < k {
        assert t[i] == s[i];
      } else if k < i {
        assert t[i] == s[i - 1];
      }
    }
  }

  /** The shape of the mapping survives an insertion that `Fits`. */
  lemma {:induction false} InsertKeepsShape(m: seq<(real, real)>, k: nat, p1: real, p2: real, fixed: bool)
    requires k <= |m| && Fits(m, k, p1, p2, fixed)
    requires 0.0 <= p1 < 1.0 && 0.0 <= p2 < 1.0
    requires InUnit(Firsts(m)) && InUnit(Seconds(m)) && Drops(Seconds(m), |m|) <= 1
    requires |m| >= 2 ==> Spaced(Firsts(m), fixed) && Spaced(Seconds(m), fixed)
    ensures var m' := Insert(m, k, (p1, p2));
      InUnit(Firsts(m')) && InUnit(Seconds(m')) && Drops(Seconds(m'), |m'|) <= 1
      && (|m'| >= 2 ==> Spaced(Firsts(m'), fixed) && Spaced(Seconds(m'), fixed))
  {
    InsertProjections(m, k, (p1, p2));
    InsertKeepsDrops(m, k, p1, p2, fixed);
    InsertKeepsInUnit(Firsts(m), k, p1);
    InsertKeepsInUnit(Seconds(m), k, p2);
    if |m| >= 1 {
      InsertKeepsSpacing(Firsts(m), k, p1, fixed);
      InsertKeepsSpacing(Seconds(m), k, p2, fixed);
    }
  }

  /** Every source progress of the grown mapping belongs to a used feature. */
  lemma InsertKeepsSourcesUsed(s: HelperState, k: nat, f1: ProgressableFeature, f2: ProgressableFeature)
    requires k <= |s.mapping|
    requires forall j :: 0 <= j < |s.mapping| ==> s.mapping[j].0 in Progresses(s.usedF1)
    ensures var m' := Insert(s.mapping, k, (f1.progress, f2.progress));
      forall j :: 0 <= j < |m'| ==> m'[j].0 in Progresses(s.usedF1 + [f1])
  {
    var m := s.mapping;
    var m' := Insert(m, k, (f1.progress, f2.progress));
    forall j | 0 <= j < |m'|
      ensures m'[j].0 in Progresses(s.usedF1 + [f1])
    {
      if j < k {
        assert m[j].0 in Progresses(s.usedF1);
      } else if k < j {
        assert m[j - 1].0 in Progresses(s.usedF1);
      }
    }
  }

  /** `add_mapping` keeps the helper invariant. */
  lemma AddMappingKeepsInvariant(s: HelperState, f1: ProgressableFeature, f2: ProgressableFeature, fixed: bool)
    requires HelperInvariant(s, fixed) && UnitProgress(f1) && UnitProgress(f2)
    ensures AddMappingOf(s, f1, f2, fixed).Some? ==> HelperInvariant(AddMappingOf(s, f1, f2, fixed).value, fixed)
  {
    var r := AddMappingOf(s, f1, f2, fixed);
    if r.Some? && r.value != s {
      var k := InsertionIndex(s.mapping, f1.progress);
      InsertKeepsShape(s.mapping, k, f1.progress, f2.progress, fixed);
      InsertKeepsSourcesUsed(s, k, f1, f2);
    }
  }

  /** Features that their progress tells apart. */
  predicate ProgressIdentifies(fs: seq<ProgressableFeature>)
  {
    forall i, j :: 0 <= i < |fs| && 0 <= j < |fs| && fs[i].progress == fs[j].progress ==> fs[i] == fs[j]
  }

  /**
   * Offered candidates whose source features come from a list that progress
   * tells apart never make the helper panic; every reached state keeps the
   * invariant, and once one candidate has been offered the mapping is not empty.
   */
  lemma {:induction false} FoldKeepsInvariant(dvs: seq<DistanceVertex>, fixed: bool, source: seq<ProgressableFeature>)
    requires forall i :: 0 <= i < |dvs| ==> dvs[i].f1 in source && UnitProgress(dvs[i].f1) && UnitProgress(dvs[i].f2)
    requires ProgressIdentifies(source)
    ensures Fold(dvs, fixed).Some?
    ensures HelperInvariant(Fold(dvs, fixed).value, fixed)
    ensures forall u :: u in Fold(dvs, fixed).value.usedF1 ==> u in source
    ensures |dvs| > 0 ==> |Fold(dvs, fixed).value.mapping| > 0
  {
    if |dvs| > 0 {
      var prefix := dvs[..|dvs| - 1];
      var dv := dvs[|dvs| - 1];
      FoldKeepsInvariant(prefix, fixed, source);
      var s := Fold(prefix, fixed).value;
      if s.mapping == [] {
        assert s == EmptyHelper;
        AddToEmpty(dv.f1, dv.f2, fixed);
      }
      AddMappingKeepsInvariant(s, dv.f1, dv.f2, fixed);
    }
  }

  lemma {:induction false} IncreasingDropsOnce(q: seq<real>, i: nat)
    requires SortedValues(q) && i <= |q|
    ensures Drops(q, i) <= 1
  {
    if i > 1 {
      IncreasingDropsOnce(q, i - 1);
      assert q[i - 2] < q[i - 1];
    }
  }

  predicate SortedValues(q: seq<real>)
  {
    forall i, j :: 0 <= i < j < |q| ==> q[i] < q[j]
  }

  /**
   * Once the boundary test is fixed, a helper mapping of two or more pairs
   * is always accepted by `DoubleMapper::new`.
   */
  lemma FixedHelperMappingIsValid(s: HelperState)
    requires HelperInvariant(s, true) && |s.mapping| >= 2
    ensures Mapper.New(s.mapping).Some?
  {
    var m := s.mapping;
    IncreasingDropsOnce(Firsts(m), |m|);
  }

  /** The one-candidate mapping is always valid for progress values in [0, 1). */
  lemma OppositePairsAreValid(p1: real, p2: real)
    requires 0.0 <= p1 < 1.0 && 0.0 <= p2 < 1.0
    ensures Mapper.New(OppositePairs(p1, p2)).Some?
  {
    var pairs := OppositePairs(p1, p2);
    OppositeValue(p1);
    OppositeValue(p2);
    assert Firsts(pairs) == [p1, pairs[1].0];
    assert Seconds(pairs) == [p2, pairs[1].1];
  }

  /** Half way round from p: p + 0.5 wrapped by the float remainder, 0.5 away and in [0, 1). */
  lemma OppositeValue(p: real)
    requires 0.0 <= p < 1.0
    ensures var q := FloatRem(p + 0.5, 1.0);
      0.0 <= q < 1.0 && ProgressDistance(q, p) == 0.5 && ProgressDistance(p, q) == 0.5
      && Drops([p, q], 2) == 1
  {
    if p + 0.5 >= 1.0 {
      FloatRemWrapsOnce(p + 0.5);
    }
    var q := FloatRem(p + 0.5, 1.0);
    assert Drops([p, q], 2) == Drops([p, q], 1) + StepDown(p, q);
    assert Drops([p, q], 1) == StepDown(q, p);
  }

  // ---------------------------------------------------------------------
  // from_features
  // ---------------------------------------------------------------------

  /** The one-candidate mapping: the pair and the pair half way round the circle. */
  function OppositePairs(p1: real, p2: real): (pairs: seq<(real, real)>)
  {
    [(p1, p2), (FloatRem(p1 + 0.5, 1.0), FloatRem(p2 + 0.5, 1.0))]
  }

  /**
   * `DoubleMapper::from_features` once its candidate list is sorted; None
   * where the source panics, in the helper or in `DoubleMapper::new`.
   */
  function FromCandidates(dvs: seq<DistanceVertex>, fixed: bool): (r: Option<DoubleMapper>)
    ensures r.Some? ==> r.value.Valid()
  {
    if |dvs| == 0 then Mapper.New(IdentityPairs)
    else if |dvs| == 1 then Mapper.New(OppositePairs(dvs[0].f1.progress, dvs[0].f2.progress))
    else
      match Fold(dvs, fixed)
      case None => None
      case Some(s) =>
        if fixed && |s.mapping| == 1 then Mapper.New(OppositePairs(s.mapping[0].0, s.mapping[0].1))
        else Mapper.New(s.mapping)
  }

  /** `DoubleMapper::from_features`: corners, candidates, sorted, then mapped. */
  function FromFeaturesOf(features1: seq<ProgressableFeature>, features2: seq<ProgressableFeature>, fixed: bool): (r: Option<DoubleMapper>)
    requires NonEmptyFeatures(features1) && NonEmptyFeatures(features2)
    ensures r.Some? ==> r.value.Valid()
  {
    FromCandidates(SortByDistance(Candidates(Corners(features1), Corners(features2))), fixed)
  }

  /** Sorting adds no candidate. */
  lemma SortKeepsMembers(dvs: seq<DistanceVertex>)
    ensures forall i :: 0 <= i < |SortByDistance(dvs)| ==> SortByDistance(dvs)[i] in dvs
  {
    var r := SortByDistance(dvs);
    forall i | 0 <= i < |r|
      ensures r[i] in dvs
    {
      assert r[i] in multiset(dvs);
    }
  }

  /** Candidates that all share one source feature leave the helper with exactly one pair. */
  lemma {:induction false} FoldOneSource(dvs: seq<DistanceVertex>, fixed: bool, f: ProgressableFeature)
    requires |dvs| > 0 && forall i :: 0 <= i < |dvs| ==> dvs[i].f1 == f
    ensures Fold(dvs, fixed).Some?
    ensures |Fold(dvs, fixed).value.mapping| == 1 && Fold(dvs, fixed).value.usedF1 == [f]
  {
    var prefix := dvs[..|dvs| - 1];
    var dv := dvs[|dvs| - 1];
    if |prefix| == 0 {
      AddToEmpty(dv.f1, dv.f2, fixed);
    } else {
      FoldOneSource(prefix, fixed, f);
    }
  }

  /**
   * As written, one corner on the first side facing two or more
   * same-convexity corners on the other makes `from_features` panic: every
   * candidate after the first reuses that corner, the helper ends with one
   * pair, and `DoubleMapper::new` rejects a single pair.
   */
  lemma AsWrittenSingleCornerPanics(features1: seq<ProgressableFeature>, features2: seq<ProgressableFeature>)
    requires NonEmptyFeatures(features1) && NonEmptyFeatures(features2)
    requires |Corners(features1)| == 1
    requires |Candidates(Corners(features1), Corners(features2))| >= 2
    ensures FromFeaturesOf(features1, features2, false).None?
  {
    CornersKeepCubics(features1);
    CornersKeepCubics(features2);
    var dvs := OneCornerFolds(Corners(features1), Corners(features2));
    OnePairPanics(dvs);
  }

  /** Corners are drawn from the features, so they keep their cubics. */
  lemma CornersKeepCubics(fs: seq<ProgressableFeature>)
    requires NonEmptyFeatures(fs)
    ensures NonEmptyFeatures(Corners(fs))
  {
    var cs := Corners(fs);
    forall i | 0 <= i < |cs|
      ensures |cs[i].feature.cubics| > 0
    {
      assert cs[i] in fs;
    }
  }

  /** With one corner on the first side and two candidates, the helper ends with one pair. */
  lemma OneCornerFolds(c1: seq<ProgressableFeature>, c2: seq<ProgressableFeature>) returns (dvs: seq<DistanceVertex>)
    requires NonEmptyFeatures(c1) && NonEmptyFeatures(c2) && |c1| == 1
    requires |Candidates(c1, c2)| >= 2
    ensures dvs == SortByDistance(Candidates(c1, c2))
    ensures |dvs| >= 2 && Fold(dvs, false).Some? && |Fold(dvs, false).value.mapping| == 1
  {
    var candidates := Candidates(c1, c2);
    dvs := SortByDistance(candidates);
    SortKeepsMembers(candidates);
    forall i | 0 <= i < |dvs|
      ensures dvs[i].f1 == c1[0]
    {
      assert dvs[i] in candidates;
    }
    FoldOneSource(dvs, false, c1[0]);
    assert |multiset(dvs)| == |multiset(candidates)|;
  }

  /** As written, a helper that ends with one pair makes `from_features` panic. */
  lemma OnePairPanics(dvs: seq<DistanceVertex>)
    requires |dvs| >= 2 && Fold(dvs, false).Some? && |Fold(dvs, false).value.mapping| == 1
    ensures FromCandidates(dvs, false).None?
  {
    SinglePairRejected(Fold(dvs, false).value.mapping);
  }

  /** `DoubleMapper::new` rejects a single pair: it is too close to itself. */
  lemma SinglePairRejected(m: seq<(real, real)>)
    requires |m| == 1
    ensures Mapper.New(m).None?
  {
    ValidProgressIsRotatedIncreasing(Firsts(m));
  }

  /**
   * With both corrections, `from_features` never panics on features whose
   * progress lies in [0, 1) and tells the source features apart.
   */
  lemma FixedFromFeaturesSucceeds(features1: seq<ProgressableFeature>, features2: seq<ProgressableFeature>)
    requires NonEmptyFeatures(features1) && NonEmptyFeatures(features2)
    requires forall i :: 0 <= i < |features1| ==> UnitProgress(features1[i])
    requires forall i :: 0 <= i < |features2| ==> UnitProgress(features2[i])
    requires ProgressIdentifies(features1)
    ensures FromFeaturesOf(features1, features2, true).Some?
  {
    var candidates := Candidates(Corners(features1), Corners(features2));
    var dvs := SortByDistance(candidates);
    SortKeepsMembers(candidates);
    forall i | 0 <= i < |dvs|
      ensures dvs[i].f1 in features1 && UnitProgress(dvs[i].f1) && UnitProgress(dvs[i].f2)
    {
      assert dvs[i] in candidates;
    }
    FixedFromCandidatesSucceeds(dvs, features1);
  }

  /** The corrected mapping step succeeds on any candidate list drawn from features that progress tells apart. */
  lemma FixedFromCandidatesSucceeds(dvs: seq<DistanceVertex>, features1: seq<ProgressableFeature>)
    requires ProgressIdentifies(features1)
    requires forall i :: 0 <= i < |dvs| ==> dvs[i].f1 in features1 && UnitProgress(dvs[i].f1) && UnitProgress(dvs[i].f2)
    ensures FromCandidates(dvs, true).Some?
  {
    if |dvs| == 0 {
      var _ := Identity();
    } else if |dvs| == 1 {
      OppositePairsAreValid(dvs[0].f1.progress, dvs[0].f2.progress);
    } else {
      FoldKeepsInvariant(dvs, true, features1);
      var m := Fold(dvs, true).value.mapping;
      if |m| == 1 {
        assert Firsts(m)[0] == m[0].0 && Seconds(m)[0] == m[0].1;
        OppositePairsAreValid(m[0].0, m[0].1);
      } else {
        FixedHelperMappingIsValid(Fold(dvs, true).value);
      }
    }
  }

  /**
   * As written, the neighbour test lets through a pair exactly
   * DISTANCE_EPSILON from its neighbour, which `DoubleMapper::new` then
   * rejects; with the corrected test the pair is skipped.
   */
  lemma AsWrittenAcceptsPairAtEpsilon(a1: ProgressableFeature, a2: ProgressableFeature, f1: ProgressableFeature, f2: ProgressableFeature)
    requires a1.progress == 0.0 && a2.progress == 0.0 && f1.progress == 0.0001 && f2.progress == 0.5
    requires a1 != f1 && a2 != f2
    ensures var s := HelperState([(0.0, 0.0)], [a1], [a2]);
      AddMappingOf(s, f1, f2, false) == Some(HelperState([(0.0, 0.0), (0.0001, 0.5)], [a1, f1], [a2, f2]))
      && Mapper.New([(0.0, 0.0), (0.0001, 0.5)]).None?
      && AddMappingOf(s, f1, f2, true) == Some(s)
  {
    var s := HelperState([(0.0, 0.0)], [a1], [a2]);
    assert InsertionIndex(s.mapping, f1.progress) == 1;
    assert Insert(s.mapping, 1, (0.0001, 0.5)) == [(0.0, 0.0), (0.0001, 0.5)];
    assert s.usedF1 + [f1] == [a1, f1] && s.usedF2 + [f2] == [a2, f2];
    var p := Firsts([(0.0, 0.0), (0.0001, 0.5)]);
    assert p == [0.0, 0.0001];
    assert ProgressDistance(p[1], p[PrevIndex(2, 1)]) == 0.0001;
  }

  /** The corner filter loop. */
  method CornersIn(fs: seq<ProgressableFeature>) returns (filtered: seq<ProgressableFeature>)
    ensures filtered == Corners(fs)
  {
    filtered := [];
    for i := 0 to |fs|
      invariant filtered == Corners(fs[..i])
    {
      assert fs[..i + 1][..i] == fs[..i];
      if IsCorner(fs[i].feature) {
        filtered := filtered + [fs[i]];
      }
    }
    assert fs[..|fs|] == fs;
  }

  /** The nested candidate loops: the outer one over `c1`. */
  method DistanceVertices(c1: seq<ProgressableFeature>, c2: seq<ProgressableFeature>) returns (list: seq<DistanceVertex>)
    requires NonEmptyFeatures(c1) && NonEmptyFeatures(c2)
    ensures list == Candidates(c1, c2)
  {
    list := [];
    for i := 0 to |c1|
      invariant list == Candidates(c1[..i], c2)
    {
      assert c1[..i + 1][..i] == c1[..i];
      var row := RowOf(c1[i], c2);
      list := list + row;
    }
    assert c1[..|c1|] == c1;
  }

  /** The inner candidate loop over `c2`, for one feature f1. */
  method RowOf(f1: ProgressableFeature, c2: seq<ProgressableFeature>) returns (row: seq<DistanceVertex>)
    requires |f1.feature.cubics| > 0 && NonEmptyFeatures(c2)
    ensures row == Row(f1, c2)
  {
    row := [];
    for j := 0 to |c2|
      invariant row == Row(f1, c2[..j])
    {
      assert c2[..j + 1][..j] == c2[..j];
      var distance := FeatureDistSquared(f1.feature, c2[j].feature);
      if distance.Some? {
        row := row + [DistanceVertex(distance.value, f1, c2[j])];
      }
    }
    assert c2[..|c2|] == c2;
  }

  /** The helper loop: every candidate offered in order; None once one panics. */
  method RunHelper(dvs: seq<DistanceVertex>, fixed: bool) returns (r: Option<seq<(real, real)>>)
    ensures r.None? <==> Fold(dvs, fixed).None?
    ensures r.Some? ==> r.value == Fold(dvs, fixed).value.mapping
  {
    var helper := new MappingHelper();
    for i := 0 to |dvs|
      invariant Fold(dvs[..i], fixed) == Some(helper.State())
    {
      assert dvs[..i + 1][..i] == dvs[..i];
      var ok := helper.AddMapping(dvs[i].f1, dvs[i].f2, fixed);
      if !ok {
        FoldStaysFailed(dvs, fixed, i + 1);
        return None;
      }
    }
    assert dvs[..|dvs|] == dvs;
    return Some(helper.mapping);
  }

  lemma {:induction false} FoldStaysFailed(dvs: seq<DistanceVertex>, fixed: bool, i: nat)
    requires i <= |dvs| && Fold(dvs[..i], fixed).None?
    ensures Fold(dvs, fixed).None?
    decreases |dvs| - i
  {
    if i < |dvs| {
      assert dvs[..i + 1][..i] == dvs[..i];
      FoldStaysFailed(dvs, fixed, i + 1);
    } else {
      assert dvs[..i] == dvs;
    }
  }

  /** `DoubleMapper::from_features`. */
  method FromFeatures(features1: seq<ProgressableFeature>, features2: seq<ProgressableFeature>, fixed: bool) returns (r: Option<DoubleMapper>)
    requires NonEmptyFeatures(features1) && NonEmptyFeatures(features2)
    ensures r == FromFeaturesOf(features1, features2, fixed)
  {
    var filtered1 := CornersIn(features1);
    var filtered2 := CornersIn(features2);
    var list := DistanceVertices(filtered1, filtered2);
    list := SortByDistance(list);
    if |list| == 0 {
      return Mapper.New(IdentityPairs);
    }
    if |list| == 1 {
      return Mapper.New(OppositePairs(list[0].f1.progress, list[0].f2.progress));
    }
    var mapping := RunHelper(list, fixed);
    if mapping.None? {
      return None;
    }
    if fixed && |mapping.value| == 1 {
      return Mapper.New(OppositePairs(mapping.value[0].0, mapping.value[0].1));
    }
    return Mapper.New(mapping.value);
  }
}
