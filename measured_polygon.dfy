/**
 * Outlines measured by progress (src/measured_polygon.rs): each cubic
 * carries the stretch [start, end] of the outline's [0, 1] progress that it
 * covers, as the length measurer apportions it.
 */
module MeasuredPolygons {
  import opened Wrappers
  import opened Geometry
  import opened Util
  import opened Cubics
  import opened Features
  import opened Measurer

  datatype MeasuredCubic = MeasuredCubic(
    cubic: Cubic,
    startOutlineProgress: real,
    endOutlineProgress: real,
    measuredSize: real)

  datatype ProgressableFeature = ProgressableFeature(progress: real, feature: Feature)

  /** The measurer itself is the `len` parameter the operations take. */
  datatype MeasuredPolygon = MeasuredPolygon(cubics: seq<MeasuredCubic>, features: seq<ProgressableFeature>)

  /** `MeasuredCubic::new`: records the cubic's measured size. */
  function NewMeasuredCubic(c: Cubic, start: real, end: real, len: Length): (m: MeasuredCubic)
    ensures m.cubic == c && m.startOutlineProgress == start && m.endOutlineProgress == end
    ensures m.measuredSize == MeasureCubic(c, len) >= 0.0
  {
    MeasuredCubic(c, start, end, MeasureCubic(c, len))
  }

  /** `f32::clamp`, for lo <= hi. */
  function Clamp(x: real, lo: real, hi: real): (r: real)
    requires lo <= hi
    ensures lo <= r <= hi
    ensures lo <= x <= hi ==> r == x
    ensures x < lo ==> r == lo
    ensures x > hi ==> r == hi
  {
    if x < lo then lo else if x > hi then hi else x
  }

  /**
   * `cut_at_progress`: splits the cubic where the outline reaches `cut`,
   * clamped into the cubic's own stretch. The first piece covers
   * [start, cut], the second [cut, end], and they meet at the split point.
   * An empty stretch makes the relative progress 0/0, a NaN that no chord
   * reaches, so the cut falls at t = 1: the whole cubic, then a point cubic
   * at its end. None where the source panics: an inverted stretch (the clamp
   * panics) or a cut parameter outside [0, 1].
   */
  function CutAtProgress(mc: MeasuredCubic, cut: real, len: Length): (r: Option<(MeasuredCubic, MeasuredCubic)>)
    ensures mc.startOutlineProgress > mc.endOutlineProgress ==> r.None?
    ensures mc.startOutlineProgress == mc.endOutlineProgress ==>
      && r.Some?
      && r.value.0.cubic == mc.cubic
      && var p := mc.cubic.anchor1; r.value.1.cubic == Cubic(p, p, p, p)
    ensures r.Some? ==>
      var bounded := Clamp(cut, mc.startOutlineProgress, mc.endOutlineProgress);
      && r.value.0.startOutlineProgress == mc.startOutlineProgress
      && r.value.0.endOutlineProgress == bounded == r.value.1.startOutlineProgress
      && r.value.1.endOutlineProgress == mc.endOutlineProgress
      && r.value.0.cubic.anchor0 == mc.cubic.anchor0
      && r.value.0.cubic.anchor1 == r.value.1.cubic.anchor0
      && r.value.1.cubic.anchor1 == mc.cubic.anchor1
      && r.value.0.measuredSize >= 0.0 && r.value.1.measuredSize >= 0.0
  {
    if mc.startOutlineProgress > mc.endOutlineProgress then None
    else
      var bounded := Clamp(cut, mc.startOutlineProgress, mc.endOutlineProgress);
      var t := if mc.startOutlineProgress == mc.endOutlineProgress then ClosestProgress(mc.cubic, NaN, len).0
               else FindCubicCutPoint(mc.cubic, RelativeMeasure(mc, bounded), len);
      if t.None? || !(0.0 <= t.value <= 1.0) then None
      else
        var halves := Split(mc.cubic, t.value);
        Some((NewMeasuredCubic(halves.0, mc.startOutlineProgress, bounded, len),
              NewMeasuredCubic(halves.1, bounded, mc.endOutlineProgress, len)))
  }

  /** The share of the measured size that lies before `bounded`. */
  function RelativeMeasure(mc: MeasuredCubic, bounded: real): (m: real)
    requires mc.startOutlineProgress < mc.endOutlineProgress
    requires mc.startOutlineProgress <= bounded <= mc.endOutlineProgress
    ensures mc.measuredSize >= 0.0 ==> 0.0 <= m <= mc.measuredSize
    ensures bounded == mc.startOutlineProgress ==> m == 0.0
    ensures bounded == mc.endOutlineProgress ==> m == mc.measuredSize
  {
    var size := mc.endOutlineProgress - mc.startOutlineProgress;
    var relative := (bounded - mc.startOutlineProgress) / size;
    FractionInUnit(bounded - mc.startOutlineProgress, size);
    ScaleByFraction(relative, mc.measuredSize);
    relative * mc.measuredSize
  }

  lemma ScaleByFraction(f: real, m: real)
    requires 0.0 <= f <= 1.0
    ensures m >= 0.0 ==> 0.0 <= f * m <= m
    ensures f == 0.0 ==> f * m == 0.0
    ensures f == 1.0 ==> f * m == m
  {
  }

  /** The length measurer never yields a zero chord on this cubic. */
  predicate Measurable(c: Cubic, len: Length)
  {
    forall i :: 1 <= i <= SEGMENTS ==> Chord(c, i, len) > 0.0
  }

  /**
   * On a measured cubic with a non-empty stretch and non-zero chords the cut
   * always succeeds; cutting at the start leaves the whole cubic in the second
   * piece, and cutting at the end leaves it in the first.
   */
  lemma CutAtProgressSucceeds(mc: MeasuredCubic, cut: real, len: Length)
    requires mc.startOutlineProgress < mc.endOutlineProgress
    requires mc.measuredSize == MeasureCubic(mc.cubic, len) && Measurable(mc.cubic, len)
    ensures CutAtProgress(mc, cut, len).Some?
    ensures cut <= mc.startOutlineProgress ==> CutAtProgress(mc, cut, len).value.1.cubic == mc.cubic
    ensures cut >= mc.endOutlineProgress ==> CutAtProgress(mc, cut, len).value.0.cubic == mc.cubic
  {
    var bounded := Clamp(cut, mc.startOutlineProgress, mc.endOutlineProgress);
    var m := RelativeMeasure(mc, bounded);
    CutPointInUnitInterval(mc.cubic, m, len);
    if cut <= mc.startOutlineProgress {
      CutAtZero(mc.cubic, len);
    }
  }

  lemma CutAtZero(c: Cubic, len: Length)
    requires Measurable(c, len)
    ensures FindCubicCutPoint(c, 0.0, len) == Some(0.0)
  {
    var chords := Chords(c, len);
    assert chords[0] > 0.0;
    assert ClosestFrom(chords, Finite(0.0), 1).0 == Some(ChordEnd(1) - (1.0 - 0.0 / chords[0]) / SEGMENTS as real);
  }

  /** The end of the last measured cubic, or 0 when there is none. */
  function LastEnd(ms: seq<MeasuredCubic>): real
  {
    if |ms| == 0 then 0.0 else ms[|ms| - 1].endOutlineProgress
  }

  /** Whether cubic i's outline progress grows by more than DISTANCE_EPSILON. */
  predicate Grows(op: seq<real>, i: nat)
    requires i + 1 < |op|
  {
    op[i + 1] - op[i] > DISTANCE_EPSILON
  }

  /**
   * The measured cubics `new` keeps among the first n: each growing cubic,
   * starting where the previous kept one ended.
   */
  function Kept(cubics: seq<Cubic>, op: seq<real>, n: nat, len: Length): (ms: seq<MeasuredCubic>)
    requires n <= |cubics| && n < |op|
    ensures |ms| <= n
  {
    if n == 0 then []
    else
      var prev := Kept(cubics, op, n - 1, len);
      if Grows(op, n - 1) then prev + [NewMeasuredCubic(cubics[n - 1], LastEnd(prev), op[n], len)]
      else prev
  }

  /** The indices below n of the cubics that grow, in order. */
  ghost function KeptIndices(op: seq<real>, n: nat): (ks: seq<nat>)
    requires n < |op|
    ensures forall j :: 0 <= j < |ks| ==> ks[j] < n
  {
    if n == 0 then []
    else KeptIndices(op, n - 1) + (if Grows(op, n - 1) then [n - 1] else [])
  }

  /** The result of `MeasuredPolygon::new`, with the last kept end forced to 1. */
  function NewPolygon(features: seq<ProgressableFeature>, cubics: seq<Cubic>, op: seq<real>, len: Length): (r: Option<MeasuredPolygon>)
  {
    if |op| <= |cubics| then None
    else
      var ms := Kept(cubics, op, |cubics|, len);
      if |ms| == 0 then None
      else Some(MeasuredPolygon(ms[..|ms| - 1] + [ms[|ms| - 1].(endOutlineProgress := 1.0)], features))
  }

  /**
   * `MeasuredPolygon::new`: drops the cubics whose progress does not grow
   * and chains the rest; None where the source panics (nothing kept, or too
   * few progress values).
   */
  method New(features: seq<ProgressableFeature>, cubics: seq<Cubic>, op: seq<real>, len: Length)
    returns (r: Option<MeasuredPolygon>)
    ensures r == NewPolygon(features, cubics, op, len)
  {
    var measured: seq<MeasuredCubic> := [];
    var start := 0.0;
    for index := 0 to |cubics|
      invariant index == 0 || index < |op|
      invariant index < |op| ==> measured == Kept(cubics, op, index, len)
      invariant start == LastEnd(measured)
      invariant |measured| <= index
    {
      if index + 1 >= |op| {
        return None;
      }
      if op[index + 1] - op[index] > DISTANCE_EPSILON {
        measured := measured + [NewMeasuredCubic(cubics[index], start, op[index + 1], len)];
        start := op[index + 1];
      }
    }
    if |measured| == 0 {
      return None;
    }
    var i := |measured| - 1;
    assert measured == Kept(cubics, op, |cubics|, len);
    measured := measured[..i] + [measured[i].(endOutlineProgress := 1.0)];
    return Some(MeasuredPolygon(measured, features));
  }

  /** The kept cubics are exactly the growing ones, in order, each ending at its own progress. */
  lemma {:induction false} KeptAreTheGrowing(cubics: seq<Cubic>, op: seq<real>, n: nat, len: Length)
    requires n <= |cubics| && n < |op|
    ensures |Kept(cubics, op, n, len)| == |KeptIndices(op, n)|
    ensures forall j :: 0 <= j < |KeptIndices(op, n)| ==>
      var i := KeptIndices(op, n)[j];
      Grows(op, i) && Kept(cubics, op, n, len)[j].cubic == cubics[i]
      && Kept(cubics, op, n, len)[j].endOutlineProgress == op[i + 1]
    ensures forall i :: 0 <= i < n && Grows(op, i) ==> i in KeptIndices(op, n)
    ensures forall j, k :: 0 <= j < k < |KeptIndices(op, n)| ==> KeptIndices(op, n)[j] < KeptIndices(op, n)[k]
  {
    if n > 0 {
      KeptAreTheGrowing(cubics, op, n - 1, len);
    }
  }

  /** Kept cubics are contiguous: the first starts at 0 and each starts where the previous ended. */
  lemma {:induction false} KeptAreContiguous(cubics: seq<Cubic>, op: seq<real>, n: nat, len: Length)
    requires n <= |cubics| && n < |op|
    ensures forall j :: 0 <= j < |Kept(cubics, op, n, len)| ==>
      Kept(cubics, op, n, len)[j].startOutlineProgress == LastEnd(Kept(cubics, op, n, len)[..j])
  {
    if n > 0 {
      var prev := Kept(cubics, op, n - 1, len);
      KeptAreContiguous(cubics, op, n - 1, len);
      var ms := Kept(cubics, op, n, len);
      forall j | 0 <= j < |ms|
        ensures ms[j].startOutlineProgress == LastEnd(ms[..j])
      {
        if j < |prev| {
          assert ms[..j] == prev[..j];
        } else {
          assert ms[..j] == prev;
        }
      }
    }
  }

  /**
   * When the progress values never decrease, every kept cubic covers more
   * than DISTANCE_EPSILON of the outline, and so does the last one once its
   * end is forced to 1, provided no value exceeds 1.
   */
  lemma {:induction false} KeptStretchesAreWide(cubics: seq<Cubic>, op: seq<real>, n: nat, len: Length)
    requires n <= |cubics| && n < |op|
    requires forall a, b :: 0 <= a <= b < |op| ==> op[a] <= op[b]
    requires op[0] >= 0.0
    ensures forall j :: 0 <= j < |Kept(cubics, op, n, len)| ==>
      Kept(cubics, op, n, len)[j].endOutlineProgress - Kept(cubics, op, n, len)[j].startOutlineProgress > DISTANCE_EPSILON
    ensures LastEnd(Kept(cubics, op, n, len)) <= op[n]
  {
    if n > 0 {
      KeptStretchesAreWide(cubics, op, n - 1, len);
    }
  }

  /** What `new` returns: contiguous stretches from 0 to exactly 1, each wider than DISTANCE_EPSILON. */
  lemma NewPolygonCoversUnitInterval(features: seq<ProgressableFeature>, cubics: seq<Cubic>, op: seq<real>, len: Length)
    requires NewPolygon(features, cubics, op, len).Some?
    ensures var p := NewPolygon(features, cubics, op, len).value;
      && p.features == features
      && |p.cubics| > 0
      && p.cubics[0].startOutlineProgress == 0.0
      && (forall j :: 0 < j < |p.cubics| ==> p.cubics[j].startOutlineProgress == p.cubics[j - 1].endOutlineProgress)
      && p.cubics[|p.cubics| - 1].endOutlineProgress == 1.0
    ensures (forall a, b :: 0 <= a <= b < |op| ==> op[a] <= op[b]) && op[0] >= 0.0 && op[|op| - 1] <= 1.0 ==>
      var p := NewPolygon(features, cubics, op, len).value;
      forall j :: 0 <= j < |p.cubics| ==> p.cubics[j].endOutlineProgress - p.cubics[j].startOutlineProgress > DISTANCE_EPSILON
  {
    var ms := Kept(cubics, op, |cubics|, len);
    KeptAreContiguous(cubics, op, |cubics|, len);
    EndForcedChainIsContiguous(ms);
    if (forall a, b :: 0 <= a <= b < |op| ==> op[a] <= op[b]) && op[0] >= 0.0 && op[|op| - 1] <= 1.0 {
      KeptStretchesAreWide(cubics, op, |cubics|, len);
      KeptEndsWithin(cubics, op, |cubics|, len, |ms| - 1);
      EndForcedChainIsWide(ms);
    }
  }

  /** A chain starting at 0 stays contiguous, and now ends at 1, once its last end is forced to 1. */
  lemma EndForcedChainIsContiguous(ms: seq<MeasuredCubic>)
    requires |ms| > 0
    requires forall j :: 0 <= j < |ms| ==> ms[j].startOutlineProgress == LastEnd(ms[..j])
    ensures var qs := ms[..|ms| - 1] + [ms[|ms| - 1].(endOutlineProgress := 1.0)];
      && qs[0].startOutlineProgress == 0.0
      && (forall j :: 0 < j < |qs| ==> qs[j].startOutlineProgress == qs[j - 1].endOutlineProgress)
      && qs[|qs| - 1].endOutlineProgress == 1.0
  {
    var qs := ms[..|ms| - 1] + [ms[|ms| - 1].(endOutlineProgress := 1.0)];
    assert ms[0].startOutlineProgress == LastEnd(ms[..0]);
    forall j | 0 < j < |qs|
      ensures qs[j].startOutlineProgress == qs[j - 1].endOutlineProgress
    {
      assert ms[..j][j - 1] == ms[j - 1];
    }
  }

  /** Forcing the last end of a chain of wide stretches up to 1 keeps every stretch wide. */
  lemma EndForcedChainIsWide(ms: seq<MeasuredCubic>)
    requires |ms| > 0 && ms[|ms| - 1].endOutlineProgress <= 1.0
    requires forall j :: 0 <= j < |ms| ==> ms[j].endOutlineProgress - ms[j].startOutlineProgress > DISTANCE_EPSILON
    ensures var qs := ms[..|ms| - 1] + [ms[|ms| - 1].(endOutlineProgress := 1.0)];
      forall j :: 0 <= j < |qs| ==> qs[j].endOutlineProgress - qs[j].startOutlineProgress > DISTANCE_EPSILON
  {
  }

  lemma {:induction false} KeptEndsWithin(cubics: seq<Cubic>, op: seq<real>, n: nat, len: Length, j: nat)
    requires n <= |cubics| && n < |op| && j < |Kept(cubics, op, n, len)|
    requires forall a, b :: 0 <= a <= b < |op| ==> op[a] <= op[b]
    ensures Kept(cubics, op, n, len)[j].endOutlineProgress <= op[|op| - 1]
  {
    if j < |Kept(cubics, op, n - 1, len)| {
      KeptEndsWithin(cubics, op, n - 1, len, j);
    }
  }

  /** All cubics of the features, in order. */
  function Flatten(fs: seq<Feature>): (cs: seq<Cubic>)
  {
    if |fs| == 0 then [] else Flatten(fs[..|fs| - 1]) + fs[|fs| - 1].cubics
  }

  /**
   * For each corner with at least one cubic, the corner and the index in
   * `Flatten(fs)` of its middle cubic (the one at `len / 2`).
   */
  function CornerRefs(fs: seq<Feature>): (refs: seq<(Feature, nat)>)
  {
    if |fs| == 0 then []
    else
      var f := fs[|fs| - 1];
      CornerRefs(fs[..|fs| - 1])
        + (if IsCorner(f) && |f.cubics| > 0 then [(f, |Flatten(fs[..|fs| - 1])| + |f.cubics| / 2)] else [])
  }

  /** Running sums of the cubics' measures, starting from 0. */
  function Measures(cubics: seq<Cubic>, len: Length): (ms: seq<real>)
    ensures |ms| == |cubics| + 1 && ms[0] == 0.0
    ensures forall i :: 0 <= i < |cubics| ==> ms[i + 1] == ms[i] + MeasureCubic(cubics[i], len)
  {
    if |cubics| == 0 then [0.0]
    else
      var init := cubics[..|cubics| - 1];
      var prev := Measures(init, len);
      assert forall i :: 0 <= i < |init| ==> init[i] == cubics[i];
      prev + [prev[|prev| - 1] + MeasureCubic(cubics[|cubics| - 1], len)]
  }

  /** Each running sum divided by the total. */
  function OutlineProgress(ms: seq<real>): (op: seq<real>)
    requires |ms| > 0 && ms[|ms| - 1] != 0.0
    ensures |op| == |ms|
    ensures forall i :: 0 <= i < |ms| ==> op[i] == ms[i] / ms[|ms| - 1]
  {
    seq(|ms|, i requires 0 <= i < |ms| => ms[i] / ms[|ms| - 1])
  }

  /** The progressable feature for each corner reference: the midpoint progress of its middle cubic. */
  function ProgressableFeatures(refs: seq<(Feature, nat)>, op: seq<real>): (pfs: seq<ProgressableFeature>)
    requires forall k :: 0 <= k < |refs| ==> refs[k].1 + 1 < |op|
    ensures |pfs| == |refs|
    ensures forall k :: 0 <= k < |refs| ==>
      (pfs[k].feature == refs[k].0 && pfs[k].progress == PositiveModulo((op[refs[k].1] + op[refs[k].1 + 1]) / 2.0))
  {
    seq(|refs|, k requires 0 <= k < |refs| => ProgressableFeature(PositiveModulo((op[refs[k].1] + op[refs[k].1 + 1]) / 2.0), refs[k].0))
  }

  /** What `measure_polygon` yields; None where the total measure is 0 and the source divides 0 by 0. */
  function MeasuredOf(fs: seq<Feature>, len: Length): (r: Option<MeasuredPolygon>)
    ensures r.Some? ==> |r.value.cubics| > 0 && r.value.cubics[|r.value.cubics| - 1].endOutlineProgress == 1.0
    ensures r.Some? ==> forall k :: 0 <= k < |r.value.features| ==> 0.0 <= r.value.features[k].progress < 1.0
  {
    var cubics := Flatten(fs);
    var ms := Measures(cubics, len);
    if ms[|ms| - 1] == 0.0 then None
    else
      var op := OutlineProgress(ms);
      CornerRefsPointAtMiddle(fs);
      NewPolygon(ProgressableFeatures(CornerRefs(fs), op), cubics, op, len)
  }

  /** `measure_polygon`, over the polygon's features. */
  method MeasurePolygon(fs: seq<Feature>, len: Length) returns (r: Option<MeasuredPolygon>)
    ensures r == MeasuredOf(fs, len)
  {
    var cubics, featureToCubic := CollectCubics(fs);
    var measures := Measures(cubics, len);
    var total := measures[|measures| - 1];
    if total == 0.0 {
      return None;
    }
    var outline := DivideByTotal(measures);
    CornerRefsPointAtMiddle(fs);
    var features := FeaturesAtProgress(featureToCubic, outline);
    r := New(features, cubics, outline, len);
  }

  /** The loop over the features collecting their cubics and each corner's middle cubic. */
  method CollectCubics(fs: seq<Feature>) returns (cubics: seq<Cubic>, featureToCubic: seq<(Feature, nat)>)
    ensures cubics == Flatten(fs) && featureToCubic == CornerRefs(fs)
  {
    cubics := [];
    featureToCubic := [];
    for featureIndex := 0 to |fs|
      invariant cubics == Flatten(fs[..featureIndex])
      invariant featureToCubic == CornerRefs(fs[..featureIndex])
    {
      var feature := fs[featureIndex];
      var before := cubics;
      for cubicIndex := 0 to |feature.cubics|
        invariant cubics == before + feature.cubics[..cubicIndex]
        invariant featureToCubic == CornerRefs(fs[..featureIndex])
          + (if IsCorner(feature) && |feature.cubics| / 2 < cubicIndex then [(feature, |before| + |feature.cubics| / 2)] else [])
      {
        if IsCorner(feature) && cubicIndex == |feature.cubics| / 2 {
          featureToCubic := featureToCubic + [(feature, |cubics|)];
        }
        cubics := cubics + [feature.cubics[cubicIndex]];
      }
      assert fs[..featureIndex + 1][..featureIndex] == fs[..featureIndex];
    }
    assert fs[..|fs|] == fs;
  }

  method DivideByTotal(measures: seq<real>) returns (outline: seq<real>)
    requires |measures| > 0 && measures[|measures| - 1] != 0.0
    ensures outline == OutlineProgress(measures)
  {
    var total := measures[|measures| - 1];
    outline := [];
    for i := 0 to |measures|
      invariant outline == OutlineProgress(measures)[..i]
    {
      outline := outline + [measures[i] / total];
    }
  }

  method FeaturesAtProgress(refs: seq<(Feature, nat)>, op: seq<real>) returns (features: seq<ProgressableFeature>)
    requires forall k :: 0 <= k < |refs| ==> refs[k].1 + 1 < |op|
    ensures features == ProgressableFeatures(refs, op)
  {
    features := [];
    for k := 0 to |refs|
      invariant features == ProgressableFeatures(refs, op)[..k]
    {
      var (feature, ix) := refs[k];
      features := features + [ProgressableFeature(PositiveModulo((op[ix] + op[ix + 1]) / 2.0), feature)];
    }
  }

  /** The reference names a corner with cubics and points at its middle cubic in `Flatten(fs)`. */
  predicate PointsAtMiddle(fs: seq<Feature>, ref: (Feature, nat))
  {
    var (f, ix) := ref;
    IsCorner(f) && |f.cubics| > 0 && ix < |Flatten(fs)| && Flatten(fs)[ix] == f.cubics[|f.cubics| / 2]
  }

  /**
   * Every reference names a corner with cubics and points at its middle
   * cubic within the flattened list; every such corner is referenced.
   */
  lemma CornerRefsPointAtMiddle(fs: seq<Feature>)
    ensures forall k :: 0 <= k < |CornerRefs(fs)| ==> PointsAtMiddle(fs, CornerRefs(fs)[k])
    ensures forall k :: 0 <= k < |fs| && IsCorner(fs[k]) && |fs[k].cubics| > 0 ==>
      (fs[k], |Flatten(fs[..k])| + |fs[k].cubics| / 2) in CornerRefs(fs)
  {
    CornerRefsAreMiddles(fs);
    CornersAreReferenced(fs);
  }

  lemma {:induction false} CornerRefsAreMiddles(fs: seq<Feature>)
    ensures forall k :: 0 <= k < |CornerRefs(fs)| ==> PointsAtMiddle(fs, CornerRefs(fs)[k])
  {
    if |fs| > 0 {
      var init := fs[..|fs| - 1];
      CornerRefsAreMiddles(init);
    }
  }

  lemma CornersAreReferenced(fs: seq<Feature>)
    ensures forall k :: 0 <= k < |fs| && IsCorner(fs[k]) && |fs[k].cubics| > 0 ==>
      (fs[k], |Flatten(fs[..k])| + |fs[k].cubics| / 2) in CornerRefs(fs)
  {
    forall k | 0 <= k < |fs| && IsCorner(fs[k]) && |fs[k].cubics| > 0
      ensures (fs[k], |Flatten(fs[..k])| + |fs[k].cubics| / 2) in CornerRefs(fs)
    {
      CornerReferencedAt(fs, k);
    }
  }

  lemma {:induction false} CornerReferencedAt(fs: seq<Feature>, k: nat)
    requires k < |fs| && IsCorner(fs[k]) && |fs[k].cubics| > 0
    ensures (fs[k], |Flatten(fs[..k])| + |fs[k].cubics| / 2) in CornerRefs(fs)
  {
    var init, f := fs[..|fs| - 1], fs[|fs| - 1];
    var tail := if IsCorner(f) && |f.cubics| > 0 then [(f, |Flatten(init)| + |f.cubics| / 2)] else [];
    assert CornerRefs(fs) == CornerRefs(init) + tail;
    if k == |fs| - 1 {
      assert fs[..k] == init;
      assert tail[0] in CornerRefs(fs);
    } else {
      CornerReferencedAt(init, k);
      assert fs[..k] == init[..k] && fs[k] == init[k];
    }
  }

  /** The outline progress runs from 0 to 1 and never decreases. */
  lemma OutlineProgressIsMonotone(cubics: seq<Cubic>, len: Length)
    requires Measures(cubics, len)[|cubics|] != 0.0
    ensures var op := OutlineProgress(Measures(cubics, len));
      && op[0] == 0.0 && op[|cubics|] == 1.0
      && forall a, b :: 0 <= a <= b < |op| ==> 0.0 <= op[a] <= op[b] <= 1.0
  {
    var ms := Measures(cubics, len);
    MeasuresGrow(cubics, len);
    var total := ms[|cubics|];
    forall a, b | 0 <= a <= b < |ms|
      ensures 0.0 <= ms[a] / total <= ms[b] / total <= 1.0
    {
      DivideOrdered(ms[a], ms[b], total);
    }
    DivideOrdered(0.0, total, total);
  }

  lemma {:induction false} MeasuresGrow(cubics: seq<Cubic>, len: Length)
    ensures var ms := Measures(cubics, len);
      forall a, b :: 0 <= a <= b < |ms| ==> 0.0 <= ms[a] <= ms[b] <= ms[|ms| - 1]
  {
    var ms := Measures(cubics, len);
    forall a, b | 0 <= a <= b < |ms|
      ensures 0.0 <= ms[a] <= ms[b] <= ms[|ms| - 1]
    {
      MeasuresGrowBetween(ms, cubics, len, a, b);
      MeasuresGrowBetween(ms, cubics, len, b, |ms| - 1);
      MeasuresGrowBetween(ms, cubics, len, 0, a);
    }
  }

  lemma {:induction false} MeasuresGrowBetween(ms: seq<real>, cubics: seq<Cubic>, len: Length, a: nat, b: nat)
    requires ms == Measures(cubics, len) && a <= b < |ms|
    ensures ms[a] <= ms[b]
    decreases b - a
  {
    if a < b {
      MeasuresGrowBetween(ms, cubics, len, a, b - 1);
    }
  }

  lemma DivideOrdered(x: real, y: real, total: real)
    requires 0.0 <= x <= y <= total && total != 0.0
    ensures 0.0 <= x / total <= y / total <= 1.0
    ensures x == 0.0 ==> x / total == 0.0
    ensures y == total ==> y / total == 1.0
  {
  }

  /** Whether the cubic's stretch contains the cutting point. */
  predicate Contains(mc: MeasuredCubic, cp: real)
  {
    mc.startOutlineProgress <= cp <= mc.endOutlineProgress
  }

  /** The first cubic at or after i whose stretch contains the cutting point. */
  function FindTarget(cubics: seq<MeasuredCubic>, cp: real, i: nat): (t: Option<nat>)
    requires i <= |cubics|
    ensures t.Some? ==>
      (i <= t.value < |cubics| && Contains(cubics[t.value], cp)
       && forall j :: i <= j < t.value ==> !Contains(cubics[j], cp))
    ensures t.None? ==> forall j :: i <= j < |cubics| ==> !Contains(cubics[j], cp)
    decreases |cubics| - i
  {
    if i == |cubics| then None
    else if Contains(cubics[i], cp) then Some(i)
    else FindTarget(cubics, cp, i + 1)
  }

  /** The `position` of the target cubic, defaulting to 0. */
  function TargetIndex(cubics: seq<MeasuredCubic>, cp: real): (t: nat)
    requires |cubics| > 0
    ensures t < |cubics|
  {
    var found := FindTarget(cubics, cp, 0);
    if found.Some? then found.value else 0
  }

  /** Position i of the list rotated to start at `target`: `(i + target) % n` without the division. */
  function RotIndex(n: nat, target: nat, i: nat): (j: nat)
    requires i < n && target < n
    ensures j < n
  {
    if i + target < n then i + target else i + target - n
  }

  lemma RotIndexIsModulo(n: nat, target: nat, i: nat)
    requires i < n && target < n
    ensures RotIndex(n, target, i) == (i + target) % n
  {
    if i + target < n {
      ModOfSmall(i + target, n);
    } else {
      ModWrap(i + target, n);
    }
  }

  /** The cubics after the cut: b2, the others from the target onwards cyclically, then b1. */
  function ShiftedCubics(cubics: seq<MeasuredCubic>, target: nat, b1: MeasuredCubic, b2: MeasuredCubic): (cs: seq<Cubic>)
    requires target < |cubics|
    ensures |cs| == |cubics| + 1
    ensures cs[0] == b2.cubic && cs[|cubics|] == b1.cubic
    ensures forall i :: 1 <= i < |cubics| ==> cs[i] == cubics[RotIndex(|cubics|, target, i)].cubic
  {
    var n := |cubics|;
    var middle := seq(n - 1, i requires 0 <= i < n - 1 => cubics[(i + 1 + target) % n].cubic);
    assert forall i :: 1 <= i < n ==> middle[i - 1] == cubics[RotIndex(n, target, i)].cubic by {
      forall i | 1 <= i < n
        ensures middle[i - 1] == cubics[RotIndex(n, target, i)].cubic
      {
        RotIndexIsModulo(n, target, i);
      }
    }
    [b2.cubic] + middle + [b1.cubic]
  }

  /** The outline progress after the shift: 0, each cubic's end shifted by -cp modulo 1, then 1. */
  function ShiftedProgress(cubics: seq<MeasuredCubic>, target: nat, cp: real): (op: seq<real>)
    requires target < |cubics|
    ensures |op| == |cubics| + 2
    ensures op[0] == 0.0 && op[|cubics| + 1] == 1.0
    ensures forall i :: 1 <= i <= |cubics| ==>
      op[i] == PositiveModulo(cubics[RotIndex(|cubics|, target, i - 1)].endOutlineProgress - cp)
    ensures forall i :: 0 <= i < |op| ==> 0.0 <= op[i] <= 1.0
  {
    var n := |cubics|;
    var op := seq(n + 2, i requires 0 <= i < n + 2 =>
      if i == 0 then 0.0
      else if i == n + 1 then 1.0
      else PositiveModulo(cubics[(target + i - 1) % n].endOutlineProgress - cp));
    assert forall i :: 1 <= i <= n ==> op[i] == PositiveModulo(cubics[RotIndex(n, target, i - 1)].endOutlineProgress - cp) by {
      forall i | 1 <= i <= n
        ensures op[i] == PositiveModulo(cubics[RotIndex(n, target, i - 1)].endOutlineProgress - cp)
      {
        RotIndexIsModulo(n, target, i - 1);
      }
    }
    op
  }

  /** Every feature moved by -cp modulo 1. */
  function ShiftedFeatures(fs: seq<ProgressableFeature>, cp: real): (r: seq<ProgressableFeature>)
    ensures |r| == |fs|
    ensures forall i :: 0 <= i < |fs| ==> r[i] == ProgressableFeature(PositiveModulo(fs[i].progress - cp), fs[i].feature)
  {
    seq(|fs|, i requires 0 <= i < |fs| => ProgressableFeature(PositiveModulo(fs[i].progress - cp), fs[i].feature))
  }

  /**
   * What `cut_and_shift` yields: the polygon re-based so that progress cp
   * becomes 0; the polygon itself when cp is below DISTANCE_EPSILON; None
   * where the source panics.
   */
  function CutAndShiftOf(mp: MeasuredPolygon, cp: real, len: Length): (r: Option<MeasuredPolygon>)
    ensures !(0.0 <= cp <= 1.0) ==> r.None?
    ensures 0.0 <= cp < DISTANCE_EPSILON ==> r == Some(mp)
  {
    if !(0.0 <= cp <= 1.0) then None
    else if cp < DISTANCE_EPSILON then Some(mp)
    else if |mp.cubics| == 0 then None
    else
      var target := TargetIndex(mp.cubics, cp);
      var cut := CutAtProgress(mp.cubics[target], cp, len);
      if cut.None? then None
      else
        NewPolygon(ShiftedFeatures(mp.features, cp),
                   ShiftedCubics(mp.cubics, target, cut.value.0, cut.value.1),
                   ShiftedProgress(mp.cubics, target, cp), len)
  }

  /** `cut_and_shift`. */
  method CutAndShift(mp: MeasuredPolygon, cp: real, len: Length) returns (r: Option<MeasuredPolygon>)
    ensures r == CutAndShiftOf(mp, cp, len)
  {
    if !(0.0 <= cp <= 1.0) {
      return None;
    }
    if cp < DISTANCE_EPSILON {
      return Some(mp);
    }
    if |mp.cubics| == 0 {
      return None;
    }
    var target := TargetIndex(mp.cubics, cp);
    var cut := CutAtProgress(mp.cubics[target], cp, len);
    if cut.None? {
      return None;
    }
    var retCubics := RotateAtCut(mp.cubics, target, cut.value.0, cut.value.1);
    var retProgress := ShiftProgress(mp.cubics, target, cp);
    var newFeatures := ShiftFeatures(mp.features, cp);
    r := New(newFeatures, retCubics, retProgress, len);
  }

  method RotateAtCut(cubics: seq<MeasuredCubic>, target: nat, b1: MeasuredCubic, b2: MeasuredCubic) returns (ret: seq<Cubic>)
    requires target < |cubics|
    ensures ret == ShiftedCubics(cubics, target, b1, b2)
  {
    var n := |cubics|;
    ret := [b2.cubic];
    for i := 1 to n
      invariant ret == ShiftedCubics(cubics, target, b1, b2)[..i]
    {
      ret := ret + [cubics[(i + target) % n].cubic];
    }
    ret := ret + [b1.cubic];
  }

  method ShiftProgress(cubics: seq<MeasuredCubic>, target: nat, cp: real) returns (ret: seq<real>)
    requires target < |cubics|
    ensures ret == ShiftedProgress(cubics, target, cp)
  {
    var n := |cubics|;
    ret := [];
    for index := 0 to n + 2
      invariant ret == ShiftedProgress(cubics, target, cp)[..index]
    {
      var value;
      if index == 0 {
        value := 0.0;
      } else if index == n + 1 {
        value := 1.0;
      } else {
        value := PositiveModulo(cubics[(target + index - 1) % n].endOutlineProgress - cp);
      }
      ret := ret + [value];
    }
  }

  method ShiftFeatures(fs: seq<ProgressableFeature>, cp: real) returns (ret: seq<ProgressableFeature>)
    ensures ret == ShiftedFeatures(fs, cp)
  {
    ret := [];
    for i := 0 to |fs|
      invariant ret == ShiftedFeatures(fs, cp)[..i]
    {
      ret := ret + [ProgressableFeature(PositiveModulo(fs[i].progress - cp), fs[i].feature)];
    }
  }

  /** Each cubic ends where the next begins, the last where the first begins. */
  predicate Closed(cs: seq<Cubic>)
  {
    forall i :: 0 <= i < |cs| ==> cs[i].anchor1 == cs[Succ(|cs|, i)].anchor0
  }

  /** The index after i in a cyclic list of length n. */
  function Succ(n: nat, i: nat): (j: nat)
    requires i < n
    ensures j < n
  {
    if i + 1 < n then i + 1 else 0
  }

  function CubicsOf(ms: seq<MeasuredCubic>): (cs: seq<Cubic>)
    ensures |cs| == |ms| && forall i :: 0 <= i < |ms| ==> cs[i] == ms[i].cubic
  {
    seq(|ms|, i requires 0 <= i < |ms| => ms[i].cubic)
  }

  /** Cutting a closed outline and rotating it to start at the cut keeps it closed. */
  lemma ShiftedCubicsStayClosed(mp: MeasuredPolygon, cp: real, len: Length, target: nat)
    requires target < |mp.cubics| && Closed(CubicsOf(mp.cubics))
    requires CutAtProgress(mp.cubics[target], cp, len).Some?
    ensures var (b1, b2) := CutAtProgress(mp.cubics[target], cp, len).value;
      Closed(ShiftedCubics(mp.cubics, target, b1, b2))
  {
    var (b1, b2) := CutAtProgress(mp.cubics[target], cp, len).value;
    RotationStaysClosed(mp.cubics, target, b1, b2);
  }

  lemma RotationStaysClosed(ms: seq<MeasuredCubic>, target: nat, b1: MeasuredCubic, b2: MeasuredCubic)
    requires target < |ms| && Closed(CubicsOf(ms))
    requires b2.cubic.anchor1 == ms[target].cubic.anchor1 && b1.cubic.anchor0 == ms[target].cubic.anchor0
    requires b1.cubic.anchor1 == b2.cubic.anchor0
    ensures Closed(ShiftedCubics(ms, target, b1, b2))
  {
    forall i | 0 <= i < |ms| + 1
      ensures ShiftedCubics(ms, target, b1, b2)[i].anchor1
           == ShiftedCubics(ms, target, b1, b2)[Succ(|ms| + 1, i)].anchor0
    {
      RotationLink(ms, target, b1, b2, i);
    }
  }

  lemma RotationLink(ms: seq<MeasuredCubic>, target: nat, b1: MeasuredCubic, b2: MeasuredCubic, i: nat)
    requires target < |ms| && Closed(CubicsOf(ms)) && i <= |ms|
    requires b2.cubic.anchor1 == ms[target].cubic.anchor1 && b1.cubic.anchor0 == ms[target].cubic.anchor0
    requires b1.cubic.anchor1 == b2.cubic.anchor0
    ensures ShiftedCubics(ms, target, b1, b2)[i].anchor1
         == ShiftedCubics(ms, target, b1, b2)[Succ(|ms| + 1, i)].anchor0
  {
    if i < |ms| {
      ShiftedLinkHolds(CubicsOf(ms), target, i, b1.cubic, b2.cubic);
    }
  }

  /** One link of the rotated list: cubic i ends where cubic i + 1 starts. */
  lemma ShiftedLinkHolds(orig: seq<Cubic>, target: nat, i: nat, b1: Cubic, b2: Cubic)
    requires target < |orig| && i < |orig| && Closed(orig)
    requires b2.anchor1 == orig[target].anchor1 && b1.anchor0 == orig[target].anchor0
    ensures var n := |orig|;
      var left := if i == 0 then b2 else orig[RotIndex(n, target, i)];
      var right := if i + 1 == n then b1 else orig[RotIndex(n, target, i + 1)];
      left.anchor1 == right.anchor0
  {
    var n := |orig|;
    var j := RotIndex(n, target, i);
    assert orig[j].anchor1 == orig[Succ(n, j)].anchor0;
  }

  lemma ModOfSmall(x: nat, n: nat)
    requires x < n
    ensures x % n == x
  {
  }

  lemma ModWrap(x: nat, n: nat)
    requires n <= x < 2 * n
    ensures x % n == x - n
  {
  }

  /**
   * Shifting keeps the features' relative placement: the distance round the
   * circle between any two of them is unchanged.
   */
  lemma ShiftPreservesFeatureDistances(fs: seq<ProgressableFeature>, cp: real, i: nat, j: nat)
    requires i < |fs| && j < |fs|
    requires 0.0 <= fs[i].progress < 1.0 && 0.0 <= fs[j].progress < 1.0 && 0.0 <= cp <= 1.0
    ensures var r := ShiftedFeatures(fs, cp);
      ProgressDistance(r[i].progress, r[j].progress) == ProgressDistance(fs[i].progress, fs[j].progress)
  {
    var x, y := fs[i].progress, fs[j].progress;
    var x', y' := PositiveModulo(x - cp), PositiveModulo(y - cp);
    assert x' == x - cp || x' == x - cp + 1.0;
    assert y' == y - cp || y' == y - cp + 1.0;
  }
}
