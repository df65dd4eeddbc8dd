/**
 * Morphing between two rounded polygons (src/morph.rs): the cubics of the
 * two measured outlines are matched pairwise by a two-pointer merge, cutting
 * whichever cubic reaches further, and a frame of the morph interpolates
 * every matched pair.
 *
 * The flag `fixed` selects between the source as written (`false`) and the
 * corrections recorded in README.md: the end outline's progress is wrapped
 * into [0, 1] before it is mapped back, the matcher fails when one outline
 * has cubics left over, and the feature mapper carries its own two
 * corrections.
 */
module Morphs {
  import opened Wrappers
  import opened Geometry
  import opened Util
  import opened Cubics
  import opened Features
  import opened MeasuredPolygons
  import opened Mapper
  import FeatureMapper
  import RoundedPolygons

  /** `Morph`: the two polygons and the matched (start, end) cubic pairs. */
  datatype Morph = Morph(start: RoundedPolygons.RoundedPolygon, end: RoundedPolygons.RoundedPolygon, pairs: seq<(Cubic, Cubic)>)

  // ---------------------------------------------------------------------
  // Frames: as_cubics
  // ---------------------------------------------------------------------

  /** The cubic whose four points are those of a and b interpolated at t. */
  function LerpCubic(a: Cubic, b: Cubic, t: real): (r: Cubic)
    ensures t == 0.0 ==> r == a
    ensures t == 1.0 ==> r == b
  {
    Cubic(Lerp(a.anchor0, b.anchor0, t), Lerp(a.control0, b.control0, t),
          Lerp(a.control1, b.control1, t), Lerp(a.anchor1, b.anchor1, t))
  }

  function Interpolated(pairs: seq<(Cubic, Cubic)>, t: real): (cs: seq<Cubic>)
    ensures |cs| == |pairs|
    ensures forall k :: 0 <= k < |pairs| ==> cs[k] == LerpCubic(pairs[k].0, pairs[k].1, t)
  {
    seq(|pairs|, k requires 0 <= k < |pairs| => LerpCubic(pairs[k].0, pairs[k].1, t))
  }

  /** The start cubics of the pairs. */
  function Starts(pairs: seq<(Cubic, Cubic)>): (cs: seq<Cubic>)
    ensures |cs| == |pairs| && forall k :: 0 <= k < |pairs| ==> cs[k] == pairs[k].0
  {
    seq(|pairs|, k requires 0 <= k < |pairs| => pairs[k].0)
  }

  /** The end cubics of the pairs. */
  function Ends(pairs: seq<(Cubic, Cubic)>): (cs: seq<Cubic>)
    ensures |cs| == |pairs| && forall k :: 0 <= k < |pairs| ==> cs[k] == pairs[k].1
  {
    seq(|pairs|, k requires 0 <= k < |pairs| => pairs[k].1)
  }

  /**
   * What `as_cubics` yields: one cubic per pair, each the pair interpolated
   * at `progress`, except that the last one ends exactly where the first
   * one starts.
   */
  function AsCubicsOf(pairs: seq<(Cubic, Cubic)>, progress: real): (cs: seq<Cubic>)
    ensures |cs| == |pairs|
    ensures forall k :: 0 <= k < |pairs| - 1 ==> cs[k] == LerpCubic(pairs[k].0, pairs[k].1, progress)
    ensures |pairs| > 0 ==>
      var last := LerpCubic(pairs[|pairs| - 1].0, pairs[|pairs| - 1].1, progress);
      && cs[|cs| - 1].anchor0 == last.anchor0
      && cs[|cs| - 1].control0 == last.control0
      && cs[|cs| - 1].control1 == last.control1
      && cs[|cs| - 1].anchor1 == cs[0].anchor0
  {
    if |pairs| == 0 then []
    else
      var all := Interpolated(pairs, progress);
      all[..|all| - 1] + [RoundedPolygons.WithEnd(all[|all| - 1], all[0].anchor0)]
  }

  /** `as_cubics`. */
  method AsCubics(m: Morph, progress: real) returns (cubics: seq<Cubic>)
    ensures cubics == AsCubicsOf(m.pairs, progress)
  {
    ghost var all := Interpolated(m.pairs, progress);
    cubics := [];
    var firstCubic: Option<Cubic> := None;
    var lastCubic: Option<Cubic> := None;
    for i := 0 to |m.pairs|
      invariant i == 0 ==> firstCubic.None? && lastCubic.None? && cubics == []
      invariant i > 0 ==> firstCubic == Some(all[0]) && lastCubic == Some(all[i - 1]) && cubics == all[..i - 1]
    {
      var cubic := LerpCubic(m.pairs[i].0, m.pairs[i].1, progress);
      if firstCubic.None? {
        firstCubic := Some(cubic);
      }
      if lastCubic.Some? {
        cubics := cubics + [lastCubic.value];
      }
      lastCubic := Some(cubic);
    }
    if lastCubic.Some? && firstCubic.Some? {
      var l := lastCubic.value;
      cubics := cubics + [Cubic(l.anchor0, l.control0, l.control1, firstCubic.value.anchor0)];
    }
  }

  /**
   * When the start cubics and the end cubics are each a chain, every frame
   * is a closed outline: each cubic ends where the next starts, and the
   * last where the first starts.
   */
  lemma FramesAreClosed(pairs: seq<(Cubic, Cubic)>, progress: real)
    requires RoundedPolygons.Chained(Starts(pairs)) && RoundedPolygons.Chained(Ends(pairs))
    ensures Closed(AsCubicsOf(pairs, progress))
  {
    var cs := AsCubicsOf(pairs, progress);
    forall i | 0 <= i < |cs|
      ensures cs[i].anchor1 == cs[Succ(|cs|, i)].anchor0
    {
      if i < |cs| - 1 {
        assert Starts(pairs)[i].anchor1 == Starts(pairs)[i + 1].anchor0;
        assert Ends(pairs)[i].anchor1 == Ends(pairs)[i + 1].anchor0;
        if i + 1 == |cs| - 1 {
          assert cs[i + 1].anchor0 == LerpCubic(pairs[i + 1].0, pairs[i + 1].1, progress).anchor0;
        }
      }
    }
  }

  /** A closed chain of start cubics is reproduced exactly by the frame at progress 0. */
  lemma FrameAtZeroIsStart(pairs: seq<(Cubic, Cubic)>)
    requires Closed(Starts(pairs))
    ensures AsCubicsOf(pairs, 0.0) == Starts(pairs)
  {
    var cs := AsCubicsOf(pairs, 0.0);
    if |pairs| > 0 {
      var n := |pairs|;
      assert Starts(pairs)[n - 1].anchor1 == Starts(pairs)[Succ(n, n - 1)].anchor0;
      assert cs[n - 1] == pairs[n - 1].0;
    }
  }

  /** A closed chain of end cubics is reproduced exactly by the frame at progress 1. */
  lemma FrameAtOneIsEnd(pairs: seq<(Cubic, Cubic)>)
    requires Closed(Ends(pairs))
    ensures AsCubicsOf(pairs, 1.0) == Ends(pairs)
  {
    var cs := AsCubicsOf(pairs, 1.0);
    if |pairs| > 0 {
      var n := |pairs|;
      assert Ends(pairs)[n - 1].anchor1 == Ends(pairs)[Succ(n, n - 1)].anchor0;
      assert cs[n - 1] == pairs[n - 1].1;
    }
  }

  // ---------------------------------------------------------------------
  // Matching: match_morph
  // ---------------------------------------------------------------------

  /**
   * The fixed inputs of the merge loop: the start outline's measured
   * cubics, the end outline's cubics after it was re-based at the cut point,
   * the feature mapper and the cut point.
   */
  datatype Matching = Matching(bs1: seq<MeasuredCubic>, bs2: seq<MeasuredCubic>, mapper: DoubleMapper, cutPoint: real, cutter: Cutter)

  /**
   * What the loop relies on from `cut_at_progress`: the two pieces meet,
   * the first starts where the cubic starts and the second ends where and
   * when the cubic ends.
   */
  predicate SplitsAt(mc: MeasuredCubic, r: Option<(MeasuredCubic, MeasuredCubic)>)
  {
    r.Some? ==>
      && r.value.0.cubic.anchor0 == mc.cubic.anchor0
      && r.value.0.cubic.anchor1 == r.value.1.cubic.anchor0
      && r.value.1.cubic.anchor1 == mc.cubic.anchor1
      && r.value.1.endOutlineProgress == mc.endOutlineProgress
  }

  /** `cut_at_progress` with the measurer fixed; None where it panics. */
  type Cutter = f: (MeasuredCubic, real) -> Option<(MeasuredCubic, MeasuredCubic)>
    | forall mc, x :: SplitsAt(mc, f(mc, x))
    witness (mc: MeasuredCubic, x: real) => None

  /** The length measurer's `cut_at_progress`. */
  function MeasuredCutter(len: Length): (f: Cutter)
  {
    (mc: MeasuredCubic, x: real) => CutAtProgress(mc, x, len)
  }

  /** The loop variables: the indices of the next cubics and the current cubic of each side. */
  datatype Cursor = Cursor(i1: nat, i2: nat, b1: Option<MeasuredCubic>, b2: Option<MeasuredCubic>)

  predicate WellFormed(m: Matching)
  {
    |m.mapper.sourceValues| == |m.mapper.targetValues|
  }

  /** Each side holds a current cubic exactly until its index has run past the end of its list. */
  predicate CursorOk(m: Matching, c: Cursor)
  {
    && 1 <= c.i1 <= |m.bs1| + 1 && 1 <= c.i2 <= |m.bs2| + 1
    && (c.b1.None? <==> c.i1 == |m.bs1| + 1)
    && (c.b2.None? <==> c.i2 == |m.bs2| + 1)
  }

  /** `slice::get`. */
  function Get(s: seq<MeasuredCubic>, i: nat): (r: Option<MeasuredCubic>)
    ensures r.Some? <==> i < |s|
    ensures r.Some? ==> r.value == s[i]
  {
    if i < |s| then Some(s[i]) else None
  }

  /** The cursor before the loop: the first cubic of each side is current. */
  function Start(m: Matching): (c: Cursor)
    ensures CursorOk(m, c)
  {
    Cursor(1, 1, Get(m.bs1, 0), Get(m.bs2, 0))
  }

  /** `b1a`: where the current start cubic ends; the last one ends at 1. */
  function StartEnd(m: Matching, c: Cursor): (a: real)
    requires c.b1.Some?
    ensures c.i1 == |m.bs1| ==> a == 1.0
    ensures c.i1 != |m.bs1| ==> a == c.b1.value.endOutlineProgress
  {
    if c.i1 == |m.bs1| then 1.0 else c.b1.value.endOutlineProgress
  }

  /**
   * `b2a`: where the current end cubic ends, on the start outline's scale;
   * the last one ends at 1. As written the cubic's end is moved back by the
   * cut point without wrapping, and `map_back` panics (None) once that
   * exceeds 1; the correction wraps it first.
   */
  function EndOnStart(m: Matching, c: Cursor, fixed: bool): (a: Option<real>)
    requires WellFormed(m) && c.b2.Some?
    ensures c.i2 == |m.bs2| ==> a == Some(1.0)
    ensures a.Some? ==> 0.0 <= a.value <= 1.0
  {
    if c.i2 == |m.bs2| then Some(1.0)
    else
      var x := c.b2.value.endOutlineProgress + m.cutPoint;
      var back := MapBack(m.mapper, if fixed then PositiveModulo(x) else x);
      if back.None? then None else Some(PositiveModulo(back.value))
  }

  /** One side's move in a loop step: the piece pushed, the new current cubic and the new index. */
  datatype Side = Side(seg: Cubic, next: Option<MeasuredCubic>, index: nat)

  /**
   * One side of a loop step. A cubic reaching more than ANGLE_EPSILON past
   * `minb` is cut (at `cut`, None where computing the cut panics): its first
   * piece is pushed and its second piece stays current. Otherwise the whole
   * cubic is pushed and the side advances to its next cubic.
   */
  function SideStep(bs: seq<MeasuredCubic>, i: nat, b: MeasuredCubic, a: real, minb: real, cut: Option<real>, cutter: Cutter): (r: Option<Side>)
    ensures a <= minb + ANGLE_EPSILON ==> r == Some(Side(b.cubic, Get(bs, i), i + 1))
    ensures a > minb + ANGLE_EPSILON ==>
      (r.Some? <==> cut.Some? && cutter(b, cut.value).Some?)
    ensures a > minb + ANGLE_EPSILON && r.Some? ==>
      && r.value.index == i && r.value.next.Some?
      && r.value.seg.anchor0 == b.cubic.anchor0
      && r.value.seg.anchor1 == r.value.next.value.cubic.anchor0
      && r.value.next.value.cubic.anchor1 == b.cubic.anchor1
      && r.value.next.value.endOutlineProgress == b.endOutlineProgress
  {
    if a > minb + ANGLE_EPSILON then
      if cut.None? then None
      else
        match cutter(b, cut.value)
        case None => None
        case Some(halves) => Some(Side(halves.0.cubic, Some(halves.1), i))
    else Some(Side(b.cubic, Get(bs, i), i + 1))
  }

  /** Where the end side is cut: `map(minb)` moved by the cut point, wrapped; None where `map` panics. */
  function EndCut(m: Matching, minb: real): (cut: Option<real>)
    requires WellFormed(m)
    ensures cut.Some? ==> 0.0 <= cut.value < 1.0
  {
    var target := Map(m.mapper, minb);
    if target.None? then None else Some(PositiveModulo(target.value - m.cutPoint))
  }

  /**
   * One iteration of the merge loop: the new cursor and the pushed pair;
   * None where the iteration panics. Each iteration advances at least one
   * side and neither side by more than one cubic.
   */
  function StepOf(m: Matching, c: Cursor, fixed: bool): (r: Option<(Cursor, (Cubic, Cubic))>)
    requires WellFormed(m) && CursorOk(m, c) && c.b1.Some? && c.b2.Some?
    ensures EndOnStart(m, c, fixed).None? ==> r.None?
    ensures r.Some? ==>
      var c' := r.value.0;
      && CursorOk(m, c')
      && c.i1 <= c'.i1 <= c.i1 + 1 && c.i2 <= c'.i2 <= c.i2 + 1
      && c'.i1 + c'.i2 > c.i1 + c.i2
  {
    var b2a := EndOnStart(m, c, fixed);
    if b2a.None? then None
    else
      var b1a := StartEnd(m, c);
      var minb := Min(b1a, b2a.value);
      var s1 := SideStep(m.bs1, c.i1, c.b1.value, b1a, minb, Some(minb), m.cutter);
      var s2 := SideStep(m.bs2, c.i2, c.b2.value, b2a.value, minb, EndCut(m, minb), m.cutter);
      if s1.None? || s2.None? then None
      else Some((Cursor(s1.value.index, s2.value.index, s1.value.next, s2.value.next), (s1.value.seg, s2.value.seg)))
  }

  /**
   * The pairs the loop pushes from cursor c on. When it stops with one side
   * still holding a cubic, the source as written returns what it has (the
   * check after the loop only sees the emptied loop variables), while the
   * correction fails.
   */
  function MatchFrom(m: Matching, c: Cursor, fixed: bool): Option<seq<(Cubic, Cubic)>>
    requires WellFormed(m) && CursorOk(m, c)
    decreases |m.bs1| + |m.bs2| + 2 - c.i1 - c.i2
  {
    if c.b1.None? || c.b2.None? then
      if fixed && (c.b1.Some? || c.b2.Some?) then None else Some([])
    else
      match StepOf(m, c, fixed)
      case None => None
      case Some((c', pair)) =>
        match MatchFrom(m, c', fixed)
        case None => None
        case Some(rest) => Some([pair] + rest)
  }

  /** `match_morph`, on the polygons' features; None where the source panics. */
  function MatchOf(features1: seq<Feature>, features2: seq<Feature>, len: Length, fixed: bool): (r: Option<seq<(Cubic, Cubic)>>)
    ensures r.Some? ==> MeasuredOf(features1, len).Some? && MeasuredOf(features2, len).Some?
  {
    var mp1 := MeasuredOf(features1, len);
    var mp2 := MeasuredOf(features2, len);
    if mp1.None? || mp2.None? then None
    else
      MeasuredFeaturesHaveCubics(features1, len);
      MeasuredFeaturesHaveCubics(features2, len);
      var mapper := FeatureMapper.FromFeaturesOf(mp1.value.features, mp2.value.features, fixed);
      if mapper.None? then None
      else
        var cutPoint := Map(mapper.value, 0.0);
        if cutPoint.None? then None
        else
          var bs2 := CutAndShiftOf(mp2.value, cutPoint.value, len);
          if bs2.None? then None
          else
            var m := Matching(mp1.value.cubics, bs2.value.cubics, mapper.value, cutPoint.value, MeasuredCutter(len));
            MatchFrom(m, Start(m), fixed)
  }

  /** `measure_polygon` records only corners that have cubics, so every feature the mapper sees has one. */
  lemma MeasuredFeaturesHaveCubics(fs: seq<Feature>, len: Length)
    ensures MeasuredOf(fs, len).Some? ==> FeatureMapper.NonEmptyFeatures(MeasuredOf(fs, len).value.features)
  {
    CornerRefsPointAtMiddle(fs);
  }

  function Prepend(ret: seq<(Cubic, Cubic)>, rest: Option<seq<(Cubic, Cubic)>>): Option<seq<(Cubic, Cubic)>>
  {
    if rest.None? then None else Some(ret + rest.value)
  }

  /** The merge loop of `match_morph`. */
  method MergeLoop(m: Matching, fixed: bool) returns (r: Option<seq<(Cubic, Cubic)>>)
    requires WellFormed(m)
    ensures r == MatchFrom(m, Start(m), fixed)
  {
    var ret: seq<(Cubic, Cubic)> := [];
    var i1: nat := 0;
    var i2: nat := 0;
    var b1 := Get(m.bs1, i1);
    i1 := i1 + 1;
    var b2 := Get(m.bs2, i2);
    i2 := i2 + 1;
    assert Cursor(i1, i2, b1, b2) == Start(m);
    PrependNothing(MatchFrom(m, Start(m), fixed));
    while b1.Some? && b2.Some?
      invariant CursorOk(m, Cursor(i1, i2, b1, b2))
      invariant MatchFrom(m, Start(m), fixed) == Prepend(ret, MatchFrom(m, Cursor(i1, i2, b1, b2), fixed))
      decreases |m.bs1| + |m.bs2| + 2 - i1 - i2
    {
      var c := Cursor(i1, i2, b1, b2);
      var bb1 := b1.value;
      var bb2 := b2.value;
      var b1a := StartEnd(m, c);
      var end2 := EndOnStart(m, c, fixed);
      if end2.None? {
        StepUnfolds(m, c, fixed);
        assert MatchFrom(m, c, fixed).None?;
        return None;
      }
      var b2a := end2.value;
      var minb := Min(b1a, b2a);
      var s1 := SideStep(m.bs1, i1, bb1, b1a, minb, Some(minb), m.cutter);
      var s2 := SideStep(m.bs2, i2, bb2, b2a, minb, EndCut(m, minb), m.cutter);
      if s1.None? || s2.None? {
        assert StepOf(m, c, fixed).None?;
        StepUnfolds(m, c, fixed);
        return None;
      }
      ghost var c' := Cursor(s1.value.index, s2.value.index, s1.value.next, s2.value.next);
      var pair := (s1.value.seg, s2.value.seg);
      assert StepOf(m, c, fixed) == Some((c', pair));
      StepUnfolds(m, c, fixed);
      PrependTwice(ret, pair, MatchFrom(m, c', fixed));
      ret := ret + [pair];
      i1, i2 := s1.value.index, s2.value.index;
      b1, b2 := s1.value.next, s2.value.next;
    }
    MatchStops(m, Cursor(i1, i2, b1, b2), fixed);
    if fixed && (b1.Some? || b2.Some?) {
      return None;
    }
    assert ret + [] == ret;
    return Some(ret);
  }

  lemma PrependNothing(rest: Option<seq<(Cubic, Cubic)>>)
    ensures Prepend([], rest) == rest
  {
    if rest.Some? {
      assert [] + rest.value == rest.value;
    }
  }

  /** Once a side has no current cubic, the loop is over. */
  lemma MatchStops(m: Matching, c: Cursor, fixed: bool)
    requires WellFormed(m) && CursorOk(m, c) && (c.b1.None? || c.b2.None?)
    ensures MatchFrom(m, c, fixed) == if fixed && (c.b1.Some? || c.b2.Some?) then None else Some([])
  {
  }

  /** MatchFrom, one iteration unfolded. */
  lemma StepUnfolds(m: Matching, c: Cursor, fixed: bool)
    requires WellFormed(m) && CursorOk(m, c) && c.b1.Some? && c.b2.Some?
    ensures StepOf(m, c, fixed).None? ==> MatchFrom(m, c, fixed).None?
    ensures StepOf(m, c, fixed).Some? ==>
      var (c', pair) := StepOf(m, c, fixed).value;
      MatchFrom(m, c, fixed) == Prepend([pair], MatchFrom(m, c', fixed))
  {
  }

  lemma PrependTwice(ret: seq<(Cubic, Cubic)>, pair: (Cubic, Cubic), rest: Option<seq<(Cubic, Cubic)>>)
    ensures Prepend(ret, Prepend([pair], rest)) == Prepend(ret + [pair], rest)
  {
    if rest.Some? {
      assert ret + ([pair] + rest.value) == ret + [pair] + rest.value;
    }
  }

  /** `match_morph`. */
  method MatchMorph(p1: RoundedPolygons.RoundedPolygon, p2: RoundedPolygons.RoundedPolygon, len: Length, fixed: bool)
    returns (r: Option<seq<(Cubic, Cubic)>>)
    ensures r == MatchOf(p1.features, p2.features, len, fixed)
  {
    var mp1 := MeasurePolygon(p1.features, len);
    var mp2 := MeasurePolygon(p2.features, len);
    if mp1.None? || mp2.None? {
      return None;
    }
    MeasuredFeaturesHaveCubics(p1.features, len);
    MeasuredFeaturesHaveCubics(p2.features, len);
    var mapper := FeatureMapper.FromFeatures(mp1.value.features, mp2.value.features, fixed);
    if mapper.None? {
      return None;
    }
    var cutPoint := Map(mapper.value, 0.0);
    if cutPoint.None? {
      return None;
    }
    var bs2 := CutAndShift(mp2.value, cutPoint.value, len);
    if bs2.None? {
      return None;
    }
    r := MergeLoop(Matching(mp1.value.cubics, bs2.value.cubics, mapper.value, cutPoint.value, MeasuredCutter(len)), fixed);
  }

  /** `Morph::new`: the two polygons, kept as they are, and their match; None where matching panics. */
  method New(start: RoundedPolygons.RoundedPolygon, end: RoundedPolygons.RoundedPolygon, len: Length, fixed: bool)
    returns (r: Option<Morph>)
    ensures r.Some? <==> MatchOf(start.features, end.features, len, fixed).Some?
    ensures r.Some? ==>
      && r.value.start == start && r.value.end == end
      && Some(r.value.pairs) == MatchOf(start.features, end.features, len, fixed)
  {
    var pairs := MatchMorph(start, end, len, fixed);
    if pairs.None? {
      return None;
    }
    return Some(Morph(start, end, pairs.value));
  }

  // ---------------------------------------------------------------------
  // Properties of the match
  // ---------------------------------------------------------------------

  /**
   * Each loop iteration pushes one pair; every cubic of both outlines is
   * consumed. From cursor c the loop pushes fewer pairs than the cubics
   * still ahead on both sides together, and, with the check after the loop
   * in force, at least as many as are ahead on either side.
   */
  lemma {:induction false} MatchCount(m: Matching, c: Cursor, fixed: bool)
    requires WellFormed(m) && CursorOk(m, c) && MatchFrom(m, c, fixed).Some?
    ensures var r := MatchFrom(m, c, fixed).value;
      var ahead1 := |m.bs1| + 1 - c.i1;
      var ahead2 := |m.bs2| + 1 - c.i2;
      && (ahead1 > 0 && ahead2 > 0 ==> |r| <= ahead1 + ahead2 - 1)
      && (fixed ==> |r| >= ahead1 && |r| >= ahead2)
    decreases |m.bs1| + |m.bs2| + 2 - c.i1 - c.i2
  {
    if c.b1.Some? && c.b2.Some? {
      StepUnfolds(m, c, fixed);
      var (c', pair) := StepOf(m, c, fixed).value;
      MatchCount(m, c', fixed);
      if c'.b1.None? || c'.b2.None? {
        MatchStops(m, c', fixed);
      }
    } else {
      MatchStops(m, c, fixed);
    }
  }

  /** The current cubic of a side ends where the last cubic taken from its list ends. */
  predicate AnchoredSide(bs: seq<MeasuredCubic>, i: nat, b: Option<MeasuredCubic>)
  {
    b.Some? && 1 <= i <= |bs| ==> b.value.cubic.anchor1 == bs[i - 1].cubic.anchor1
  }

  /** One side of an iteration, on a chained list: the piece pushed links to the side's next current cubic. */
  lemma SideKeepsChain(bs: seq<MeasuredCubic>, i: nat, b: MeasuredCubic, a: real, minb: real, cut: Option<real>, cutter: Cutter)
    requires 1 <= i <= |bs| && b.cubic.anchor1 == bs[i - 1].cubic.anchor1
    requires RoundedPolygons.Chained(CubicsOf(bs))
    requires SideStep(bs, i, b, a, minb, cut, cutter).Some?
    ensures var s := SideStep(bs, i, b, a, minb, cut, cutter).value;
      && s.seg.anchor0 == b.cubic.anchor0
      && (s.next.Some? ==> s.seg.anchor1 == s.next.value.cubic.anchor0 && s.next.value.cubic.anchor1 == bs[s.index - 1].cubic.anchor1)
      && (s.next.None? ==> s.seg.anchor1 == bs[|bs| - 1].cubic.anchor1)
  {
    if a <= minb + ANGLE_EPSILON && i < |bs| {
      assert CubicsOf(bs)[i - 1].anchor1 == CubicsOf(bs)[i].anchor0;
    }
  }

  /** The two sides of an iteration, as computed by StepOf, with the ends and the cut they were computed from. */
  lemma StepSides(m: Matching, c: Cursor, fixed: bool) returns (s1: Side, s2: Side, a1: real, a2: real, minb: real, cut2: Option<real>)
    requires WellFormed(m) && CursorOk(m, c) && c.b1.Some? && c.b2.Some?
    requires StepOf(m, c, fixed).Some?
    ensures StepOf(m, c, fixed).value == (Cursor(s1.index, s2.index, s1.next, s2.next), (s1.seg, s2.seg))
    ensures Some(s1) == SideStep(m.bs1, c.i1, c.b1.value, a1, minb, Some(minb), m.cutter)
    ensures Some(s2) == SideStep(m.bs2, c.i2, c.b2.value, a2, minb, cut2, m.cutter)
  {
    a2 := EndOnStart(m, c, fixed).value;
    a1 := StartEnd(m, c);
    minb := Min(a1, a2);
    cut2 := EndCut(m, minb);
    s1 := SideStep(m.bs1, c.i1, c.b1.value, a1, minb, Some(minb), m.cutter).value;
    s2 := SideStep(m.bs2, c.i2, c.b2.value, a2, minb, cut2, m.cutter).value;
  }

  /** An iteration keeps the start side anchored, and its pushed piece starts at the side's current cubic. */
  lemma StepKeepsStartChain(m: Matching, c: Cursor, fixed: bool)
    requires WellFormed(m) && CursorOk(m, c) && c.b1.Some? && c.b2.Some? && AnchoredSide(m.bs1, c.i1, c.b1)
    requires RoundedPolygons.Chained(CubicsOf(m.bs1))
    requires StepOf(m, c, fixed).Some?
    ensures var (c', pair) := StepOf(m, c, fixed).value;
      && AnchoredSide(m.bs1, c'.i1, c'.b1)
      && pair.0.anchor0 == c.b1.value.cubic.anchor0
      && (c'.b1.Some? ==> pair.0.anchor1 == c'.b1.value.cubic.anchor0)
      && (c'.b1.None? ==> pair.0.anchor1 == m.bs1[|m.bs1| - 1].cubic.anchor1)
  {
    var s1, s2, a1, a2, minb, cut2 := StepSides(m, c, fixed);
    SideKeepsChain(m.bs1, c.i1, c.b1.value, a1, minb, Some(minb), m.cutter);
  }

  /** An iteration keeps the end side anchored, and its pushed piece starts at the side's current cubic. */
  lemma StepKeepsEndChain(m: Matching, c: Cursor, fixed: bool)
    requires WellFormed(m) && CursorOk(m, c) && c.b1.Some? && c.b2.Some? && AnchoredSide(m.bs2, c.i2, c.b2)
    requires RoundedPolygons.Chained(CubicsOf(m.bs2))
    requires StepOf(m, c, fixed).Some?
    ensures var (c', pair) := StepOf(m, c, fixed).value;
      && AnchoredSide(m.bs2, c'.i2, c'.b2)
      && pair.1.anchor0 == c.b2.value.cubic.anchor0
      && (c'.b2.Some? ==> pair.1.anchor1 == c'.b2.value.cubic.anchor0)
      && (c'.b2.None? ==> pair.1.anchor1 == m.bs2[|m.bs2| - 1].cubic.anchor1)
  {
    var s1, s2, a1, a2, minb, cut2 := StepSides(m, c, fixed);
    SideKeepsChain(m.bs2, c.i2, c.b2.value, a2, minb, cut2, m.cutter);
  }

  /**
   * On a chained start outline the start cubics of the match form a chain
   * beginning at the current cubic; once every cubic is consumed it ends
   * where the outline ends.
   */
  lemma {:induction false} MatchChainsStart(m: Matching, c: Cursor, fixed: bool)
    requires WellFormed(m) && CursorOk(m, c) && AnchoredSide(m.bs1, c.i1, c.b1)
    requires RoundedPolygons.Chained(CubicsOf(m.bs1))
    requires MatchFrom(m, c, fixed).Some?
    ensures var r := MatchFrom(m, c, fixed).value;
      && RoundedPolygons.Chained(Starts(r))
      && (|r| > 0 ==> c.b1.Some? && c.b2.Some? && Starts(r)[0].anchor0 == c.b1.value.cubic.anchor0)
      && (fixed && |r| > 0 ==> Starts(r)[|r| - 1].anchor1 == m.bs1[|m.bs1| - 1].cubic.anchor1)
    decreases |m.bs1| + |m.bs2| + 2 - c.i1 - c.i2
  {
    if c.b1.Some? && c.b2.Some? {
      StepUnfolds(m, c, fixed);
      var (c', pair) := StepOf(m, c, fixed).value;
      StepKeepsStartChain(m, c, fixed);
      MatchChainsStart(m, c', fixed);
      var rest := MatchFrom(m, c', fixed).value;
      assert MatchFrom(m, c, fixed).value == [pair] + rest;
      if |rest| == 0 && (c'.b1.Some? && c'.b2.Some?) {
        StepUnfolds(m, c', fixed);
        assert false;
      }
      if |rest| == 0 && fixed {
        MatchStops(m, c', fixed);
      }
      StartsPrepend(pair, rest);
      ChainPrepend(pair.0, Starts(rest));
    } else {
      MatchStops(m, c, fixed);
    }
  }

  /**
   * On a chained end outline the end cubics of the match form a chain
   * beginning at the current cubic; once every cubic is consumed it ends
   * where the outline ends.
   */
  lemma {:induction false} MatchChainsEnd(m: Matching, c: Cursor, fixed: bool)
    requires WellFormed(m) && CursorOk(m, c) && AnchoredSide(m.bs2, c.i2, c.b2)
    requires RoundedPolygons.Chained(CubicsOf(m.bs2))
    requires MatchFrom(m, c, fixed).Some?
    ensures var r := MatchFrom(m, c, fixed).value;
      && RoundedPolygons.Chained(Ends(r))
      && (|r| > 0 ==> c.b1.Some? && c.b2.Some? && Ends(r)[0].anchor0 == c.b2.value.cubic.anchor0)
      && (fixed && |r| > 0 ==> Ends(r)[|r| - 1].anchor1 == m.bs2[|m.bs2| - 1].cubic.anchor1)
    decreases |m.bs1| + |m.bs2| + 2 - c.i1 - c.i2
  {
    if c.b1.Some? && c.b2.Some? {
      StepUnfolds(m, c, fixed);
      var (c', pair) := StepOf(m, c, fixed).value;
      StepKeepsEndChain(m, c, fixed);
      MatchChainsEnd(m, c', fixed);
      var rest := MatchFrom(m, c', fixed).value;
      assert MatchFrom(m, c, fixed).value == [pair] + rest;
      if |rest| == 0 && (c'.b1.Some? && c'.b2.Some?) {
        StepUnfolds(m, c', fixed);
        assert false;
      }
      if |rest| == 0 && fixed {
        MatchStops(m, c', fixed);
      }
      EndsPrepend(pair, rest);
      ChainPrepend(pair.1, Ends(rest));
    } else {
      MatchStops(m, c, fixed);
    }
  }

  lemma StartsPrepend(pair: (Cubic, Cubic), rest: seq<(Cubic, Cubic)>)
    ensures Starts([pair] + rest) == [pair.0] + Starts(rest)
  {
  }

  lemma EndsPrepend(pair: (Cubic, Cubic), rest: seq<(Cubic, Cubic)>)
    ensures Ends([pair] + rest) == [pair.1] + Ends(rest)
  {
  }

  /** A cubic joining the head of a chain extends it, and the chain still ends where it ended. */
  lemma ChainPrepend(x: Cubic, rest: seq<Cubic>)
    requires RoundedPolygons.Chained(rest) && (|rest| > 0 ==> x.anchor1 == rest[0].anchor0)
    ensures RoundedPolygons.Chained([x] + rest)
    ensures |rest| > 0 ==> ([x] + rest)[|rest|] == rest[|rest| - 1]
  {
    var cs := [x] + rest;
    forall k | 0 <= k < |cs| - 1
      ensures cs[k].anchor1 == cs[k + 1].anchor0
    {
      if k > 0 {
        assert cs[k] == rest[k - 1] && cs[k + 1] == rest[k];
      }
    }
  }

  lemma ClosedIsChained(cs: seq<Cubic>)
    requires Closed(cs)
    ensures RoundedPolygons.Chained(cs)
  {
    forall i | 0 <= i < |cs| - 1
      ensures cs[i].anchor1 == cs[i + 1].anchor0
    {
      assert Succ(|cs|, i) == i + 1;
    }
  }

  /** With the corrections, matching a closed start outline gives start cubics that close up again. */
  lemma MatchedStartIsClosed(m: Matching)
    requires WellFormed(m) && Closed(CubicsOf(m.bs1))
    requires MatchFrom(m, Start(m), true).Some?
    ensures Closed(Starts(MatchFrom(m, Start(m), true).value))
  {
    var r := MatchFrom(m, Start(m), true).value;
    ClosedIsChained(CubicsOf(m.bs1));
    MatchChainsStart(m, Start(m), true);
    if |r| > 0 {
      var n := |m.bs1|;
      assert CubicsOf(m.bs1)[n - 1].anchor1 == CubicsOf(m.bs1)[Succ(n, n - 1)].anchor0;
      forall i | 0 <= i < |r|
        ensures Starts(r)[i].anchor1 == Starts(r)[Succ(|r|, i)].anchor0
      {
        if i < |r| - 1 {
          assert Succ(|r|, i) == i + 1;
        }
      }
    }
  }

  /** With the corrections, matching a closed end outline gives end cubics that close up again. */
  lemma MatchedEndIsClosed(m: Matching)
    requires WellFormed(m) && Closed(CubicsOf(m.bs2))
    requires MatchFrom(m, Start(m), true).Some?
    ensures Closed(Ends(MatchFrom(m, Start(m), true).value))
  {
    var r := MatchFrom(m, Start(m), true).value;
    ClosedIsChained(CubicsOf(m.bs2));
    MatchChainsEnd(m, Start(m), true);
    if |r| > 0 {
      var n := |m.bs2|;
      assert CubicsOf(m.bs2)[n - 1].anchor1 == CubicsOf(m.bs2)[Succ(n, n - 1)].anchor0;
      forall i | 0 <= i < |r|
        ensures Ends(r)[i].anchor1 == Ends(r)[Succ(|r|, i)].anchor0
      {
        if i < |r| - 1 {
          assert Succ(|r|, i) == i + 1;
        }
      }
    }
  }

  /**
   * With the corrections, every frame of a morph between two closed
   * outlines is a closed outline; the frame at 0 is the matched start side
   * and the frame at 1 the matched end side.
   */
  lemma MatchedFramesAreClosed(m: Matching, progress: real)
    requires WellFormed(m) && Closed(CubicsOf(m.bs1)) && Closed(CubicsOf(m.bs2))
    requires MatchFrom(m, Start(m), true).Some?
    ensures var r := MatchFrom(m, Start(m), true).value;
      && Closed(AsCubicsOf(r, progress))
      && AsCubicsOf(r, 0.0) == Starts(r)
      && AsCubicsOf(r, 1.0) == Ends(r)
  {
    var r := MatchFrom(m, Start(m), true).value;
    MatchedStartIsClosed(m);
    MatchedEndIsClosed(m);
    ClosedIsChained(Starts(r));
    ClosedIsChained(Ends(r));
    FramesAreClosed(r, progress);
    FrameAtZeroIsStart(r);
    FrameAtOneIsEnd(r);
  }

  // ---------------------------------------------------------------------
  // Morphing a shape with itself
  // ---------------------------------------------------------------------

  /** Each cubic paired with itself. */
  function SelfPairs(bs: seq<MeasuredCubic>): (pairs: seq<(Cubic, Cubic)>)
    ensures |pairs| == |bs| && forall k :: 0 <= k < |bs| ==> pairs[k] == (bs[k].cubic, bs[k].cubic)
  {
    seq(|bs|, k requires 0 <= k < |bs| => (bs[k].cubic, bs[k].cubic))
  }

  /**
   * The matching of a shape with itself: both sides hold the same cubics,
   * nothing is cut off the end side, and the mapper takes each end progress
   * but the last back to itself.
   */
  predicate SelfMatching(m: Matching)
  {
    && WellFormed(m) && m.bs1 == m.bs2 && m.cutPoint == 0.0
    && forall j :: 0 <= j < |m.bs1| - 1 ==> MapBack(m.mapper, m.bs1[j].endOutlineProgress) == Some(m.bs1[j].endOutlineProgress)
  }

  /**
   * Matching a shape with itself, from any point where both sides are at
   * the same cubic: both ends always agree, so nothing is cut and each
   * cubic is paired with itself.
   */
  lemma {:induction false} SelfMatchFrom(m: Matching, k: nat, fixed: bool)
    requires SelfMatching(m) && 1 <= k <= |m.bs1| + 1
    ensures MatchFrom(m, Cursor(k, k, Get(m.bs1, k - 1), Get(m.bs1, k - 1)), fixed) == Some(SelfPairs(m.bs1[k - 1..]))
    decreases |m.bs1| + 1 - k
  {
    var bs := m.bs1;
    var c := Cursor(k, k, Get(bs, k - 1), Get(bs, k - 1));
    if k == |bs| + 1 {
      MatchStops(m, c, fixed);
    } else {
      var b := bs[k - 1];
      SelfStep(m, k, fixed);
      StepUnfolds(m, c, fixed);
      SelfMatchFrom(m, k + 1, fixed);
      assert SelfPairs(bs[k - 1..]) == [(b.cubic, b.cubic)] + SelfPairs(bs[k..]);
    }
  }

  /** One iteration on a shape matched with itself pairs the current cubic with itself and advances both sides. */
  lemma SelfStep(m: Matching, k: nat, fixed: bool)
    requires SelfMatching(m) && 1 <= k <= |m.bs1|
    ensures var c := Cursor(k, k, Get(m.bs1, k - 1), Get(m.bs1, k - 1));
      StepOf(m, c, fixed) == Some((Cursor(k + 1, k + 1, Get(m.bs1, k), Get(m.bs1, k)), (m.bs1[k - 1].cubic, m.bs1[k - 1].cubic)))
  {
    var c := Cursor(k, k, Get(m.bs1, k - 1), Get(m.bs1, k - 1));
    SelfEndsAgree(m, k, fixed);
    var a := StartEnd(m, c);
    assert Min(a, a) == a;
  }

  /** On a shape matched with itself both sides' current cubics end at the same progress. */
  lemma SelfEndsAgree(m: Matching, k: nat, fixed: bool)
    requires SelfMatching(m) && 1 <= k <= |m.bs1|
    ensures var c := Cursor(k, k, Get(m.bs1, k - 1), Get(m.bs1, k - 1));
      EndOnStart(m, c, fixed) == Some(StartEnd(m, c))
  {
    if k != |m.bs1| {
      var e := m.bs1[k - 1].endOutlineProgress;
      assert MapBack(m.mapper, e) == Some(e);
      assert e + m.cutPoint == e;
    }
  }

  /**
   * Morphing a shape with itself pairs each of its cubics with itself, with
   * or without the corrections; for a closed outline every frame, the one
   * at progress 0 included, is exactly the shape's own cubics.
   */
  lemma MorphWithItself(m: Matching, fixed: bool, progress: real)
    requires SelfMatching(m)
    ensures MatchFrom(m, Start(m), fixed) == Some(SelfPairs(m.bs1))
    ensures Closed(CubicsOf(m.bs1)) ==> AsCubicsOf(SelfPairs(m.bs1), progress) == CubicsOf(m.bs1)
  {
    SelfMatchFrom(m, 1, fixed);
    assert m.bs1[0..] == m.bs1;
    if Closed(CubicsOf(m.bs1)) {
      SelfFramesAreTheShape(m.bs1, progress);
    }
  }

  /** For a closed outline, every frame of its cubics paired with themselves is the outline. */
  lemma SelfFramesAreTheShape(bs: seq<MeasuredCubic>, progress: real)
    requires Closed(CubicsOf(bs))
    ensures AsCubicsOf(SelfPairs(bs), progress) == CubicsOf(bs)
  {
    var cs := AsCubicsOf(SelfPairs(bs), progress);
    var n := |bs|;
    forall k | 0 <= k < n
      ensures cs[k] == bs[k].cubic
    {
      var b := bs[k].cubic;
      assert LerpCubic(b, b, progress) == b;
      if k == n - 1 {
        assert CubicsOf(bs)[n - 1].anchor1 == CubicsOf(bs)[Succ(n, n - 1)].anchor0;
      }
    }
  }

  // ---------------------------------------------------------------------
  // The end progress past 1
  // ---------------------------------------------------------------------

  /**
   * As written, an end cubic other than the last whose end, moved back by
   * the cut point, passes 1 makes `map_back` panic, and with it the whole
   * match.
   */
  lemma AsWrittenEndPastOnePanics(m: Matching, c: Cursor)
    requires WellFormed(m) && CursorOk(m, c) && c.b1.Some? && c.b2.Some?
    requires c.i2 != |m.bs2| && c.b2.value.endOutlineProgress + m.cutPoint > 1.0
    ensures EndOnStart(m, c, false).None?
    ensures MatchFrom(m, c, false).None?
  {
    StepUnfolds(m, c, false);
  }

  /** With the progress wrapped first, the end cubic's progress on the start outline always exists. */
  lemma FixedEndOnStartExists(m: Matching, c: Cursor)
    requires WellFormed(m) && c.b2.Some? && |m.mapper.targetValues| > 0
    ensures EndOnStart(m, c, true).Some?
  {
  }

  /**
   * The end outline of the source's own cutting example (cubics ending at
   * 0.3, 0.8 and 1 cut at 0.6), re-based: its cubics end at 0.2, 0.4, 0.7
   * and 1. The mapper is the identity.
   */
  function ExampleMatching(b: MeasuredCubic, cutter: Cutter): Matching
  {
    Matching([b, b], [b.(endOutlineProgress := 0.2), b.(endOutlineProgress := 0.4), b.(endOutlineProgress := 0.7), b], Identity(), 0.6, cutter)
  }

  /**
   * Once the loop reaches the re-based cubic ending at 0.7, the source
   * computes map_back(1.3) and panics; the correction maps back 0.3.
   */
  lemma ExampleEndPastOne(b: MeasuredCubic, cutter: Cutter)
    ensures var m := ExampleMatching(b, cutter);
      var c := Cursor(1, 3, Some(b), Some(m.bs2[2]));
      && CursorOk(m, c)
      && EndOnStart(m, c, false) == None
      && EndOnStart(m, c, true) == Some(0.3)
  {
    var m := ExampleMatching(b, cutter);
    assert Identity().targetValues == [0.0, 0.5];
    assert PositiveModulo(0.7 + 0.6) == 0.3 by {
      PositiveModuloOfShift(0.3, 1);
    }
    IdentityMapsToItself(0.3);
  }

  // ---------------------------------------------------------------------
  // Cubics left over
  // ---------------------------------------------------------------------

  /**
   * As written, a match that stops with cubics left on one side is returned
   * as it stands: the check after the loop looks at loop variables that the
   * loop condition has already emptied. The correction fails instead.
   */
  lemma AsWrittenKeepsPartialMatch(m: Matching, c: Cursor)
    requires WellFormed(m) && CursorOk(m, c) && c.b1.Some? != c.b2.Some?
    ensures MatchFrom(m, c, false) == Some([])
    ensures MatchFrom(m, c, true) == None
  {
    MatchStops(m, c, false);
    MatchStops(m, c, true);
  }

  /**
   * A start outline of one cubic against an end outline whose first cubic
   * maps back to within ANGLE_EPSILON of 1: both sides advance together,
   * the start side runs out, and the end side's last cubic is left over.
   * As written the match of one pair is returned; corrected it fails.
   */
  lemma ExampleLeftOver(b: MeasuredCubic, cutter: Cutter, fixed: bool)
    ensures var m := Matching([b], [b.(endOutlineProgress := 0.9999995), b], Identity(), 0.0, cutter);
      MatchFrom(m, Start(m), fixed) == if fixed then None else Some([(b.cubic, b.cubic)])
  {
    var m := Matching([b], [b.(endOutlineProgress := 0.9999995), b], Identity(), 0.0, cutter);
    var c := Start(m);
    var pair := (b.cubic, b.cubic);
    LeftOverStep(b, cutter, fixed);
    StepUnfolds(m, c, fixed);
    AsWrittenKeepsPartialMatch(m, Cursor(2, 2, None, Some(b)));
    assert [pair] + [] == [pair];
  }

  /** The one iteration of that match: both sides advance, pairing the first cubics. */
  lemma LeftOverStep(b: MeasuredCubic, cutter: Cutter, fixed: bool)
    ensures var m := Matching([b], [b.(endOutlineProgress := 0.9999995), b], Identity(), 0.0, cutter);
      StepOf(m, Start(m), fixed) == Some((Cursor(2, 2, None, Some(b)), (b.cubic, b.cubic)))
  {
    var m := Matching([b], [b.(endOutlineProgress := 0.9999995), b], Identity(), 0.0, cutter);
    var c := Start(m);
    assert Identity().targetValues == [0.0, 0.5];
    IdentityMapsToItself(0.9999995);
    assert 0.9999995 + m.cutPoint == 0.9999995;
    assert EndOnStart(m, c, fixed) == Some(0.9999995);
    assert StartEnd(m, c) == 1.0;
    assert Min(1.0, 0.9999995) == 0.9999995;
    assert SideStep(m.bs1, 1, b, 1.0, 0.9999995, Some(0.9999995), cutter) == Some(Side(b.cubic, None, 2));
    assert SideStep(m.bs2, 1, m.bs2[0], 0.9999995, 0.9999995, EndCut(m, 0.9999995), cutter) == Some(Side(b.cubic, Some(b), 2));
  }
}
