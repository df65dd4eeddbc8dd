/**
 * Rounded polygons (src/rounded_polygon.rs): the per-corner rounding
 * budget, the layout of corner and edge features, and the assembly of the
 * closed outline from the features.
 *
 * The curve geometry of a rounded corner (flanking curves, circular arc,
 * arc centre) needs square roots and trigonometry; it is the parameter
 * `shaper`. The angle computation of `RoundedCorner::new` is kept, with the
 * square root as the parameter `sqrt`.
 */
module RoundedPolygons {
  import opened Wrappers
  import opened Geometry
  import opened Cubics
  import opened Features
  import opened Util

  const Origin := Point(0.0, 0.0)

  /** `CornerRounding`: the radius of the rounding circle and the share of the side used for smoothing. */
  datatype CornerRounding = CornerRounding(radius: real, smoothing: real)

  /** `CornerRounding::UNROUNDED`. */
  const Unrounded := CornerRounding(0.0, 0.0)

  /** A square root, unspecified apart from being non-negative. */
  type Sqrt = f: real -> real | forall x :: f(x) >= 0.0 witness (x: real) => 0.0

  /** A rounding that is neither negative in radius nor in smoothing. */
  predicate NonNegative(r: CornerRounding)
  {
    r.radius >= 0.0 && r.smoothing >= 0.0
  }

  // ---------------------------------------------------------------------
  // One corner
  // ---------------------------------------------------------------------

  /** `RoundedCorner`: the corner p1 between its neighbours p0 and p2. */
  datatype RoundedCorner = RoundedCorner(
    p0: Point, p1: Point, p2: Point,
    d1: Point, d2: Point,
    cornerRadius: real, smoothing: real, expectedRoundCut: real,
    center: Point)

  /**
   * `RoundedCorner::new`. With both sides of positive length, d1 and d2 are
   * the unit directions towards the neighbours and the cut needed on each
   * side for the radius is radius·(cos + 1)/sin, or 0 when the corner is
   * nearly flat (sin at most 1e-3). A negative 1 - cos² has a NaN square
   * root in the source, which fails the comparison: no cut.
   */
  function NewCorner(p0: Point, p1: Point, p2: Point, rounding: Option<CornerRounding>, len: Length, sqrt: Sqrt): (c: RoundedCorner)
    ensures c.p0 == p0 && c.p1 == p1 && c.p2 == p2 && c.center == Origin
    ensures len(Sub(p0, p1)) == 0.0 || len(Sub(p2, p1)) == 0.0 ==>
      c.cornerRadius == 0.0 && c.smoothing == 0.0 && c.expectedRoundCut == 0.0
    ensures rounding.None? ==> c.cornerRadius == 0.0 && c.smoothing == 0.0 && c.expectedRoundCut == 0.0
    ensures rounding.Some? && len(Sub(p0, p1)) > 0.0 && len(Sub(p2, p1)) > 0.0 ==>
      c.cornerRadius == rounding.value.radius && c.smoothing == rounding.value.smoothing
    ensures rounding.Some? && NonNegative(rounding.value) ==> c.expectedRoundCut >= 0.0 && c.smoothing >= 0.0
  {
    var v01 := Sub(p0, p1);
    var v21 := Sub(p2, p1);
    var d01 := len(v01);
    var d21 := len(v21);
    if d01 > 0.0 && d21 > 0.0 then
      var d1 := Div(v01, d01);
      var d2 := Div(v21, d21);
      var radius := if rounding.Some? then rounding.value.radius else 0.0;
      var smoothing := if rounding.Some? then rounding.value.smoothing else 0.0;
      var cosAngle := Dot(d1, d2);
      var sinSquared := 1.0 - cosAngle * cosAngle;
      var cut := if sinSquared >= 0.0 && sqrt(sinSquared) > 0.001 then
        CutForRadius(radius, cosAngle, sqrt(sinSquared))
      else 0.0;
      RoundedCorner(p0, p1, p2, d1, d2, radius, smoothing, cut, Origin)
    else
      RoundedCorner(p0, p1, p2, Origin, Origin, 0.0, 0.0, 0.0, Origin)
  }

  /** radius·(cos + 1)/sin: by tan(A/2) = sin A/(1 + cos A), where the circle meets each side. */
  function CutForRadius(radius: real, cosAngle: real, sinAngle: real): (cut: real)
    requires sinAngle > 0.0
    ensures radius == 0.0 ==> cut == 0.0
    ensures radius >= 0.0 && 1.0 - cosAngle * cosAngle >= 0.0 ==> cut >= 0.0
  {
    if radius >= 0.0 && 1.0 - cosAngle * cosAngle >= 0.0 then
      CosineAtLeastMinusOne(cosAngle);
      NonNegativeProduct(radius, cosAngle + 1.0);
      NonNegativeQuotient(radius * (cosAngle + 1.0), sinAngle);
      radius * (cosAngle + 1.0) / sinAngle
    else radius * (cosAngle + 1.0) / sinAngle
  }

  lemma CosineAtLeastMinusOne(c: real)
    requires 1.0 - c * c >= 0.0
    ensures c + 1.0 >= 0.0
  {
  }

  lemma NonNegativeQuotient(a: real, b: real)
    requires a >= 0.0 && b > 0.0
    ensures a / b >= 0.0
  {
  }

  lemma NonNegativeProduct(a: real, b: real)
    requires a >= 0.0 && b >= 0.0
    ensures a * b >= 0.0
  {
  }

  /** `expected_cut`: the round cut widened by the smoothing. */
  function ExpectedCut(c: RoundedCorner): (r: real)
  {
    (1.0 + c.smoothing) * c.expectedRoundCut
  }

  /**
   * `calculate_actual_smoothing_value`: the full smoothing when the allowed
   * cut exceeds the expected cut, none when it does not exceed the round
   * cut, and the proportional share in between.
   */
  function ActualSmoothing(c: RoundedCorner, allowedCut: real): (r: real)
    ensures c.smoothing >= 0.0 && c.expectedRoundCut >= 0.0 ==> 0.0 <= r <= c.smoothing
    ensures allowedCut >= ExpectedCut(c) && ExpectedCut(c) > c.expectedRoundCut ==> r == c.smoothing
    ensures c.smoothing >= 0.0 && c.expectedRoundCut >= 0.0 && allowedCut <= c.expectedRoundCut ==> r == 0.0
  {
    if allowedCut > ExpectedCut(c) then c.smoothing
    else if allowedCut > c.expectedRoundCut then
      SmoothingShare(c.smoothing, c.expectedRoundCut, allowedCut);
      c.smoothing * (allowedCut - c.expectedRoundCut) / (ExpectedCut(c) - c.expectedRoundCut)
    else 0.0
  }

  /** With e < a <= (1 + s)·e, the share s·(a - e)/((1 + s)·e - e) lies in [0, s], and is s at the top. */
  lemma SmoothingShare(s: real, e: real, a: real)
    requires e < a <= (1.0 + s) * e
    ensures (1.0 + s) * e - e == s * e
    ensures s >= 0.0 && e >= 0.0 ==>
      0.0 <= s * (a - e) / ((1.0 + s) * e - e) <= s
    ensures a == (1.0 + s) * e ==> s * (a - e) / ((1.0 + s) * e - e) == s
  {
    assert (1.0 + s) * e - e == s * e;
    if s >= 0.0 && e >= 0.0 {
      assert s * e > 0.0;
      assert a - e <= s * e;
      var q := s * (a - e) / (s * e);
      assert q == (a - e) / e by {
        assert s * (a - e) == (a - e) / e * (s * e);
      }
      assert (a - e) / e <= s by {
        assert a - e <= s * e;
      }
    }
    if a == (1.0 + s) * e {
      assert a - e == s * e;
    }
  }

  // ---------------------------------------------------------------------
  // Sharing a side between two corners
  // ---------------------------------------------------------------------

  /**
   * The `cut_adjusts` entry of one side: (round_cut_ratio, cut_ratio) from
   * the summed round cuts `roundSum` and summed full cuts `cutSum` of the
   * side's two corners and the side's length.
   */
  function CutAdjust(roundSum: real, cutSum: real, side: real): (r: (real, real))
    requires side >= 0.0
  {
    if roundSum > side then (side / roundSum, 0.0)
    else if cutSum > side then (1.0, (side - roundSum) / (cutSum - roundSum))
    else (1.0, 1.0)
  }

  /** `expected_round_cut.mul_add(round_cut_ratio, (expected_cut - expected_round_cut) * cut_ratio)`. */
  function AllowedCut(c: RoundedCorner, ratios: (real, real)): real
  {
    Share(c.expectedRoundCut, ExpectedCut(c) - c.expectedRoundCut, ratios)
  }

  /** The part of round cut e and smoothing width w that the ratios allow. */
  function Share(e: real, w: real, ratios: (real, real)): real
  {
    e * ratios.0 + w * ratios.1
  }

  /**
   * Both ratios lie in [0, 1], and the two corners' cuts on the side add up
   * to the side or to their full cuts, whichever is smaller: rounding is
   * served first, smoothing gets what is left, and the corners never
   * overlap.
   */
  lemma {:induction false} CutAdjustShares(roundSum: real, cutSum: real, side: real)
    requires side >= 0.0 && 0.0 <= roundSum <= cutSum
    ensures var r := CutAdjust(roundSum, cutSum, side);
      0.0 <= r.0 <= 1.0 && 0.0 <= r.1 <= 1.0
      && roundSum * r.0 + (cutSum - roundSum) * r.1 == Cubics.Min(side, cutSum)
      && (roundSum > side ==> r.1 == 0.0)
  {
    var r := CutAdjust(roundSum, cutSum, side);
    if roundSum > side {
      assert roundSum * (side / roundSum) == side;
    } else if cutSum > side {
      var q := (side - roundSum) / (cutSum - roundSum);
      NonNegativeQuotient(side - roundSum, cutSum - roundSum);
      assert (cutSum - roundSum) * q == side - roundSum;
      assert q <= 1.0;
    }
  }

  /**
   * The allowed cuts of two corners on their common side: they add up to
   * at most the side's length, and each is between 0 and the corner's
   * expected cut.
   */
  lemma {:induction false} NoOverlap(a: RoundedCorner, b: RoundedCorner, side: real)
    requires side >= 0.0
    requires a.expectedRoundCut >= 0.0 && a.smoothing >= 0.0
    requires b.expectedRoundCut >= 0.0 && b.smoothing >= 0.0
    ensures var r := CutAdjust(a.expectedRoundCut + b.expectedRoundCut, ExpectedCut(a) + ExpectedCut(b), side);
      AllowedCut(a, r) + AllowedCut(b, r) <= side
      && 0.0 <= AllowedCut(a, r) <= ExpectedCut(a)
      && 0.0 <= AllowedCut(b, r) <= ExpectedCut(b)
  {
    var ea, eb := a.expectedRoundCut, b.expectedRoundCut;
    var wa, wb := ExpectedCut(a) - ea, ExpectedCut(b) - eb;
    SmoothingWidens(a);
    SmoothingWidens(b);
    SideShared(ea, wa, eb, wb, side);
  }

  /** `NoOverlap` on the round cuts e and the smoothing widths w of the two corners. */
  lemma {:induction false} SideShared(ea: real, wa: real, eb: real, wb: real, side: real)
    requires side >= 0.0 && ea >= 0.0 && wa >= 0.0 && eb >= 0.0 && wb >= 0.0
    ensures var r := CutAdjust(ea + eb, (ea + wa) + (eb + wb), side);
      Share(ea, wa, r) + Share(eb, wb, r) <= side
      && 0.0 <= Share(ea, wa, r) <= ea + wa
      && 0.0 <= Share(eb, wb, r) <= eb + wb
  {
    var roundSum, cutSum := ea + eb, (ea + wa) + (eb + wb);
    CutAdjustShares(roundSum, cutSum, side);
    var r := CutAdjust(roundSum, cutSum, side);
    SharesAdd(ea, wa, eb, wb, r.0, r.1);
    WithinFull(ea, wa, r.0, r.1);
    WithinFull(eb, wb, r.0, r.1);
  }

  lemma SharesAdd(ea: real, wa: real, eb: real, wb: real, r0: real, r1: real)
    ensures (ea * r0 + wa * r1) + (eb * r0 + wb * r1) == (ea + eb) * r0 + ((ea + wa) + (eb + wb) - (ea + eb)) * r1
  {
  }

  lemma SmoothingWidens(c: RoundedCorner)
    requires c.expectedRoundCut >= 0.0 && c.smoothing >= 0.0
    ensures ExpectedCut(c) - c.expectedRoundCut >= 0.0
  {
    NonNegativeProduct(c.smoothing, c.expectedRoundCut);
    assert ExpectedCut(c) - c.expectedRoundCut == c.smoothing * c.expectedRoundCut;
  }

  lemma WithinFull(e: real, w: real, r0: real, r1: real)
    requires e >= 0.0 && w >= 0.0 && 0.0 <= r0 <= 1.0 && 0.0 <= r1 <= 1.0
    ensures 0.0 <= e * r0 + w * r1 <= e + w
  {
    NonNegativeProduct(e, r0);
    NonNegativeProduct(w, r1);
    NonNegativeProduct(e, 1.0 - r0);
    NonNegativeProduct(w, 1.0 - r1);
  }

  // ---------------------------------------------------------------------
  // The cubics of one corner
  // ---------------------------------------------------------------------

  /**
   * The curve geometry of a rounded corner, left as a parameter: from the
   * corner, the round cut in use, the smoothing on each side and the scaled
   * radius, the flanking curve on the p0 side, the arc, the flanking curve
   * on the p2 side, and the arc's centre.
   */
  type CornerShaper = (RoundedCorner, real, real, real, real) -> (Cubic, Cubic, Cubic, Point)

  /** Nothing to round: the round cut, the allowed cut or the radius is below DISTANCE_EPSILON. */
  predicate Degenerate(c: RoundedCorner, allowedCut: real)
  {
    c.expectedRoundCut < DISTANCE_EPSILON || allowedCut < DISTANCE_EPSILON || c.cornerRadius < DISTANCE_EPSILON
  }

  /**
   * The round cut actually used (the smaller of the allowed and the expected
   * round cut) and the radius scaled down with it.
   */
  function RoundingInUse(c: RoundedCorner, allowedCut: real): (r: (real, real))
    requires !Degenerate(c, allowedCut)
    ensures DISTANCE_EPSILON <= r.0 <= allowedCut && r.0 <= c.expectedRoundCut
    ensures 0.0 < r.1 <= c.cornerRadius
    ensures allowedCut >= c.expectedRoundCut ==> r == (c.expectedRoundCut, c.cornerRadius)
  {
    var actualRoundCut := Cubics.Min(allowedCut, c.expectedRoundCut);
    ScaledRadius(c.cornerRadius, actualRoundCut, c.expectedRoundCut);
    (actualRoundCut, c.cornerRadius * actualRoundCut / c.expectedRoundCut)
  }

  lemma ScaledRadius(radius: real, cut: real, expected: real)
    requires radius > 0.0 && 0.0 < cut <= expected
    ensures 0.0 < radius * cut / expected <= radius
    ensures cut == expected ==> radius * cut / expected == radius
  {
    assert radius * cut <= radius * expected;
    assert radius * cut / expected <= radius * expected / expected;
  }

  /**
   * `get_cubics`: a single zero-length line at p1 for a degenerate corner,
   * and otherwise the two flanking curves around the arc; the corner comes
   * back with its `center` set, nothing else about it changing.
   */
  function GetCubics(c: RoundedCorner, allowedCut0: real, allowedCut1: real, shaper: CornerShaper): (r: (seq<Cubic>, RoundedCorner))
    ensures r.1 == c.(center := r.1.center)
    ensures Degenerate(c, Cubics.Min(allowedCut0, allowedCut1)) ==>
      r.0 == [StraightLine(c.p1, c.p1)] && ZeroLength(r.0[0]) && r.1.center == c.p1
    ensures !Degenerate(c, Cubics.Min(allowedCut0, allowedCut1)) ==> |r.0| == 3
  {
    var allowedCut := Cubics.Min(allowedCut0, allowedCut1);
    if Degenerate(c, allowedCut) then
      PointCubicIsZeroLength(c.p1);
      ([StraightLine(c.p1, c.p1)], c.(center := c.p1))
    else
      var (actualRoundCut, actualR) := RoundingInUse(c, allowedCut);
      var (flanking0, flanking1, flanking2, center) :=
        shaper(c, actualRoundCut, ActualSmoothing(c, allowedCut0), ActualSmoothing(c, allowedCut1), actualR);
      ([flanking0, flanking1, flanking2], c.(center := center))
  }

  /** A corner with a zero-length side is never rounded, whatever the rounding asked for. */
  lemma ZeroSideIsNotRounded(p0: Point, p1: Point, p2: Point, rounding: Option<CornerRounding>, len: Length, sqrt: Sqrt,
                             allowedCut0: real, allowedCut1: real, shaper: CornerShaper)
    requires len(Sub(p0, p1)) == 0.0 || len(Sub(p2, p1)) == 0.0
    ensures GetCubics(NewCorner(p0, p1, p2, rounding, len, sqrt), allowedCut0, allowedCut1, shaper).0 == [StraightLine(p1, p1)]
  {
  }

  // ---------------------------------------------------------------------
  // from_vertices
  // ---------------------------------------------------------------------

  lemma VertexIndicesAreModulo(n: nat, i: nat)
    requires i < n
    ensures PrevIndex(n, i) == (i + n - 1) % n
    ensures NextIndex(n, i) == (i + 1) % n
  {
    if i == 0 {
      assert (n - 1) % n == n - 1;
    } else {
      assert (i + n - 1) % n == i - 1 by {
        assert i + n - 1 == (i - 1) + n;
      }
    }
  }

  /** The rounding of vertex i: its own entry when the per-vertex list has one, the shared rounding otherwise. */
  function VertexRounding(rounding: CornerRounding, perVertex: seq<CornerRounding>, i: nat): CornerRounding
  {
    if i < |perVertex| then perVertex[i] else rounding
  }

  /** Every rounding that can apply is non-negative. */
  predicate RoundingsNonNegative(rounding: CornerRounding, perVertex: seq<CornerRounding>)
  {
    NonNegative(rounding) && forall i :: 0 <= i < |perVertex| ==> NonNegative(perVertex[i])
  }

  /** The corner at vertex i, between its two neighbours, with the rounding of that vertex. */
  function CornerAt(vs: seq<Point>, rounding: CornerRounding, perVertex: seq<CornerRounding>, len: Length, sqrt: Sqrt, i: nat): (c: RoundedCorner)
    requires i < |vs|
    ensures c.p1 == vs[i]
    ensures RoundingsNonNegative(rounding, perVertex) ==> c.expectedRoundCut >= 0.0 && c.smoothing >= 0.0
  {
    NewCorner(vs[PrevIndex(|vs|, i)], vs[i], vs[NextIndex(|vs|, i)], Some(VertexRounding(rounding, perVertex, i)), len, sqrt)
  }

  /** The first loop of `from_vertices`: the corner at every vertex. */
  function RoundedCorners(vs: seq<Point>, rounding: CornerRounding, perVertex: seq<CornerRounding>, len: Length, sqrt: Sqrt): (cs: seq<RoundedCorner>)
    ensures |cs| == |vs|
    ensures forall i :: 0 <= i < |vs| ==> cs[i].p1 == vs[i]
    ensures RoundingsNonNegative(rounding, perVertex) ==>
      forall i :: 0 <= i < |vs| ==> cs[i].expectedRoundCut >= 0.0 && cs[i].smoothing >= 0.0
  {
    seq(|vs|, i requires 0 <= i < |vs| => CornerAt(vs, rounding, perVertex, len, sqrt, i))
  }

  /** The length of side i, from vertex i to the next one. */
  function SideLength(vs: seq<Point>, i: nat, len: Length): (d: real)
    requires i < |vs|
    ensures d >= 0.0
  {
    len(Sub(vs[i], vs[NextIndex(|vs|, i)]))
  }

  /** `cut_adjusts`: the ratios of every side, from its two corners. */
  function SideAdjusts(corners: seq<RoundedCorner>, vs: seq<Point>, len: Length): (adjusts: seq<(real, real)>)
    requires |corners| == |vs| > 0
    ensures |adjusts| == |vs|
  {
    seq(|vs|, i requires 0 <= i < |vs| =>
      var next := corners[NextIndex(|vs|, i)];
      CutAdjust(corners[i].expectedRoundCut + next.expectedRoundCut, ExpectedCut(corners[i]) + ExpectedCut(next), SideLength(vs, i, len)))
  }

  /** The allowed cuts of corner i: on the side from the previous vertex, and on the side to the next one. */
  function AllowedCuts(corners: seq<RoundedCorner>, adjusts: seq<(real, real)>, i: nat): (r: (real, real))
    requires |corners| == |adjusts| && i < |corners|
  {
    (AllowedCut(corners[i], adjusts[PrevIndex(|corners|, i)]), AllowedCut(corners[i], adjusts[i]))
  }

  /**
   * The corner at vertex i and the corner at the next vertex never take
   * more of side i than its length, and neither takes more than its
   * expected cut.
   */
  lemma CornersShareSides(vs: seq<Point>, rounding: CornerRounding, perVertex: seq<CornerRounding>, len: Length, sqrt: Sqrt, i: nat)
    requires 0 <= i < |vs| && RoundingsNonNegative(rounding, perVertex)
    ensures var corners := RoundedCorners(vs, rounding, perVertex, len, sqrt);
      var adjusts := SideAdjusts(corners, vs, len);
      var j := NextIndex(|vs|, i);
      AllowedCuts(corners, adjusts, i).1 + AllowedCuts(corners, adjusts, j).0 <= SideLength(vs, i, len)
      && 0.0 <= AllowedCuts(corners, adjusts, i).1 <= ExpectedCut(corners[i])
      && 0.0 <= AllowedCuts(corners, adjusts, j).0 <= ExpectedCut(corners[j])
  {
    SidesShared(RoundedCorners(vs, rounding, perVertex, len, sqrt), vs, len, i);
  }

  /** `CornersShareSides` for any corners whose round cuts and smoothings are non-negative. */
  lemma {:induction false} SidesShared(corners: seq<RoundedCorner>, vs: seq<Point>, len: Length, i: nat)
    requires |corners| == |vs| && i < |vs|
    requires forall k :: 0 <= k < |corners| ==> corners[k].expectedRoundCut >= 0.0 && corners[k].smoothing >= 0.0
    ensures var adjusts := SideAdjusts(corners, vs, len);
      var j := NextIndex(|vs|, i);
      AllowedCuts(corners, adjusts, i).1 + AllowedCuts(corners, adjusts, j).0 <= SideLength(vs, i, len)
      && 0.0 <= AllowedCuts(corners, adjusts, i).1 <= ExpectedCut(corners[i])
      && 0.0 <= AllowedCuts(corners, adjusts, j).0 <= ExpectedCut(corners[j])
  {
    var j := NextIndex(|vs|, i);
    NoOverlap(corners[i], corners[j], SideLength(vs, i, len));
  }

  /** The cubics of every corner, each from its two allowed cuts. */
  function CornerCubics(corners: seq<RoundedCorner>, adjusts: seq<(real, real)>, shaper: CornerShaper): (cc: seq<seq<Cubic>>)
    requires |corners| == |adjusts|
    ensures |cc| == |corners|
    ensures forall i :: 0 <= i < |cc| ==> |cc[i]| > 0
  {
    seq(|corners|, i requires 0 <= i < |corners| =>
      var cuts := AllowedCuts(corners, adjusts, i);
      GetCubics(corners[i], cuts.0, cuts.1, shaper).0)
  }

  /** The corner feature of vertex i, convex when the turn there is counter-clockwise. */
  function CornerFeature(vs: seq<Point>, cc: seq<seq<Cubic>>, i: nat): Feature
    requires |cc| == |vs| && i < |vs|
  {
    MakeCorner(cc[i], IsConvex(vs[PrevIndex(|vs|, i)], vs[i], vs[NextIndex(|vs|, i)]))
  }

  /** The edge feature after vertex i: a straight line from corner i's end to corner i+1's start. */
  function EdgeFeature(cc: seq<seq<Cubic>>, i: nat): (f: Feature)
    requires i < |cc| && forall k :: 0 <= k < |cc| ==> |cc[k]| > 0
    ensures f.ty == Edge && |f.cubics| == 1
    ensures f.cubics[0].anchor0 == cc[i][|cc[i]| - 1].anchor1
    ensures f.cubics[0].anchor1 == cc[NextIndex(|cc|, i)][0].anchor0
  {
    MakeEdge([StraightLine(cc[i][|cc[i]| - 1].anchor1, cc[NextIndex(|cc|, i)][0].anchor0)])
  }

  /** The features of the first m vertices: corner 0, edge 0, corner 1, edge 1, ... */
  function Layout(vs: seq<Point>, cc: seq<seq<Cubic>>, m: nat): (fs: seq<Feature>)
    requires |cc| == |vs| && m <= |vs| && forall k :: 0 <= k < |cc| ==> |cc[k]| > 0
    ensures |fs| == 2 * m
  {
    if m == 0 then [] else Layout(vs, cc, m - 1) + [CornerFeature(vs, cc, m - 1), EdgeFeature(cc, m - 1)]
  }

  /** Feature 2i is corner i and feature 2i + 1 the edge after it. */
  lemma {:induction false} LayoutAlternates(vs: seq<Point>, cc: seq<seq<Cubic>>, m: nat)
    requires |cc| == |vs| && m <= |vs| && forall k :: 0 <= k < |cc| ==> |cc[k]| > 0
    ensures forall i :: 0 <= i < m ==>
      Layout(vs, cc, m)[2 * i] == CornerFeature(vs, cc, i) && Layout(vs, cc, m)[2 * i + 1] == EdgeFeature(cc, i)
  {
    if m > 0 {
      LayoutAlternates(vs, cc, m - 1);
    }
  }

  /** `f32::MIN`, which as a centre coordinate asks `from_vertices` for the vertex average. */
  const F32_MIN: real := -F32_MAX

  /** `f32::MAX`, which also starts the fold of `aabb`. */
  const F32_MAX: real := 340282346638528859811704183484516925440.0

  predicate IsCenterSentinel(center: Point)
  {
    center.x == F32_MIN || center.y == F32_MIN
  }

  /** The vertex average: the centre when none is given. */
  function Average(vs: seq<Point>): (c: Option<Point>)
    ensures c.Some? <==> |vs| > 0
  {
    if |vs| == 0 then None else Some(Div(Sum(vs), |vs| as real))
  }

  function Sum(vs: seq<Point>): Point
  {
    if |vs| == 0 then Origin else Add(Sum(vs[..|vs| - 1]), vs[|vs| - 1])
  }

  /**
   * `from_vertices`, None where the source's assertions fail: fewer than
   * three vertices, or a per-vertex list neither empty nor one per vertex.
   * A centre with a coordinate equal to `f32::MIN` asks for the vertex
   * average instead.
   */
  function FromVerticesOf(vs: seq<Point>, rounding: CornerRounding, perVertex: seq<CornerRounding>, center: Point,
                          len: Length, sqrt: Sqrt, shaper: CornerShaper): (r: Option<RoundedPolygon>)
    ensures r.Some? <==> |vs| >= 3 && (|perVertex| == 0 || |perVertex| == |vs|)
    ensures r.Some? ==> |r.value.features| == 2 * |vs|
    ensures r.Some? && !IsCenterSentinel(center) ==> r.value.center == center
    ensures r.Some? && IsCenterSentinel(center) ==> Some(r.value.center) == Average(vs)
  {
    if |vs| < 3 || (|perVertex| != 0 && |perVertex| != |vs|) then None
    else
      var corners := RoundedCorners(vs, rounding, perVertex, len, sqrt);
      var cc := CornerCubics(corners, SideAdjusts(corners, vs, len), shaper);
      var c := if IsCenterSentinel(center) then Average(vs).value else center;
      Some(NewPolygon(Layout(vs, cc, |vs|), c))
  }

  // ---------------------------------------------------------------------
  // RoundedPolygon::new
  // ---------------------------------------------------------------------

  /** `RoundedPolygon`: its features, its centre, and the closed outline flattened from the features. */
  datatype RoundedPolygon = RoundedPolygon(features: seq<Feature>, center: Point, cubics: seq<Cubic>)

  /** Each cubic ends where the next one starts. */
  predicate Chained(cs: seq<Cubic>)
  {
    forall i :: 0 <= i < |cs| - 1 ==> cs[i].anchor1 == cs[i + 1].anchor0
  }

  /** The cubic with its end anchor moved to p. */
  function WithEnd(c: Cubic, p: Point): (r: Cubic)
    ensures r.anchor0 == c.anchor0 && r.control0 == c.control0 && r.control1 == c.control1 && r.anchor1 == p
  {
    Cubic(c.anchor0, c.control0, c.control1, p)
  }

  /** The cubic lists of the features, in order. */
  function CubicLists(fs: seq<Feature>): (gs: seq<seq<Cubic>>)
    ensures |gs| == |fs| && forall i :: 0 <= i < |fs| ==> gs[i] == fs[i].cubics
  {
    seq(|fs|, i requires 0 <= i < |fs| => fs[i].cubics)
  }

  /**
   * The cubic lists in the order the loop of `new` visits them. When the
   * first feature has three cubics, its middle one is split in half: the
   * second half and the last cubic come first, the first cubic and the
   * first half last.
   */
  function Groups(fs: seq<Feature>): (gs: seq<seq<Cubic>>)
    ensures |gs| == (if |fs| > 0 && |fs[0].cubics| == 3 then |fs| + 1 else |fs|)
  {
    if |fs| > 0 && |fs[0].cubics| == 3 then
      var halves := Split(fs[0].cubics[1], 0.5);
      [[halves.1, fs[0].cubics[2]]] + CubicLists(fs[1..]) + [[fs[0].cubics[0], halves.0]]
    else CubicLists(fs)
  }

  /** The lists one after another. */
  function Concat(gs: seq<seq<Cubic>>): seq<Cubic>
  {
    if |gs| == 0 then [] else Concat(gs[..|gs| - 1]) + gs[|gs| - 1]
  }

  /** The cubics that are not zero-length, in order. */
  function NonZero(cs: seq<Cubic>): (r: seq<Cubic>)
    ensures |r| <= |cs|
    ensures forall c :: c in r ==> c in cs && !ZeroLength(c)
  {
    if |cs| == 0 then []
    else NonZero(cs[..|cs| - 1]) + (if ZeroLength(cs[|cs| - 1]) then [] else [cs[|cs| - 1]])
  }

  /**
   * The kept cubics of the loop of `new`: zero-length cubics are dropped,
   * and each one after the first kept cubic moves the end anchor of the
   * last kept cubic to its own end.
   */
  function Compact(cs: seq<Cubic>): (kept: seq<Cubic>)
  {
    if |cs| == 0 then []
    else
      var prefix := Compact(cs[..|cs| - 1]);
      var c := cs[|cs| - 1];
      if !ZeroLength(c) then prefix + [c]
      else if |prefix| == 0 then []
      else prefix[..|prefix| - 1] + [WithEnd(prefix[|prefix| - 1], c.anchor1)]
  }

  /** Agree on the first three points. */
  predicate SameStart(a: Cubic, b: Cubic)
  {
    a.anchor0 == b.anchor0 && a.control0 == b.control0 && a.control1 == b.control1
  }

  /** The kept cubics are the non-zero-length ones, except that their end anchors may have moved. */
  lemma {:induction false} CompactKeepsNonZero(cs: seq<Cubic>)
    ensures |Compact(cs)| == |NonZero(cs)|
    ensures forall j :: 0 <= j < |Compact(cs)| ==> SameStart(Compact(cs)[j], NonZero(cs)[j])
  {
    if |cs| > 0 {
      CompactKeepsNonZero(cs[..|cs| - 1]);
    }
  }

  /** Compacting a chained list keeps it chained, and keeps its final end point. */
  lemma {:induction false} CompactKeepsChain(cs: seq<Cubic>)
    requires Chained(cs)
    ensures Chained(Compact(cs))
    ensures |Compact(cs)| > 0 ==> Compact(cs)[|Compact(cs)| - 1].anchor1 == cs[|cs| - 1].anchor1
  {
    if |cs| > 0 {
      var front := cs[..|cs| - 1];
      assert Chained(front);
      CompactKeepsChain(front);
    }
  }

  /**
   * The closing step: the last kept cubic is made to end exactly where the
   * first one starts; with nothing kept, a single point cubic at `center`.
   */
  function Close(kept: seq<Cubic>, center: Point): (out: seq<Cubic>)
    ensures |out| > 0 && out[|out| - 1].anchor1 == out[0].anchor0
    ensures |kept| == 0 ==> out == [Cubic(center, center, center, center)]
    ensures |kept| > 0 ==>
      |out| == |kept| && out[..|kept| - 1] == kept[..|kept| - 1] && out[|kept| - 1] == WithEnd(kept[|kept| - 1], kept[0].anchor0)
    ensures Chained(kept) ==> Chained(out)
  {
    if |kept| == 0 then [Cubic(center, center, center, center)]
    else kept[..|kept| - 1] + [WithEnd(kept[|kept| - 1], kept[0].anchor0)]
  }

  /** `RoundedPolygon::new`: the features and centre as given, and the closed outline. */
  function NewPolygon(features: seq<Feature>, center: Point): (p: RoundedPolygon)
  {
    RoundedPolygon(features, center, Close(Compact(Concat(Groups(features))), center))
  }

  /**
   * The outline of `new` is never empty and is closed: its last cubic ends
   * where its first starts. It is a point cubic at the centre exactly when
   * every cubic the loop visits is zero-length, and otherwise one cubic per
   * non-zero-length cubic, each starting as that cubic does.
   */
  lemma NewPolygonOutline(features: seq<Feature>, center: Point)
    ensures var out := NewPolygon(features, center).cubics;
      var visited := Concat(Groups(features));
      |out| > 0 && out[|out| - 1].anchor1 == out[0].anchor0
      && (|NonZero(visited)| == 0 ==> out == [Cubic(center, center, center, center)])
      && (|NonZero(visited)| > 0 ==>
            |out| == |NonZero(visited)| && forall j :: 0 <= j < |out| ==> SameStart(out[j], NonZero(visited)[j]))
      && (Chained(visited) ==> Chained(out))
  {
    var visited := Concat(Groups(features));
    CompactKeepsNonZero(visited);
    if Chained(visited) {
      CompactKeepsChain(visited);
    }
  }

  /** The centre matters only when every visited cubic is zero-length. */
  lemma CenterOnlyForEmptyOutline(features: seq<Feature>, c1: Point, c2: Point)
    requires |NonZero(Concat(Groups(features)))| > 0
    ensures NewPolygon(features, c1).cubics == NewPolygon(features, c2).cubics
  {
    CompactKeepsNonZero(Concat(Groups(features)));
  }

  /**
   * The state of the loop of `new` after it has seen the cubics whose kept
   * list is `kept`: every kept cubic but the last has been pushed, the last
   * one is held back, and the first one supplies the closing point.
   */
  predicate Tracks(pushed: seq<Cubic>, last: Option<Cubic>, first: Option<Cubic>, kept: seq<Cubic>)
  {
    if |kept| == 0 then pushed == [] && last.None? && first.None?
    else pushed == kept[..|kept| - 1] && last == Some(kept[|kept| - 1]) && first.Some? && first.value.anchor0 == kept[0].anchor0
  }

  /** The inner loop of `new`, over the cubics of one feature. */
  method VisitCubics(group: seq<Cubic>, ghost visited: seq<Cubic>, pushed0: seq<Cubic>, last0: Option<Cubic>, first0: Option<Cubic>)
    returns (pushed: seq<Cubic>, last: Option<Cubic>, first: Option<Cubic>)
    requires Tracks(pushed0, last0, first0, Compact(visited))
    ensures Tracks(pushed, last, first, Compact(visited + group))
  {
    pushed, last, first := pushed0, last0, first0;
    ghost var kept := Compact(visited);
    var j := 0;
    CompactEnds(visited, group);
    while j < |group|
      invariant j <= |group|
      invariant kept == Compact(visited + group[..j])
      invariant Tracks(pushed, last, first, kept)
    {
      var cubic := group[j];
      CompactStep(visited, group, j);
      pushed, last, first := VisitCubic(cubic, kept, pushed, last, first);
      kept := Keep(kept, cubic);
      j := j + 1;
    }
  }

  /** The loop over a group starts from the cubics visited before it and ends with all of the group. */
  lemma CompactEnds(visited: seq<Cubic>, group: seq<Cubic>)
    ensures Compact(visited + group[..0]) == Compact(visited)
    ensures Compact(visited + group[..|group|]) == Compact(visited + group)
  {
    assert visited + group[..0] == visited;
    assert group[..|group|] == group;
  }

  /** The body of the inner loop of `new`: one cubic. */
  method VisitCubic(cubic: Cubic, ghost kept: seq<Cubic>, pushed0: seq<Cubic>, last0: Option<Cubic>, first0: Option<Cubic>)
    returns (pushed: seq<Cubic>, last: Option<Cubic>, first: Option<Cubic>)
    requires Tracks(pushed0, last0, first0, kept)
    ensures Tracks(pushed, last, first, Keep(kept, cubic))
  {
    pushed, last, first := pushed0, last0, first0;
    if !ZeroLength(cubic) {
      TracksKept(pushed, last, first, kept, cubic);
      if last.Some? {
        pushed := pushed + [last.value];
      }
      last := Some(cubic);
      if first.None? {
        first := Some(cubic);
      }
    } else {
      TracksMerged(pushed, last, first, kept, cubic);
      if last.Some? {
        last := Some(WithEnd(last.value, cubic.anchor1));
      }
    }
  }

  /** The kept list after one more cubic: see `Compact`. */
  function Keep(prefix: seq<Cubic>, c: Cubic): seq<Cubic>
  {
    if !ZeroLength(c) then prefix + [c]
    else if |prefix| == 0 then []
    else prefix[..|prefix| - 1] + [WithEnd(prefix[|prefix| - 1], c.anchor1)]
  }

  /** A kept cubic: the held-back one is pushed and the new one held back. */
  lemma TracksKept(pushed: seq<Cubic>, last: Option<Cubic>, first: Option<Cubic>, kept: seq<Cubic>, c: Cubic)
    requires Tracks(pushed, last, first, kept) && !ZeroLength(c)
    ensures Tracks(if last.Some? then pushed + [last.value] else pushed, Some(c), if first.None? then Some(c) else first, Keep(kept, c))
  {
    if |kept| > 0 {
      assert (kept + [c])[..|kept|] == kept;
      assert kept == kept[..|kept| - 1] + [kept[|kept| - 1]];
    }
  }

  /** A zero-length cubic: the held-back one is stretched to its end. */
  lemma TracksMerged(pushed: seq<Cubic>, last: Option<Cubic>, first: Option<Cubic>, kept: seq<Cubic>, c: Cubic)
    requires Tracks(pushed, last, first, kept) && ZeroLength(c)
    ensures Tracks(pushed, if last.Some? then Some(WithEnd(last.value, c.anchor1)) else last, first, Keep(kept, c))
  {
    if |kept| > 0 {
      var next := Keep(kept, c);
      assert next[..|next| - 1] == kept[..|kept| - 1];
      if |kept| == 1 {
        assert next[0] == WithEnd(kept[0], c.anchor1);
      } else {
        assert next[0] == kept[0];
      }
    }
  }

  /** One more cubic of the group for `Compact`. */
  lemma CompactStep(visited: seq<Cubic>, group: seq<Cubic>, j: nat)
    requires j < |group|
    ensures Compact(visited + group[..j + 1]) == Keep(Compact(visited + group[..j]), group[j])
  {
    assert visited + group[..j + 1] == (visited + group[..j]) + [group[j]];
    CompactSnoc(visited + group[..j], group[j]);
  }

  /** One more cubic for `Compact`. */
  lemma CompactSnoc(cs: seq<Cubic>, c: Cubic)
    ensures Compact(cs + [c]) == Keep(Compact(cs), c)
  {
    assert (cs + [c])[..|cs|] == cs;
  }

  lemma ConcatStep(gs: seq<seq<Cubic>>, i: nat)
    requires i < |gs|
    ensures Concat(gs[..i + 1]) == Concat(gs[..i]) + gs[i]
  {
    assert gs[..i + 1][..i] == gs[..i];
  }

  lemma ConcatWhole(gs: seq<seq<Cubic>>)
    ensures Concat(gs[..0]) == [] && Concat(gs[..|gs|]) == Concat(gs)
  {
    assert gs[..|gs|] == gs;
  }

  /** The closing push of `new` completes the tracked kept list as `Close` does. */
  lemma TracksClose(pushed: seq<Cubic>, last: Option<Cubic>, first: Option<Cubic>, kept: seq<Cubic>, center: Point)
    requires Tracks(pushed, last, first, kept)
    ensures last.Some? && first.Some? ==>
      pushed + [Cubic(last.value.anchor0, last.value.control0, last.value.control1, first.value.anchor0)] == Close(kept, center)
    ensures !(last.Some? && first.Some?) ==> pushed + [Cubic(center, center, center, center)] == Close(kept, center)
  {
  }

  /** `RoundedPolygon::new`, computing the outline as `NewPolygon` specifies it. */
  method New(features: seq<Feature>, center: Point) returns (p: RoundedPolygon)
    ensures p == NewPolygon(features, center)
  {
    var pushed: seq<Cubic> := [];
    var first: Option<Cubic> := None;
    var last: Option<Cubic> := None;
    var splitStart: Option<seq<Cubic>> := None;
    var splitEnd: Option<seq<Cubic>> := None;
    if |features| > 0 && |features[0].cubics| == 3 {
      var halves := Split(features[0].cubics[1], 0.5);
      splitStart := Some([features[0].cubics[0], halves.0]);
      splitEnd := Some([halves.1, features[0].cubics[2]]);
    }
    ghost var gs := Groups(features);
    var i := 0;
    while i <= |features|
      invariant i <= |gs|
      invariant splitStart.Some? == splitEnd.Some? == (|features| > 0 && |features[0].cubics| == 3)
      invariant splitStart.Some? ==> gs[0] == splitEnd.value && gs[|features|] == splitStart.value
      invariant Tracks(pushed, last, first, Compact(Concat(gs[..i])))
    {
      var featureCubics;
      if i == 0 && splitEnd.Some? {
        featureCubics := splitEnd.value;
      } else if i == |features| {
        if splitStart.Some? {
          featureCubics := splitStart.value;
        } else {
          break;
        }
      } else {
        featureCubics := features[i].cubics;
      }
      assert featureCubics == gs[i];
      ConcatStep(gs, i);
      pushed, last, first := VisitCubics(featureCubics, Concat(gs[..i]), pushed, last, first);
      i := i + 1;
    }
    ConcatWhole(gs);
    TracksClose(pushed, last, first, Compact(Concat(gs)), center);
    if last.Some? && first.Some? {
      pushed := pushed + [Cubic(last.value.anchor0, last.value.control0, last.value.control1, first.value.anchor0)];
    } else {
      pushed := pushed + [Cubic(center, center, center, center)];
    }
    p := RoundedPolygon(features, center, pushed);
  }

  // ---------------------------------------------------------------------
  // from_features, center_from_vertices, aabb
  // ---------------------------------------------------------------------

  /** The start anchor of every cubic of every feature, in order. */
  function Anchors(fs: seq<Feature>): (ps: seq<Point>)
    ensures |ps| == |Concat(CubicLists(fs))|
  {
    var all := Concat(CubicLists(fs));
    seq(|all|, j requires 0 <= j < |all| => all[j].anchor0)
  }

  /**
   * `from_features`: the given centre, or else the average of the cubics'
   * start anchors. None stands for the NaN centre the source computes when
   * no centre is given and the features hold no cubic.
   */
  function FromFeaturesOf(features: seq<Feature>, center: Option<Point>): (r: Option<RoundedPolygon>)
    ensures r.None? <==> center.None? && |Concat(CubicLists(features))| == 0
    ensures r.Some? ==> r.value.features == features
    ensures r.Some? && center.Some? ==> r.value.center == center.value
  {
    if center.Some? then Some(NewPolygon(features, center.value))
    else
      var c := Average(Anchors(features));
      if c.Some? then Some(NewPolygon(features, c.value)) else None
  }

  /**
   * Rebuilding a polygon from its own features reproduces it: exactly with
   * its centre, and with the centre left to be averaged the same outline,
   * as long as some cubic it was built from has length.
   */
  lemma RebuiltFromOwnFeatures(features: seq<Feature>, center: Point)
    requires |NonZero(Concat(Groups(features)))| > 0
    ensures var p := NewPolygon(features, center);
      && FromFeaturesOf(p.features, Some(p.center)) == Some(p)
      && FromFeaturesOf(p.features, None).Some?
      && FromFeaturesOf(p.features, None).value.features == p.features
      && FromFeaturesOf(p.features, None).value.cubics == p.cubics
  {
    VisitedCubicsAreListed(features);
    var c := Average(Anchors(features));
    CenterOnlyForEmptyOutline(features, center, c.value);
  }

  /** A cubic the loop of `new` visits is a cubic of some feature. */
  lemma VisitedCubicsAreListed(fs: seq<Feature>)
    ensures |NonZero(Concat(Groups(fs)))| > 0 ==> |Concat(CubicLists(fs))| > 0
  {
    if |Concat(CubicLists(fs))| == 0 {
      EmptyConcat(CubicLists(fs));
      if |fs| > 0 {
        assert CubicLists(fs)[0] == fs[0].cubics;
      }
      assert Groups(fs) == CubicLists(fs);
    }
  }

  lemma {:induction false} EmptyConcat(gs: seq<seq<Cubic>>)
    requires |Concat(gs)| == 0
    ensures forall i :: 0 <= i < |gs| ==> gs[i] == []
  {
    if |gs| > 0 {
      EmptyConcat(gs[..|gs| - 1]);
      forall i | 0 <= i < |gs| - 1
        ensures gs[i] == []
      {
        assert gs[..|gs| - 1][i] == gs[i];
      }
    }
  }

  /** `center_from_vertices`: the running sums of the coordinates, divided by the vertex count. */
  method CenterFromVertices(vs: seq<Point>) returns (c: Option<Point>)
    ensures c == Average(vs)
  {
    var cumulativeX, cumulativeY := 0.0, 0.0;
    var index := 0;
    while index < |vs|
      invariant index <= |vs|
      invariant Point(cumulativeX, cumulativeY) == Sum(vs[..index])
    {
      assert vs[..index + 1][..index] == vs[..index];
      cumulativeX := cumulativeX + vs[index].x;
      cumulativeY := cumulativeY + vs[index].y;
      index := index + 1;
    }
    assert vs[..|vs|] == vs;
    if |vs| == 0 {
      c := None;
    } else {
      c := Some(Point(cumulativeX / (|vs| as real), cumulativeY / (|vs| as real)));
    }
  }

  /** Every vertex moved by d. */
  function Translated(vs: seq<Point>, d: Point): (ts: seq<Point>)
    ensures |ts| == |vs| && forall i :: 0 <= i < |vs| ==> ts[i] == Add(vs[i], d)
  {
    seq(|vs|, i requires 0 <= i < |vs| => Add(vs[i], d))
  }

  /** Moving every vertex by d moves the sum by |vs|·d. */
  lemma {:induction false} SumOfTranslated(vs: seq<Point>, d: Point)
    ensures Sum(Translated(vs, d)) == Add(Sum(vs), Scale(d, |vs| as real))
  {
    if |vs| > 0 {
      var front := vs[..|vs| - 1];
      var t := Translated(vs, d);
      SumOfTranslated(front, d);
      assert t[..|vs| - 1] == Translated(front, d);
      assert Sum(t) == Add(Sum(Translated(front, d)), Add(vs[|vs| - 1], d));
      assert Sum(vs) == Add(Sum(front), vs[|vs| - 1]);
      SumStep(Sum(front), vs[|vs| - 1], d, (|vs| - 1) as real);
    }
  }

  /** One more translated vertex adds the vertex and one more d. */
  lemma SumStep(s: Point, v: Point, d: Point, n: real)
    ensures Add(Add(s, Scale(d, n)), Add(v, d)) == Add(Add(s, v), Scale(d, n + 1.0))
  {
    OneMore(d.x, n);
    OneMore(d.y, n);
  }

  lemma OneMore(x: real, n: real)
    ensures x * n + x == x * (n + 1.0)
  {
  }

  /** The centre computed from the vertices moves with them. */
  lemma AverageOfTranslated(vs: seq<Point>, d: Point)
    requires |vs| > 0
    ensures Average(Translated(vs, d)) == Some(Add(Average(vs).value, d))
  {
    SumOfTranslated(vs, d);
    var n := |vs| as real;
    var s := Sum(vs);
    ShiftedQuotient(s.x, d.x, n);
    ShiftedQuotient(s.y, d.y, n);
    var t := Translated(vs, d);
    assert |t| as real == n;
    assert Sum(t) == Point(s.x + d.x * n, s.y + d.y * n);
    assert Average(t).value == Div(Sum(t), n);
    assert Average(t).value == Point((s.x + d.x * n) / n, (s.y + d.y * n) / n);
    assert Average(vs).value == Point(s.x / n, s.y / n);
    assert Point((s.x + d.x * n) / n, (s.y + d.y * n) / n) == Add(Point(s.x / n, s.y / n), d);
    assert Average(Translated(vs, d)).value == Add(Average(vs).value, d);
  }

  lemma ShiftedQuotient(a: real, k: real, n: real)
    requires n > 0.0
    ensures (a + k * n) / n == a / n + k
  {
    assert (a / n + k) * n == a + k * n;
  }


  /** The smallest box holding both boxes. */
  function Merge(a: Aabb, b: Aabb): Aabb
  {
    Aabb(Point(Cubics.Min(a.min.x, b.min.x), Cubics.Min(a.min.y, b.min.y)),
         Point(Cubics.Max(a.max.x, b.max.x), Cubics.Max(a.max.y, b.max.y)))
  }

  /** The fold of `aabb` over the approximate boxes of the cubics, starting from the inverted `f32` box. */
  function Hull(cs: seq<Cubic>): Aabb
  {
    if |cs| == 0 then Aabb(Point(F32_MAX, F32_MAX), Point(F32_MIN, F32_MIN))
    else Merge(Hull(cs[..|cs| - 1]), ApproxAabb(cs[|cs| - 1]))
  }

  /** Box `outer` holds box `inner`. */
  predicate Encloses(outer: Aabb, inner: Aabb)
  {
    outer.min.x <= inner.min.x && outer.min.y <= inner.min.y && inner.max.x <= outer.max.x && inner.max.y <= outer.max.y
  }

  /** The box of the polygon holds the box of each of its cubics. */
  lemma {:induction false} HullEnclosesAll(cs: seq<Cubic>)
    ensures forall i :: 0 <= i < |cs| ==> Encloses(Hull(cs), ApproxAabb(cs[i]))
  {
    if |cs| > 0 {
      HullEnclosesAll(cs[..|cs| - 1]);
    }
  }

  /** All four coordinates of the box are finite `f32` values. */
  predicate FiniteBox(a: Aabb)
  {
    -F32_MAX <= a.min.x <= F32_MAX && -F32_MAX <= a.min.y <= F32_MAX
    && -F32_MAX <= a.max.x <= F32_MAX && -F32_MAX <= a.max.y <= F32_MAX
  }

  /**
   * For a non-empty outline of finite cubics, the box is held by any box
   * that holds all of theirs: it is the smallest such box.
   */
  lemma {:induction false} HullIsSmallest(cs: seq<Cubic>, b: Aabb)
    requires |cs| > 0
    requires forall i :: 0 <= i < |cs| ==> FiniteBox(ApproxAabb(cs[i]))
    requires forall i :: 0 <= i < |cs| ==> Encloses(b, ApproxAabb(cs[i]))
    ensures Encloses(b, Hull(cs))
  {
    if |cs| > 1 {
      HullIsSmallest(cs[..|cs| - 1], b);
    }
  }

  /** `aabb(true)`: the box of the outline, folding the approximate box of every cubic. */
  method BoundingBox(p: RoundedPolygon) returns (b: Aabb)
    ensures b == Hull(p.cubics)
  {
    b := Aabb(Point(F32_MAX, F32_MAX), Point(F32_MIN, F32_MIN));
    var i := 0;
    while i < |p.cubics|
      invariant i <= |p.cubics|
      invariant b == Hull(p.cubics[..i])
    {
      assert p.cubics[..i + 1][..i] == p.cubics[..i];
      var cubicBox := ApproxAabb(p.cubics[i]);
      b := Aabb(Point(Cubics.Min(b.min.x, cubicBox.min.x), Cubics.Min(b.min.y, cubicBox.min.y)),
                Point(Cubics.Max(b.max.x, cubicBox.max.x), Cubics.Max(b.max.y, cubicBox.max.y)));
      i := i + 1;
    }
    assert p.cubics[..|p.cubics|] == p.cubics;
  }

  // ---------------------------------------------------------------------
  // The loops of from_vertices
  // ---------------------------------------------------------------------

  /** The first loop of `from_vertices`. */
  method CornersOf(vs: seq<Point>, rounding: CornerRounding, perVertex: seq<CornerRounding>, len: Length, sqrt: Sqrt)
    returns (corners: seq<RoundedCorner>)
    ensures corners == RoundedCorners(vs, rounding, perVertex, len, sqrt)
  {
    var n := |vs|;
    corners := [];
    for i := 0 to n
      invariant |corners| == i
      invariant forall k :: 0 <= k < i ==> corners[k] == CornerAt(vs, rounding, perVertex, len, sqrt, k)
    {
      var vtxRounding := if i < |perVertex| then perVertex[i] else rounding;
      var prevIndex := (i + n - 1) % n;
      var nextIndex := (i + 1) % n;
      VertexIndicesAreModulo(n, i);
      corners := corners + [NewCorner(vs[prevIndex], vs[i], vs[nextIndex], Some(vtxRounding), len, sqrt)];
    }
  }

  /** The loop over `delta` in `from_vertices`: the two allowed cuts of corner i. */
  method AllowedCutsOf(corners: seq<RoundedCorner>, adjusts: seq<(real, real)>, i: nat) returns (cuts: (real, real))
    requires |corners| == |adjusts| && i < |corners|
    ensures cuts == AllowedCuts(corners, adjusts, i)
  {
    var n := |corners|;
    var allowedCuts := new real[2];
    allowedCuts[0], allowedCuts[1] := 0.0, 0.0;
    VertexIndicesAreModulo(n, i);
    assert (i + n - 1 + 1) % n == i by {
      assert i + n - 1 + 1 == i + n;
    }
    for delta := 0 to 2
      invariant forall d :: 0 <= d < delta ==> allowedCuts[d] == AllowedCut(corners[i], adjusts[(i + n - 1 + d) % n])
    {
      var ratios := adjusts[(i + n - 1 + delta) % n];
      allowedCuts[delta] := Share(corners[i].expectedRoundCut, ExpectedCut(corners[i]) - corners[i].expectedRoundCut, ratios);
    }
    cuts := (allowedCuts[0], allowedCuts[1]);
  }

  /** The second loop of `from_vertices`: the cubics of every corner. */
  method CubicsOf(corners: seq<RoundedCorner>, adjusts: seq<(real, real)>, shaper: CornerShaper) returns (cc: seq<seq<Cubic>>)
    requires |corners| == |adjusts|
    ensures cc == CornerCubics(corners, adjusts, shaper)
  {
    cc := [];
    CornerCubicsEnds(corners, adjusts, shaper);
    for i := 0 to |corners|
      invariant cc == CornerCubics(corners, adjusts, shaper)[..i]
    {
      var cuts := AllowedCutsOf(corners, adjusts, i);
      var corner := GetCubics(corners[i], cuts.0, cuts.1, shaper).0;
      CornerCubicsStep(corners, adjusts, shaper, i);
      cc := cc + [corner];
    }
  }

  /** The prefixes of `CornerCubics`, one corner at a time. */
  lemma CornerCubicsStep(corners: seq<RoundedCorner>, adjusts: seq<(real, real)>, shaper: CornerShaper, i: nat)
    requires |corners| == |adjusts| && i < |corners|
    ensures var cuts := AllowedCuts(corners, adjusts, i);
      CornerCubics(corners, adjusts, shaper)[..i + 1]
        == CornerCubics(corners, adjusts, shaper)[..i] + [GetCubics(corners[i], cuts.0, cuts.1, shaper).0]
  {
    var cc := CornerCubics(corners, adjusts, shaper);
    var cuts := AllowedCuts(corners, adjusts, i);
    assert cc[i] == GetCubics(corners[i], cuts.0, cuts.1, shaper).0;
    assert cc[..i + 1] == cc[..i] + [cc[i]];
  }

  lemma CornerCubicsEnds(corners: seq<RoundedCorner>, adjusts: seq<(real, real)>, shaper: CornerShaper)
    requires |corners| == |adjusts|
    ensures CornerCubics(corners, adjusts, shaper)[..0] == []
    ensures CornerCubics(corners, adjusts, shaper)[..|corners|] == CornerCubics(corners, adjusts, shaper)
  {
  }

  /** The third loop of `from_vertices`: a corner and the edge after it, for every vertex. */
  method LayoutOf(vs: seq<Point>, cc: seq<seq<Cubic>>) returns (fs: seq<Feature>)
    requires |cc| == |vs| && forall k :: 0 <= k < |cc| ==> |cc[k]| > 0
    ensures fs == Layout(vs, cc, |vs|)
  {
    var n := |vs|;
    fs := [];
    for i := 0 to n
      invariant fs == Layout(vs, cc, i)
    {
      var prevVtxIndex := (i + n - 1) % n;
      var nextVtxIndex := (i + 1) % n;
      VertexIndicesAreModulo(n, i);
      var convex := IsConvex(vs[prevVtxIndex], vs[i], vs[nextVtxIndex]);
      fs := fs + [MakeCorner(cc[i], convex)];
      fs := fs + [MakeEdge([StraightLine(cc[i][|cc[i]| - 1].anchor1, cc[nextVtxIndex][0].anchor0)])];
    }
  }

  /** `from_vertices`, None where its assertions fail. */
  method FromVertices(vs: seq<Point>, rounding: CornerRounding, perVertex: seq<CornerRounding>, center: Point,
                      len: Length, sqrt: Sqrt, shaper: CornerShaper) returns (r: Option<RoundedPolygon>)
    ensures r == FromVerticesOf(vs, rounding, perVertex, center, len, sqrt, shaper)
  {
    if |vs| < 3 || (|perVertex| != 0 && |perVertex| != |vs|) {
      return None;
    }
    var corners := CornersOf(vs, rounding, perVertex, len, sqrt);
    var cutAdjusts := SideAdjusts(corners, vs, len);
    var cc := CubicsOf(corners, cutAdjusts, shaper);
    var features := LayoutOf(vs, cc);
    var c;
    if center.x == F32_MIN || center.y == F32_MIN {
      var average := CenterFromVertices(vs);
      c := average.value;
    } else {
      c := center;
    }
    var polygon := New(features, c);
    r := Some(polygon);
  }
}
