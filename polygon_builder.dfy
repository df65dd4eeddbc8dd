/**
 * Shape builders (src/polygon_builder.rs): the builder record and its
 * setters, and the vertices and roundings each shape hands to
 * `from_vertices`.
 *
 * `radial_to_cartesian` needs cosine and sine; it is the parameter `polar`.
 */
module PolygonBuilder {
  import opened Wrappers
  import opened Geometry
  import opened Util
  import Cubics
  import opened RoundedPolygons

  /** `f32::consts::PI`, as the `f32` value it rounds to. */
  const PI: real := 3.1415927410125732421875

  /** `radial_to_cartesian(radius, angle)`: the point at that distance from the origin, in that direction. */
  type Polar = (real, real) -> Point

  datatype Size = Size(width: real, height: real)

  /** The shape-specific data of a builder. */
  datatype Shape =
    | Circle(vertices: nat, radius: real)
    | Rectangle(size: Size)
    | Star(verticesPerRadius: nat, radius: real, innerRadius: real, innerRounding: Option<CornerRounding>)
    | Pill(size: Size, smoothing: real)
    | PillStar(size: Size, verticesPerRadius: nat, innerRadiusRatio: real, innerRounding: Option<CornerRounding>,
               vertexSpacing: real, startLocation: real)

  /** `RoundedPolygonBuilder<T>`. */
  datatype Builder = Builder(data: Shape, center: Point, rounding: CornerRounding, perVertex: seq<CornerRounding>)

  /** `RoundedPolygon::builder`: centred at the origin, unrounded, no per-vertex rounding. */
  function NewBuilder(data: Shape): (b: Builder)
    ensures b.data == data && b.center == Origin && b.rounding == Unrounded && |b.perVertex| == 0
  {
    Builder(data, Origin, Unrounded, [])
  }

  /** The shapes the builder entry points start from. */
  const DefaultCircle := NewBuilder(Circle(8, 1.0))
  const DefaultRectangle := NewBuilder(Rectangle(Size(2.0, 2.0)))
  const DefaultPill := NewBuilder(Pill(Size(2.0, 1.0), 0.0))
  const DefaultPillStar := NewBuilder(PillStar(Size(2.0, 1.0), 8, 0.5, None, 0.5, 0.0))

  function DefaultStar(verticesPerRadius: nat): Builder
  {
    NewBuilder(Star(verticesPerRadius, 1.0, 0.5, None))
  }

  // ---------------------------------------------------------------------
  // Setters: each changes one field and nothing else
  // ---------------------------------------------------------------------

  /** The shapes with a rounding setter, and the shapes with a size or a radius. */
  predicate HasRounding(s: Shape) { s.Star? || s.PillStar? || s.Rectangle? }

  predicate HasSize(s: Shape) { s.Rectangle? || s.Pill? || s.PillStar? }

  predicate HasRadius(s: Shape) { s.Circle? || s.Star? }

  /** Same data, rounding and per-vertex list. */
  predicate SameButCenter(a: Builder, b: Builder)
  {
    a.data == b.data && a.rounding == b.rounding && a.perVertex == b.perVertex
  }

  /** Same centre, rounding and per-vertex list. */
  predicate SameButData(a: Builder, b: Builder)
  {
    a.center == b.center && a.rounding == b.rounding && a.perVertex == b.perVertex
  }

  function WithCenter(b: Builder, center: Point): (r: Builder)
    ensures r.center == center && SameButCenter(r, b)
  {
    b.(center := center)
  }

  /** `with_rounding`, for stars, pill stars and rectangles. */
  function WithRounding(b: Builder, rounding: CornerRounding): (r: Builder)
    requires HasRounding(b.data)
    ensures r.rounding == rounding && r.data == b.data && r.center == b.center && r.perVertex == b.perVertex
  {
    b.(rounding := rounding)
  }

  /** `with_rounding_per_vertex` for stars and pill stars: any number of roundings. */
  function WithRoundingPerVertex(b: Builder, roundings: seq<CornerRounding>): (r: Builder)
    requires b.data.Star? || b.data.PillStar?
    ensures r.perVertex == roundings && r.data == b.data && r.center == b.center && r.rounding == b.rounding
  {
    b.(perVertex := roundings)
  }

  /** `with_rounding_per_vertex` for rectangles: exactly four roundings. */
  function WithCornerRoundings(b: Builder, corners: seq<CornerRounding>): (r: Builder)
    requires b.data.Rectangle? && |corners| == 4
    ensures r.perVertex == corners && r.data == b.data && r.center == b.center && r.rounding == b.rounding
  {
    b.(perVertex := corners)
  }

  function WithSize(b: Builder, size: Size): (r: Builder)
    requires HasSize(b.data)
    ensures HasSize(r.data) && r.data.size == size && r.data == b.data.(size := r.data.size) && SameButData(r, b)
  {
    b.(data := b.data.(size := size))
  }

  function WithWidth(b: Builder, width: real): (r: Builder)
    requires HasSize(b.data)
    ensures HasSize(r.data) && r.data.size == Size(width, b.data.size.height) && r.data == b.data.(size := r.data.size) && SameButData(r, b)
  {
    b.(data := b.data.(size := b.data.size.(width := width)))
  }

  function WithHeight(b: Builder, height: real): (r: Builder)
    requires HasSize(b.data)
    ensures HasSize(r.data) && r.data.size == Size(b.data.size.width, height) && r.data == b.data.(size := r.data.size) && SameButData(r, b)
  {
    b.(data := b.data.(size := b.data.size.(height := height)))
  }

  /** Setting the width and then the height sets the size. */
  lemma WidthThenHeightIsSize(b: Builder, width: real, height: real)
    requires HasSize(b.data)
    ensures WithHeight(WithWidth(b, width), height) == WithSize(b, Size(width, height))
  {
  }

  function WithRadius(b: Builder, radius: real): (r: Builder)
    requires HasRadius(b.data)
    ensures HasRadius(r.data) && r.data.radius == radius && r.data == b.data.(radius := r.data.radius) && SameButData(r, b)
  {
    b.(data := b.data.(radius := radius))
  }

  function WithVertices(b: Builder, vertices: nat): (r: Builder)
    requires b.data.Circle?
    ensures r.data.Circle? && r.data.vertices == vertices && r.data == b.data.(vertices := r.data.vertices) && SameButData(r, b)
  {
    b.(data := b.data.(vertices := vertices))
  }

  function WithInnerRadius(b: Builder, radius: real): (r: Builder)
    requires b.data.Star?
    ensures r.data.Star? && r.data.innerRadius == radius && r.data == b.data.(innerRadius := r.data.innerRadius) && SameButData(r, b)
  {
    b.(data := b.data.(innerRadius := radius))
  }

  /** `with_inner_rounding`, for stars and pill stars. */
  function WithInnerRounding(b: Builder, rounding: CornerRounding): (r: Builder)
    requires b.data.Star? || b.data.PillStar?
    ensures (r.data.Star? || r.data.PillStar?) && r.data.innerRounding == Some(rounding) && r.data == b.data.(innerRounding := r.data.innerRounding) && SameButData(r, b)
  {
    b.(data := b.data.(innerRounding := Some(rounding)))
  }

  function WithSmoothing(b: Builder, smoothing: real): (r: Builder)
    requires b.data.Pill?
    ensures r.data.Pill? && r.data.smoothing == smoothing && r.data == b.data.(smoothing := r.data.smoothing) && SameButData(r, b)
  {
    b.(data := b.data.(smoothing := smoothing))
  }

  function WithVerticesPerRadius(b: Builder, count: nat): (r: Builder)
    requires b.data.PillStar?
    ensures r.data.PillStar? && r.data.verticesPerRadius == count && SameButData(r, b)
    ensures r.data.size == b.data.size && r.data.innerRadiusRatio == b.data.innerRadiusRatio && r.data.innerRounding == b.data.innerRounding
      && r.data.vertexSpacing == b.data.vertexSpacing && r.data.startLocation == b.data.startLocation
  {
    var d := b.data;
    b.(data := PillStar(d.size, count, d.innerRadiusRatio, d.innerRounding, d.vertexSpacing, d.startLocation))
  }

  function WithVertexSpacing(b: Builder, spacing: real): (r: Builder)
    requires b.data.PillStar?
    ensures r.data.PillStar? && r.data.vertexSpacing == spacing && r.data == b.data.(vertexSpacing := r.data.vertexSpacing) && SameButData(r, b)
  {
    b.(data := b.data.(vertexSpacing := spacing))
  }

  function WithStartLocation(b: Builder, location: real): (r: Builder)
    requires b.data.PillStar?
    ensures r.data.PillStar? && r.data.startLocation == location && r.data == b.data.(startLocation := r.data.startLocation) && SameButData(r, b)
  {
    b.(data := b.data.(startLocation := location))
  }

  function WithInnerRadiusRatio(b: Builder, ratio: real): (r: Builder)
    requires b.data.PillStar?
    ensures r.data.PillStar? && r.data.innerRadiusRatio == ratio && r.data == b.data.(innerRadiusRatio := r.data.innerRadiusRatio) && SameButData(r, b)
  {
    b.(data := b.data.(innerRadiusRatio := ratio))
  }

  // ---------------------------------------------------------------------
  // Rectangle and pill
  // ---------------------------------------------------------------------

  /** The corners (right, bottom), (left, bottom), (left, top), (right, top) of the box of `size` around `center`. */
  function RectangleVertices(center: Point, size: Size): (vs: seq<Point>)
    ensures |vs| == 4
    ensures vs[0].x == vs[3].x && vs[1].x == vs[2].x && vs[0].y == vs[1].y && vs[2].y == vs[3].y
    ensures vs[0].x - vs[1].x == size.width && vs[0].y - vs[3].y == size.height
  {
    var leftTop := Sub(center, Point(size.width / 2.0, size.height / 2.0));
    var rightBottom := Add(center, Point(size.width / 2.0, size.height / 2.0));
    [Point(rightBottom.x, rightBottom.y), Point(leftTop.x, rightBottom.y), Point(leftTop.x, leftTop.y), Point(rightBottom.x, leftTop.y)]
  }

  /** The four corners average to the centre. */
  lemma RectangleIsCentered(center: Point, size: Size)
    ensures Average(RectangleVertices(center, size)) == Some(center)
  {
    var vs := RectangleVertices(center, size);
    SumOfFour(vs);
  }

  lemma SumOfFour(vs: seq<Point>)
    requires |vs| == 4
    ensures Sum(vs) == Point(vs[0].x + vs[1].x + vs[2].x + vs[3].x, vs[0].y + vs[1].y + vs[2].y + vs[3].y)
  {
    assert vs[..3][..2] == vs[..2];
    assert vs[..2][..1] == vs[..1];
    assert vs[..1][..0] == [];
    assert Sum(vs[..1]) == vs[0];
    assert Sum(vs[..2]) == Add(vs[0], vs[1]);
    assert Sum(vs[..3]) == Add(Add(vs[0], vs[1]), vs[2]);
  }

  /** Rectangle `build`: the four corners, with the builder's rounding and per-vertex list. */
  function BuildRectangle(b: Builder, len: Length, sqrt: Sqrt, shaper: CornerShaper): (r: Option<RoundedPolygon>)
    requires b.data.Rectangle?
    ensures r.Some? <==> |b.perVertex| == 0 || |b.perVertex| == 4
    ensures r.Some? ==> |r.value.features| == 8
  {
    FromVerticesOf(RectangleVertices(b.center, b.data.size), b.rounding, b.perVertex, b.center, len, sqrt, shaper)
  }

  /** The rectangle setters keep the per-vertex list empty or four long, so a rectangle always builds. */
  lemma RectangleSettersBuild(b: Builder, len: Length, sqrt: Sqrt, shaper: CornerShaper, corners: seq<CornerRounding>)
    requires b.data.Rectangle? && (|b.perVertex| == 0 || |b.perVertex| == 4) && |corners| == 4
    ensures BuildRectangle(WithCornerRoundings(b, corners), len, sqrt, shaper).Some?
    ensures BuildRectangle(WithRounding(b, Unrounded), len, sqrt, shaper).Some?
  {
  }

  /** The pill's corners: centre ± half the size, in the same order as the rectangle's. */
  function PillVertices(center: Point, size: Size): (vs: seq<Point>)
    ensures |vs| == 4
  {
    var half := Point(size.width / 2.0, size.height / 2.0);
    [Add(center, half), Add(center, Point(-half.x, half.y)), Sub(center, half), Add(center, Point(half.x, -half.y))]
  }

  lemma PillIsCentered(center: Point, size: Size)
    ensures Average(PillVertices(center, size)) == Some(center)
  {
    var vs := PillVertices(center, size);
    SumOfFour(vs);
  }

  /** The pill's rounding: a radius of half the shorter side, with the configured smoothing. */
  function PillRounding(size: Size, smoothing: real): (r: CornerRounding)
    ensures r.smoothing == smoothing
    ensures r.radius <= size.width / 2.0 && r.radius <= size.height / 2.0
    ensures r.radius == size.width / 2.0 || r.radius == size.height / 2.0
  {
    CornerRounding(Cubics.Min(size.width / 2.0, size.height / 2.0), smoothing)
  }

  /** Pill `build`: every corner takes the pill rounding; it always builds, into four corners and four edges. */
  function BuildPill(b: Builder, len: Length, sqrt: Sqrt, shaper: CornerShaper): (r: Option<RoundedPolygon>)
    requires b.data.Pill?
    ensures r.Some? && |r.value.features| == 8
    ensures forall i :: 0 <= i < 4 ==> VertexRounding(PillRounding(b.data.size, b.data.smoothing), [], i) == PillRounding(b.data.size, b.data.smoothing)
  {
    FromVerticesOf(PillVertices(b.center, b.data.size), PillRounding(b.data.size, b.data.smoothing), [], b.center, len, sqrt, shaper)
  }

  // ---------------------------------------------------------------------
  // Star
  // ---------------------------------------------------------------------

  /** `[a, b]` repeated n times. */
  function Alternating(a: CornerRounding, b: CornerRounding, n: nat): (rs: seq<CornerRounding>)
    ensures |rs| == 2 * n
  {
    if n == 0 then [] else Alternating(a, b, n - 1) + [a, b]
  }

  /** a at the even places, b at the odd ones. */
  lemma {:induction false} AlternatingParity(a: CornerRounding, b: CornerRounding, n: nat)
    ensures forall i :: 0 <= i < 2 * n ==> Alternating(a, b, n)[i] == if i % 2 == 0 then a else b
  {
    if n > 0 {
      AlternatingParity(a, b, n - 1);
      forall i | 0 <= i < 2 * n
        ensures Alternating(a, b, n)[i] == if i % 2 == 0 then a else b
      {
        if i >= 2 * n - 2 {
          assert i % 2 == i - (2 * n - 2) by {
            assert i == 2 * (n - 1) + (i - (2 * n - 2));
          }
        }
      }
    }
  }

  /**
   * The per-vertex list a star or pill star passes on: its own list when it
   * has one, otherwise the outer and inner rounding alternating when an
   * inner rounding is set, otherwise none.
   */
  function StarRoundings(rounding: CornerRounding, perVertex: seq<CornerRounding>, innerRounding: Option<CornerRounding>, verticesPerRadius: nat): (rs: seq<CornerRounding>)
  {
    if |perVertex| > 0 then perVertex
    else if innerRounding.Some? then Alternating(rounding, innerRounding.value, verticesPerRadius)
    else []
  }

  /**
   * Which rounding each star vertex gets: the per-vertex entry when there
   * is a list; otherwise, with an inner rounding, the shape rounding at the
   * outer (even) vertices and the inner rounding at the inner (odd) ones;
   * otherwise the shape rounding everywhere.
   */
  lemma RoundingPrecedence(rounding: CornerRounding, perVertex: seq<CornerRounding>, innerRounding: Option<CornerRounding>, verticesPerRadius: nat, i: nat)
    requires i < 2 * verticesPerRadius
    ensures var rs := StarRoundings(rounding, perVertex, innerRounding, verticesPerRadius);
      (|perVertex| > 0 ==> VertexRounding(rounding, rs, i) == VertexRounding(rounding, perVertex, i))
      && (|perVertex| == 0 && innerRounding.Some? ==>
            |rs| == 2 * verticesPerRadius
            && VertexRounding(rounding, rs, i) == if i % 2 == 0 then rounding else innerRounding.value)
      && (|perVertex| == 0 && innerRounding.None? ==> VertexRounding(rounding, rs, i) == rounding)
  {
    if |perVertex| == 0 && innerRounding.Some? {
      AlternatingParity(rounding, innerRounding.value, verticesPerRadius);
    }
  }

  /** The angle of star vertex i: `PI / n * i`. */
  function StarAngle(n: nat, i: nat): real
    requires n > 0
  {
    PI / (n as real) * (i as real)
  }

  /** `star_vertices_from_num_verts`: 2n vertices, the outer radius at even indices and the inner one at odd. */
  function StarVertices(n: nat, radius: real, innerRadius: real, center: Point, polar: Polar): (vs: seq<Point>)
    ensures |vs| == 2 * n
  {
    seq(2 * n, i requires 0 <= i < 2 * n => Add(center, polar(if i % 2 == 0 then radius else innerRadius, StarAngle(n, i))))
  }

  /**
   * When `polar` puts a point at distance r from the origin, the outer
   * vertices lie on the circle of the radius and the inner ones on the
   * circle of the inner radius.
   */
  lemma StarVerticesOnCircles(n: nat, radius: real, innerRadius: real, center: Point, polar: Polar, len: Length, i: nat)
    requires radius >= 0.0 && innerRadius >= 0.0 && i < 2 * n
    requires forall r, a :: r >= 0.0 ==> len(polar(r, a)) == r
    ensures len(Sub(StarVertices(n, radius, innerRadius, center, polar)[i], center)) == if i % 2 == 0 then radius else innerRadius
  {
    var r := if i % 2 == 0 then radius else innerRadius;
    var p := polar(r, StarAngle(n, i));
    assert Sub(Add(center, p), center) == p;
  }

  /** Star `build`. */
  function BuildStar(b: Builder, polar: Polar, len: Length, sqrt: Sqrt, shaper: CornerShaper): (r: Option<RoundedPolygon>)
    requires b.data.Star?
    ensures r.Some? <==> b.data.verticesPerRadius >= 2 && (|b.perVertex| == 0 || |b.perVertex| == 2 * b.data.verticesPerRadius)
    ensures r.Some? ==> |r.value.features| == 4 * b.data.verticesPerRadius
  {
    var n := b.data.verticesPerRadius;
    var vs := StarVertices(n, b.data.radius, b.data.innerRadius, b.center, polar);
    FromVerticesOf(vs, b.rounding, StarRoundings(b.rounding, b.perVertex, b.data.innerRounding, n), b.center, len, sqrt, shaper)
  }

  // ---------------------------------------------------------------------
  // Pill star
  // ---------------------------------------------------------------------

  /**
   * The outline a pill star's vertices are spread along: the end-cap
   * radius, the straight vertical and horizontal runs, the circumference
   * the end caps count for, the perimeter, and the start of each of the
   * ten sections (`sections[10]` is the perimeter).
   */
  datatype PillOutline = PillOutline(endcapRadius: real, vSegLen: real, hSegLen: real, circlePerimeter: real, perimeter: real, sections: seq<real>)

  function PillOutlineOf(size: Size, innerRadius: real, vertexSpacing: real): (o: PillOutline)
    ensures |o.sections| == 11 && o.sections[0] == 0.0
    ensures o.vSegLen >= 0.0 && o.hSegLen >= 0.0 && (o.vSegLen == 0.0 || o.hSegLen == 0.0)
    ensures o.sections[9] == o.perimeter && o.sections[10] == o.perimeter
    ensures o.circlePerimeter >= 0.0 ==> forall i :: 0 <= i < 10 ==> o.sections[i] <= o.sections[i + 1]
  {
    var endcapRadius := Cubics.Min(size.width, size.height);
    var vSegLen := Cubics.Max(size.height - size.width, 0.0);
    var hSegLen := Cubics.Max(size.width - size.height, 0.0);
    var circlePerimeter := PI * 2.0 * endcapRadius * (innerRadius * (1.0 - vertexSpacing) + 1.0 * vertexSpacing);
    var perimeter := 2.0 * hSegLen + 2.0 * vSegLen + circlePerimeter;
    var quarter := circlePerimeter / 4.0;
    var s1 := vSegLen / 2.0;
    var s2 := s1 + quarter;
    var s3 := s2 + hSegLen;
    var s4 := s3 + quarter;
    var s5 := s4 + vSegLen;
    var s6 := s5 + quarter;
    var s7 := s6 + hSegLen;
    var s8 := s7 + quarter;
    var s9 := s8 + vSegLen / 2.0;
    PillOutline(endcapRadius, vSegLen, hSegLen, circlePerimeter, perimeter, [0.0, s1, s2, s3, s4, s5, s6, s7, s8, s9, perimeter])
  }

  /** For a non-negative size, inner ratio and spacing in [0, 1], the end caps count for a non-negative length. */
  lemma CirclePerimeterNonNegative(size: Size, innerRadius: real, vertexSpacing: real)
    requires size.width >= 0.0 && size.height >= 0.0 && innerRadius >= 0.0 && 0.0 <= vertexSpacing <= 1.0
    ensures PillOutlineOf(size, innerRadius, vertexSpacing).circlePerimeter >= 0.0
  {
    var endcapRadius := Cubics.Min(size.width, size.height);
    var factor := innerRadius * (1.0 - vertexSpacing) + 1.0 * vertexSpacing;
    NonNegativeProduct(innerRadius, 1.0 - vertexSpacing);
    NonNegativeProduct(PI * 2.0, endcapRadius);
    NonNegativeProduct(PI * 2.0 * endcapRadius, factor);
  }

  /** The state of the pill-star walk: the vertices so far, t, which radius is next, and the current section. */
  datatype Walk = Walk(vertices: seq<Point>, t: real, inner: bool, index: nat, secStart: real, secEnd: real)

  /** The `while` loop of the walk: move on while t has reached the start of the next section. */
  function Advance(sections: seq<real>, boundedT: real, index: nat, secStart: real, secEnd: real): (r: (nat, real, real))
    requires |sections| == 11 && index <= 9 && boundedT < sections[10]
    ensures index <= r.0 <= 9 && boundedT < sections[r.0 + 1]
    ensures r.0 > index ==> r.1 == sections[r.0] && r.2 == sections[r.0 + 1] && sections[r.0] <= boundedT
    ensures r.0 == index ==> r.1 == secStart && r.2 == secEnd
    decreases 9 - index
  {
    if boundedT >= sections[index + 1] then Advance(sections, boundedT, index + 1, sections[index + 1], sections[index + 2])
    else (index, secStart, secEnd)
  }

  /**
   * Where vertex t falls: t wrapped into the perimeter, back to section 0
   * when it has wrapped, then advanced. As written, the wrap resets the
   * index but leaves `sec_start` and `sec_end` as they were; `fixed` resets
   * them to section 0 as well.
   */
  function Locate(o: PillOutline, w: Walk, fixed: bool): (r: (nat, real, real, real))
    requires |o.sections| == 11 && o.perimeter > 0.0 && o.sections[10] == o.perimeter && w.index <= 9
    ensures r.0 <= 9 && r.3 < o.sections[r.0 + 1]
  {
    var boundedT := FloatRem(w.t, o.perimeter);
    var start := if boundedT < w.secStart then
        (0, if fixed then o.sections[0] else w.secStart, if fixed then o.sections[1] else w.secEnd)
      else (w.index, w.secStart, w.secEnd);
    var (index, secStart, secEnd) := Advance(o.sections, boundedT, start.0, start.1, start.2);
    (index, secStart, secEnd, boundedT)
  }

  /** The `match` on the section index: the vertex at proportion `p` of the section, at radius `r`. */
  function Place(o: PillOutline, index: nat, p: real, r: real, polar: Polar): Point
  {
    var vHalf := o.vSegLen / 2.0;
    var hHalf := o.hSegLen / 2.0;
    match index
    case 0 => Point(r, p * vHalf)
    case 1 => Add(Point(hHalf, vHalf), polar(r, p * PI / 2.0))
    case 2 => Point(p * -o.hSegLen + hHalf, r)
    case 3 => Add(Point(-hHalf, vHalf), polar(r, PI / 2.0 + p * PI / 2.0))
    case 4 => Point(-r, p * -o.vSegLen + vHalf)
    case 5 => Add(Point(-hHalf, -vHalf), polar(r, PI + p * PI / 2.0))
    case 6 => Point(p * o.hSegLen - hHalf, -r)
    case 7 => Add(Point(hHalf, -vHalf), polar(r, PI * 1.5 + p * PI / 2.0))
    case _ => Point(r, p * vHalf - vHalf)
  }

  /** How far t has gone into the section, as a fraction of its length. */
  function Proportion(boundedT: real, secStart: real, secEnd: real): real
    requires secEnd - secStart != 0.0
  {
    (boundedT - secStart) / (secEnd - secStart)
  }

  /** The end-cap radius, scaled by the inner ratio for inner vertices. */
  function VertexRadius(o: PillOutline, inner: bool, innerRatio: real): real
  {
    if inner then o.endcapRadius * innerRatio else o.endcapRadius
  }

  /**
   * One turn of the `for` loop: None when the section found has zero
   * length, where the source divides by zero and the vertex is not finite.
   */
  function Step(o: PillOutline, innerRatio: real, tPerVertex: real, center: Point, polar: Polar, w: Walk, fixed: bool): (r: Option<Walk>)
    requires |o.sections| == 11 && o.perimeter > 0.0 && o.sections[10] == o.perimeter && w.index <= 9
    ensures r.Some? ==> r.value.index <= 9 && |r.value.vertices| == |w.vertices| + 1 && r.value.vertices[..|w.vertices|] == w.vertices
    ensures r.Some? ==> r.value.t == w.t + tPerVertex && r.value.inner == !w.inner
  {
    var (index, secStart, secEnd, boundedT) := Locate(o, w, fixed);
    if secEnd - secStart == 0.0 then None
    else
      var vertex := Add(Place(o, index, Proportion(boundedT, secStart, secEnd), VertexRadius(o, w.inner, innerRatio), polar), center);
      Some(Walk(w.vertices + [vertex], w.t + tPerVertex, !w.inner, index, secStart, secEnd))
  }

  /** The walk after k turns. */
  function Walked(o: PillOutline, innerRatio: real, tPerVertex: real, center: Point, polar: Polar, start: Walk, fixed: bool, k: nat): (r: Option<Walk>)
    requires |o.sections| == 11 && o.perimeter > 0.0 && o.sections[10] == o.perimeter && start.index <= 9
    ensures r.Some? ==> r.value.index <= 9 && |r.value.vertices| == |start.vertices| + k
  {
    if k == 0 then Some(start)
    else
      var before := Walked(o, innerRatio, tPerVertex, center, polar, start, fixed, k - 1);
      if before.None? then None else Step(o, innerRatio, tPerVertex, center, polar, before.value, fixed)
  }

  /** The walk before its first turn: t at the start location, section 0. */
  function StartOfWalk(o: PillOutline, startLocation: real): Walk
    requires |o.sections| == 11
  {
    Walk([], startLocation * o.perimeter, false, 0, 0.0, o.sections[1])
  }

  /**
   * `pill_star_vertices_from_num_verts`: 2n vertices. None where the
   * source produces a vertex that is not finite or may not finish: a
   * perimeter that is not positive, or a section of zero length.
   */
  function PillStarVertices(n: nat, size: Size, innerRadius: real, vertexSpacing: real, startLocation: real,
                            center: Point, polar: Polar, fixed: bool): (r: Option<seq<Point>>)
    ensures r.Some? ==> |r.value| == 2 * n
    ensures n == 0 ==> r == Some([])
  {
    PillStarWalk(n, PillOutlineOf(size, innerRadius, vertexSpacing), innerRadius, startLocation, center, polar, fixed)
  }

  /** The walk of `pill_star_vertices_from_num_verts` along an outline. */
  function PillStarWalk(n: nat, o: PillOutline, innerRadius: real, startLocation: real, center: Point, polar: Polar, fixed: bool): (r: Option<seq<Point>>)
    requires |o.sections| == 11 && o.sections[10] == o.perimeter
    ensures r.Some? ==> |r.value| == 2 * n
    ensures n == 0 ==> r == Some([])
  {
    if n == 0 then Some([])
    else if o.perimeter <= 0.0 then None
    else
      var walked := Walked(o, innerRadius, o.perimeter / (2 * n) as real, center, polar, StartOfWalk(o, startLocation), fixed, 2 * n);
      if walked.None? then None else Some(walked.value.vertices)
  }

  /** The current section agrees with the index: it runs from `sections[index]` to `sections[index + 1]`. */
  predicate Aligned(o: PillOutline, w: Walk)
    requires |o.sections| == 11 && w.index <= 9
  {
    w.secStart == o.sections[w.index] && w.secEnd == o.sections[w.index + 1]
  }

  /**
   * With the reset fixed, and t not negative, every vertex falls inside
   * the section found for it: at proportion in [0, 1) of a section of
   * positive length.
   */
  lemma {:induction false} FixedLocatesInsideSection(o: PillOutline, w: Walk)
    requires |o.sections| == 11 && o.perimeter > 0.0 && o.sections[10] == o.perimeter && o.sections[0] == 0.0
    requires w.index <= 9 && Aligned(o, w) && w.t >= 0.0
    ensures var r := Locate(o, w, true);
      r.1 == o.sections[r.0] && r.2 == o.sections[r.0 + 1] && r.1 <= r.3 < r.2
  {
  }

  /** The fixed walk keeps its section aligned and t non-negative, so it never fails. */
  lemma {:induction false} FixedWalkSucceeds(o: PillOutline, innerRatio: real, tPerVertex: real, center: Point, polar: Polar, start: Walk, k: nat)
    requires |o.sections| == 11 && o.perimeter > 0.0 && o.sections[10] == o.perimeter && o.sections[0] == 0.0
    requires start.index <= 9 && Aligned(o, start) && start.t >= 0.0 && tPerVertex >= 0.0
    ensures var r := Walked(o, innerRatio, tPerVertex, center, polar, start, true, k);
      r.Some? && Aligned(o, r.value) && r.value.t >= 0.0
  {
    if k > 0 {
      var before := Walked(o, innerRatio, tPerVertex, center, polar, start, true, k - 1);
      FixedWalkSucceeds(o, innerRatio, tPerVertex, center, polar, start, k - 1);
      FixedStepSucceeds(o, innerRatio, tPerVertex, center, polar, before.value);
    }
  }

  lemma FixedStepSucceeds(o: PillOutline, innerRatio: real, tPerVertex: real, center: Point, polar: Polar, w: Walk)
    requires |o.sections| == 11 && o.perimeter > 0.0 && o.sections[10] == o.perimeter && o.sections[0] == 0.0
    requires w.index <= 9 && Aligned(o, w) && w.t >= 0.0 && tPerVertex >= 0.0
    ensures var r := Step(o, innerRatio, tPerVertex, center, polar, w, true);
      r.Some? && Aligned(o, r.value) && r.value.t >= 0.0
  {
    FixedLocatesInsideSection(o, w);
  }

  /**
   * A walk that can go on: t not negative, and its section of positive
   * length, unless it is still the first section it started in.
   */
  predicate Live(o: PillOutline, w: Walk)
    requires |o.sections| == 11
  {
    w.t >= 0.0 && (w.secStart < w.secEnd || (w.index == 0 && w.secStart == 0.0 && w.secEnd == o.sections[1]))
  }

  /**
   * With or without the reset, a live walk finds a section of positive
   * length for its next vertex and stays live: a section it advances into
   * holds t, and a stale section kept across the wrap had positive length.
   */
  lemma StepSucceeds(o: PillOutline, innerRatio: real, tPerVertex: real, center: Point, polar: Polar, w: Walk, fixed: bool)
    requires |o.sections| == 11 && o.perimeter > 0.0 && o.sections[10] == o.perimeter && o.sections[0] == 0.0
    requires w.index <= 9 && Live(o, w) && tPerVertex >= 0.0
    ensures var r := Step(o, innerRatio, tPerVertex, center, polar, w, fixed);
      r.Some? && Live(o, r.value)
  {
    var (index, secStart, secEnd, boundedT) := Locate(o, w, fixed);
    assert boundedT >= 0.0;
    assert secStart < secEnd;
  }

  /** Every walk from a live start, corrected or as written, takes all its turns. */
  lemma {:induction false} WalkSucceeds(o: PillOutline, innerRatio: real, tPerVertex: real, center: Point, polar: Polar, start: Walk, fixed: bool, k: nat)
    requires |o.sections| == 11 && o.perimeter > 0.0 && o.sections[10] == o.perimeter && o.sections[0] == 0.0
    requires start.index <= 9 && Live(o, start) && tPerVertex >= 0.0
    ensures var r := Walked(o, innerRatio, tPerVertex, center, polar, start, fixed, k);
      r.Some? && Live(o, r.value)
  {
    if k > 0 {
      var before := Walked(o, innerRatio, tPerVertex, center, polar, start, fixed, k - 1);
      WalkSucceeds(o, innerRatio, tPerVertex, center, polar, start, fixed, k - 1);
      StepSucceeds(o, innerRatio, tPerVertex, center, polar, before.value, fixed);
    }
  }

  /** A pill star of positive perimeter and non-negative start location always gets its 2n vertices. */
  lemma PillStarVerticesSucceed(n: nat, size: Size, innerRadius: real, vertexSpacing: real, startLocation: real, center: Point, polar: Polar, fixed: bool)
    requires PillOutlineOf(size, innerRadius, vertexSpacing).perimeter > 0.0 && startLocation >= 0.0
    ensures PillStarVertices(n, size, innerRadius, vertexSpacing, startLocation, center, polar, fixed).Some?
  {
    PillStarWalkSucceeds(n, PillOutlineOf(size, innerRadius, vertexSpacing), innerRadius, startLocation, center, polar, fixed);
  }

  lemma PillStarWalkSucceeds(n: nat, o: PillOutline, innerRadius: real, startLocation: real, center: Point, polar: Polar, fixed: bool)
    requires |o.sections| == 11 && o.perimeter > 0.0 && o.sections[10] == o.perimeter && o.sections[0] == 0.0
    requires startLocation >= 0.0
    ensures PillStarWalk(n, o, innerRadius, startLocation, center, polar, fixed).Some?
  {
    if n > 0 {
      NonNegativeProduct(startLocation, o.perimeter);
      NonNegativeQuotient(o.perimeter, (2 * n) as real);
      WalkSucceeds(o, innerRadius, o.perimeter / (2 * n) as real, center, polar, StartOfWalk(o, startLocation), fixed, 2 * n);
    }
  }

  /** A vertex placed in some section of the outline, at the outer or the inner radius. */
  ghost predicate PlacedVertex(o: PillOutline, innerRatio: real, center: Point, polar: Polar, v: Point, inner: bool)
  {
    exists index: nat, p: real :: index <= 9 && v == Add(Place(o, index, p, VertexRadius(o, inner, innerRatio), polar), center)
  }

  /**
   * What k turns from `start` have made of walk w: `inner` has flipped k
   * times, the starting vertices are kept, and turn j added a vertex placed
   * in some section at the radius its parity selects.
   */
  ghost predicate AlternatesFrom(o: PillOutline, innerRatio: real, center: Point, polar: Polar, start: Walk, w: Walk, k: nat)
  {
    && |w.vertices| == |start.vertices| + k
    && w.inner == (start.inner != (k % 2 == 1))
    && w.vertices[..|start.vertices|] == start.vertices
    && forall j :: 0 <= j < k ==>
         PlacedVertex(o, innerRatio, center, polar, w.vertices[|start.vertices| + j], start.inner != (j % 2 == 1))
  }

  /** One more turn keeps the alternation. */
  lemma TurnAlternates(o: PillOutline, innerRatio: real, tPerVertex: real, center: Point, polar: Polar, start: Walk, w: Walk, fixed: bool, k: nat)
    requires |o.sections| == 11 && o.perimeter > 0.0 && o.sections[10] == o.perimeter && w.index <= 9
    requires AlternatesFrom(o, innerRatio, center, polar, start, w, k)
    ensures var r := Step(o, innerRatio, tPerVertex, center, polar, w, fixed);
      r.Some? ==> AlternatesFrom(o, innerRatio, center, polar, start, r.value, k + 1)
  {
    var r := Step(o, innerRatio, tPerVertex, center, polar, w, fixed);
    if r.Some? {
      var vs := r.value.vertices;
      StepPlacesVertex(o, innerRatio, tPerVertex, center, polar, w, fixed);
      ParityFlips(k + 1);
      PrefixOfPrefix(vs, w.vertices, |start.vertices|);
      forall j | 0 <= j < k + 1
        ensures PlacedVertex(o, innerRatio, center, polar, vs[|start.vertices| + j], start.inner != (j % 2 == 1))
      {
        if j < k {
          assert vs[|start.vertices| + j] == vs[..|w.vertices|][|start.vertices| + j];
        }
      }
    }
  }

  /** The walk alternates outer and inner vertices, turn after turn. */
  lemma {:induction false} WalkedAlternates(o: PillOutline, innerRatio: real, tPerVertex: real, center: Point, polar: Polar, start: Walk, fixed: bool, k: nat)
    requires |o.sections| == 11 && o.perimeter > 0.0 && o.sections[10] == o.perimeter && start.index <= 9
    ensures var r := Walked(o, innerRatio, tPerVertex, center, polar, start, fixed, k);
      r.Some? ==> AlternatesFrom(o, innerRatio, center, polar, start, r.value, k)
  {
    if k == 0 {
      assert start.vertices[..|start.vertices|] == start.vertices;
    } else {
      var r := Walked(o, innerRatio, tPerVertex, center, polar, start, fixed, k);
      if r.Some? {
        WalkedStepKeeps(o, innerRatio, tPerVertex, center, polar, start, fixed, k);
        var before := Walked(o, innerRatio, tPerVertex, center, polar, start, fixed, k - 1);
        WalkedAlternates(o, innerRatio, tPerVertex, center, polar, start, fixed, k - 1);
        TurnAlternates(o, innerRatio, tPerVertex, center, polar, start, before.value, fixed, k - 1);
      }
    }
  }

  /** The last turn of a walk is a `Step` from the walk before it. */
  lemma WalkedStepKeeps(o: PillOutline, innerRatio: real, tPerVertex: real, center: Point, polar: Polar, start: Walk, fixed: bool, k: nat)
    requires |o.sections| == 11 && o.perimeter > 0.0 && o.sections[10] == o.perimeter && start.index <= 9 && k > 0
    ensures var r := Walked(o, innerRatio, tPerVertex, center, polar, start, fixed, k);
      r.Some? ==>
        var before := Walked(o, innerRatio, tPerVertex, center, polar, start, fixed, k - 1);
        before.Some? && r == Step(o, innerRatio, tPerVertex, center, polar, before.value, fixed)
  {
  }

  lemma PrefixOfPrefix<T>(a: seq<T>, b: seq<T>, n: nat)
    requires |b| <= |a| && b == a[..|b|] && n <= |b|
    ensures b[..n] == a[..n]
  {
  }

  lemma ParityFlips(k: nat)
    requires k > 0
    ensures (k % 2 == 1) == !((k - 1) % 2 == 1)
  {
  }

  /** A turn places its vertex in some section, at the radius the walk's `inner` selects. */
  lemma StepPlacesVertex(o: PillOutline, innerRatio: real, tPerVertex: real, center: Point, polar: Polar, w: Walk, fixed: bool)
    requires |o.sections| == 11 && o.perimeter > 0.0 && o.sections[10] == o.perimeter && w.index <= 9
    ensures var r := Step(o, innerRatio, tPerVertex, center, polar, w, fixed);
      r.Some? ==> PlacedVertex(o, innerRatio, center, polar, r.value.vertices[|w.vertices|], w.inner)
  {
    var (index, secStart, secEnd, boundedT) := Locate(o, w, fixed);
    StepAt(o, innerRatio, tPerVertex, center, polar, w, fixed, index, secStart, secEnd, boundedT);
    if secEnd - secStart != 0.0 {
      var p := Proportion(boundedT, secStart, secEnd);
      var v := Add(Place(o, index, p, VertexRadius(o, w.inner, innerRatio), polar), center);
      assert (w.vertices + [v])[|w.vertices|] == v;
    }
  }

  /**
   * The walk of a pill star alternates outer and inner vertices: vertex j
   * lies in some section at the inner radius exactly when j is odd.
   */
  lemma PillStarWalkAlternates(n: nat, o: PillOutline, innerRadius: real, startLocation: real, center: Point, polar: Polar, fixed: bool)
    requires |o.sections| == 11 && o.sections[10] == o.perimeter
    ensures var r := PillStarWalk(n, o, innerRadius, startLocation, center, polar, fixed);
      r.Some? ==> forall j :: 0 <= j < 2 * n ==> PlacedVertex(o, innerRadius, center, polar, r.value[j], j % 2 == 1)
  {
    if n > 0 && o.perimeter > 0.0 {
      WalkedAlternates(o, innerRadius, o.perimeter / (2 * n) as real, center, polar, StartOfWalk(o, startLocation), fixed, 2 * n);
    }
  }

  /** `pill_star_vertices_from_num_verts` gives 2n vertices, outer at even positions and inner at odd ones. */
  lemma PillStarVerticesAlternate(n: nat, size: Size, innerRadius: real, vertexSpacing: real, startLocation: real,
                                  center: Point, polar: Polar, fixed: bool)
    ensures var r := PillStarVertices(n, size, innerRadius, vertexSpacing, startLocation, center, polar, fixed);
      r.Some? ==> |r.value| == 2 * n && forall j :: 0 <= j < 2 * n ==>
        PlacedVertex(PillOutlineOf(size, innerRadius, vertexSpacing), innerRadius, center, polar, r.value[j], j % 2 == 1)
  {
    PillStarWalkAlternates(n, PillOutlineOf(size, innerRadius, vertexSpacing), innerRadius, startLocation, center, polar, fixed);
  }

  /** The inner `while` loop of the walk; it computes exactly `Advance`. */
  method AdvanceSection(sections: seq<real>, boundedT: real, index: nat, secStart: real, secEnd: real) returns (index': nat, secStart': real, secEnd': real)
    requires |sections| == 11 && index <= 9 && boundedT < sections[10]
    ensures (index', secStart', secEnd') == Advance(sections, boundedT, index, secStart, secEnd)
  {
    index', secStart', secEnd' := index, secStart, secEnd;
    while boundedT >= sections[index' + 1]
      invariant index' <= 9
      invariant Advance(sections, boundedT, index', secStart', secEnd') == Advance(sections, boundedT, index, secStart, secEnd)
      decreases 9 - index'
    {
      index' := index' + 1;
      secStart' := sections[index'];
      secEnd' := sections[index' + 1];
    }
  }

  /**
   * The head of the `for` loop's body: t wrapped into the perimeter, the
   * reset on a wrap, then the inner `while`. It computes exactly `Locate`.
   */
  method LocateSection(o: PillOutline, t: real, index: nat, secStart: real, secEnd: real, fixed: bool)
    returns (boundedT: real, index': nat, secStart': real, secEnd': real)
    requires |o.sections| == 11 && o.perimeter > 0.0 && o.sections[10] == o.perimeter && index <= 9
    ensures index' <= 9
    ensures (index', secStart', secEnd', boundedT) == Locate(o, Walk([], t, false, index, secStart, secEnd), fixed)
  {
    boundedT := FloatRem(t, o.perimeter);
    index', secStart', secEnd' := index, secStart, secEnd;
    if boundedT < secStart {
      index' := 0;
      if fixed {
        secStart' := o.sections[0];
        secEnd' := o.sections[1];
      }
    }
    index', secStart', secEnd' := AdvanceSection(o.sections, boundedT, index', secStart', secEnd');
  }

  /** Where a vertex falls depends on t and the current section only. */
  lemma LocateReadsPosition(o: PillOutline, w: Walk, w': Walk, fixed: bool)
    requires |o.sections| == 11 && o.perimeter > 0.0 && o.sections[10] == o.perimeter && w.index <= 9
    requires w.t == w'.t && w.index == w'.index && w.secStart == w'.secStart && w.secEnd == w'.secEnd
    ensures Locate(o, w, fixed) == Locate(o, w', fixed)
  {
  }

  /** The turn of the walk once its section is located. */
  lemma StepAt(o: PillOutline, innerRatio: real, tPerVertex: real, center: Point, polar: Polar, w: Walk, fixed: bool,
               index: nat, secStart: real, secEnd: real, boundedT: real)
    requires |o.sections| == 11 && o.perimeter > 0.0 && o.sections[10] == o.perimeter && w.index <= 9
    requires Locate(o, w, fixed) == (index, secStart, secEnd, boundedT)
    ensures Step(o, innerRatio, tPerVertex, center, polar, w, fixed).None? <==> secEnd - secStart == 0.0
    ensures Step(o, innerRatio, tPerVertex, center, polar, w, fixed) ==
      if secEnd - secStart == 0.0 then None
      else Some(Walk(w.vertices + [Add(Place(o, index, Proportion(boundedT, secStart, secEnd), VertexRadius(o, w.inner, innerRatio), polar), center)],
                     w.t + tPerVertex, !w.inner, index, secStart, secEnd))
  {
  }

  /**
   * `pill_star_vertices_from_num_verts` as the source runs it: a `for` loop
   * over the 2n vertices, with the inner `while` that advances the section.
   * It computes exactly `PillStarVertices`.
   */
  method ComputePillStarVertices(n: nat, size: Size, innerRadius: real, vertexSpacing: real, startLocation: real,
                                 center: Point, polar: Polar, fixed: bool) returns (r: Option<seq<Point>>)
    ensures r == PillStarVertices(n, size, innerRadius, vertexSpacing, startLocation, center, polar, fixed)
  {
    var o := PillOutlineOf(size, innerRadius, vertexSpacing);
    r := WalkOutline(n, o, innerRadius, startLocation, center, polar, fixed);
  }

  /**
   * One turn of the `for` loop of `pill_star_vertices_from_num_verts`, on
   * the walk's state (the vertices so far, t, `inner`, the section index
   * and bounds): locate the section, place the vertex, step t on and toggle
   * `inner`. It computes exactly `Step`.
   */
  method TakeTurn(o: PillOutline, innerRatio: real, tPerVertex: real, center: Point, polar: Polar, w: Walk, fixed: bool) returns (r: Option<Walk>)
    requires |o.sections| == 11 && o.perimeter > 0.0 && o.sections[10] == o.perimeter && w.index <= 9
    ensures r == Step(o, innerRatio, tPerVertex, center, polar, w, fixed)
  {
    LocateReadsPosition(o, w, Walk([], w.t, false, w.index, w.secStart, w.secEnd), fixed);
    var boundedT, index, secStart, secEnd := LocateSection(o, w.t, w.index, w.secStart, w.secEnd, fixed);
    StepAt(o, innerRatio, tPerVertex, center, polar, w, fixed, index, secStart, secEnd, boundedT);
    if secEnd - secStart == 0.0 {
      return None;
    }
    var proportion := Proportion(boundedT, secStart, secEnd);
    var radius := VertexRadius(o, w.inner, innerRatio);
    var vertex := Add(Place(o, index, proportion, radius, polar), center);
    return Some(Walk(w.vertices + [vertex], w.t + tPerVertex, !w.inner, index, secStart, secEnd));
  }

  /** The `for` loop of `pill_star_vertices_from_num_verts` over a given outline; it computes exactly `PillStarWalk`. */
  method WalkOutline(n: nat, o: PillOutline, innerRadius: real, startLocation: real, center: Point, polar: Polar, fixed: bool) returns (r: Option<seq<Point>>)
    requires |o.sections| == 11 && o.sections[10] == o.perimeter
    ensures r == PillStarWalk(n, o, innerRadius, startLocation, center, polar, fixed)
  {
    if n == 0 {
      return Some([]);
    }
    if o.perimeter <= 0.0 {
      return None;
    }
    var tPerVertex := o.perimeter / (2 * n) as real;
    var start := StartOfWalk(o, startLocation);
    var walk := Some(start);
    for i := 0 to 2 * n
      invariant walk == Walked(o, innerRadius, tPerVertex, center, polar, start, fixed, i)
    {
      if walk.Some? {
        walk := TakeTurn(o, innerRadius, tPerVertex, center, polar, walk.value, fixed);
      }
    }
    r := if walk.None? then None else Some(walk.value.vertices);
  }

  /** The outline of a 1 by 3 pill with inner ratio 0.5 and spacing 1: no horizontal run, end caps of circumference 2·PI. */
  const ExampleOutline := PillOutline(1.0, 2.0, 0.0, 2.0 * PI, 4.0 + 2.0 * PI,
    [0.0, 1.0, 1.0 + PI / 2.0, 1.0 + PI / 2.0, 1.0 + PI, 3.0 + PI, 3.0 + 1.5 * PI, 3.0 + 1.5 * PI, 3.0 + 2.0 * PI, 4.0 + 2.0 * PI, 4.0 + 2.0 * PI])

  lemma ExampleOutlineOf()
    ensures PillOutlineOf(Size(1.0, 3.0), 0.5, 1.0) == ExampleOutline
  {
  }

  /** Starting halfway round, at t = 2 + PI, the first vertex falls in section 4. */
  lemma ExampleFirstVertex(fixed: bool)
    ensures Locate(ExampleOutline, StartOfWalk(ExampleOutline, 0.5), fixed) == (4, 1.0 + PI, 3.0 + PI, 2.0 + PI)
  {
    var o := ExampleOutline;
    assert StartOfWalk(o, 0.5).t == 2.0 + PI;
    assert FloatRem(2.0 + PI, o.perimeter) == 2.0 + PI;
  }

  /**
   * The second vertex, at t = 4 + 2·PI, wraps to 0: as written it is
   * measured against the old section 4, fixed against section 0.
   */
  lemma ExampleSecondVertex(w: Walk)
    requires w.t == 4.0 + 2.0 * PI && w.index == 4 && w.secStart == 1.0 + PI && w.secEnd == 3.0 + PI
    ensures Locate(ExampleOutline, w, false) == (0, 1.0 + PI, 3.0 + PI, 0.0)
    ensures Locate(ExampleOutline, w, true) == (0, 0.0, 1.0, 0.0)
  {
    var o := ExampleOutline;
    assert FloatRem(o.perimeter, o.perimeter) == 0.0 by {
      assert o.perimeter / o.perimeter == 1.0;
      assert Trunc(1.0) == 1;
    }
  }

  /**
   * As written, a wrap past the perimeter leaves the old section bounds:
   * for a 1 by 3 pill star with one vertex per radius, inner ratio 0.5,
   * spacing 1 and start location 0.5, the second vertex is placed at
   * proportion -(1 + PI)/2 of section 0, outside it; with the reset fixed
   * it is at proportion 0, at (0.5, 0) from the centre.
   */
  lemma AsWrittenWrapMisplacesVertex(center: Point, polar: Polar, fixed: bool)
    ensures var vs := PillStarVertices(1, Size(1.0, 3.0), 0.5, 1.0, 0.5, center, polar, fixed);
      vs.Some? && vs.value[1] == Add(if fixed then Point(0.5, 0.0) else Point(0.5, -(1.0 + PI) / 2.0), center)
  {
    ExampleOutlineOf();
    ExampleWalk(center, polar, fixed);
  }

  lemma ExampleWalk(center: Point, polar: Polar, fixed: bool)
    ensures var vs := PillStarWalk(1, ExampleOutline, 0.5, 0.5, center, polar, fixed);
      vs.Some? && vs.value[1] == Add(if fixed then Point(0.5, 0.0) else Point(0.5, -(1.0 + PI) / 2.0), center)
  {
    var o := ExampleOutline;
    var tPer := o.perimeter / 2.0;
    var start := StartOfWalk(o, 0.5);
    ExampleFirstStep(center, polar, fixed);
    var first := Walked(o, 0.5, tPer, center, polar, start, fixed, 1);
    ExampleSecondStep(center, polar, fixed, first.value);
    var second := Step(o, 0.5, tPer, center, polar, first.value, fixed);
    assert Walked(o, 0.5, tPer, center, polar, start, fixed, 2) == second;
    ExampleWalkIsTwoSteps(center, polar, fixed);
  }

  lemma ExampleWalkIsTwoSteps(center: Point, polar: Polar, fixed: bool)
    ensures var o := ExampleOutline;
      var w := Walked(o, 0.5, o.perimeter / 2.0, center, polar, StartOfWalk(o, 0.5), fixed, 2);
      PillStarWalk(1, o, 0.5, 0.5, center, polar, fixed) == if w.None? then None else Some(w.value.vertices)
  {
    var o := ExampleOutline;
    assert o.perimeter > 0.0 && (2 * 1) as real == 2.0;
    assert o.perimeter / (2 * 1) as real == o.perimeter / 2.0;
  }

  lemma ExampleFirstStep(center: Point, polar: Polar, fixed: bool)
    ensures var o := ExampleOutline;
      var w := Walked(o, 0.5, o.perimeter / 2.0, center, polar, StartOfWalk(o, 0.5), fixed, 1);
      w.Some? && w.value.t == 4.0 + 2.0 * PI && w.value.index == 4 && w.value.secStart == 1.0 + PI && w.value.secEnd == 3.0 + PI
      && w.value.inner && |w.value.vertices| == 1
  {
    var o := ExampleOutline;
    var start := StartOfWalk(o, 0.5);
    ExampleFirstVertex(fixed);
    assert Walked(o, 0.5, o.perimeter / 2.0, center, polar, start, fixed, 0) == Some(start);
  }

  lemma ExampleSecondStep(center: Point, polar: Polar, fixed: bool, w: Walk)
    requires w.t == 4.0 + 2.0 * PI && w.index == 4 && w.secStart == 1.0 + PI && w.secEnd == 3.0 + PI && w.inner && |w.vertices| == 1
    ensures var r := Step(ExampleOutline, 0.5, ExampleOutline.perimeter / 2.0, center, polar, w, fixed);
      r.Some? && r.value.vertices[1] == Add(if fixed then Point(0.5, 0.0) else Point(0.5, -(1.0 + PI) / 2.0), center)
  {
    ExampleSecondVertex(w);
  }

  /**
   * Pill star `build`; `fixed` chooses the corrected walk or the walk as
   * written. The rounding precedence is the star's.
   */
  function BuildPillStar(b: Builder, polar: Polar, len: Length, sqrt: Sqrt, shaper: CornerShaper, fixed: bool): (r: Option<RoundedPolygon>)
    requires b.data.PillStar?
    ensures r.Some? ==> b.data.verticesPerRadius >= 2 && |r.value.features| == 4 * b.data.verticesPerRadius
  {
    var d := b.data;
    var n := d.verticesPerRadius;
    var vs := PillStarVertices(n, d.size, d.innerRadiusRatio, d.vertexSpacing, d.startLocation, b.center, polar, fixed);
    if vs.None? then None
    else FromVerticesOf(vs.value, b.rounding, StarRoundings(b.rounding, b.perVertex, d.innerRounding, n), b.center, len, sqrt, shaper)
  }

  /**
   * A pill star of positive perimeter, non-negative start location, at
   * least two vertices per radius and a per-vertex list that is empty or
   * one per vertex always builds, with the walk corrected or as written.
   */
  lemma PillStarBuilds(b: Builder, polar: Polar, len: Length, sqrt: Sqrt, shaper: CornerShaper, fixed: bool)
    requires b.data.PillStar? && b.data.verticesPerRadius >= 2 && b.data.startLocation >= 0.0
    requires PillOutlineOf(b.data.size, b.data.innerRadiusRatio, b.data.vertexSpacing).perimeter > 0.0
    requires |b.perVertex| == 0 || |b.perVertex| == 2 * b.data.verticesPerRadius
    ensures BuildPillStar(b, polar, len, sqrt, shaper, fixed).Some?
  {
    var d := b.data;
    PillStarVerticesSucceed(d.verticesPerRadius, d.size, d.innerRadiusRatio, d.vertexSpacing, d.startLocation, b.center, polar, fixed);
  }
}
