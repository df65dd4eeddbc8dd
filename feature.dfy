/**
 * Outline features (src/feature.rs): a run of cubics tagged as an edge or
 * as a corner that is convex or concave.
 */
module Features {
  import opened Geometry
  import opened Cubics

  datatype FeatureType = Edge | Corner(convex: bool)

  datatype Feature = Feature(ty: FeatureType, cubics: seq<Cubic>)

  /** `Feature::edge`: an Edge holding the cubics unchanged. */
  function MakeEdge(cubics: seq<Cubic>): (f: Feature)
    ensures f.ty == Edge && f.cubics == cubics
    ensures !IsCorner(f)
  {
    Feature(Edge, cubics)
  }

  /** `Feature::corner`: a Corner with the given convexity holding the cubics unchanged. */
  function MakeCorner(cubics: seq<Cubic>, convex: bool): (f: Feature)
    ensures f.ty == Corner(convex) && f.cubics == cubics
    ensures IsCorner(f) && IsCornerAnd(f, b => b) == convex
  {
    Feature(Corner(convex), cubics)
  }

  /** `transformed`: the same tag and convexity, each cubic mapped by f. */
  function Transformed(feature: Feature, f: Transformer): (r: Feature)
    ensures r.ty == feature.ty
    ensures |r.cubics| == |feature.cubics|
    ensures forall i :: 0 <= i < |r.cubics| ==> r.cubics[i] == Cubics.Transformed(feature.cubics[i], f)
  {
    Feature(feature.ty, seq(|feature.cubics|, i requires 0 <= i < |feature.cubics| => Cubics.Transformed(feature.cubics[i], f)))
  }

  lemma TransformedByIdentity(feature: Feature)
    ensures Transformed(feature, p => p) == feature
  {
    var r := Transformed(feature, p => p);
    forall i | 0 <= i < |r.cubics| ensures r.cubics[i] == feature.cubics[i] {
      Cubics.TransformedByIdentity(feature.cubics[i]);
    }
  }

  /** Holds exactly for the Corner variant. */
  predicate IsCorner(f: Feature): (r: bool)
    ensures r <==> !f.ty.Edge?
  {
    f.ty.Corner?
  }

  /** False for edges; g applied to the convexity flag for corners. */
  function IsCornerAnd(f: Feature, g: bool -> bool): (r: bool)
    ensures !IsCorner(f) ==> !r
    ensures IsCorner(f) ==> r == g(f.ty.convex)
  {
    match f.ty
    case Corner(convex) => g(convex)
    case Edge => false
  }
}
