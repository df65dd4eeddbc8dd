# polymorph core in Dafny

This project models the discrete core of polymorph, a Rust library that turns
polygons with per-corner rounding into closed outlines of cubic Béziers and
morphs one such outline into another. Every `f32` becomes a Dafny `real`.
Everything that needs a square root, `hypot`, `length()` or trigonometry is
passed in as a function parameter:

- `Geometry.Length`, a point-to-real function whose values are non-negative;
- `RoundedPolygons.Sqrt`;
- `RoundedPolygons.CornerShaper`, the flanking-curve and arc geometry of a rounded corner;
- `PolygonBuilder.Polar`, polar-to-cartesian;
- `Morphs.Cutter`, cutting a measured cubic.

A Rust panic (a failed `assert!`, an index on an empty list, a value that the
mapper rejects) is modelled as `None` in an `Option` result.

The modules follow the source files:

| module | source file | what it holds |
|---|---|---|
| `Util` | `src/util.rs` | progress arithmetic on the circle [0,1): `progress_in_range`, `progress_distance`, `positive_modulo`, Rust's float `%` |
| `Geometry` | `src/geometry.rs` | points, `rotate90`, `is_convex`, `get_direction` |
| `Cubics` | `src/cubic.rs` | the `Cubic` value type: construction, reversal, straight lines, de Casteljau split, pointwise arithmetic, transforms, approximate bounds |
| `Features` | `src/feature.rs` | the Edge/Corner tagged feature |
| `Measurer` | `src/measurer.rs` | the three-chord length measure and its cut-point search |
| `MeasuredPolygons` | `src/measured_polygon.rs` | measured cubics, outline progress, `cut_and_shift` |
| `Mapper` | `src/mapper.rs` | `DoubleMapper`: breakpoint validation and the piecewise-linear map on the circle |
| `FeatureMapper` | `src/feature_mapper.rs` | `MappingHelper::add_mapping` (a class that updates its lists in place) and `DoubleMapper::from_features` |
| `RoundedPolygons` | `src/rounded_polygon.rs` | rounded corners, cut budgeting per side, `from_vertices`, `RoundedPolygon::new`, `from_features`, centre and bounds |
| `PolygonBuilder` | `src/polygon_builder.rs` | builder setters, Rectangle/Pill/Star/PillStar vertex layouts, the pill-star walk |
| `Morphs` | `src/morph.rs` | `Morph::new`, `as_cubics`, the `match_morph` merge loop |
| `Paths` | `src/path.rs` | `add_cubics`, as the log of commands it sends to a path builder |

A `for` or `while` loop of the source becomes a `method` with the same
loop. Such a method is proved equal to a specification function, and the
lemmas state their properties about that function. The pill-star walk is
split into four methods along its own structure:

- `WalkOutline` holds the outer `for` loop, over the walk's state as one `Walk` value;
- `TakeTurn` holds its body;
- `LocateSection` holds the head of that body;
- `AdvanceSection` holds the inner `while` loop.

Three fixes in the source are behind a `fixed: bool` parameter:

- the feature matcher;
- the pill-star walk;
- the morph matcher.

Every operation that reaches one of these carries the flag down to it
(`PolygonBuilder.BuildPillStar` included). With `fixed == false` the model
behaves as the code is written. With `fixed == true` it behaves as the code
was evidently meant to. See "## Findings".

`positive_modulo` and `radial_to_cartesian` are imported from `src/util.rs`,
but that file as shipped defines neither. `Util.PositiveModulo` defines
`positive_modulo(x, 1)` as `x - floor(x)`. `radial_to_cartesian` is the
`Polar` parameter. `from_vertices` is declared over a flat `&[f32]`
(`src/rounded_polygon.rs:433`), but its callers pass points, so the model
takes a sequence of points.

## Model

| member | source | states |
|---|---|---|
| Util.PrevIndex | src/rounded_polygon.rs:447 | the previous position in a cycle is in bounds |
| Util.NextIndex | src/rounded_polygon.rs:448 | the next position in a cycle is in bounds, and the position before it is i again |
| Util.EndpointsInRange | src/util.rs:1-7 | both ends of a range, wrapping or not, are inside it |
| Util.ProgressInRange | src/util.rs:1-7 | with equal ends only that point is in range; a range whose end lies below its start wraps past 1 and holds exactly the points not strictly between end and start |
| Util.ProgressDistance | src/util.rs:9-13 | the distance is at most 0.5, is 0 for equal inputs, and is one of the two arc lengths between them |
| Util.ProgressDistanceSymmetric | src/util.rs:9-13 | progress distance is symmetric |
| Util.ProgressDistanceBounds | src/util.rs:10-12 | for inputs in [0,1) the distance lies in [0, 0.5] |
| Util.PositiveModulo | src/measured_polygon.rs:189 | the result lies in [0,1), differs from the input by an integer, and is the input itself when that is already in [0,1) |
| Util.PositiveModuloOfShift | src/measured_polygon.rs:189 | shifting the input by a whole number of turns does not change the result |
| Util.FloatRem | src/feature_mapper.rs:99 | Rust's float `%` by a positive divisor: its magnitude is below the divisor, it has the dividend's sign, and it is the identity on [0, b) |
| Util.FloatRemWrapsOnce | src/feature_mapper.rs:99 | for a in [1,2), `a % 1.0` is a - 1 |
| Geometry.Lerp | src/morph.rs:46 | interpolation gives a at t = 0 and b at t = 1, and a when both ends are equal |
| Geometry.Rotate90 | src/geometry.rs:30-32 | the rotated vector is perpendicular to v, has the same length as v, and is turned counter-clockwise (cross product = squared length) |
| Geometry.Rotate90FourTimes | src/geometry.rs:30-32 | two rotations negate a vector and four rotations give it back |
| Geometry.CollinearIsNotConvex | src/geometry.rs:42-47 | three collinear points are never convex, because the cross-product test is strict |
| Geometry.ConvexityFlipsWithWinding | src/geometry.rs:42-47 | reversing the triple negates the cross product, so a convex corner becomes non-convex |
| Geometry.IsConvex | src/geometry.rs:42-47 | a convex turn needs the current point to differ from both of its neighbours |
| Geometry.GetDirection | src/geometry.rs:34-40 | a direction exists exactly when the length is positive, and scaling it by that length gives the vector back |
| Cubics.New | src/cubic.rs:13-17 | the four points are stored in order: anchor0, control0, control1, anchor1 |
| Cubics.Reversed | src/cubic.rs:28-32 | point i of the result is point 3-i of the input |
| Cubics.ReversedTwice | src/cubic.rs:28-32 | reversing twice is the identity |
| Cubics.StraightLine | src/cubic.rs:51-55 | the anchors are the two ends; the controls sit at 1/3 and 2/3 of the segment, inside the ends' box |
| Cubics.Transformed | src/cubic.rs:81-85 | each of the four points is mapped by f |
| Cubics.TransformedByIdentity | src/cubic.rs:81-85 | the identity transform leaves a cubic unchanged |
| Cubics.PointCubicIsZeroLength | src/cubic.rs:229-234 | a cubic whose four points are equal is zero-length, and so is a straight line from a point to itself |
| Cubics.ZeroLength | src/cubic.rs:229-234 | a cubic whose two anchors coincide is zero-length |
| Cubics.PointOnCurve | src/cubic.rs:239-246 | the curve passes through anchor0 at t = 0 and anchor1 at t = 1 |
| Cubics.Split | src/cubic.rs:250-271 | the halves start at anchor0, meet at the point on the curve at t, and end at anchor1; split at 0 keeps the cubic as the second half and split at 1 keeps it as the first |
| Cubics.SplitFirstHalfTraces | src/cubic.rs:250-271 | the first half at parameter s is the original curve at t·s, so it traces exactly [0, t] |
| Cubics.SplitSecondHalfTraces | src/cubic.rs:250-271 | the second half at parameter s is the original curve at t + (1-t)·s, so it traces exactly [t, 1] |
| Cubics.PointOnReversed | src/cubic.rs:250-271 | the reversed cubic at s is the original at 1-s, the fact that carries the first-half result over to the second half |
| Cubics.Plus | src/cubic.rs:274-287 | addition acts point by point |
| Cubics.Times | src/cubic.rs:289-297 | scaling acts point by point, and scaling by 1 is the identity |
| Cubics.Over | src/cubic.rs:299-307 | division acts point by point, and dividing by 1 is the identity |
| Cubics.TimesThenOver | src/cubic.rs:289-307 | dividing by a non-zero k undoes scaling by k |
| Cubics.ScaleThenDivide | src/cubic.rs:289-307 | the same round trip for one point |
| Cubics.ApproxAabb | src/cubic.rs:93-111 | a zero-length cubic gets the box of its anchor0; otherwise the box holds all four points, and each of its sides is a coordinate of one of them |
| Features.MakeEdge | src/feature.rs:16-18 | an edge keeps its cubics and is not a corner |
| Features.MakeCorner | src/feature.rs:20-25 | a corner keeps its cubics and its convex flag |
| Features.IsCorner | src/feature.rs:41-43 | true exactly for the Corner variant, whatever its convexity |
| Features.Transformed | src/feature.rs:28-39 | the type tag and the cubic count are kept, and each cubic is transformed |
| Features.TransformedByIdentity | src/feature.rs:28-39 | the identity transform leaves a feature unchanged |
| Features.IsCornerAnd | src/feature.rs:45-51 | false for edges, and g(convex) for corners |
| Measurer.Chord | src/measurer.rs:26-30 | each chord length is non-negative |
| Measurer.Chords | src/measurer.rs:26-30 | the three chords end at t = 1/3, 2/3 and 1 |
| Measurer.ClosestProgressTo | src/measurer.rs:21-42 | the loop, which keeps total + remainder = threshold, returns the cut point and measure of its specification function |
| Measurer.MeasureCubic | src/measurer.rs:46-48 | the measure is the sum of the three chords, hence non-negative |
| Measurer.FindCubicCutPoint | src/measurer.rs:50-52 | the cut point is missing only where a chord of length zero is divided by |
| Measurer.CutPointInUnitInterval | src/measurer.rs:21-52 | with non-zero chords, a non-negative measure always finds a cut point in [0,1], and the point is 1 once the measure reaches the cubic's length |
| MeasuredPolygons.NewMeasuredCubic | src/measured_polygon.rs:12-21 | the cubic and both progress values are stored, and the size is the cubic's measure |
| MeasuredPolygons.Clamp | src/measured_polygon.rs:27 | the result lies in [lo, hi], equals x inside, and equals the nearer bound outside |
| MeasuredPolygons.CutAtProgress | src/measured_polygon.rs:23-44 | a range that runs backwards panics in the clamp; an empty range makes the relative progress 0/0, so the cut falls at t = 1 and gives the whole cubic and a point cubic at its end; otherwise the halves share the clamped cut as their progress boundary and their meeting anchor, keep the outer anchors and progress, and have non-negative sizes |
| MeasuredPolygons.RelativeMeasure | src/measured_polygon.rs:28-32 | the share of the measure lies in [0, size], is 0 at the start and the whole size at the end |
| MeasuredPolygons.CutAtProgressSucceeds | src/measured_polygon.rs:23-44 | a measurable cubic with a non-empty range always cuts; cutting before its start or after its end keeps the cubic whole |
| MeasuredPolygons.CutAtZero | src/measured_polygon.rs:32 | a measure of 0 cuts at t = 0 |
| MeasuredPolygons.Kept | src/measured_polygon.rs:65-78 | no more cubics are kept than are offered |
| MeasuredPolygons.New | src/measured_polygon.rs:61-91 | the filtering loop returns its specification function's polygon, or a panic when nothing is kept |
| MeasuredPolygons.KeptAreTheGrowing | src/measured_polygon.rs:65-78 | exactly the cubics whose progress grows by more than the epsilon are kept, in order, with their own end progress |
| MeasuredPolygons.KeptAreContiguous | src/measured_polygon.rs:63-76 | each kept cubic starts where the previous kept one ended |
| MeasuredPolygons.KeptStretchesAreWide | src/measured_polygon.rs:67 | for non-decreasing progress, each kept cubic spans more than the epsilon, and none ends past the last progress |
| MeasuredPolygons.NewPolygonCoversUnitInterval | src/measured_polygon.rs:61-91 | the result keeps the features, is non-empty, starts at 0, is contiguous and ends at 1; for a monotone progress list in [0,1] every cubic spans more than the epsilon |
| MeasuredPolygons.Measures | src/measured_polygon.rs:111-115 | prefix sums of the cubic measures, starting at 0 |
| MeasuredPolygons.OutlineProgress | src/measured_polygon.rs:117-123 | each prefix sum divided by the total |
| MeasuredPolygons.ProgressableFeatures | src/measured_polygon.rs:127-132 | one feature per corner reference, at the midpoint progress of its cubic modulo 1 |
| MeasuredPolygons.MeasurePolygon | src/measured_polygon.rs:93-135 | `measure_polygon` returns its specification function's polygon |
| MeasuredPolygons.MeasuredOf | src/measured_polygon.rs:93-135 | a measured polygon has cubics, its last cubic ends at progress 1, and every feature's progress lies in [0,1); an outline of total measure 0 gives none |
| MeasuredPolygons.CollectCubics | src/measured_polygon.rs:99-109 | the loop flattens the features' cubics and records each corner's middle cubic index |
| MeasuredPolygons.DivideByTotal | src/measured_polygon.rs:119-123 | the loop computes the outline progress |
| MeasuredPolygons.FeaturesAtProgress | src/measured_polygon.rs:125-132 | the loop computes the progressable features |
| MeasuredPolygons.CornerRefsPointAtMiddle | src/measured_polygon.rs:102-105 | every corner with cubics, and only corners, gets a reference, and it points at cubic len/2 of that corner in the flattened list |
| MeasuredPolygons.OutlineProgressIsMonotone | src/measured_polygon.rs:111-123 | outline progress starts at 0, ends at 1, and never decreases |
| MeasuredPolygons.MeasuresGrow | src/measured_polygon.rs:111-115 | the prefix sums are non-negative and never decrease |
| MeasuredPolygons.FindTarget | src/measured_polygon.rs:149-153 | the first cubic from i whose range contains the cutting point, or none if no such cubic exists |
| MeasuredPolygons.TargetIndex | src/measured_polygon.rs:149-153 | the target index is in bounds |
| MeasuredPolygons.RotIndex | src/measured_polygon.rs:167 | the rotated index is in bounds |
| MeasuredPolygons.RotIndexIsModulo | src/measured_polygon.rs:167 | the rotated index is (i + target) mod n |
| MeasuredPolygons.ShiftedCubics | src/measured_polygon.rs:164-170 | n+1 cubics: the second half of the cut, then the rest in rotated order, then the first half |
| MeasuredPolygons.ShiftedProgress | src/measured_polygon.rs:180-192 | n+2 values from 0 to 1, each an end progress shifted by the cutting point modulo 1, all in [0,1] |
| MeasuredPolygons.ShiftedFeatures | src/measured_polygon.rs:195-202 | the feature count is kept, and each progress is shifted by the cutting point modulo 1 |
| MeasuredPolygons.CutAndShiftOf | src/measured_polygon.rs:141-207 | a cutting point outside [0,1] panics, and one below the epsilon returns the polygon unchanged |
| MeasuredPolygons.CutAndShift | src/measured_polygon.rs:141-207 | `cut_and_shift` returns its specification function's polygon |
| MeasuredPolygons.RotateAtCut | src/measured_polygon.rs:164-170 | the loop builds the rotated cubic list |
| MeasuredPolygons.ShiftProgress | src/measured_polygon.rs:180-192 | the loop builds the shifted progress list |
| MeasuredPolygons.ShiftFeatures | src/measured_polygon.rs:195-202 | the loop builds the shifted features |
| MeasuredPolygons.ShiftedCubicsStayClosed | src/measured_polygon.rs:157-170 | rotating a closed outline at a successful cut gives a closed outline |
| MeasuredPolygons.ShiftPreservesFeatureDistances | src/measured_polygon.rs:197-202 | shifting keeps the progress distance between any two features |
| Mapper.ValidateProgress | src/mapper.rs:11-32 | the loop accepts exactly the lists its specification accepts: values in [0,1), cyclic neighbours more than the epsilon apart, at most one descent |
| Mapper.ValidProgressIsRotatedIncreasing | src/mapper.rs:11-32 | a list is accepted if and only if it is separated and a rotation of a strictly increasing list; a one-element list is never accepted |
| Mapper.ValidHasOneDrop | src/mapper.rs:11-32 | an accepted non-empty list descends at exactly one place, and rises everywhere else |
| Mapper.New | src/mapper.rs:39-48 | a mapper exists exactly when both the sources and the targets are valid, and then it keeps the pairs |
| Mapper.Identity | src/mapper.rs:35-37 | the identity mapper is `new([(0,0),(0.5,0.5)])` |
| Mapper.FirstSegmentFrom | src/mapper.rs:62-64 | the first segment from i that contains x, or 0 if none does |
| Mapper.SegmentSize | src/mapper.rs:67-68 | a segment's size modulo 1 lies in [0,1) |
| Mapper.LinearMap | src/mapper.rs:59-76 | a value exists exactly for x in [0,1] and a non-empty list, and it lies in [0,1) |
| Mapper.MapInSegment | src/mapper.rs:66-75 | the interpolated value lies in [0,1) |
| Mapper.Map | src/mapper.rs:50-52 | `map` gives a value exactly for x in [0,1] and a non-empty mapping, and the value lies in [0,1) |
| Mapper.MapBack | src/mapper.rs:54-56 | `map_back` gives a value exactly for x in [0,1] and a non-empty mapping, and the value lies in [0,1) |
| Mapper.MapBackUndoesMap | src/mapper.rs:50-76 | on a valid mapper whose segments are all at least 0.001 wide on both sides, `map_back(map(x)) == x` for every x in [0,1) |
| Mapper.IdentityMapsToItself | src/mapper.rs:35-76 | the identity mapper sends each x in [0,1) to itself, and 1 to 0, both ways |
| Mapper.MapAtSegmentStart | src/mapper.rs:66-75 | a segment at least 0.001 wide maps its start to its target |
| Mapper.MapAtSegmentEnd | src/mapper.rs:66-75 | a segment at least 0.001 wide maps its end to the next target |
| Mapper.MapAtBreakpoint | src/mapper.rs:59-76 | on valid lists whose segments are at least 0.001 wide, every source breakpoint maps to its target |
| Mapper.MapBackUndoesMapAtBreakpoint | src/mapper.rs:50-56 | on breakpoints `map` and `map_back` are inverse to each other |
| Mapper.OnlyNeighbouringSegmentsContain | src/mapper.rs:62-64 | in a valid list a breakpoint lies only in its own segment or the one before |
| Mapper.SortedOnlyNeighbours | src/mapper.rs:62-64 | the same for a strictly increasing list |
| FeatureMapper.RepresentativePoint | src/feature_mapper.rs:120-122 | the midpoint of the first anchor and the last anchor |
| FeatureMapper.SquareLength | src/feature_mapper.rs:130 | a squared length is non-negative, and 0 for the zero vector |
| FeatureMapper.FeatureDistSquared | src/feature_mapper.rs:124-132 | corners of different convexity have no distance (f32::MAX); other distances are non-negative, and 0 when the points coincide |
| FeatureMapper.FeatureDistSymmetric | src/feature_mapper.rs:124-132 | feature distance is symmetric |
| FeatureMapper.Corners | src/feature_mapper.rs:63-76 | exactly the corner features are kept |
| FeatureMapper.Row | src/feature_mapper.rs:81-87 | the candidates for one f1 are exactly the f2 corners with a distance, carrying that distance |
| FeatureMapper.Candidates | src/feature_mapper.rs:78-88 | the candidates are exactly the corner pairs with a distance, carrying that distance |
| FeatureMapper.InsertByDistance | src/feature_mapper.rs:90 | inserting into a sorted list keeps it sorted and adds exactly the new element |
| FeatureMapper.SortByDistance | src/feature_mapper.rs:90 | the candidates come out in ascending distance and as a permutation of the input |
| FeatureMapper.InsertByDistanceIsStable | src/feature_mapper.rs:90 | among the candidates at the inserted one's distance, it comes last and the others keep their order |
| FeatureMapper.SortByDistanceIsStable | src/feature_mapper.rs:90 | the sort is stable, as `sort_by` is: for every distance, the candidates at that distance keep their input order |
| FeatureMapper.WithDistanceOfSnoc | src/feature_mapper.rs:90 | appending a candidate appends it to the candidates at its own distance and leaves the others alone |
| FeatureMapper.Insert | src/feature_mapper.rs:50 | `Vec::insert`: the element lands at index k, and the other elements keep their order |
| FeatureMapper.InsertionIndex | src/feature_mapper.rs:24 | every entry before the index has a smaller source, and the entry at the index does not |
| FeatureMapper.BinarySearch | src/feature_mapper.rs:24 | the loop finds the insertion index, and reports whether that source is already present |
| FeatureMapper.BeforeIndex | src/feature_mapper.rs:29 | the previous neighbour's index is in bounds |
| FeatureMapper.AfterIndex | src/feature_mapper.rs:30 | the next neighbour's index is in bounds |
| FeatureMapper.NeighbourIndicesAreModulo | src/feature_mapper.rs:29-30 | the neighbours are (k+n-1) mod n and k mod n |
| FeatureMapper.AddMappingOf | src/feature_mapper.rs:17-56 | a used feature leaves the state unchanged; a repeated source panics; a new source is inserted at the insertion index, with both features recorded as used, exactly when the pair fits between its neighbours, and otherwise the state is unchanged; the mapping stays sorted |
| FeatureMapper.SearchFindsSource | src/feature_mapper.rs:24 | a source is present exactly when the entry at its insertion index has it |
| FeatureMapper.InsertKeepsSorted | src/feature_mapper.rs:50 | inserting a new source at its insertion index keeps the mapping sorted |
| FeatureMapper.AddToEmpty | src/feature_mapper.rs:27-52 | the first pair is always accepted |
| FeatureMapper.MappingHelper.constructor | src/feature_mapper.rs:8-14 | a new helper is empty |
| FeatureMapper.MappingHelper.AddMapping | src/feature_mapper.rs:17-56 | the helper's state moves to what `AddMappingOf` gives, or stays unchanged with a panic reported |
| FeatureMapper.Fold | src/feature_mapper.rs:102-108 | feeding candidates in order leaves a sorted mapping |
| FeatureMapper.RunHelper | src/feature_mapper.rs:102-108 | the loop over the candidates returns the folded mapping, or the panic |
| FeatureMapper.InsertKeepsSpacing | src/feature_mapper.rs:34-40 | a pair far enough from both neighbours keeps every cyclic gap above the epsilon |
| FeatureMapper.InsertKeepsDrops | src/feature_mapper.rs:44-50 | a target placed between its neighbours' targets keeps the targets descending at most once |
| FeatureMapper.AddMappingKeepsInvariant | src/feature_mapper.rs:17-56 | every accepted pair keeps the helper's invariant: values in [0,1), spacing, one descent of the targets, sources recorded as used |
| FeatureMapper.FoldKeepsInvariant | src/feature_mapper.rs:102-108 | feeding candidates whose sources identify their features never panics and keeps the invariant |
| FeatureMapper.FixedHelperMappingIsValid | src/feature_mapper.rs:101-110 | with the corrected spacing test, a helper mapping of two or more pairs is accepted by `DoubleMapper::new` |
| FeatureMapper.OppositePairsAreValid | src/feature_mapper.rs:95-100 | the pair plus its opposite (each value + 0.5 mod 1) is a valid mapping |
| FeatureMapper.OppositeValue | src/feature_mapper.rs:95-100 | the opposite value lies in [0,1), is half a turn away, and the two values descend once |
| FeatureMapper.FromCandidates | src/feature_mapper.rs:93-110 | any mapper it returns is valid |
| FeatureMapper.FromFeaturesOf | src/feature_mapper.rs:60-111 | any mapper it returns is valid |
| FeatureMapper.FromFeatures | src/feature_mapper.rs:60-111 | the loops compute the specification function |
| FeatureMapper.CornersIn | src/feature_mapper.rs:63-76 | the loop keeps the corners |
| FeatureMapper.DistanceVertices | src/feature_mapper.rs:78-88 | the nested loop builds the candidate list |
| FeatureMapper.RowOf | src/feature_mapper.rs:81-87 | the inner loop builds one row |
| FeatureMapper.SortKeepsMembers | src/feature_mapper.rs:90 | sorting introduces no new candidate |
| FeatureMapper.FoldOneSource | src/feature_mapper.rs:19-21 | candidates that share one f1 leave exactly one pair |
| FeatureMapper.SinglePairRejected | src/mapper.rs:19-22 | `DoubleMapper::new` rejects any one-pair mapping |
| FeatureMapper.AsWrittenSingleCornerPanics | src/feature_mapper.rs:101-109 | as written, one corner on the first shape with two or more candidates panics |
| FeatureMapper.FixedFromFeaturesSucceeds | src/feature_mapper.rs:60-111 | corrected, `from_features` always returns a mapper for features with unit progress |
| FeatureMapper.AsWrittenAcceptsPairAtEpsilon | src/feature_mapper.rs:34-37 | as written, a pair exactly the epsilon away is accepted and the result is rejected by `new`; corrected, it is skipped |
| RoundedPolygons.NewCorner | src/rounded_polygon.rs:65-113 | the three points are kept; a zero-length side or no rounding gives radius, smoothing and cut 0; otherwise the rounding's radius and smoothing are used; non-negative rounding gives a non-negative cut |
| RoundedPolygons.CutForRadius | src/rounded_polygon.rs:97-99 | the round cut is 0 for radius 0 and non-negative for a non-negative radius |
| RoundedPolygons.ActualSmoothing | src/rounded_polygon.rs:119-127 | the smoothing lies in [0, smoothing]: all of it when the allowed cut covers the expected cut, none when it does not exceed the round cut |
| RoundedPolygons.SmoothingShare | src/rounded_polygon.rs:122-124 | the interpolated smoothing lies in [0, smoothing], and reaches it at the expected cut |
| RoundedPolygons.CutAdjustShares | src/rounded_polygon.rs:458-481 | both ratios lie in [0,1], the adjusted cuts add up to min(side, full cuts), and the cut ratio is 0 when the round cuts alone exceed the side |
| RoundedPolygons.NoOverlap | src/rounded_polygon.rs:458-496 | the two corners on a side never take more than the side, and neither takes more than its expected cut |
| RoundedPolygons.SideShared | src/rounded_polygon.rs:458-496 | the same budget holds for any two non-negative round and smoothing parts |
| RoundedPolygons.RoundingInUse | src/rounded_polygon.rs:199-206 | a non-degenerate corner uses a cut between the epsilon and the allowed cut, and a radius in (0, radius], both unscaled when the allowed cut suffices |
| RoundedPolygons.ScaledRadius | src/rounded_polygon.rs:206 | the scaled radius lies in (0, radius] |
| RoundedPolygons.GetCubics | src/rounded_polygon.rs:186-242 | a degenerate corner gives one zero-length cubic at p1 and sets the centre to p1; otherwise three cubics; only the centre changes |
| RoundedPolygons.ZeroSideIsNotRounded | src/rounded_polygon.rs:77-196 | a corner with a zero-length side always gives a point cubic |
| RoundedPolygons.VertexIndicesAreModulo | src/rounded_polygon.rs:447-448 | the neighbours are (i+n-1) mod n and (i+1) mod n |
| RoundedPolygons.CornerAt | src/rounded_polygon.rs:445-456 | corner i is at vertex i, with a non-negative cut and smoothing for non-negative roundings |
| RoundedPolygons.RoundedCorners | src/rounded_polygon.rs:445-456 | one corner per vertex, each at its vertex |
| RoundedPolygons.CornersOf | src/rounded_polygon.rs:445-456 | the loop builds the corners |
| RoundedPolygons.SideLength | src/rounded_polygon.rs:466 | a side length is non-negative |
| RoundedPolygons.SideAdjusts | src/rounded_polygon.rs:458-481 | one pair of ratios per side |
| RoundedPolygons.AllowedCutsOf | src/rounded_polygon.rs:489-496 | the loop body computes corner i's two allowed cuts |
| RoundedPolygons.CornersShareSides | src/rounded_polygon.rs:458-496 | in `from_vertices`, the allowed cuts of the two corners on each side never sum to more than the side, and each is at most its corner's expected cut |
| RoundedPolygons.SidesShared | src/rounded_polygon.rs:458-496 | the same for any corners with non-negative cuts |
| RoundedPolygons.CornerCubics | src/rounded_polygon.rs:484-501 | one non-empty cubic list per corner |
| RoundedPolygons.CubicsOf | src/rounded_polygon.rs:484-501 | the loop builds the corner cubics |
| RoundedPolygons.CornerCubicsStep | src/rounded_polygon.rs:484-501 | corner i's cubics come from its own allowed cuts |
| RoundedPolygons.EdgeFeature | src/rounded_polygon.rs:516-519 | edge i is one straight line from corner i's last anchor to corner i+1's first anchor |
| RoundedPolygons.Layout | src/rounded_polygon.rs:505-520 | two features per vertex |
| RoundedPolygons.LayoutAlternates | src/rounded_polygon.rs:505-520 | feature 2i is corner i and feature 2i+1 is edge i |
| RoundedPolygons.LayoutOf | src/rounded_polygon.rs:505-520 | the loop builds the layout |
| RoundedPolygons.Average | src/rounded_polygon.rs:592-606 | an average exists exactly for a non-empty list |
| RoundedPolygons.CenterFromVertices | src/rounded_polygon.rs:592-606 | the accumulating loop computes the average |
| RoundedPolygons.Translated | src/rounded_polygon.rs:592-606 | each vertex is moved by d |
| RoundedPolygons.SumOfTranslated | src/rounded_polygon.rs:592-606 | moving n vertices by d moves their sum by n·d |
| RoundedPolygons.AverageOfTranslated | src/rounded_polygon.rs:592-606 | moving the vertices moves their centre by the same amount |
| RoundedPolygons.FromVerticesOf | src/rounded_polygon.rs:433-529 | a polygon exists exactly for at least 3 vertices and an empty or full per-vertex list; it has 2n features; its centre is the one given, or the vertex average for the sentinel |
| RoundedPolygons.FromVertices | src/rounded_polygon.rs:433-529 | the loops compute the specification function |
| RoundedPolygons.WithEnd | src/rounded_polygon.rs:313 | only the end anchor is replaced |
| RoundedPolygons.CubicLists | src/rounded_polygon.rs:271-294 | one cubic list per feature |
| RoundedPolygons.Groups | src/rounded_polygon.rs:271-294 | a three-cubic first feature is split into two groups, so the list gets one extra group |
| RoundedPolygons.NonZero | src/rounded_polygon.rs:296-315 | only non-zero-length cubics of the input are kept |
| RoundedPolygons.CompactKeepsNonZero | src/rounded_polygon.rs:296-315 | the compacted outline has one cubic per non-zero cubic, starting where it started |
| RoundedPolygons.CompactKeepsChain | src/rounded_polygon.rs:296-315 | dropping zero-length cubics keeps a chained outline chained and keeps its end point |
| RoundedPolygons.Close | src/rounded_polygon.rs:318-328 | the outline ends where it starts; an empty outline becomes one point cubic at the centre; otherwise only the last end anchor is moved |
| RoundedPolygons.NewPolygonOutline | src/rounded_polygon.rs:259-331 | `new` gives a non-empty closed outline with one cubic per non-zero cubic, each starting where that one started, and it is chained when the input is |
| RoundedPolygons.CenterOnlyForEmptyOutline | src/rounded_polygon.rs:326-327 | the centre affects the outline only when every cubic is zero-length |
| RoundedPolygons.VisitCubics | src/rounded_polygon.rs:296-315 | the loop over a group keeps its pushed, last and first cubics in step with the compacted outline |
| RoundedPolygons.VisitCubic | src/rounded_polygon.rs:297-314 | one loop step keeps that correspondence |
| RoundedPolygons.TracksKept | src/rounded_polygon.rs:298-307 | a non-zero cubic pushes the previous one and becomes the last |
| RoundedPolygons.TracksMerged | src/rounded_polygon.rs:308-314 | a zero-length cubic moves the last cubic's end anchor to its own end |
| RoundedPolygons.TracksClose | src/rounded_polygon.rs:318-328 | the final push closes the outline |
| RoundedPolygons.New | src/rounded_polygon.rs:259-331 | `RoundedPolygon::new` returns its specification function's polygon |
| RoundedPolygons.Anchors | src/rounded_polygon.rs:335-338 | one point per cubic |
| RoundedPolygons.FromFeaturesOf | src/rounded_polygon.rs:333-352 | the features are kept; a given centre is used; with no centre and no cubics the averaged centre is the NaN of 0/0, which the model gives as `None` |
| RoundedPolygons.RebuiltFromOwnFeatures | src/rounded_polygon.rs:259-352 | rebuilding a polygon from its own features gives the same polygon when its centre is passed, and the same features and outline when the centre is averaged |
| RoundedPolygons.HullEnclosesAll | src/rounded_polygon.rs:547-560 | the polygon's box encloses every cubic's box |
| RoundedPolygons.HullIsSmallest | src/rounded_polygon.rs:547-560 | any box enclosing every cubic's box encloses the polygon's box |
| RoundedPolygons.BoundingBox | src/rounded_polygon.rs:547-560 | the loop computes the polygon's box |
| PolygonBuilder.NewBuilder | src/rounded_polygon.rs:354-361 | a new builder has the shape's data, centre at the origin, no rounding and no per-vertex list |
| PolygonBuilder.WithCenter | src/polygon_builder.rs:92-96 | only the centre changes |
| PolygonBuilder.WithRounding | src/polygon_builder.rs:101-105 | only the rounding changes |
| PolygonBuilder.WithRoundingPerVertex | src/polygon_builder.rs:108-112 | only the per-vertex list changes |
| PolygonBuilder.WithCornerRoundings | src/polygon_builder.rs:173-177 | only the per-vertex list changes, to the four corner roundings |
| PolygonBuilder.WithSize | src/polygon_builder.rs:117-121 | only the size changes |
| PolygonBuilder.WithWidth | src/polygon_builder.rs:124-128 | only the width changes |
| PolygonBuilder.WithHeight | src/polygon_builder.rs:131-135 | only the height changes |
| PolygonBuilder.WidthThenHeightIsSize | src/polygon_builder.rs:117-135 | setting the width and then the height equals setting the size |
| PolygonBuilder.WithRadius | src/polygon_builder.rs:140-144 | only the radius changes |
| PolygonBuilder.WithVertices | src/polygon_builder.rs:149-153 | only the vertex count changes |
| PolygonBuilder.WithInnerRadius | src/polygon_builder.rs:196-200 | only the inner radius changes |
| PolygonBuilder.WithInnerRounding | src/polygon_builder.rs:203-207 | only the inner rounding changes, and it becomes set |
| PolygonBuilder.WithSmoothing | src/polygon_builder.rs:236-240 | only the smoothing changes |
| PolygonBuilder.WithVerticesPerRadius | src/polygon_builder.rs:261-265 | only the vertex count per radius changes |
| PolygonBuilder.WithVertexSpacing | src/polygon_builder.rs:268-272 | only the vertex spacing changes |
| PolygonBuilder.WithStartLocation | src/polygon_builder.rs:275-279 | only the start location changes |
| PolygonBuilder.WithInnerRadiusRatio | src/polygon_builder.rs:282-286 | only the inner radius ratio changes |
| PolygonBuilder.RectangleVertices | src/polygon_builder.rs:180-188 | four vertices forming an axis-aligned rectangle of the given width and height |
| PolygonBuilder.RectangleIsCentered | src/polygon_builder.rs:179-191 | the rectangle's vertex average is its centre |
| PolygonBuilder.BuildRectangle | src/polygon_builder.rs:179-191 | a rectangle builds exactly when its per-vertex list is empty or has 4 entries, and then has 8 features |
| PolygonBuilder.RectangleSettersBuild | src/polygon_builder.rs:164-191 | after the rounding setters a rectangle still builds |
| PolygonBuilder.PillVertices | src/polygon_builder.rs:243-251 | four vertices |
| PolygonBuilder.PillIsCentered | src/polygon_builder.rs:242-256 | the pill's vertex average is its centre |
| PolygonBuilder.PillRounding | src/polygon_builder.rs:252 | the radius is min(width/2, height/2), with the configured smoothing |
| PolygonBuilder.BuildPill | src/polygon_builder.rs:242-256 | a pill always builds, with 8 features and the pill rounding at all four corners |
| PolygonBuilder.Alternating | src/polygon_builder.rs:223-225 | the repeated pair list has 2n entries |
| PolygonBuilder.AlternatingParity | src/polygon_builder.rs:223-225 | even entries are the outer rounding and odd ones the inner |
| PolygonBuilder.RoundingPrecedence | src/polygon_builder.rs:214-230 | an explicit per-vertex list wins; otherwise an inner rounding gives alternating outer and inner roundings; otherwise the shape-wide rounding applies |
| PolygonBuilder.StarVertices | src/polygon_builder.rs:452-462 | 2n vertices |
| PolygonBuilder.StarVerticesOnCircles | src/polygon_builder.rs:452-462 | even vertices lie on the outer circle and odd ones on the inner circle |
| PolygonBuilder.BuildStar | src/polygon_builder.rs:209-231 | a star builds exactly with at least 2 vertices per radius and an empty or full per-vertex list, and has 4n features |
| PolygonBuilder.PillOutlineOf | src/polygon_builder.rs:342-372 | 11 sections from 0: both segment lengths are non-negative and one of them is 0; sections 9 and 10 are the perimeter; the table never decreases when the circle perimeter is non-negative |
| PolygonBuilder.CirclePerimeterNonNegative | src/polygon_builder.rs:353 | for a non-negative size, ratio and spacing in [0,1], the circle perimeter is non-negative |
| PolygonBuilder.Advance | src/polygon_builder.rs:412-416 | the section index only moves forward and stays in the table, and the section bounds are updated whenever it moves |
| PolygonBuilder.Locate | src/polygon_builder.rs:405-416 | the located section index stays within the table |
| PolygonBuilder.Step | src/polygon_builder.rs:402-447 | one loop iteration adds one vertex, advances t by the step and toggles inner |
| PolygonBuilder.Walked | src/polygon_builder.rs:402-447 | k iterations add k vertices and keep the index in the table |
| PolygonBuilder.PillStarVertices | src/polygon_builder.rs:325-450 | exactly 2n vertices, none for n = 0 |
| PolygonBuilder.PillStarWalk | src/polygon_builder.rs:394-450 | the walk over an outline gives exactly 2n vertices |
| PolygonBuilder.FixedLocatesInsideSection | src/polygon_builder.rs:405-420 | corrected, the located position lies inside the located section |
| PolygonBuilder.FixedWalkSucceeds | src/polygon_builder.rs:402-447 | corrected, every walk over an outline with a positive perimeter keeps its section aligned with its index and never fails |
| PolygonBuilder.StepSucceeds | src/polygon_builder.rs:402-447 | corrected or as written, a turn from a live walk (t not negative, a section of positive length or still the first one) finds a section of positive length and stays live |
| PolygonBuilder.WalkSucceeds | src/polygon_builder.rs:402-447 | corrected or as written, every walk from a live start takes all its turns |
| PolygonBuilder.PillStarVerticesSucceed | src/polygon_builder.rs:325-450 | corrected or as written, the vertices exist for any positive perimeter and non-negative start |
| PolygonBuilder.PillStarWalkSucceeds | src/polygon_builder.rs:394-450 | the same for the walk over a given outline |
| PolygonBuilder.StepPlacesVertex | src/polygon_builder.rs:418-446 | a turn places its vertex in one of the ten sections, at the outer or inner radius as its inner flag says, moved by the centre |
| PolygonBuilder.TurnAlternates | src/polygon_builder.rs:402-447 | one turn keeps the earlier vertices and appends one at the radius for the walk's current flag, then flips the flag |
| PolygonBuilder.WalkedAlternates | src/polygon_builder.rs:402-447 | after k turns the earlier vertices are kept, the k new ones alternate between the start's radius and the other one, and the flag has flipped k times |
| PolygonBuilder.PillStarWalkAlternates | src/polygon_builder.rs:394-447 | vertex j of the walk lies on the outer radius for even j and the inner radius for odd j |
| PolygonBuilder.PillStarVerticesAlternate | src/polygon_builder.rs:325-447 | the pill star has 2n vertices, even ones outer and odd ones inner |
| PolygonBuilder.AdvanceSection | src/polygon_builder.rs:411-416 | the inner `while` loop computes exactly `Advance` |
| PolygonBuilder.LocateSection | src/polygon_builder.rs:405-416 | the wrap of t, the reset and the inner loop compute exactly `Locate`, with the index in the table |
| PolygonBuilder.LocateReadsPosition | src/polygon_builder.rs:405-416 | where a vertex falls depends only on t and the current section |
| PolygonBuilder.StepAt | src/polygon_builder.rs:418-446 | once the section is located, a turn fails exactly on a zero-length section and otherwise appends the placed vertex, advances t and toggles inner |
| PolygonBuilder.TakeTurn | src/polygon_builder.rs:402-447 | one pass of the `for` body computes exactly `Step`: no vertex on a zero-length section, otherwise the placed vertex appended, t advanced, inner toggled |
| PolygonBuilder.WalkOutline | src/polygon_builder.rs:377-450 | the `for` loop over the 2n vertices computes exactly `PillStarWalk` |
| PolygonBuilder.ComputePillStarVertices | src/polygon_builder.rs:325-450 | `pill_star_vertices_from_num_verts` computes exactly `PillStarVertices` |
| PolygonBuilder.ExampleFirstVertex | src/polygon_builder.rs:405-420 | in the 1×3 example the first vertex lies in section 4 |
| PolygonBuilder.ExampleSecondVertex | src/polygon_builder.rs:405-420 | after the wrap, the section bounds are stale as written and reset once corrected |
| PolygonBuilder.AsWrittenWrapMisplacesVertex | src/polygon_builder.rs:407-409 | as written, the second vertex of the 1×3 example is placed at y = -(1+π)/2 instead of 0 |
| PolygonBuilder.BuildPillStar | src/polygon_builder.rs:295-322 | a built pill star has at least 2 vertices per radius and 4n features, with the walk corrected or as written |
| PolygonBuilder.PillStarBuilds | src/polygon_builder.rs:295-322 | a pill star with a positive perimeter, a non-negative start and a matching rounding list always builds, with the walk corrected or as written |
| Morphs.LerpCubic | src/morph.rs:46 | the interpolated cubic is the start at 0 and the end at 1 |
| Morphs.Interpolated | src/morph.rs:46 | one interpolated cubic per pair |
| Morphs.AsCubicsOf | src/morph.rs:35-72 | one cubic per pair, each the interpolation of its pair except that the last end anchor is moved to the first start anchor |
| Morphs.AsCubics | src/morph.rs:35-72 | the loop computes the frame |
| Morphs.FramesAreClosed | src/morph.rs:35-72 | chained start and end lists give a closed frame at every progress |
| Morphs.FrameAtZeroIsStart | src/morph.rs:35-72 | for a closed start outline, progress 0 gives exactly the start cubics |
| Morphs.FrameAtOneIsEnd | src/morph.rs:35-72 | for a closed end outline, progress 1 gives exactly the end cubics |
| Morphs.Get | src/morph.rs:137-141 | `Vec::get`: a value exactly when the index is in bounds |
| Morphs.Start | src/morph.rs:134-143 | the loop starts with both cursors after their first cubic |
| Morphs.StartEnd | src/morph.rs:149 | the start side's end progress is 1 for its last cubic |
| Morphs.EndOnStart | src/morph.rs:150-154 | the end side's end progress is 1 for its last cubic and lies in [0,1] when it exists |
| Morphs.SideStep | src/morph.rs:162-184 | a side whose end is within the angle epsilon of the smaller end advances; otherwise its cubic is cut, and the halves meet and keep its outer anchors and end progress |
| Morphs.EndCut | src/morph.rs:175 | the cut on the end side lies in [0,1) |
| Morphs.StepOf | src/morph.rs:146-190 | a step panics when the end progress cannot be mapped; otherwise each index advances by at most one and at least one advances |
| Morphs.MergeLoop | src/morph.rs:131-192 | the while loop computes its specification function |
| Morphs.MatchMorph | src/morph.rs:93-212 | `match_morph` returns its specification function's pairs |
| Morphs.MatchOf | src/morph.rs:93-98 | a match exists only when both polygons can be measured |
| Morphs.MeasuredFeaturesHaveCubics | src/measured_polygon.rs:102-105 | every feature that `measure_polygon` records has at least one cubic, so the feature mapper never meets an empty feature |
| Morphs.New | src/morph.rs:27-31 | a morph keeps its start and end shapes and the computed match, and exists exactly when the match does |
| Morphs.MatchCount | src/morph.rs:146-192 | the loop pushes at most one pair fewer than the two lists' lengths together; corrected, at least as many as each list |
| Morphs.SideKeepsChain | src/morph.rs:162-184 | one side's step keeps its chain of anchors |
| Morphs.StepKeepsStartChain | src/morph.rs:162-186 | each pushed start segment continues where the previous one ended |
| Morphs.StepKeepsEndChain | src/morph.rs:174-186 | each pushed end segment continues where the previous one ended |
| Morphs.MatchChainsStart | src/morph.rs:146-192 | the matched start segments form a chain from the first start cubic, and corrected they reach the last one |
| Morphs.MatchChainsEnd | src/morph.rs:146-192 | the same for the end segments |
| Morphs.MatchedStartIsClosed | src/morph.rs:146-192 | corrected, the matched start segments of a closed outline form a closed outline |
| Morphs.MatchedEndIsClosed | src/morph.rs:146-192 | corrected, the matched end segments of a closed outline form a closed outline |
| Morphs.MatchedFramesAreClosed | src/morph.rs:35-192 | corrected, for two closed measured outlines, every frame of their match is closed, and the frames at 0 and 1 are the matched start and end segments |
| Morphs.AsWrittenEndPastOnePanics | src/morph.rs:150-154 | as written, an end progress plus the cut point past 1 reaches `map_back` and panics |
| Morphs.FixedEndOnStartExists | src/morph.rs:150-154 | corrected, the end progress can always be mapped |
| Morphs.ExampleEndPastOne | src/morph.rs:150-154 | the end outline of the cutting example in src/measured_polygon.rs:173-179 (cut at 0.6, re-based ends 0.2, 0.4, 0.7, 1): at its third cubic the end progress 0.7 + 0.6 panics as written and maps back to 0.3 when corrected |
| Morphs.AsWrittenKeepsPartialMatch | src/morph.rs:145-192 | as written, a loop that stops with one side unfinished returns the pairs so far instead of panicking |
| Morphs.ExampleLeftOver | src/morph.rs:145-192 | one start cubic against two end cubics, the first ending within the angle epsilon of 1: both sides advance once, the start side runs out, and the match of one pair is returned as written and fails when corrected |
| Morphs.SelfMatchFrom | src/morph.rs:131-192 | an outline matched with itself, at cut 0 and under a mapper that maps each inner end progress back to itself, pairs every remaining cubic with itself from any cursor on the diagonal |
| Morphs.MorphWithItself | src/morph.rs:35-192 | the same, from the start: the match pairs each cubic with itself, and for a closed outline every frame of the morph is the outline itself |
| Paths.PathLog.constructor | src/path.rs:9-19 | a new builder has an empty command log |
| Paths.PathLog.Rewind | src/path.rs:9-19 | appends one rewind |
| Paths.PathLog.MoveTo | src/path.rs:9-19 | appends one move-to |
| Paths.PathLog.LineTo | src/path.rs:9-19 | appends one line-to |
| Paths.PathLog.CubicTo | src/path.rs:9-19 | appends one cubic-to |
| Paths.PathLog.Close | src/path.rs:9-19 | appends one close |
| Paths.CubicTos | src/path.rs:26-34 | one cubic-to per cubic, in order |
| Paths.AddCubics | src/path.rs:21-53 | `add_cubics` appends exactly the trace of its inputs to the builder's log |
| Paths.DrawPass | src/path.rs:26-47 | one pass appends its opening command and one cubic-to per cubic |
| Paths.TraceLayout | src/path.rs:22-34 | the trace starts with rewind; for a non-empty list it then moves to the first anchor and draws each cubic in order; an empty list draws nothing |
| Paths.TraceRepeats | src/path.rs:36-48 | with repetition, a line-to the first anchor is followed by a second pass over every cubic |
| Paths.TraceCounts | src/path.rs:21-53 | the only move-to is the second command, and the trace length counts each command |
| Paths.TraceCloses | src/path.rs:50-52 | close appears exactly once, as the last command, when requested, and never otherwise |
| Paths.DrawnConcat | src/path.rs:26-34 | the curves drawn by two logs in a row are those of the first followed by those of the second |
| Paths.DrawnCubicTos | src/path.rs:26-34 | from the right pen position, the cubic-to commands redraw a chained list exactly |
| Paths.PassDraws | src/path.rs:26-34 | one pass redraws the chained list exactly |
| Paths.TraceDrawsCubics | src/path.rs:21-53 | the trace redraws a chained list, twice when repeated |
| Paths.PassesDraw | src/path.rs:21-53 | the passes redraw a chained list, twice when repeated |

## Left out

- `Cubic::circular_arc` (`src/cubic.rs:58-76`) and the exact branch of `aabb` (`src/cubic.rs:113-223`): they need trigonometry and a quadratic-formula root search.
- The angle and cut computation in `RoundedCorner::new` (`src/rounded_polygon.rs:86-99`), `compute_flanking_curve`, `line_intersection` and the arc centre (`src/rounded_polygon.rs:129-184, 206-239`): `Sqrt`, `Length` and the `CornerShaper` parameter stand for them.
- RoundedPolygons.GetCubics: for a non-degenerate corner it states only that three cubics are produced, because their geometry is the `CornerShaper` parameter.
- `Point::rotated`, `vertices_from_count`, `from_vertices_count` and the Circle `build` (`src/polygon_builder.rs:155-161`): they need trigonometry.
- `transformed`, `normalized`, `custom_polygon` and `from_points` (`src/rounded_polygon.rs:535-574, 609-672`): they need matrix transforms and mirroring with trigonometry.
- `as_path`, `add_to` and `build` on polygons and morphs (`src/rounded_polygon.rs:578-589`, `src/morph.rs:77-91`): thin compositions of `add_cubics` with the frame.
- The lyon and skia adapters (`src/path.rs:55-138`): wrappers over foreign libraries. `PathLog` stands for any path builder.
- The `println!` output in `match_morph` (`src/morph.rs:99-110, 157, 194-209`): console output only.
- `src/shapes.rs` and `src/lib.rs`: preset data and module wiring.
- IEEE-754 behaviour (rounding, NaN, fused multiply-add, `total_cmp`): `f32` is a real. The NaN centre of `from_features` and the `f32::MIN` centre sentinel of `from_vertices` are modelled as an `Option` and as an explicit sentinel test. The NaN threshold of a cut in an empty progress range is `Measurer.Bound.NaN`, which no chord reaches.
- The `Measurer` trait has one implementation, `LengthMeasurer`. `Measurer` models it directly.
- PolygonBuilder.PillStarVertices: returns `None` for a non-positive perimeter or a walk that gets stuck in a zero-length section, where the source would divide by zero.
- Paths.TraceDrawsCubics: the drawn-curve reading ignores line-to and close segments and records only the cubic curves.

## Findings

| source | as written | input that shows it | evidently intended | confidence | as-written member | corrected member |
|---|---|---|---|---|---|---|
| src/feature_mapper.rs:101-109 | with two or more candidates the helper's mapping goes straight to `DoubleMapper::new`, which rejects a mapping of one pair | one corner on the first shape against two or more corners of the same convexity on the second: every candidate shares that corner, so only one pair is added | a single pair is completed with its opposite pair, as in the one-candidate case | not executed | FeatureMapper.AsWrittenSingleCornerPanics | FeatureMapper.FixedFromFeaturesSucceeds |
| src/feature_mapper.rs:34-37 | the neighbour test `< DISTANCE_EPSILON` accepts a pair whose distance is exactly the epsilon, which `validate_progress` then rejects with `<=` | mapping [(0,0)] plus the pair (0.0001, 0.5) | the same `<=` test as in validation | not executed | FeatureMapper.AsWrittenAcceptsPairAtEpsilon | FeatureMapper.FixedFromFeaturesSucceeds |
| src/morph.rs:150-154 | `map_back` receives `end + cut`, which can exceed 1, and it asserts that its argument lies in [0,1] | the cutting example of src/measured_polygon.rs:173-179: an end outline cut at 0.6 is re-based to ends 0.2, 0.4, 0.7 and 1, and its third cubic gives `map_back(0.7 + 0.6)`, that is `map_back(1.3)` | wrap `end + cut` with `positive_modulo` before `map_back` | not executed | Morphs.AsWrittenEndPastOnePanics | Morphs.FixedEndOnStartExists |
| src/polygon_builder.rs:407-409 | when t wraps past the perimeter, `curr_sec_index` is reset but `sec_start` and `sec_end` keep the old section's bounds | a 1×3 pill star with one vertex per radius, inner ratio 0.5, spacing 1 and start 0.5: the second vertex lands at y = -(1+π)/2 | reset the bounds to the first section as well | not executed | PolygonBuilder.AsWrittenWrapMisplacesVertex | PolygonBuilder.FixedLocatesInsideSection |
| src/morph.rs:145-192 | `while let (Some, Some) = (b1.take(), b2.take())` takes both values before the match fails, so the final assert always passes and a partial match is returned | in the merge loop: one start cubic against two end cubics whose first maps back to within the angle epsilon of 1, so both sides advance together and the end side's last cubic is left over | stop with a panic when cubics are left over, as the assert's message says | not executed | Morphs.AsWrittenKeepsPartialMatch | Morphs.MatchedFramesAreClosed |
