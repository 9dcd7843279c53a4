# regrid, modelled in Dafny

regrid converts a Gridfinity bin mesh from one grid pitch to another, for example
from the standard 42 mm to 21 mm. It keeps everything above the bin's interior
floor untouched and replaces everything below it with a slab of copies of a
reference unit cell. The slab is laid out at the destination pitch and cropped
to the bin's footprint.

A run does the following:

- rotate the input about Z;
- find the module count, from a `NxM` override or inferred from the footprint;
- scale the count to the destination pitch;
- detect the interior floor by scanning horizontal cross-section areas;
- cut the body above the join plane;
- validate and slice the reference cell, then tile it;
- centre the slab under the body and drop it just below the join plane;
- optionally cap it with a solid block, then crop it to the footprint;
- union it with the body;
- optionally verify that the output matches the original above the join plane.

The project models these parts:

- `detect.py`: cross-section areas, floor detection, footprint inference, `NxM` parsing;
- `cut.py`: the half-space cutter;
- `tile.py`: the tiler;
- `verify.py`: the verifier;
- `pipeline.py`: the orchestration.

Modules:

- `Results`: `Option`, `Result` and the error kinds the source raises.
- `Numeric`: absolute value, min and max, Python's `round`, and the extremes of a list.
- `Meshes`: vectors, meshes, bounding boxes, translation, `trimesh.creation.box`, concatenation.
  - `MeshLib` bundles the library calls the converter relies on without computing them itself (booleans, slicing, sampling, proximity, vertex merge, rotation, percentile).
  - `Trimesh` is the mutable mesh object that the source translates and merges in place.
- `CrossSection`: `_cross_section_area_at_z`, `_polygon_area_from_segments` (greedy chaining over a `used` array) and `_shoelace_area`.
- `FloorDetect`: `detect_floor_z` and `detect_floor_z_with_confidence`.
- `Footprint`: `mesh_bounds_xy`, `mesh_min_z`, `mesh_center_xy`, `parse_modules` (including `str.lower`, `str.strip` and `int`), `infer_modules` and `validate_ref_tile_pitch`.
- `Cut`: `cut_keep_above` and `cut_keep_below`.
- `Tile`: `tile_reference` (the nested loops over `range(nx)` and `range(ny)`).
- `Verify`: `verify_above_plane` and its `sample_and_distances`.
- `Pipeline`: `PipelineConfig`, `rotate_z` and `run`.
  - `run` is split into a plan, the body cut, the slab construction, and the final export and verification steps.
  - It records its observable effects (debug export, output written, verification) as a log.

How the source's behaviour is modelled:

- Exceptions become `Err` values.
  - Reading `bounds` of an empty mesh (`None` in trimesh) is `Err(EmptyMesh)`.
  - A zero pitch in a division is `Err(DivisionByZero)`.
- Python's `round` rounds half to even.
- `range(n)` with a negative `n` is empty.
- `deg % 360` uses Python's non-negative remainder. Dafny's `%` agrees with it for a positive divisor.

Two consequences of modelling the code as written:

- `_polygon_area_from_segments` (src/regrid/detect.py:76-78) accepts a loop with `len(loop) >= 3` and then drops its repeated closing point before the shoelace formula, which gives 0 for fewer than 3 points. A loop therefore adds area only from 4 recorded points on (`CrossSection.LoopArea`).
- The boolean operations are library calls here. Of a cut above and a cut below the same plane, the model proves only that the two cutting boxes meet in the plane and do not overlap (`Cut.BoxesMeetAtPlane`), not what remains of the mesh.

## Model

| member | source | states |
|---|---|---|
| Numeric.RoundHalfEven | src/regrid/pipeline.py:101-102 | the result is within one half of `x`, and a tie goes to the even neighbour (Python's `round`) |
| Numeric.RoundHalfEvenUnique | src/regrid/detect.py:206-207 | any integer within one half of `x` that is even on a tie is the rounding of `x` |
| Numeric.RoundOfInteger | src/regrid/detect.py:206-207 | rounding an integer gives it back |
| Numeric.ArgMax | src/regrid/verify.py:63-64 | the index chosen for the maximum is a valid index |
| Numeric.ArgMaxFirst | src/regrid/verify.py:63-64 | every element before the chosen index is strictly smaller than the one at it: the first largest element is chosen |
| Numeric.ArgMin | src/regrid/detect.py:141-147 | the index chosen for the minimum is a valid index |
| Numeric.ArgMinFirst | src/regrid/detect.py:141-147 | every element before the chosen index is strictly larger than the one at it: the first smallest element is chosen |
| Numeric.MaxOfAbove | src/regrid/verify.py:63-64 | `np.max` bounds every element from above |
| Numeric.MinOfBelow | src/regrid/detect.py:141-147 | `np.min` bounds every element from below |
| Meshes.Bounds | src/regrid/cut.py:12-15 | the lower corner of `mesh.bounds` never exceeds the upper corner on any axis |
| Meshes.BoundsContain | src/regrid/cut.py:12-15 | every vertex lies inside the bounding box |
| Meshes.MinCoordBelow | src/regrid/detect.py:159-161 | the minimum coordinate is at most every vertex's coordinate |
| Meshes.MinCoordAttained | src/regrid/detect.py:159-161 | some vertex attains the minimum coordinate |
| Meshes.MaxCoordAbove | src/regrid/cut.py:15 | the maximum coordinate is at least every vertex's coordinate |
| Meshes.MaxCoordAttained | src/regrid/cut.py:15 | some vertex attains the maximum coordinate |
| Meshes.MinCoordIs | src/regrid/cut.py:23 | a value attained by a vertex and below all vertices is the minimum |
| Meshes.MaxCoordIs | src/regrid/cut.py:41 | a value attained by a vertex and above all vertices is the maximum |
| Meshes.ShiftExtremes | src/regrid/pipeline.py:152 | moving every vertex by `t` moves both extremes of each axis by `t` |
| Meshes.TranslateBounds | src/regrid/pipeline.py:155-156 | a translated mesh's bounds are the old bounds moved by the translation |
| Meshes.TranslateTwice | src/regrid/pipeline.py:152-159 | two successive translations equal one by their sum |
| Meshes.TranslateZero | src/regrid/pipeline.py:158-159 | a zero translation changes nothing, so skipping a zero bottom extension is harmless |
| Meshes.TwoValuedExtremes | src/regrid/cut.py:17-22 | eight corners taking two values on an axis span exactly from the smaller to the larger |
| Meshes.BoxBounds | src/regrid/cut.py:17-22 | `trimesh.creation.box(extents, translation)` spans the centre plus and minus half the absolute extent on each axis |
| Meshes.Trimesh.constructor | src/regrid/pipeline.py:91 | the new object holds exactly the given vertices and faces |
| Meshes.Trimesh.ApplyTranslation | src/regrid/tile.py:22 | in place, the object's mesh becomes its old mesh translated |
| Meshes.Trimesh.Copy | src/regrid/tile.py:21 | the copy is a new object with the same mesh |
| Meshes.Trimesh.MergeVertices | src/regrid/tile.py:25 | in place, the object's mesh becomes the library's merge of its old mesh |
| CrossSection.NearSymmetric | src/regrid/detect.py:62-68 | the chaining tolerance test does not depend on the order of the two points |
| CrossSection.CrossSwap | src/regrid/detect.py:87 | swapping the two points negates a shoelace cross term |
| CrossSection.Terms | src/regrid/detect.py:86-87 | there is one cross term per polygon point |
| CrossSection.SumAppend | src/regrid/detect.py:87 | a sum over a concatenation is the sum of the sums |
| CrossSection.SumSingleton | src/regrid/detect.py:87 | the sum of one term is that term |
| CrossSection.NegReverse | src/regrid/detect.py:87 | negating and reversing terms keeps their number |
| CrossSection.SumNegReverse | src/regrid/detect.py:87 | negating and reversing the terms negates their sum |
| CrossSection.Rotate | src/regrid/detect.py:86-87 | rotating a polygon's points keeps their number |
| CrossSection.Reverse | src/regrid/detect.py:86-87 | reversing a polygon's points keeps their number |
| CrossSection.ShoelaceRotate | src/regrid/detect.py:82-87 | the shoelace area does not depend on which point the polygon starts from |
| CrossSection.ReverseTerm | src/regrid/detect.py:87 | each cross term of the reversed polygon is the negated term at the mirrored position |
| CrossSection.ReverseFirstTerm | src/regrid/detect.py:87 | the first cross term of the reversed polygon is the negated first term |
| CrossSection.ShoelaceReverse | src/regrid/detect.py:82-87 | traversing a polygon the other way negates its signed area, so `abs` makes the direction irrelevant |
| CrossSection.ShoelaceOfTriangle | src/regrid/detect.py:82-87 | the signed area of a triangle is half the sum of its three cross terms |
| CrossSection.ShoelaceTriangle | src/regrid/detect.py:82-87 | with the source's `roll` pairing a counter-clockwise unit right triangle gets area -1/2, so the sign is reversed and only `abs` makes it right |
| CrossSection.FindFrom | src/regrid/detect.py:58-73 | the match found is the first unused segment with an end within tolerance of the tail, trying end `a` before end `b`, and every earlier segment is skipped; when there is no match, every segment is skipped |
| CrossSection.FindFirst | src/regrid/detect.py:58-73 | the search returns a match exactly when that match attaches and every earlier segment is skipped |
| CrossSection.FindNone | src/regrid/detect.py:58-75 | the search finds nothing exactly when every segment is skipped, which ends the chaining |
| CrossSection.CountFree | src/regrid/detect.py:47 | the number of unused segments is at most the number of segments |
| CrossSection.CountFreeMark | src/regrid/detect.py:53-65 | marking an unused segment as used lowers the unused count by one |
| CrossSection.CountFreeNone | src/regrid/detect.py:47 | with no segment used, all are unused |
| CrossSection.CountFreeAllUsed | src/regrid/detect.py:49-51 | with every segment used, none is unused |
| CrossSection.Extend | src/regrid/detect.py:56-75 | the loop only grows at its end, by one point per segment consumed, the used marks only grow, and it stops at a tail that no unused segment touches |
| CrossSection.SegmentsInAppend | src/regrid/detect.py:49-78 | the segments of two loop lists add up |
| CrossSection.Scan | src/regrid/detect.py:49-78 | the used array keeps one mark per segment across the outer loop |
| CrossSection.ScanAccounts | src/regrid/detect.py:49-78 | the outer loop marks every segment used, keeps earlier loops and gives each new loop at least two points |
| CrossSection.ScanCounts | src/regrid/detect.py:49-78 | the new loops of the outer loop consume exactly the segments that were unused |
| CrossSection.NoneUsed | src/regrid/detect.py:47 | the initial `used` array has one mark per segment |
| CrossSection.EachSegmentOnce | src/regrid/detect.py:44-79 | every segment ends up in exactly one chained loop: the loops' segment counts add up to the number of segments |
| CrossSection.LoopArea | src/regrid/detect.py:76-78 | each loop contributes a non-negative area, and a non-zero one only when it closes within tolerance and has at least four recorded points |
| CrossSection.SumAreas | src/regrid/detect.py:48-78 | the running total of absolute loop areas is never negative |
| CrossSection.SumAreasSnoc | src/regrid/detect.py:78 | adding a loop adds exactly its area to the total |
| CrossSection.SegmentsArea | src/regrid/detect.py:42-79 | the cross-section area is never negative and is 0 with no segments |
| CrossSection.LoopAreaReverse | src/regrid/detect.py:76-78 | a closed loop chained the other way round contributes the same area |
| CrossSection.ChainFrom | src/regrid/detect.py:52-75 | in place on the `used` array, the chained loop starts at the start segment's end `a`, has at least two points, and loop and marks are those of the chaining function |
| CrossSection.FindNext | src/regrid/detect.py:58-73 | one pass of the inner scan over the `used` array returns the match the scan function specifies: the first unused segment with an end near the tail |
| CrossSection.PolygonAreaFromSegments | src/regrid/detect.py:42-79 | the loop over start segments returns exactly the specified sum of loop areas |
| CrossSection.AreaAtZ | src/regrid/detect.py:21-39 | the section area is never negative, and a slicing failure or an empty slice gives 0 instead of raising |
| CrossSection.AreaAtZOfSlice | src/regrid/detect.py:21-39 | a successful slice gives the chained area of its segments at the chaining tolerance (0 for no segments) |
| CrossSection.CrossSectionAreaAtZ | src/regrid/detect.py:21-39 | the imperative area computation equals the specified area |
| FloorDetect.Ceil | src/regrid/detect.py:107 | the sample count's ceiling is the least integer not below the quotient |
| Numeric.ScaleLess | src/regrid/detect.py:107 | multiplying by a positive factor (a step or a pitch) keeps the order of two reals in both directions |
| FloorDetect.SampleCount | src/regrid/detect.py:107 | `np.arange(z_start, z_end, step)` has exactly the heights strictly before `z_end` in the step's direction |
| FloorDetect.SampledAreas | src/regrid/detect.py:108 | there is one area per sampled height |
| FloorDetect.FirstWindow | src/regrid/detect.py:113-118 | the window found is the first run of `stable_steps` areas all at or above the threshold; with none found, no window qualifies |
| FloorDetect.SampleAreas | src/regrid/detect.py:108 | the sampling loop produces the specified list of areas |
| FloorDetect.FirstStableWindow | src/regrid/detect.py:113-118 | the window loop returns the first qualifying window, and nothing when the list is shorter than the window |
| FloorDetect.DetectFloorZ | src/regrid/detect.py:90-120 | the imperative detector returns the specified floor height |
| FloorDetect.FloorZNone | src/regrid/detect.py:105-112 | there is no floor when the search range is empty, when there are no or too few samples, when every area is 0, or when the step is negative |
| FloorDetect.FloorZFirstWindow | src/regrid/detect.py:107-120 | a floor found is the height of the first sample that starts a stable window at or above `area_ratio` times the peak area |
| FloorDetect.FloorZRange | src/regrid/detect.py:105-120 | a floor found lies at least 0.5 mm above the mesh bottom and below both the search limit and 0.01 mm under the top |
| FloorDetect.DetectFloorZWithConfidence | src/regrid/detect.py:123-150 | the detector returns the specified floor height and stability |
| FloorDetect.StabilityWithoutFloor | src/regrid/detect.py:150 | without a floor the stability is 0 |
| FloorDetect.RatioBounds | src/regrid/detect.py:147 | a window minimum between `ratio` times the peak and the peak gives a ratio between `ratio` and 1 |
| FloorDetect.WindowMin | src/regrid/detect.py:113-146 | a qualifying window's minimum lies between the threshold and the peak, and is not negative when no area is |
| FloorDetect.WindowStabilityBounds | src/regrid/detect.py:146-148 | a window's stability lies between `ratio` and 1 |
| FloorDetect.ConfidenceBounds | src/regrid/detect.py:141-148 | with non-negative areas, the confidence of a found window lies between `ratio` and 1 |
| FloorDetect.ConfidenceValue | src/regrid/detect.py:141-148 | the confidence is the stability of the very window the detector chose |
| FloorDetect.StabilityBounds | src/regrid/detect.py:123-150 | when a floor is found and areas are not negative, the reported stability lies between `area_ratio` and 1 |
| Footprint.MeshBoundsXY | src/regrid/detect.py:153-156 | the footprint's minima do not exceed its maxima |
| Footprint.MeshBoundsXYTight | src/regrid/detect.py:153-156 | every vertex lies within the footprint, and each of the four bounds is attained by a vertex |
| Footprint.MeshMinZLowest | src/regrid/detect.py:159-161 | the minimum Z is at most every vertex's Z and is attained |
| Footprint.MeshCenterXY | src/regrid/detect.py:164-169 | the centre lies within the footprint, at equal distance from both sides on each axis |
| Footprint.CenterTranslate | src/regrid/pipeline.py:150-152 | translating a mesh moves its XY centre by the translation, which is what centring the slab relies on |
| Footprint.StripStartRemovesSpace | src/regrid/detect.py:174 | stripping the start removes exactly the leading whitespace, up to the first other character |
| Footprint.StripEndRemovesSpace | src/regrid/detect.py:174 | stripping the end removes exactly the trailing whitespace |
| Footprint.StripKeepsMiddle | src/regrid/detect.py:174 | `strip()` keeps a contiguous middle part, drops only whitespace, and leaves no whitespace at either end |
| Footprint.StripNoSpace | src/regrid/detect.py:174 | text without whitespace at its ends is unchanged by `strip()` |
| Footprint.StripPadded | src/regrid/detect.py:174 | one extra whitespace character on either side does not change the stripped text |
| Footprint.StripEndPadded | src/regrid/detect.py:174 | one extra trailing whitespace character does not change `rstrip` |
| Footprint.StripStartSuffix | src/regrid/detect.py:174 | a trailing whitespace character survives the left strip and is then removed |
| Footprint.FindChar | src/regrid/detect.py:175-179 | the separator found is the first `x`, and with none found there is no `x` |
| Footprint.DigitChar | src/regrid/detect.py:181 | the digit written for `d` reads back as `d` |
| Footprint.NatStr | src/regrid/detect.py:181 | a decimal numeral is made of digits only |
| Footprint.NatStrValue | src/regrid/detect.py:181 | a decimal numeral reads back as its number |
| Footprint.ParseIntNatStr | src/regrid/detect.py:181 | `int()` of a decimal numeral gives the number |
| Footprint.ParseCounts | src/regrid/detect.py:179-186 | accepted counts are both at least 1 |
| Footprint.CheckCounts | src/regrid/detect.py:180-186 | both parts must read as integers, or it is a not-an-integer error; then both must be at least 1, or it is a below-one error; accepted counts are exactly the integers read |
| Footprint.ParseModules | src/regrid/detect.py:172-186 | accepted counts are both at least 1 |
| Footprint.ParseModulesErrors | src/regrid/detect.py:172-186 | every rejection is one of the three errors, and it is the missing-separator error exactly when the lower-cased, stripped text has no `x` |
| Footprint.LowerOfLower | src/regrid/detect.py:174 | lower-casing text without capitals changes nothing |
| Footprint.ParseModulesRoundTrip | src/regrid/detect.py:172-186 | `"<a>x<b>"` parses back to `(a, b)` when both are at least 1, and is a below-one error otherwise |
| Footprint.ParseCountsOfNats | src/regrid/detect.py:179-181 | splitting `"<a>x<b>"` at the first `x` reads exactly `a` and `b` |
| Footprint.ParseModulesIgnoresCase | src/regrid/detect.py:174 | `"5X5"` parses as `"5x5"` |
| Footprint.ParseModulesIgnoresPadding | src/regrid/detect.py:174 | surrounding spaces do not change the result |
| Footprint.InferCounts | src/regrid/detect.py:197-222 | accepted counts are at least 1; a zero or negative width or depth is a degenerate-footprint error; a zero pitch is a division error |
| Footprint.CheckInferred | src/regrid/detect.py:209-222 | counts are accepted exactly when both are at least 1 and both residuals are within the tolerance; counts below 1 are reported as such |
| Footprint.InferCountsSound | src/regrid/detect.py:206-222 | inferred counts fit the footprint within the tolerance on both axes |
| Footprint.InferModulesSound | src/regrid/detect.py:189-222 | the counts `infer_modules` returns for a mesh fit its bounding-box footprint within the tolerance on both axes |
| Footprint.NearestCount | src/regrid/detect.py:206-207 | for a tolerance under half the pitch, a count that fits the width within the tolerance is the rounded quotient |
| Footprint.InferCountsComplete | src/regrid/detect.py:189-222 | for a tolerance under half the pitch, any positive counts that fit the footprint within the tolerance are the ones inferred |
| Footprint.InferCountsExamples | src/regrid/detect.py:189-222 | at pitch 42 and tolerance 2, 42x42 mm gives 1x1, 84.1x84.1 gives 2x2, 84.1x42 gives 2x1, and 50x50 is a footprint mismatch |
| Footprint.CheckRefPitch | src/regrid/detect.py:231-239 | the reference cell passes exactly when both sides are within the tolerance of the target pitch, and a failure names both sides and the target |
| Footprint.CheckRefPitchMonotone | src/regrid/detect.py:234-239 | a cell that passes at one tolerance passes at any larger one, and a cell of exactly the target size passes |
| Footprint.RefTileIsOneModule | src/regrid/detect.py:189-239 | a reference cell that passes validation at a pitch is inferred as exactly one module at that pitch |
| Cut.AboveBoxBounds | src/regrid/cut.py:10-23 | the above-box spans the footprint grown by 25 mm on every side, from the plane up by the mesh's extent above it plus 200 mm |
| Cut.BelowBoxBounds | src/regrid/cut.py:28-41 | the below-box spans the footprint grown by 25 mm on every side, from the plane down by the mesh's extent below it plus 200 mm |
| Cut.BoxesOvershoot | src/regrid/cut.py:18-36 | for planes within 200 mm of the mesh, the box reaches 200 mm past the mesh's far side, so it never trims the kept part |
| Cut.AboveBoxSelects | src/regrid/cut.py:10-25 | within the mesh's bounds, a point is inside the above-box exactly when it is on or above the plane |
| Cut.BelowBoxSelects | src/regrid/cut.py:28-43 | within the mesh's bounds, a point is inside the below-box exactly when it is on or below the plane |
| Cut.BoxesMeetAtPlane | src/regrid/cut.py:23-41 | the above-box starts exactly where the below-box ends, at the plane |
| Cut.KeepAbove | src/regrid/cut.py:10-25 | the cut fails only for an empty mesh or a failed intersection; it succeeds exactly when the mesh has vertices and the intersection with the above-box succeeds, and then returns that intersection unchanged |
| Cut.KeepBelow | src/regrid/cut.py:28-43 | the cut fails only for an empty mesh or a failed intersection; it succeeds exactly when the mesh has vertices and the intersection with the below-box succeeds, and then returns that intersection unchanged |
| Cut.CutKeepAbove | src/regrid/cut.py:10-25 | building the box object, moving it in place and intersecting gives the specified cut |
| Cut.CutKeepBelow | src/regrid/cut.py:28-43 | building the box object, moving it in place and intersecting gives the specified cut |
| Tile.LayoutIndex | src/regrid/tile.py:18-23 | the loops produce `nx * ny` copies, and copy `i * ny + j` sits at `(i * pitch, j * pitch, 0)` |
| Tile.LayoutLength | src/regrid/tile.py:18-23 | the loops produce `nx * ny` copies |
| Tile.LayoutCell | src/regrid/tile.py:18-23 | every copy belongs to some column `i < nx` and row `j < ny`, in column-major order |
| Tile.LayoutDistinct | src/regrid/tile.py:18-23 | with a non-zero pitch no two copies land at the same offset |
| Tile.OffsetInjective | src/regrid/tile.py:22 | with a non-zero pitch distinct cells get distinct offsets |
| Tile.CancelPitch | src/regrid/tile.py:22 | a non-zero pitch cancels from both sides of an equation |
| Tile.LayoutSpan | src/regrid/tile.py:15-22 | with a positive pitch every copy lies in the rectangle from the origin to `((nx-1)*pitch, (ny-1)*pitch)` and is not moved in Z |
| Tile.ScaleUpTo | src/regrid/tile.py:22 | a positive pitch keeps the order of two counts |
| Tile.SingleTileUnmoved | src/regrid/tile.py:18-23 | a 1x1 layout is the reference itself, unmoved |
| Tile.NegativeCountIsEmpty | src/regrid/tile.py:19-20 | a zero or negative count gives no copies |
| Tile.TilesSnoc | src/regrid/tile.py:23 | appending one offset appends one translated copy |
| Tile.TileReference | src/regrid/tile.py:8-26 | the nested loops return a new slab that is the merge of all translated copies, concatenated in loop order |
| Verify.SamplesAsked | src/regrid/verify.py:46 | the sampler is asked for `min(sample_count, len(faces))` points: at most both, and equal to one of them |
| Verify.SampleAndDistances | src/regrid/verify.py:45-53 | fewer than three requested samples give no distances; otherwise a failing sampler is a sampling error, no sampled points give no distances, and the result is the library's nearest-surface distances of the sampled points, or a sampling error when that query fails |
| Verify.Stats | src/regrid/verify.py:63-77 | the report passes exactly when the maximum distance is within the tolerance it records |
| Verify.CompareAbove | src/regrid/verify.py:55-91 | a failure of either sampling direction is a sampling error; once both succeed, the comparison succeeds exactly when the maximum distance is within the tolerance, returning the statistics, and otherwise fails carrying that maximum, which exceeds the tolerance |
| Verify.VerifyAbovePlane | src/regrid/verify.py:21-91 | a failing cut of the original or of the output passes its error on, in that order; once both cuts succeed the result is the comparison of the two parts above the plane; a returned report always passes |
| Verify.VerdictIff | src/regrid/verify.py:42-91 | once both cuts and both samplings succeed, the verification passes exactly when every sampled distance in both directions is within the tolerance, and otherwise fails with a maximum above the tolerance |
| Verify.MaxBoundsDistances | src/regrid/verify.py:63-65 | the reported maximum bounds every sampled distance in both directions |
| Verify.MaxNonNegative | src/regrid/verify.py:63-65 | with non-negative distances the reported maximum is not negative |
| Verify.MaxOrZeroWithin | src/regrid/verify.py:63-64 | the maximum of a list is within the tolerance exactly when every element is, an empty list counting as 0 |
| Verify.PassedIff | src/regrid/verify.py:63-70 | the check passes exactly when every sampled distance, in both directions, is within the tolerance |
| Verify.CompareSymmetric | src/regrid/verify.py:55-68 | for the one fixed draw of the sampler per mesh and count, swapping original and output gives the same verdict and maximum, with the two percentiles exchanged |
| Verify.PassMonotone | src/regrid/verify.py:70-91 | for the same sampled draws, a pass at one tolerance is a pass with the same maximum at any larger tolerance |
| Verify.SparseMeshesPass | src/regrid/verify.py:46-70 | with fewer than three faces on both sides nothing is sampled, and the check passes with all-zero distances exactly when the tolerance is not negative |
| Verify.OnlyAbovePlaneMatters | src/regrid/verify.py:42-43 | meshes whose cuts above the plane agree get the same verdict under the one fixed draw of the sampler per mesh and count (not across separate random runs) |
| Pipeline.RotateZ | src/regrid/pipeline.py:56-64 | a multiple of 360 degrees returns the mesh unchanged; any other angle is the library's rotation |
| Pipeline.ModuleCounts | src/regrid/pipeline.py:94-99 | counts are at least 1; an explicit `NxM` bypasses inference and is parsed; `"auto"` infers from the mesh's footprint at the source pitch with the 2 mm tolerance, an empty mesh having no footprint |
| Pipeline.AutoCountsFit | src/regrid/pipeline.py:96-98 | counts inferred under `"auto"` fit the mesh footprint within 2 mm at the source pitch on both axes |
| Pipeline.AutoCountsExact | src/regrid/pipeline.py:96-98 | under `"auto"`, a footprint that is exactly `n` by `k` pitches, for a pitch wider than 4 mm, is inferred as `n` by `k` |
| Pipeline.TargetCounts | src/regrid/pipeline.py:101-102 | the scaling fails exactly when the destination pitch is zero, and otherwise rounds each count times the pitch ratio |
| Pipeline.TargetCountMultiple | src/regrid/pipeline.py:101-102 | when the source pitch is `k` times the destination, each count is multiplied by exactly `k` |
| Pipeline.DefaultPitchesDouble | src/regrid/pipeline.py:30-102 | from 42 mm to 21 mm an `n` by `m` bin becomes `2n` by `2m` |
| Pipeline.JoinPlanesProperties | src/regrid/pipeline.py:105-126 | the join plane is the detected floor exactly when preserving and one was found, with the body cut the epsilon below it; otherwise both planes are `zmin + replace_height`; a non-negative epsilon keeps the body cut at or below the join plane |
| Pipeline.ClampRefHeight | src/regrid/pipeline.py:139-143 | the reference slice height is at most both the configured and the effective height, and equals one of them |
| Pipeline.ClampIsMin | src/regrid/pipeline.py:139-143 | the clamp is the smaller of the two heights |
| Pipeline.Plan | src/regrid/pipeline.py:94-139 | a plan needs a non-empty mesh, has counts of at least 1, takes its two planes from JoinPlanes of its own lowest point and floor, and its effective height is the join plane's height above the bottom |
| Pipeline.PlanInputs | src/regrid/pipeline.py:94-139 | a plan exists exactly when the module counts succeed, the destination pitch is not zero and the mesh is not empty, and a failed module count is passed on; the plan's counts are those of ModuleCounts, its target counts those of TargetCounts, its lowest point the mesh minimum Z, and its floor the floor candidate of the settings |
| Pipeline.PlanWithoutPreserve | src/regrid/pipeline.py:123-126 | without floor preservation no floor is asked for, both planes are `zmin + replace_height`, and the effective height is `replace_height` |
| Pipeline.PlanUsesFloor | src/regrid/pipeline.py:106-114 | with a floor found, the join plane is the floor, the body cut is the epsilon below it, and the floor lies between 0.5 mm and 15 mm above the bottom |
| Pipeline.AlignSlab | src/regrid/pipeline.py:150-159 | aligning moves the slab without adding or dropping vertices |
| Pipeline.AlignSlabBounds | src/regrid/pipeline.py:150-159 | the aligned slab is centred on the body in XY, its top is the overlap plus the bottom extension below the join plane, and its height is unchanged |
| Pipeline.CapBoxBounds | src/regrid/pipeline.py:161-172 | the cap covers exactly the body's footprint; its top is the overlap below the join plane and its bottom is one cap height lower |
| Pipeline.CropBoxBounds | src/regrid/pipeline.py:175-182 | the crop covers exactly the body's footprint, from 2.5 mm below the extended bottom to 2.5 mm above the join plane |
| Pipeline.FinishSlab | src/regrid/pipeline.py:161-183 | a preserved floor crops the aligned slab directly; otherwise the slab is first unioned with the cap, then cropped; failures are boolean failures |
| Pipeline.BuildSlab | src/regrid/pipeline.py:145-183 | building the slab fails only with an empty mesh or a failed boolean |
| Pipeline.BuildSlabSteps | src/regrid/pipeline.py:139-183 | a slab built is the reference cut below `MeshMinZ(ref) + min(ref_height_mm, effective height)`, tiled `n2` by `m2` at the destination pitch into a non-empty mesh, aligned under the body, and then capped and cropped by FinishSlab |
| Pipeline.NoTilesNoSlab | src/regrid/pipeline.py:148 | a zero or negative target count leaves an empty slab, which cannot be aligned, so the run fails |
| Pipeline.FindFloor | src/regrid/pipeline.py:106-107 | the floor search runs the detector only when the floor is to be preserved and gives the specified floor candidate; without preservation there is no floor |
| Pipeline.PlanRun | src/regrid/pipeline.py:94-143 | the imperative planning steps give the specified plan |
| Pipeline.AlignInPlace | src/regrid/pipeline.py:150-159 | in place, the slab object becomes the aligned slab |
| Pipeline.MakeSlab | src/regrid/pipeline.py:145-183 | the imperative slab construction gives the specified slab |
| Pipeline.Prepare | src/regrid/pipeline.py:92-183 | a prepared run has no final mesh yet |
| Pipeline.PrepareProperties | src/regrid/pipeline.py:92-183 | a prepared run used the plan, cut the body above the body plane, validated the reference cell at the destination pitch within 1.5 mm, and built the slab from the body's bounds |
| Pipeline.PrepareRun | src/regrid/pipeline.py:92-183 | the imperative preparation gives the specified prepared run |
| Pipeline.FinishOrdering | src/regrid/pipeline.py:187-213 | a dry run exports the debug meshes and stops with no union; otherwise the debug export comes first when asked for, the output is written once the union succeeds, and a verification is logged only after the write and only as a pass; an error after the write is the verification's |
| Pipeline.FinishRun | src/regrid/pipeline.py:187-213 | the imperative final steps give the specified result and effect log |
| Pipeline.Run | src/regrid/pipeline.py:84-215 | `run` rotates the input, then either stops with the preparation's error and no effects, or performs the final steps on the prepared run |

## Left out

- Loading and exporting STL files, the `debug/` directory, logging, and the command line. The model has no file system. A run's effects are recorded as an `Effect` log, and the run takes its two input meshes as values.
- Verify.VerifyAbovePlane: the output mesh is not re-read from the written file. The model compares the mesh that was written, which assumes that exporting and loading give the mesh back.
- Floating point is modelled as exact real arithmetic. `float32` conversion inside the boolean solver is not modelled, nor are rounding errors in the tolerance tests.
- The mesh library's algorithms are parameters of `MeshLib`: boolean intersection and union (manifold3d), plane slicing, surface sampling, nearest-surface distance, vertex merging, rotation matrices and the 95th percentile. The model proves what the converter does around them, not what they compute.
- Meshes.Bounds: it is taken over all vertices, while trimesh uses only the vertices referenced by faces. The two agree on meshes without unreferenced vertices, which `_trimesh_from_manifold` ensures for boolean results.
- CrossSection.AreaAtZ: the shape checks on the slicer's output (`ndim`, `shape`) are folded into the slicer returning `None`.
- Verify.SampleAndDistances: the converter's surface sampler (`trimesh.sample.sample_surface`, verify.py:49) is random and unseeded, so two calls on the same mesh draw different points. The model makes `MeshLib.sampleSurface` a fixed function of the mesh and the count, so it describes one draw per (mesh, count). Verify.CompareSymmetric, Verify.PassMonotone and Verify.OnlyAbovePlaneMatters therefore compare verdicts under that one draw, not across separate runs of the program. Verify.VerdictIff holds for whatever points are drawn.
- FloorDetect.DetectFloorZ: it requires a non-zero step, as `np.arange` does. It takes the section-area sampler as a parameter (`areaAt`), which the pipeline instantiates with `CrossSection.AreaAtZ`.
- FloorDetect.DetectFloorZWithConfidence: it requires `stable_steps` of at least 1, because the source takes `np.min` of an empty window otherwise.
- FloorDetect.DetectFloorZ: `stable_steps` is a `nat`, while the source accepts any `int`. A negative value, for which `range(len(areas) - stable_steps + 1)` runs past the end and `areas[i : i + stable_steps]` slices from the end of the array, is not modelled.
- Pipeline.NoTilesNoSlab: with a zero or negative target count the source fails in `tile_reference`, where `trimesh.util.concatenate([])` yields no mesh to call `merge_vertices` on (src/regrid/tile.py:24-25). The model fails later, with `EmptyMesh` when the empty slab is aligned, assuming the library's merge of an empty mesh is empty. Both fail, at different points and with different errors.
- Footprint.ParseModules: `int()` is modelled for optional surrounding ASCII whitespace, an optional sign and ASCII digits; underscores and non-ASCII digits or whitespace are rejected. `str.lower` folds only ASCII capitals.
- The text of the error messages is not modelled. Each error kind carries the values the message names.
- Verify.SampleAndDistances: distances are taken from the library as given. Their being non-negative is a hypothesis of `Verify.MaxNonNegative`, not a guarantee.
- Pipeline.Run: the run summary log line and the `footprint_preserved` flag are not modelled, since they only feed logging.
