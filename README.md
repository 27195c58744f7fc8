# Moai lean and footprint analysis, modelled in Dafny

The analyzer scripts load a scanned moai statue as a triangle mesh, with Y
vertical. Each one:

- takes the centre of mass the mesh library computes;
- prints how high the centre sits above the lowest vertex;
- finds the footprint: the vertices less than 5 cm above the base;
- takes the footprint's bounding rectangle in the X/Z plane and its midpoint, the "base centre";
- says whether the centre of mass lies over that rectangle, and reports its offsets from the base centre with a direction word for each axis.

Some scripts also:

- measure the distance to a front edge;
- decompose the lean into angles;
- draw a top view.

The top view shows the footprint rectangle, a slice 10 cm above the base, or an outline. The outline is built from an occupancy grid in three steps: find the boundary cells, order them by nearest neighbour, and smooth them with a circular moving average.

The model works on a mesh given as `seq<Vec3>` of reals, with the centre of mass as an input.

- `Geometry` holds vectors, bounds, masks and rectangles.
- `BaseAnalysis` is the footprint analysis shared by every script. The scripts disagree on which way is "front", so the label choice is a `Convention` parameter. Each script's module fixes it and does not reconcile the scripts:
  - `FinalAnalyzer` and `CorrectedAnalyzer` read +X as "right" and +Z as "forward", and treat the maximum-Z edge as the front.
  - `MoaiAnalyzer` reads +X as "forward" and +Z as "right". It stands for `moai_analyzer.py`, `moai_analyzer_enhanced.py`, `moai_analyzer_headless.py` and `moai_analyzer_plotly.py`, whose `load_and_analyze_moai` bodies are identical (enhanced and headless 11-73, plotly 6-68).
- The top views of `visualize_moai_enhanced` and `create_simple_visualization` draw the footprint rectangle and the base centre. So does `visualize_moai_with_com`. All three are `BaseAnalysis.FootprintMarks`.
- `LeanAngle` is `calculate_lean_angle`. Square root and trigonometry arrive as a `MathLib` value. Lemmas that need a law of one of these functions (`IsSqrt`, `Atan2SignRule`, `Atan2Odd`, `Atan2NegativeAxis`) take it as a precondition. `Atan2Odd` holds only off the negative x axis, where `atan2(0, x)` is 180° whatever the sign of the zero.
- `Outline` holds the three outline helpers of `moai_analyzer_final.py`. They are imperative in the source, so they are methods with loops. The occupancy grid is an `array2<bool>`, and the smoothing writes into an array. Each method is proved against a reference function.
- `MeshMeasures` holds what the plotting code takes from the whole mesh's bounding box: the box centre, the forward-lean angle seen from it, and the annotated lengths.
- `PlotlyAnalyzer` is the plotly top view.
- `PlotlySimpleAnalyzer` is the simple plotly script: its height-only analysis and its height colouring.

The front differs from file to file, as the source has it:

- `moai_analyzer_final.py:82` and `moai_analyzer_corrected.py:78` take the maximum-Z edge as the front.
- `calculate_lean_angle.py:80-86` says the front is at minimum Z, and labels a negative Z offset "toward front/face". Its debug block at 92-95 prints the maximum-Z edge as the "front edge". The model keeps both, as `LeanReport.facing` and `LeanReport.frontEdgeZ`.
- The comment at `moai_analyzer_plotly.py:205` also puts the front at minimum Z. The angle computed beside it uses `abs(z_offset)`, so it carries no direction.
- `moai_analyzer.py:77` calls +X "forward".

## Model

| member | source | states |
|---|---|---|
| Geometry.Bounds | moai_analyzer_final.py:25 | the box's corners bound every vertex on every axis, and each of the six extremes is attained by a vertex |
| Geometry.Select | moai_analyzer_final.py:50 | the masked vertices are exactly the input vertices inside the height band, each as many times as it occurs in the input, so the count is that of the in-band vertices |
| Geometry.SelectAppend | moai_analyzer_final.py:50 | masking a concatenation gives the masked parts in the same order, so the mask keeps the vertices' original order |
| Geometry.BoundingRect | moai_analyzer_final.py:96-97 | the rectangle is ordered, contains every point, and each of its four sides is attained by a point |
| Geometry.Midpoint | moai_analyzer_final.py:71-72 | the midpoint is equidistant from both sides on each axis and lies inside an ordered rectangle |
| BaseAnalysis.BaseY | moai_analyzer_final.py:37 | the base height is at most every vertex's height and is attained by some vertex |
| BaseAnalysis.BaseVertices | moai_analyzer_final.py:49-52 | the footprint is exactly the vertices strictly below base + 0.05; it contains a lowest vertex, so the guard never fails for a non-empty mesh |
| BaseAnalysis.HeightAnalysis | moai_analyzer_final.py:37-40 | the base plus the height from the base is the centre's height, and the base plus the total height is the top; the percentage is undefined exactly for a flat mesh, satisfies percentage · total = 100 · height otherwise, and lies in [0, 100] for a centre between base and top |
| BaseAnalysis.FootprintRect | moai_analyzer_final.py:53-56 | the rectangle is ordered, contains every footprint vertex, and its four sides are attained by footprint vertices |
| BaseAnalysis.AnalyzeBase | moai_analyzer_final.py:53-88 | the base centre lies in the rectangle at equal distance from both sides; offset plus centre is the centre of mass; within-range iff the inclusive test holds, iff the absolute offset is at most half the extent; labels follow the offset's sign under the convention; the front edge is the maximum Z; "over" iff the centre of mass is past it, and "over" implies outside in Z with a positive offset and the positive label |
| BaseAnalysis.ConventionOnlyNamesSides | moai_analyzer.py:44-74 | two conventions give the same rectangle, base centre, offsets and within-range verdicts; only the words and the front edge differ |
| BaseAnalysis.Analyze | moai_analyzer_final.py:14-90 | fails exactly on an empty mesh; otherwise reports the mesh bounds, the height analysis of those bounds and the centre of mass, and always has a footprint report, which is AnalyzeBase of the footprint |
| BaseAnalysis.SliceVertices | moai_analyzer_final.py:310-315 | the slice is exactly the vertices strictly between base + 0.09 and base + 0.11, and it shares no vertex with the footprint |
| BaseAnalysis.RectPatch | moai_analyzer.py:197-206 | the patch's corner is the lower-left corner; corner plus width and height reach the other sides; both are non-negative for an ordered rectangle |
| BaseAnalysis.FootprintMarks | moai_analyzer_headless.py:124-144 | the marks exist exactly for a non-empty mesh; the drawn rectangle has non-negative size and spans every footprint vertex |
| BaseAnalysis.FootprintMarksMatchAnalysis | moai_analyzer_enhanced.py:187-210 | the rectangle and base centre drawn in the top view are those of the printed analysis |
| LeanAngle.Clip | calculate_lean_angle.py:44 | `np.clip(c, -1, 1)` stays within [-1, 1] and changes nothing inside it |
| LeanAngle.Normalize | calculate_lean_angle.py:40 | the normalised vector exists exactly when the norm is not zero, and its vertical part is the vertical offset over the norm |
| LeanAngle.NormalizeDefinedOffZero | calculate_lean_angle.py:40 | for a true square root: normalisation is defined exactly for a non-zero vector, and its vertical part then lies in [-1, 1] |
| LeanAngle.TotalAngle | calculate_lean_angle.py:43-45 | the total lean exists exactly when the normalised vector does, and is the arccosine of its vertical part when that lies in [-1, 1] |
| LeanAngle.Lean | calculate_lean_angle.py:28-117 | the base-to-COM vector is COM minus base centre; Z and Y offsets are its components; "toward front" iff the Z offset is negative; "forward" iff the angle is negative; "left" iff the side angle is negative; front-view angle + absolute forward angle = 90; front and back edges are the footprint's maximum and minimum Z; the COM's Z plus the distance to the front reaches the front edge, the back edge plus the distance to the back reaches the COM's Z, and the two add up to the depth |
| LeanAngle.BaseCenter | calculate_lean_angle.py:20-26 | the base centre lies in the footprint rectangle, halfway on each axis, at the mesh's base height |
| LeanAngle.CalculateLeanAngle | calculate_lean_angle.py:4-119 | fails exactly on an empty mesh; otherwise the report is `Lean` measured from BaseCenter with the footprint's Z edges and the mesh's total height, so every `Lean` lemma applies to it |
| LeanAngle.Pythagoras | calculate_lean_angle.py:49-61 | for a true square root: horizontal distance² + Y offset² = norm²; the horizontal distance is non-negative, and 0 exactly when both horizontal offsets are 0 |
| LeanAngle.UnitVertical | calculate_lean_angle.py:40-44 | the norm is 0 exactly for the zero vector, and the vertical component over a non-zero norm lies in [-1, 1] |
| LeanAngle.TotalAngleOffCenter | calculate_lean_angle.py:39-45 | the total lean is defined exactly when the centre of mass is not the base-centre point, and then the clip before arccos changes nothing |
| LeanAngle.ForwardLabelsAgree | calculate_lean_angle.py:60-104 | with the centre of mass above the base and atan2's sign rule, "forward" (negative angle) iff "toward front/face" (negative Z offset) |
| LeanAngle.MirrorKeepsLeanMagnitude | calculate_lean_angle.py:109-115 | with atan2 odd off the negative axis: reflecting the centre of mass through the base centre in Z negates the Z offset; it negates the forward angle unless the Z offset is 0 with the COM below the base, where nothing changes; the front-view angle and the lean at the top are always kept |
| Outline.Linspace | moai_analyzer_final.py:107-108 | `num` samples, the first `lo` and the last `hi`, consecutive samples `(hi - lo) / (num - 1)` apart |
| Outline.LinspaceIncreasing | moai_analyzer_final.py:107-108 | on an increasing range the samples strictly increase |
| Outline.SearchSorted | moai_analyzer_final.py:115-116 | the index is at most the length, every earlier sample is below the value, and the sample at the index (if any) is at least the value |
| Outline.MakeGrid | moai_analyzer_final.py:96-111 | both bin vectors have `resolution` edges and the grid `resolution - 1` cells per side; the first and last edges are the points' bounds widened by 0.02 |
| Outline.Centres | moai_analyzer_final.py:143-146 | one centre per cell, the midpoint of its bin edges |
| Outline.RowsMembers | moai_analyzer_final.py:122-146 | the cells collected from the first `i` rows are exactly the boundary cells of those rows |
| Outline.BoundaryCellsOnGrid | moai_analyzer_final.py:143-145 | every collected cell has the bin edges its centre needs |
| Outline.BoundaryCellsExact | moai_analyzer_final.py:120-146 | a cell is collected iff it is on the grid, occupied, and has an empty or off-grid 8-neighbour |
| Outline.PaddingKeepsPointsInGrid | moai_analyzer_final.py:99-117 | with the 0.02 padding every point gets an on-grid cell, so the range guard rejects nothing |
| Outline.PointCellOccupied | moai_analyzer_final.py:114-118 | every point's cell is marked occupied |
| Outline.FillGrid | moai_analyzer_final.py:110-118 | the fresh grid marks exactly the occupied cells |
| Outline.NeighbourScan | moai_analyzer_final.py:126-140 | the two loops with their breaks report a boundary iff some 8-neighbour is empty or off the grid |
| Outline.ScanRow | moai_analyzer_final.py:122-146 | one row's output is the centres of its boundary cells, left to right |
| Outline.ScanCell | moai_analyzer_final.py:124-140 | the occupancy test followed by the neighbour loops decides exactly IsBoundary |
| Outline.FindBoundaryPoints | moai_analyzer_final.py:92-148 | the output is the centres of BoundaryCells in row-major order |
| Outline.ArgMin | moai_analyzer_final.py:160 | the index holds a smallest element, and every earlier element is strictly larger, so it is the first minimum |
| Outline.Remove | moai_analyzer_final.py:163 | removing an element that is present (both calls remove an index still in the list) shortens the list by one and removes exactly one copy of it from the multiset |
| Outline.RemoveFirstOccurrence | moai_analyzer_final.py:171 | `remove` of an element drops exactly its first occurrence |
| Outline.Pick | moai_analyzer_final.py:174 | fancy indexing: the t-th output is the point at the t-th index |
| Outline.Distances | moai_analyzer_final.py:168 | one distance per remaining index, from that point to the current one |
| Outline.StartOrdering | moai_analyzer_final.py:156-163 | after taking the start index, the ordering invariant holds |
| Outline.NearestStep | moai_analyzer_final.py:166-172 | taking a nearest remaining point keeps the invariant: the taken and remaining points together are the input, and each point's successor is no farther than any point taken after it |
| Outline.NearestNeighbourWalk | moai_analyzer_final.py:165-172 | the loop ends with every index taken and the invariant holding |
| Outline.FinishOrdering | moai_analyzer_final.py:166-174 | when nothing remains, the picked points are a permutation of the input that starts at the start point and are greedily ordered |
| Outline.OrderBoundaryPoints | moai_analyzer_final.py:150-174 | fewer than 3 points come back unchanged; otherwise the output is a permutation of the input, starts at a point of minimal X, and each next point is a nearest one among those not yet placed |
| Outline.CyclicWindow | moai_analyzer_final.py:182-191 | the window holds `w` cyclically consecutive points |
| Outline.Padded | moai_analyzer_final.py:182-184 | the padded array is `w` longer than the input |
| Outline.PaddedWindow | moai_analyzer_final.py:182-191 | each window slice of the padded array is the cyclic window starting `ceil(w/2)` before the index, and stays inside the padded array |
| Outline.SmoothBoundary | moai_analyzer_final.py:176-193 | inputs shorter than the window come back unchanged; otherwise the length is kept, and point `i` is the mean of the `w` cyclically consecutive inputs starting at `i - ceil(w/2)` |
| Outline.MeanWithin | moai_analyzer_final.py:191 | the mean of points inside a rectangle is inside it |
| Outline.SmoothedStaysInside | moai_analyzer_final.py:188-191 | every smoothed point lies in the input's bounding rectangle |
| Outline.SameRectForPermutation | moai_analyzer_final.py:150-174 | reordering the points keeps their bounding rectangle |
| FinalAnalyzer.LoadAndAnalyzeMoai | moai_analyzer_final.py:14-90 | fails exactly on an empty mesh; otherwise the mesh bounds, the height analysis and the footprint report AnalyzeBase under "+X right, +Z forward, front at maximum Z"; the centre is in the rectangle and centre plus offset is the COM; within iff the absolute offset is at most half the extent; "right" iff the X offset is positive, "forward" iff the Z offset is, zero falling to "left"/"backward"; the front is the maximum-Z edge, which the COM's Z plus the distance reaches; "over" iff the distance is negative, and it implies outside in Z, a positive Z offset and "forward" |
| FinalAnalyzer.OutlineVertices | moai_analyzer_final.py:306-323 | the slice is used when it has more than 10 vertices, the footprint otherwise; either way it is non-empty, and every vertex lies below base + 0.11 |
| FinalAnalyzer.BoundaryOf | moai_analyzer_final.py:327-328 | the boundary points are those of the grid with 25 bin edges per axis over the outline vertices |
| FinalAnalyzer.CloseLoop | moai_analyzer_final.py:338 | the closed polygon repeats the first point once at the end |
| FinalAnalyzer.SmoothedInsideBoundary | moai_analyzer_final.py:332-335 | ordering and then smoothing keeps every point inside the boundary points' bounding rectangle |
| FinalAnalyzer.OrderAndSmooth | moai_analyzer_final.py:332-335 | the ordering has every property of `order_boundary_points` (same points, leftmost start, greedy nearest-next), the smoothing is the window-7 cyclic mean of that ordering, and every smoothed point lies in the boundary's bounding rectangle |
| FinalAnalyzer.OutlineFrom | moai_analyzer_final.py:330-338 | no boundary points, no polygon; otherwise the polygon is the window-7 smoothing of a greedy ordering of the boundary, closed by its first point, one point longer than the boundary and inside its bounding rectangle |
| FinalAnalyzer.BaseOutline | moai_analyzer_final.py:322-338 | the boundary points are those of the outline grid; when there are any, the ordering, its smoothing and the closed polygon are as in OutlineFrom, and otherwise all are empty |
| CorrectedAnalyzer.LoadAndAnalyzeMoai | moai_analyzer_corrected.py:11-86 | fails exactly on an empty mesh; otherwise the mesh bounds, the height analysis and the footprint report AnalyzeBase under "+X right, +Z forward, front at maximum Z"; the rectangle is the footprint's and contains the centre, and centre plus offset is the COM; within iff the inclusive test holds, iff the absolute offset is at most half the extent; a zero offset gets "left"/"backward"; "right" iff X offset > 0 and "forward" iff Z offset > 0; the front edge is the maximum Z, the distance plus the COM's Z reaches it, and "over" implies a positive Z offset labelled "forward" |
| MoaiAnalyzer.LoadAndAnalyzeMoai | moai_analyzer.py:9-80 | fails exactly on an empty mesh; otherwise the mesh bounds, the height analysis and the footprint report AnalyzeBase under "+X forward, +Z right, no front"; the rectangle is the footprint's and contains the centre, and centre plus offset is the COM; within iff the inclusive test, iff the absolute offset is at most half the extent; "forward" iff X offset > 0 (else "backward"), "right" iff Z offset > 0 (else "left"); no front edge |
| MoaiAnalyzer.SameMeasuresAsFinal | moai_analyzer.py:62-78 | this script and the final one measure the same bounds, heights, rectangle, centre, offsets and containment, and only swap words: X-"forward" is final's "right", Z-"right" is final's "forward" |
| PlotlyAnalyzer.RectOutline | moai_analyzer_plotly.py:336-339 | five points, closed, each a corner of the rectangle, consecutive ones sharing a coordinate, visiting all four corners |
| PlotlyAnalyzer.PlotlyTopView | moai_analyzer_plotly.py:227-353 | exists exactly for a non-empty mesh; the bounds are the slice's when the hull fails on more than 10 slice vertices and the footprint's otherwise; a rectangle is drawn exactly when there are at most 10 slice vertices or the hull fails; the base centre is the bounds' midpoint |
| PlotlyAnalyzer.TopViewCentreMatchesAnalysis | moai_analyzer_plotly.py:252-354 | except on the hull-failure path, the plotted bounds and base centre are the printed analysis' |
| MeshMeasures.MeshCenter | moai_analyzer_plotly_simple.py:125-127 | the centre is halfway between the mesh's X and Z bounds, hence inside them |
| MeshMeasures.FootprintInsideMeshBox | moai_analyzer_plotly_simple.py:169-170 | the footprint rectangle lies inside the top view of the mesh box |
| MeshMeasures.MeshLeanNonNegative | moai_analyzer_plotly.py:206-208 | with atan2's sign rule and the centre of mass above the base, the lean is never negative |
| MeshMeasures.MeshLeanIgnoresDirection | moai_analyzer_plotly.py:187-208 | reflecting the centre of mass through the box centre in Z leaves the lean unchanged, so it does not say which way the statue leans |
| MeshMeasures.MeshLeanUpright | moai_analyzer_plotly.py:187-208 | with atan2 odd off the negative axis and 180° on it: a centre of mass level with the box centre in Z gives zero lean when it is not below the base, and 180° when it is |
| MeshMeasures.MeshLeanIsForwardBackwardMagnitude | moai_analyzer_plotly_simple.py:143-146 | when the footprint centre and the box centre coincide, this lean is the absolute forward/backward angle of `calculate_lean_angle` |
| MeshMeasures.Annotate | moai_analyzer_plotly_simple.py:239-244 | with a positive scale: the offsets are non-negative, width and depth are non-negative for an ordered box, and the distance to the front is negative exactly when the COM's Z exceeds the box's maximum Z |
| MeshMeasures.OffsetsWithinHalfBox | moai_analyzer_plotly_simple.py:240-243 | a centre of mass inside the box is offset by at most half the annotated width and depth |
| MeshMeasures.AnnotatedOverImpliesFootprintOver | moai_analyzer_final.py:423-425 | when the annotation, which measures from the whole mesh's box, puts the centre of mass past the front, it is also past the footprint's front edge used by the printed analysis |
| MeshMeasures.HeightsScaleInvariant | moai_analyzer_plotly_simple.py:29-38 | multiplying the bounding box and the centre by a positive factor multiplies the base, height and total by it, and keeps the percentage |
| PlotlySimpleAnalyzer.LoadAndAnalyzeMoai | moai_analyzer_plotly_simple.py:6-40 | fails exactly on an empty mesh; otherwise gives the mesh bounds and their height analysis with the centre of mass; the percentage is undefined exactly for a flat mesh and in [0, 100] for a centre between base and top |
| PlotlySimpleAnalyzer.VertexColors | moai_analyzer_plotly_simple.py:65 | colours exist exactly for a non-empty, non-flat mesh: one per vertex, each in [0, 1], ordered like the heights, with 0 and 1 attained |

## Left out

- Mesh loading (`trimesh.load`) and `mesh.center_mass`: foreign calls. The centre of mass is an input. An empty mesh, for which the library reports no bounds, is an `EmptyMesh` failure.
- Floating point: all arithmetic is over exact reals. numpy's inf and nan results, such as the percentage of a flat mesh or the colours of a flat mesh, are `None`.
- `np.sqrt`, `np.arctan2`, `np.arccos`, `np.tan` and `np.degrees`: abstract fields of `MathLib`. Only the laws a lemma names are assumed of them.
- `np.linalg.norm` of the base-to-COM vector through the abstract square root: `Normalize` has no explicit case for a zero norm. It returns `None` exactly when the square root is 0.
- The lean annotation in `moai_analyzer_final.py:234-245`: it is the same mesh-box computation as `MeshMeasures.MeshLean`, which has no contract of its own. Its properties are the `MeshLean*` lemmas.
- Outline.OrderBoundaryPoints: it compares squared distances instead of `np.linalg.norm`. The square root is monotone, so in exact reals both give the same nearest index, ties included.
- Outline.FindBoundaryPoints: requires a non-empty point set and `resolution >= 1`. For an empty set, `min()` raises. For resolution 0, `np.zeros((-1, -1))` raises. Only resolution 25 is used.
- Outline.Remove: requires the element to be in the list. Python raises `ValueError` otherwise; both calls in `order_boundary_points` remove an index still in the list.
- Outline.SmoothBoundary: requires `window_size >= 1`. A window of 0 gives the mean of an empty slice, which is nan. Only window 7 is used.
- SciPy: `ConvexHull` and the `splprep`/`splev` spline. Whether the plotly hull fails is an input of `PlotlyAnalyzer.PlotlyTopView`. The hull outlines in `moai_analyzer.py`, `moai_analyzer_plotly.py` and `moai_analyzer_plotly_simple.py` are not modelled. Neither is the spline, drawn when there are more than 10 slice vertices.
- Randomness: the random vertex sampling with `np.random.choice`, used only to thin the scatter plots.
- Rendering:
  - lighting and shading;
  - arrow normalisation and shortening;
  - colour maps other than the simple height colours;
  - axis limits and aspect ratios;
  - all matplotlib and plotly drawing and file output.
- Console output: printing and number formatting. The multiplication by `SCALE_FACTOR` only affects printed numbers, except in the annotations, which `MeshMeasures.Annotate` models with the scale as a parameter.
- `main`, the try/except around it, and the runtime `pip install` in the plotly script.
- `test_base_outline.py`: a plotting script whose filters are those of `BaseAnalysis`. It is not part of this model, and neither is `setup.py`.
