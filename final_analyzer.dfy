/**
 * `moai_analyzer_final.py`: the analysis printed by `load_and_analyze_moai`
 * and the base outline drawn in the top view of `visualize_moai_final`.
 *
 * Offsets read "right" for +X (seen from the front) and "forward" for +Z,
 * and the maximum-Z edge of the footprint is taken as the front edge.
 */
module FinalAnalyzer {
  import opened Outcomes
  import opened Geometry
  import opened BaseAnalysis
  import opened Outline

  /** 7.35 m of statue over 1.502 mesh units; it only scales printed lengths. */
  const SCALE_FACTOR: real := 4.894

  const FINAL: Convention := Convention(Right, Left, Forward, Backward, true)

  function LoadAndAnalyzeMoai(vs: seq<Vec3>, com: Vec3): (r: Result<Report, AnalysisError>)
    ensures r.Failure? <==> |vs| == 0
    ensures r.Success? ==> r.value.base.Some?
    ensures r.Success? ==> r.value.bounds == Bounds(vs) && r.value.heights == HeightAnalysis(Bounds(vs), com)
    ensures r.Success? ==> r.value.base == Some(AnalyzeBase(BaseVertices(vs), com, FINAL))
    ensures r.Success? ==> var b := r.value.base.value;
      b.rect == FootprintRect(BaseVertices(vs)) &&
      b.center.x + b.offsetX == com.x && b.center.z + b.offsetZ == com.z &&
      Contains(b.rect, b.center.x, b.center.z) &&
      (b.withinX <==> Abs(b.offsetX) <= (b.rect.xMax - b.rect.xMin) / 2.0) &&
      (b.withinZ <==> Abs(b.offsetZ) <= (b.rect.zMax - b.rect.zMin) / 2.0) &&
      (b.xLabel == Right <==> b.offsetX > 0.0) && (b.xLabel == Left <==> b.offsetX <= 0.0) &&
      (b.zLabel == Forward <==> b.offsetZ > 0.0) && (b.zLabel == Backward <==> b.offsetZ <= 0.0) &&
      b.front.Some? && b.front.value.edgeZ == b.rect.zMax &&
      com.z + b.front.value.distance == b.rect.zMax &&
      (b.front.value.over <==> b.front.value.distance < 0.0) &&
      (b.front.value.over ==> !b.withinZ && b.offsetZ > 0.0 && b.zLabel == Forward)
  {
    Analyze(vs, com, FINAL)
  }

  /** The slice is used for the outline only when it has more than this many vertices. */
  const MIN_SLICE_VERTICES: nat := 10
  const OUTLINE_RESOLUTION: nat := 25
  const OUTLINE_WINDOW: nat := 7

  /** `slice_vertices if len(slice_vertices) > 10 else base_vertices` */
  function OutlineVertices(vs: seq<Vec3>): (o: seq<Vec3>)
    requires |vs| > 0
    ensures |o| > 0
    ensures |SliceVertices(vs)| > MIN_SLICE_VERTICES ==> o == SliceVertices(vs)
    ensures |SliceVertices(vs)| <= MIN_SLICE_VERTICES ==> o == BaseVertices(vs)
    ensures forall v :: v in o ==> v in vs && v.y < BaseY(vs) + SLICE_HEIGHT + SLICE_TOLERANCE
  {
    var sl := SliceVertices(vs);
    if |sl| > MIN_SLICE_VERTICES then sl else BaseVertices(vs)
  }

  /** The centres of the boundary cells of the 25-cell grid over the outline vertices. */
  function OutlineBoundary(vs: seq<Vec3>): (b: seq<Point2>)
    requires |vs| > 0
  {
    var pts := TopView(OutlineVertices(vs));
    var g := MakeGrid(pts, OUTLINE_RESOLUTION);
    BoundaryCellsOnGrid(pts, g);
    Centres(g, BoundaryCells(pts, g))
  }

  /**
   * The boundary points and the outline polygon made from them: ordered,
   * smoothed with a window of 7, and closed by repeating the first point.
   * No boundary points, no polygon.
   */
  method BaseOutline(vs: seq<Vec3>) returns (boundary: seq<Point2>, ordered: seq<Point2>, smoothed: seq<Point2>, outline: seq<Point2>)
    requires |vs| > 0
    ensures boundary == OutlineBoundary(vs)
    ensures |boundary| == 0 ==> ordered == [] && smoothed == [] && outline == []
    ensures |boundary| > 0 ==>
      GreedyOrdering(boundary, ordered) && Smoothing(ordered, smoothed, OUTLINE_WINDOW) &&
      outline == CloseLoop(smoothed)
    ensures |boundary| > 0 ==>
      |outline| == |boundary| + 1 && outline[0] == outline[|outline| - 1] &&
      forall i :: 0 <= i < |outline| ==> Contains(BoundingRect(boundary), outline[i].x, outline[i].z)
  {
    boundary := BoundaryOf(vs);
    ordered, smoothed, outline := OutlineFrom(boundary);
  }

  /** The ordered, smoothed and closed polygon of `visualize_moai_final`, drawn only when there are boundary points. */
  method OutlineFrom(boundary: seq<Point2>) returns (ordered: seq<Point2>, smoothed: seq<Point2>, outline: seq<Point2>)
    ensures |boundary| == 0 ==> ordered == [] && smoothed == [] && outline == []
    ensures |boundary| > 0 ==>
      GreedyOrdering(boundary, ordered) && Smoothing(ordered, smoothed, OUTLINE_WINDOW) &&
      outline == CloseLoop(smoothed)
    ensures |boundary| > 0 ==>
      |outline| == |boundary| + 1 && outline[0] == outline[|outline| - 1] &&
      forall i :: 0 <= i < |outline| ==> Contains(BoundingRect(boundary), outline[i].x, outline[i].z)
  {
    if |boundary| > 0 {
      ordered, smoothed := OrderAndSmooth(boundary);
      outline := CloseLoop(smoothed);
    } else {
      ordered, smoothed, outline := [], [], [];
    }
  }

  /** `find_boundary_points(points_2d, resolution=25)` on the outline vertices. */
  method BoundaryOf(vs: seq<Vec3>) returns (boundary: seq<Point2>)
    requires |vs| > 0
    ensures boundary == OutlineBoundary(vs)
  {
    var pts := TopView(OutlineVertices(vs));
    boundary := FindBoundaryPoints(pts, OUTLINE_RESOLUTION);
  }

  /** `order_boundary_points` followed by `smooth_boundary(..., window_size=7)`. */
  method OrderAndSmooth(boundary: seq<Point2>) returns (ordered: seq<Point2>, smoothed: seq<Point2>)
    requires |boundary| > 0
    ensures GreedyOrdering(boundary, ordered)
    ensures Smoothing(ordered, smoothed, OUTLINE_WINDOW)
    ensures |smoothed| == |boundary|
    ensures forall i :: 0 <= i < |smoothed| ==>
      Contains(BoundingRect(boundary), smoothed[i].x, smoothed[i].z)
  {
    ordered := OrderBoundaryPoints(boundary);
    smoothed := SmoothBoundary(ordered, OUTLINE_WINDOW);
    SmoothedInsideBoundary(boundary, ordered, smoothed);
  }

  /** `np.vstack([s, s[0]])`: the polygon closed by repeating its first point. */
  function CloseLoop(s: seq<Point2>): (c: seq<Point2>)
    requires |s| > 0
    ensures |c| == |s| + 1 && c[|s|] == s[0]
    ensures forall i :: 0 <= i < |s| ==> c[i] == s[i]
  {
    s + [s[0]]
  }

  /** Ordering and then smoothing keeps every point inside the boundary's bounding rectangle. */
  lemma SmoothedInsideBoundary(boundary: seq<Point2>, ordered: seq<Point2>, smoothed: seq<Point2>)
    requires |boundary| > 0 && multiset(ordered) == multiset(boundary) && |smoothed| == |ordered|
    requires |ordered| < OUTLINE_WINDOW ==> smoothed == ordered
    requires |ordered| >= OUTLINE_WINDOW ==> forall i :: 0 <= i < |ordered| ==>
      smoothed[i] == Mean(CyclicWindow(ordered, i - (OUTLINE_WINDOW + 1) / 2, OUTLINE_WINDOW))
    ensures forall i :: 0 <= i < |smoothed| ==>
      Contains(BoundingRect(boundary), smoothed[i].x, smoothed[i].z)
  {
    SameRectForPermutation(boundary, ordered);
    if |ordered| >= OUTLINE_WINDOW {
      WindowsInside(ordered, smoothed);
    }
  }

  /** Every smoothed point is a window mean, so it lies in the rectangle of the points smoothed. */
  lemma WindowsInside(ordered: seq<Point2>, smoothed: seq<Point2>)
    requires |ordered| >= OUTLINE_WINDOW && |smoothed| == |ordered|
    requires forall i :: 0 <= i < |ordered| ==>
      smoothed[i] == Mean(CyclicWindow(ordered, i - (OUTLINE_WINDOW + 1) / 2, OUTLINE_WINDOW))
    ensures forall i :: 0 <= i < |smoothed| ==>
      Contains(BoundingRect(ordered), smoothed[i].x, smoothed[i].z)
  {
    forall i | 0 <= i < |smoothed|
      ensures Contains(BoundingRect(ordered), smoothed[i].x, smoothed[i].z)
    {
      WindowMeanInside(ordered, smoothed[i], i);
    }
  }

  lemma WindowMeanInside(ordered: seq<Point2>, p: Point2, i: int)
    requires |ordered| >= OUTLINE_WINDOW
    requires p == Mean(CyclicWindow(ordered, i - (OUTLINE_WINDOW + 1) / 2, OUTLINE_WINDOW))
    ensures Contains(BoundingRect(ordered), p.x, p.z)
  {
    SmoothedStaysInside(ordered, OUTLINE_WINDOW, i);
  }
}
