/**
 * `moai_analyzer_corrected.py`: `load_and_analyze_moai` with the front at
 * maximum Z. Offsets read "right" for +X (seen from the front) and
 * "forward" for +Z; a zero offset takes the else-branch labels.
 */
module CorrectedAnalyzer {
  import opened Outcomes
  import opened Geometry
  import opened BaseAnalysis

  const CORRECTED: Convention := Convention(Right, Left, Forward, Backward, true)

  function LoadAndAnalyzeMoai(vs: seq<Vec3>, com: Vec3): (r: Result<Report, AnalysisError>)
    ensures r.Failure? <==> |vs| == 0
    ensures r.Success? ==> r.value.base.Some?
    ensures r.Success? ==> r.value.bounds == Bounds(vs) && r.value.heights == HeightAnalysis(Bounds(vs), com)
    ensures r.Success? ==> r.value.base == Some(AnalyzeBase(BaseVertices(vs), com, CORRECTED))
    ensures r.Success? ==> var b := r.value.base.value;
      b.rect == FootprintRect(BaseVertices(vs)) &&
      b.center.x + b.offsetX == com.x && b.center.z + b.offsetZ == com.z &&
      (b.withinX <==> b.rect.xMin <= com.x <= b.rect.xMax) &&
      (b.withinZ <==> b.rect.zMin <= com.z <= b.rect.zMax) &&
      Contains(b.rect, b.center.x, b.center.z) &&
      (b.withinX <==> Abs(b.offsetX) <= (b.rect.xMax - b.rect.xMin) / 2.0) &&
      (b.withinZ <==> Abs(b.offsetZ) <= (b.rect.zMax - b.rect.zMin) / 2.0) &&
      (b.offsetX == 0.0 ==> b.xLabel == Left) && (b.offsetZ == 0.0 ==> b.zLabel == Backward) &&
      (b.xLabel == Right <==> b.offsetX > 0.0) && (b.zLabel == Forward <==> b.offsetZ > 0.0) &&
      b.front.Some? && b.front.value.edgeZ == b.rect.zMax &&
      com.z + b.front.value.distance == b.rect.zMax &&
      (b.front.value.over ==> b.offsetZ > 0.0 && b.zLabel == Forward)
  {
    Analyze(vs, com, CORRECTED)
  }
}
