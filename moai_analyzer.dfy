/**
 * `moai_analyzer.py`: `load_and_analyze_moai` reading +X as "forward" and
 * +Z as "right", with no front-edge analysis. `moai_analyzer_enhanced.py`,
 * `moai_analyzer_headless.py` and `moai_analyzer_plotly.py` print the same
 * analysis with the same labels, so this one function stands for all four.
 */
module MoaiAnalyzer {
  import opened Outcomes
  import opened Geometry
  import opened BaseAnalysis
  import FinalAnalyzer

  const X_FORWARD: Convention := Convention(Forward, Backward, Right, Left, false)

  function LoadAndAnalyzeMoai(vs: seq<Vec3>, com: Vec3): (r: Result<Report, AnalysisError>)
    ensures r.Failure? <==> |vs| == 0
    ensures r.Success? ==> r.value.heights.baseY == BaseY(vs) && r.value.base.Some?
    ensures r.Success? ==> r.value.bounds == Bounds(vs) && r.value.heights == HeightAnalysis(Bounds(vs), com)
    ensures r.Success? ==> r.value.base == Some(AnalyzeBase(BaseVertices(vs), com, X_FORWARD))
    ensures r.Success? ==> var b := r.value.base.value;
      b.rect == FootprintRect(BaseVertices(vs)) &&
      b.center.x + b.offsetX == com.x && b.center.z + b.offsetZ == com.z &&
      (b.withinX <==> b.rect.xMin <= com.x <= b.rect.xMax) &&
      (b.withinZ <==> b.rect.zMin <= com.z <= b.rect.zMax) &&
      Contains(b.rect, b.center.x, b.center.z) &&
      (b.withinX <==> Abs(b.offsetX) <= (b.rect.xMax - b.rect.xMin) / 2.0) &&
      (b.withinZ <==> Abs(b.offsetZ) <= (b.rect.zMax - b.rect.zMin) / 2.0) &&
      (b.xLabel == Forward <==> b.offsetX > 0.0) && (b.xLabel == Backward <==> b.offsetX <= 0.0) &&
      (b.zLabel == Right <==> b.offsetZ > 0.0) && (b.zLabel == Left <==> b.offsetZ <= 0.0) &&
      b.front.None?
  {
    Analyze(vs, com, X_FORWARD)
  }

  /**
   * This script and `moai_analyzer_final.py` measure the same footprint,
   * centre and offsets; they differ only in the words: what one calls
   * forward along X the other calls right, and what one calls right along
   * Z the other calls forward, and only the final script has a front edge.
   */
  lemma SameMeasuresAsFinal(vs: seq<Vec3>, com: Vec3)
    requires |vs| > 0
    ensures var a, f := LoadAndAnalyzeMoai(vs, com), FinalAnalyzer.LoadAndAnalyzeMoai(vs, com);
      a.Success? && f.Success? && a.value.bounds == f.value.bounds &&
      a.value.heights == f.value.heights &&
      var ab, fb := a.value.base.value, f.value.base.value;
      ab.rect == fb.rect && ab.center == fb.center &&
      ab.offsetX == fb.offsetX && ab.offsetZ == fb.offsetZ &&
      ab.withinX == fb.withinX && ab.withinZ == fb.withinZ &&
      (ab.xLabel == Forward <==> fb.xLabel == Right) &&
      (ab.zLabel == Right <==> fb.zLabel == Forward)
  {
    var fp := BaseVertices(vs);
    assert LoadAndAnalyzeMoai(vs, com).value.base == Some(AnalyzeBase(fp, com, X_FORWARD));
    assert FinalAnalyzer.LoadAndAnalyzeMoai(vs, com).value.base == Some(AnalyzeBase(fp, com, FinalAnalyzer.FINAL));
    ConventionOnlyNamesSides(fp, com, X_FORWARD, FinalAnalyzer.FINAL);
  }
}
