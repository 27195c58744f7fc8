/**
 * `moai_analyzer_plotly_simple.py`: a `load_and_analyze_moai` that stops
 * after the height analysis, and the height colouring of the mesh in
 * `create_simple_plotly_visualization`. Its lean angle, base centre and
 * annotation lengths are those of `MeshMeasures`.
 */
module PlotlySimpleAnalyzer {
  import opened Outcomes
  import opened Geometry
  import opened BaseAnalysis

  /** 7.35 m of statue over 1.502 mesh units. */
  const SCALE_FACTOR: real := 4.894

  datatype HeightReport = HeightReport(bounds: Box, heights: Heights)

  function LoadAndAnalyzeMoai(vs: seq<Vec3>, com: Vec3): (r: Result<HeightReport, AnalysisError>)
    ensures r.Failure? <==> |vs| == 0
    ensures r.Success? ==> r.value.bounds == Bounds(vs)
    ensures r.Success? ==> r.value.heights == HeightAnalysis(Bounds(vs), com)
    ensures r.Success? ==> var h := r.value.heights;
      h.baseY == BaseY(vs) && h.baseY + h.heightFromBase == com.y &&
      (h.percentage.None? <==> Bounds(vs).lo.y == Bounds(vs).hi.y) &&
      (Bounds(vs).lo.y < Bounds(vs).hi.y && Bounds(vs).lo.y <= com.y <= Bounds(vs).hi.y ==>
        h.percentage.Some? && 0.0 <= h.percentage.value <= 100.0)
  {
    if |vs| == 0 then Failure(EmptyMesh)
    else
      var b := Bounds(vs);
      Success(HeightReport(b, HeightAnalysis(b, com)))
  }

  /**
   * `(y - y.min()) / (y.max() - y.min())` for every vertex. An empty mesh
   * has no minimum (numpy raises) and a flat one divides by zero (numpy
   * yields nan); both give no colours here.
   */
  function VertexColors(vs: seq<Vec3>): (c: Option<seq<real>>)
    ensures c.Some? <==> |vs| > 0 && Bounds(vs).lo.y < Bounds(vs).hi.y
    ensures c.Some? ==> |c.value| == |vs|
    ensures c.Some? ==> forall i :: 0 <= i < |vs| ==> 0.0 <= c.value[i] <= 1.0
    ensures c.Some? ==> forall i, j :: 0 <= i < |vs| && 0 <= j < |vs| && vs[i].y <= vs[j].y ==>
      c.value[i] <= c.value[j]
    ensures c.Some? ==>
      (exists i :: 0 <= i < |vs| && c.value[i] == 0.0) && (exists i :: 0 <= i < |vs| && c.value[i] == 1.0)
  {
    if |vs| == 0 then None
    else
      var lo, hi := Bounds(vs).lo.y, Bounds(vs).hi.y;
      if lo == hi then None
      else
        var c := Rescaled(vs, lo, hi);
        RescaledInUnitRange(vs, lo, hi);
        RescaledMonotone(vs, lo, hi);
        var i0 :| 0 <= i0 < |vs| && vs[i0].y == lo;
        var i1 :| 0 <= i1 < |vs| && vs[i1].y == hi;
        RescaledEnds(vs, lo, hi, i0, i1);
        Some(c)
  }

  function Rescaled(vs: seq<Vec3>, lo: real, hi: real): (c: seq<real>)
    requires lo < hi
    ensures |c| == |vs| && forall i :: 0 <= i < |vs| ==> c[i] == (vs[i].y - lo) / (hi - lo)
  {
    seq(|vs|, i requires 0 <= i < |vs| => (vs[i].y - lo) / (hi - lo))
  }

  lemma RescaledInUnitRange(vs: seq<Vec3>, lo: real, hi: real)
    requires lo < hi && forall i :: 0 <= i < |vs| ==> lo <= vs[i].y <= hi
    ensures forall i :: 0 <= i < |vs| ==> 0.0 <= Rescaled(vs, lo, hi)[i] <= 1.0
  {
    var c := Rescaled(vs, lo, hi);
    forall i | 0 <= i < |vs|
      ensures 0.0 <= c[i] <= 1.0
    {
      assert c[i] == (vs[i].y - lo) / (hi - lo);
      RatioInUnit(vs[i].y - lo, hi - lo);
    }
  }

  lemma RescaledMonotone(vs: seq<Vec3>, lo: real, hi: real)
    requires lo < hi
    ensures forall i, j :: 0 <= i < |vs| && 0 <= j < |vs| && vs[i].y <= vs[j].y ==>
      Rescaled(vs, lo, hi)[i] <= Rescaled(vs, lo, hi)[j]
  {
    forall i, j | 0 <= i < |vs| && 0 <= j < |vs| && vs[i].y <= vs[j].y
      ensures Rescaled(vs, lo, hi)[i] <= Rescaled(vs, lo, hi)[j]
    {
      RatioMonotone(vs[i].y - lo, vs[j].y - lo, hi - lo);
    }
  }

  lemma RescaledEnds(vs: seq<Vec3>, lo: real, hi: real, i0: nat, i1: nat)
    requires lo < hi && i0 < |vs| && i1 < |vs| && vs[i0].y == lo && vs[i1].y == hi
    ensures Rescaled(vs, lo, hi)[i0] == 0.0 && Rescaled(vs, lo, hi)[i1] == 1.0
  {
    var c := Rescaled(vs, lo, hi);
    assert c[i0] == 0.0 / (hi - lo) && c[i1] == (hi - lo) / (hi - lo);
    RatioEnds(hi - lo);
  }

  lemma RatioInUnit(a: real, d: real)
    requires 0.0 <= a <= d && d > 0.0
    ensures 0.0 <= a / d <= 1.0
  {
    RatioMonotone(0.0, a, d);
    RatioMonotone(a, d, d);
    RatioEnds(d);
  }

  lemma RatioEnds(d: real)
    requires d > 0.0
    ensures 0.0 / d == 0.0 && d / d == 1.0
  {
  }

  lemma RatioMonotone(a: real, b: real, d: real)
    requires a <= b && d > 0.0
    ensures a / d <= b / d
  {
    var qa, qb := a / d, b / d;
    assert qa * d == a && qb * d == b;
    assert Mul(qa - qb, d) == a - b;
    if qa > qb {
      MulPos(qa - qb, d);
    }
  }
}
