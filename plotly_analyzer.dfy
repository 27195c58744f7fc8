/**
 * `moai_analyzer_plotly.py`: the base drawn in the top view of
 * `create_plotly_visualization`. The footprint's bounds are always taken;
 * with more than 10 slice vertices the outline is their convex hull
 * smoothed by a spline, and if the hull cannot be built the slice's own
 * bounds replace the footprint's and are drawn as a rectangle. With 10 or
 * fewer slice vertices the footprint's bounds are drawn as a rectangle.
 * The base centre is the midpoint of whichever bounds were taken last.
 */
module PlotlyAnalyzer {
  import opened Outcomes
  import opened Geometry
  import opened BaseAnalysis

  /**
   * `x=[x_min, x_max, x_max, x_min, x_min], y=[z_min, z_min, z_max, z_max, z_min]`:
   * the rectangle traced corner to corner and closed.
   */
  function RectOutline(r: Rect): (o: seq<Point2>)
    ensures |o| == 5 && o[0] == o[4]
    ensures forall i :: 0 <= i < 5 ==>
      (o[i].x == r.xMin || o[i].x == r.xMax) && (o[i].z == r.zMin || o[i].z == r.zMax)
    ensures forall i :: 0 <= i < 4 ==> o[i].x == o[i + 1].x || o[i].z == o[i + 1].z
    ensures Point2(r.xMin, r.zMin) in o && Point2(r.xMax, r.zMin) in o &&
      Point2(r.xMax, r.zMax) in o && Point2(r.xMin, r.zMax) in o
  {
    [Point2(r.xMin, r.zMin), Point2(r.xMax, r.zMin), Point2(r.xMax, r.zMax),
     Point2(r.xMin, r.zMax), Point2(r.xMin, r.zMin)]
  }

  /**
   * The bounds the top view keeps, the rectangle drawn from them when no
   * hull outline is drawn, and the base-centre marker.
   */
  datatype TopViewBase = TopViewBase(bounds: Rect, rectangle: Option<seq<Point2>>, center: Point2)

  /** 10 slice vertices or fewer: no hull is attempted. */
  const MIN_HULL_VERTICES: nat := 10

  /**
   * `hullFails` stands for `ConvexHull` raising on the slice, which
   * happens for degenerate point sets; the decision is an input here.
   */
  function PlotlyTopView(vs: seq<Vec3>, hullFails: bool): (t: Option<TopViewBase>)
    ensures t.Some? <==> |vs| > 0
    ensures t.Some? ==> var v := t.value;
      var fallback := |SliceVertices(vs)| > MIN_HULL_VERTICES && hullFails;
      v.bounds.xMin <= v.bounds.xMax && v.bounds.zMin <= v.bounds.zMax &&
      (fallback ==> v.bounds == FootprintRect(SliceVertices(vs))) &&
      (!fallback ==> v.bounds == FootprintRect(BaseVertices(vs))) &&
      (v.rectangle.Some? <==> |SliceVertices(vs)| <= MIN_HULL_VERTICES || hullFails) &&
      (v.rectangle.Some? ==> v.rectangle.value == RectOutline(v.bounds)) &&
      Contains(v.bounds, v.center.x, v.center.z) &&
      v.center.x - v.bounds.xMin == v.bounds.xMax - v.center.x &&
      v.center.z - v.bounds.zMin == v.bounds.zMax - v.center.z
  {
    if |vs| == 0 then None
    else
      var fp, sl := BaseVertices(vs), SliceVertices(vs);
      var bounds :=
        if |sl| > MIN_HULL_VERTICES && hullFails then FootprintRect(sl) else FootprintRect(fp);
      var rectangle :=
        if |sl| <= MIN_HULL_VERTICES || hullFails then Some(RectOutline(bounds)) else None;
      Some(TopViewBase(bounds, rectangle, Midpoint(bounds)))
  }

  /**
   * Unless the hull fails on a slice large enough to try it, the plotted
   * bounds and base centre are the ones the printed analysis measures the
   * offsets from.
   */
  lemma TopViewCentreMatchesAnalysis(vs: seq<Vec3>, com: Vec3, conv: Convention, hullFails: bool)
    requires |vs| > 0
    requires !(|SliceVertices(vs)| > MIN_HULL_VERTICES && hullFails)
    ensures var t := PlotlyTopView(vs, hullFails).value;
      var b := Analyze(vs, com, conv).value.base.value;
      t.bounds == b.rect && t.center == b.center
  {
  }
}
