/**
 * The base-footprint analysis that every analyzer script repeats inside its
 * `load_and_analyze_moai`: height of the centre of mass above the lowest
 * vertex, the footprint (vertices less than 5 cm above the base), its
 * bounding rectangle and midpoint, the containment tests, the offsets of the
 * centre of mass from the midpoint and their direction labels, and, in the
 * scripts that have it, the distance to the front edge.
 *
 * The scripts disagree on which way is "front"; the per-script label choice
 * is the `Convention` parameter, so each script's module instantiates it.
 */
module BaseAnalysis {
  import opened Outcomes
  import opened Geometry

  /** `base_threshold = base_y + 0.05` */
  const BASE_MARGIN: real := 0.05

  /** `trimesh` reports no bounds for a mesh without vertices. */
  datatype AnalysisError = EmptyMesh

  /** `base_y = bounds[0][1]`: the minimum height of the mesh. */
  function BaseY(vs: seq<Vec3>): (y: real)
    requires |vs| > 0
    ensures forall i :: 0 <= i < |vs| ==> y <= vs[i].y
    ensures exists i :: 0 <= i < |vs| && vs[i].y == y
  {
    Bounds(vs).lo.y
  }

  /** `mesh.vertices[mesh.vertices[:, 1] < base_y + 0.05]` */
  function BaseVertices(vs: seq<Vec3>): (fp: seq<Vec3>)
    requires |vs| > 0
    ensures forall v :: v in fp <==> v in vs && v.y < BaseY(vs) + BASE_MARGIN
    ensures exists v :: v in fp && v.y == BaseY(vs)
    ensures |fp| > 0
  {
    assert forall i :: 0 <= i < |vs| ==> vs[i] in vs;
    Select(vs, Below(BaseY(vs) + BASE_MARGIN))
  }

  /** The height analysis printed by every script. */
  datatype Heights = Heights(
    baseY: real,
    heightFromBase: real,
    totalHeight: real,
    /** `(height_from_base / total_height) * 100`; numpy yields inf or nan on a flat mesh. */
    percentage: Option<real>)

  function HeightAnalysis(b: Box, com: Vec3): (h: Heights)
    ensures h.baseY == b.lo.y
    ensures h.baseY + h.heightFromBase == com.y
    ensures h.baseY + h.totalHeight == b.hi.y
    ensures h.percentage.None? <==> b.lo.y == b.hi.y
    ensures h.percentage.Some? ==> h.percentage.value * h.totalHeight == 100.0 * h.heightFromBase
    ensures b.lo.y < b.hi.y && b.lo.y <= com.y <= b.hi.y ==>
      h.percentage.Some? && 0.0 <= h.percentage.value <= 100.0
  {
    var hfb, th := com.y - b.lo.y, b.hi.y - b.lo.y;
    var pct := if th == 0.0 then None else Some((hfb / th) * 100.0);
    if th > 0.0 && 0.0 <= hfb <= th then
      assert hfb / th <= 1.0 by { assert hfb / th * th == hfb; }
      Heights(b.lo.y, hfb, th, pct)
    else
      Heights(b.lo.y, hfb, th, pct)
  }

  /** The words the scripts print for the sign of an offset. */
  datatype Side = Left | Right | Forward | Backward

  /**
   * A script's reading of the offsets: the label for a positive X (resp. Z)
   * offset and the label for a zero or negative one, and whether the script
   * also treats the maximum-Z edge of the footprint as the front edge.
   */
  datatype Convention = Convention(
    xPositive: Side,
    xOtherwise: Side,
    zPositive: Side,
    zOtherwise: Side,
    frontAtMaxZ: bool)

  /** `front_edge_z`, `distance_to_front` and the over/behind verdict. */
  datatype FrontEdge = FrontEdge(edgeZ: real, distance: real, over: bool)

  /** Everything computed inside `if len(base_vertices) > 0:`. */
  datatype BaseReport = BaseReport(
    rect: Rect,
    withinX: bool,
    withinZ: bool,
    center: Point2,
    offsetX: real,
    offsetZ: real,
    xLabel: Side,
    zLabel: Side,
    front: Option<FrontEdge>)

  /** The footprint rectangle `(base_x_min, base_x_max, base_z_min, base_z_max)`. */
  function FootprintRect(fp: seq<Vec3>): (r: Rect)
    requires |fp| > 0
    ensures r.xMin <= r.xMax && r.zMin <= r.zMax
    ensures forall i :: 0 <= i < |fp| ==> Contains(r, fp[i].x, fp[i].z)
    ensures exists i :: 0 <= i < |fp| && fp[i].x == r.xMin
    ensures exists i :: 0 <= i < |fp| && fp[i].x == r.xMax
    ensures exists i :: 0 <= i < |fp| && fp[i].z == r.zMin
    ensures exists i :: 0 <= i < |fp| && fp[i].z == r.zMax
  {
    var ps := TopView(fp);
    var r := BoundingRect(ps);
    assert forall i :: 0 <= i < |fp| ==> ps[i].x == fp[i].x && ps[i].z == fp[i].z;
    r
  }

  function Label(offset: real, positive: Side, otherwise: Side): Side {
    if offset > 0.0 then positive else otherwise
  }

  function AnalyzeBase(fp: seq<Vec3>, com: Vec3, conv: Convention): (r: BaseReport)
    requires |fp| > 0
    ensures r.rect == FootprintRect(fp)
    ensures Contains(r.rect, r.center.x, r.center.z)
    ensures r.center.x - r.rect.xMin == r.rect.xMax - r.center.x
    ensures r.center.z - r.rect.zMin == r.rect.zMax - r.center.z
    ensures r.center.x + r.offsetX == com.x && r.center.z + r.offsetZ == com.z
    ensures r.withinX <==> r.rect.xMin <= com.x <= r.rect.xMax
    ensures r.withinZ <==> r.rect.zMin <= com.z <= r.rect.zMax
    ensures r.withinX <==> Abs(r.offsetX) <= (r.rect.xMax - r.rect.xMin) / 2.0
    ensures r.withinZ <==> Abs(r.offsetZ) <= (r.rect.zMax - r.rect.zMin) / 2.0
    ensures r.xLabel == (if com.x > r.center.x then conv.xPositive else conv.xOtherwise)
    ensures r.zLabel == (if com.z > r.center.z then conv.zPositive else conv.zOtherwise)
    ensures r.front.Some? <==> conv.frontAtMaxZ
    ensures r.front.Some? ==> r.front.value.edgeZ == r.rect.zMax
    ensures r.front.Some? ==> r.front.value.edgeZ == com.z + r.front.value.distance
    ensures r.front.Some? ==> (r.front.value.over <==> com.z > r.rect.zMax)
    ensures r.front.Some? && r.front.value.over ==>
      !r.withinZ && r.offsetZ > 0.0 && r.zLabel == conv.zPositive
  {
    var rect := FootprintRect(fp);
    var withinX := rect.xMin <= com.x <= rect.xMax;
    var withinZ := rect.zMin <= com.z <= rect.zMax;
    var c := Midpoint(rect);
    var offsetX, offsetZ := com.x - c.x, com.z - c.z;
    var front :=
      if conv.frontAtMaxZ then
        var distance := rect.zMax - com.z;
        Some(FrontEdge(rect.zMax, distance, distance < 0.0))
      else None;
    BaseReport(rect, withinX, withinZ, c, offsetX, offsetZ,
      Label(offsetX, conv.xPositive, conv.xOtherwise),
      Label(offsetZ, conv.zPositive, conv.zOtherwise),
      front)
  }

  /** The convention only chooses words: every measured quantity is the same under any two conventions. */
  lemma ConventionOnlyNamesSides(fp: seq<Vec3>, com: Vec3, c1: Convention, c2: Convention)
    requires |fp| > 0
    ensures var r1, r2 := AnalyzeBase(fp, com, c1), AnalyzeBase(fp, com, c2);
      r1.rect == r2.rect && r1.center == r2.center &&
      r1.offsetX == r2.offsetX && r1.offsetZ == r2.offsetZ &&
      r1.withinX == r2.withinX && r1.withinZ == r2.withinZ
  {
  }

  datatype Report = Report(bounds: Box, heights: Heights, base: Option<BaseReport>)

  /** `load_and_analyze_moai` with the mesh loading and `center_mass` replaced by inputs. */
  function Analyze(vs: seq<Vec3>, com: Vec3, conv: Convention): (r: Result<Report, AnalysisError>)
    ensures r.Failure? <==> |vs| == 0
    ensures r.Success? ==> r.value.bounds == Bounds(vs)
    ensures r.Success? ==> r.value.heights.baseY == BaseY(vs)
    ensures r.Success? ==> r.value.heights == HeightAnalysis(Bounds(vs), com)
    ensures r.Success? ==> r.value.base == Some(AnalyzeBase(BaseVertices(vs), com, conv))
  {
    if |vs| == 0 then Failure(EmptyMesh)
    else
      var b := Bounds(vs);
      var fp := BaseVertices(vs);
      Success(Report(b, HeightAnalysis(b, com), if |fp| > 0 then Some(AnalyzeBase(fp, com, conv)) else None))
  }

  /** Slice 10 cm above the base with a 1 cm tolerance: `base_y + 0.10 ∓ 0.01`. */
  const SLICE_HEIGHT: real := 0.10
  const SLICE_TOLERANCE: real := 0.01

  function SliceVertices(vs: seq<Vec3>): (sl: seq<Vec3>)
    requires |vs| > 0
    ensures forall v :: v in sl <==>
      v in vs && BaseY(vs) + 0.09 < v.y && v.y < BaseY(vs) + 0.11
    ensures forall v :: v in sl ==> v !in BaseVertices(vs)
  {
    var y := BaseY(vs) + SLICE_HEIGHT;
    Select(vs, Between(y - SLICE_TOLERANCE, y + SLICE_TOLERANCE))
  }

  /**
   * A matplotlib `Rectangle((x_min, z_min), x_max - x_min, z_max - z_min)`
   * patch: its lower-left corner, width and height.
   */
  datatype Patch = Patch(corner: Point2, width: real, height: real)

  function RectPatch(r: Rect): (p: Patch)
    ensures r.xMin <= r.xMax && r.zMin <= r.zMax ==> p.width >= 0.0 && p.height >= 0.0
    ensures p.corner.x == r.xMin && p.corner.x + p.width == r.xMax
    ensures p.corner.z == r.zMin && p.corner.z + p.height == r.zMax
  {
    Patch(Point2(r.xMin, r.zMin), r.xMax - r.xMin, r.zMax - r.zMin)
  }

  /**
   * The top view the plotting functions redraw: they filter the footprint
   * again, take its rectangle and mark its midpoint as the base centre.
   */
  datatype TopViewMarks = TopViewMarks(patch: Patch, center: Point2)

  function FootprintMarks(vs: seq<Vec3>): (m: Option<TopViewMarks>)
    ensures |vs| > 0 ==> m.Some?
    ensures m.Some? ==> |vs| > 0 && m.value.patch.width >= 0.0 && m.value.patch.height >= 0.0
    ensures m.Some? ==> forall v :: v in BaseVertices(vs) ==>
      m.value.patch.corner.x <= v.x <= m.value.patch.corner.x + m.value.patch.width &&
      m.value.patch.corner.z <= v.z <= m.value.patch.corner.z + m.value.patch.height
  {
    if |vs| == 0 then None
    else
      var fp := BaseVertices(vs);
      if |fp| > 0 then
        var r := FootprintRect(fp);
        assert forall v :: v in fp ==> Contains(r, v.x, v.z);
        Some(TopViewMarks(RectPatch(r), Midpoint(r)))
      else None
  }

  /** The plotting marks agree with the analysis: same rectangle, same base centre. */
  lemma FootprintMarksMatchAnalysis(vs: seq<Vec3>, com: Vec3, conv: Convention)
    requires |vs| > 0
    ensures Analyze(vs, com, conv).Success?
    ensures var b := Analyze(vs, com, conv).value.base.value;
      FootprintMarks(vs) == Some(TopViewMarks(RectPatch(b.rect), b.center))
  {
  }
}
