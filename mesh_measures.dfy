/**
 * The quantities the plotting functions take from the mesh's bounding box
 * rather than from the footprint: the box's centre in the top view, the
 * forward-lean angle of the centre of mass seen from that centre, and the
 * lengths printed in the annotations, multiplied by the scale factor.
 *
 * `moai_analyzer_plotly.py`, `moai_analyzer_plotly_simple.py` and
 * `moai_analyzer_final.py` each repeat these lines; they are modelled once.
 */
module MeshMeasures {
  import opened Outcomes
  import opened Geometry
  import opened BaseAnalysis
  import opened LeanAngle

  /** The top view of the bounding box. */
  function BoxRect(b: Box): (r: Rect)
    ensures r.xMin == b.lo.x && r.xMax == b.hi.x && r.zMin == b.lo.z && r.zMax == b.hi.z
  {
    Rect(b.lo.x, b.hi.x, b.lo.z, b.hi.z)
  }

  /** `((bounds[0][0] + bounds[1][0]) / 2, (bounds[0][2] + bounds[1][2]) / 2)` */
  function MeshCenter(b: Box): (c: Point2)
    ensures b.lo.x <= b.hi.x && b.lo.z <= b.hi.z ==> Contains(BoxRect(b), c.x, c.z)
    ensures c.x - b.lo.x == b.hi.x - c.x && c.z - b.lo.z == b.hi.z - c.z
  {
    Midpoint(BoxRect(b))
  }

  /** The footprint rectangle lies inside the top view of the mesh's box. */
  lemma FootprintInsideMeshBox(vs: seq<Vec3>)
    requires |vs| > 0
    ensures var f, r := FootprintRect(BaseVertices(vs)), BoxRect(Bounds(vs));
      r.xMin <= f.xMin && f.xMax <= r.xMax && r.zMin <= f.zMin && f.zMax <= r.zMax
  {
    var fp := BaseVertices(vs);
    var f, b := FootprintRect(fp), Bounds(vs);
    forall v | v in fp
      ensures b.lo.x <= v.x <= b.hi.x && b.lo.z <= v.z <= b.hi.z
    {
      var i :| 0 <= i < |vs| && vs[i] == v;
    }
    var i0 :| 0 <= i0 < |fp| && fp[i0].x == f.xMin;
    var i1 :| 0 <= i1 < |fp| && fp[i1].x == f.xMax;
    var i2 :| 0 <= i2 < |fp| && fp[i2].z == f.zMin;
    var i3 :| 0 <= i3 < |fp| && fp[i3].z == f.zMax;
    assert fp[i0] in fp && fp[i1] in fp && fp[i2] in fp && fp[i3] in fp;
  }

  /**
   * `np.degrees(np.arctan2(abs(z_offset), y_offset))`, with the Z offset
   * taken from the box centre and the Y offset from the base of the box.
   */
  function MeshLean(b: Box, com: Vec3, m: MathLib): real {
    m.atan2Deg(Abs(com.z - MeshCenter(b).z), com.y - b.lo.y)
  }

  /** A centre of mass above the base never gives a negative lean. */
  lemma MeshLeanNonNegative(b: Box, com: Vec3, m: MathLib)
    requires Atan2SignRule(m)
    requires com.y > b.lo.y
    ensures MeshLean(b, com, m) >= 0.0
  {
    assert !(Abs(com.z - MeshCenter(b).z) < 0.0);
  }

  /** The angle only sees the size of the Z offset: a lean backward reads as forward. */
  lemma MeshLeanIgnoresDirection(b: Box, com: Vec3, m: MathLib)
    ensures MeshLean(b, MirrorZ(com, MeshCenter(b).z), m) == MeshLean(b, com, m)
  {
    var c := MeshCenter(b).z;
    var com' := MirrorZ(com, c);
    assert com'.z - c == -(com.z - c);
    assert Abs(com'.z - c) == Abs(com.z - c);
  }

  /**
   * A centre of mass level with the box centre in Z has no lean when it is
   * not below the base, and reads as 180° when it is.
   */
  lemma MeshLeanUpright(b: Box, com: Vec3, m: MathLib)
    requires Atan2Odd(m) && Atan2NegativeAxis(m)
    requires com.z == MeshCenter(b).z
    ensures com.y >= b.lo.y ==> MeshLean(b, com, m) == 0.0
    ensures com.y < b.lo.y ==> MeshLean(b, com, m) == 180.0
  {
    assert Abs(com.z - MeshCenter(b).z) == 0.0;
    if com.y >= b.lo.y {
      assert m.atan2Deg(-0.0, com.y - b.lo.y) == -m.atan2Deg(0.0, com.y - b.lo.y);
    }
  }

  /**
   * When the footprint centre and the box centre coincide, this angle is
   * the size of the signed forward/backward angle of `calculate_lean_angle`.
   */
  lemma MeshLeanIsForwardBackwardMagnitude(
    b: Box, center: Vec3, com: Vec3, zMin: real, zMax: real, th: real, m: MathLib)
    requires Atan2SignRule(m) && Atan2Odd(m)
    requires center.y == b.lo.y && center.z == MeshCenter(b).z
    requires com.y > center.y
    ensures MeshLean(b, com, m) == Abs(Lean(center, com, zMin, zMax, th, m).forwardBackward)
  {
    var l := Lean(center, com, zMin, zMax, th, m);
    var dz, dy := com.z - center.z, com.y - center.y;
    assert l.forwardBackward == m.atan2Deg(dz, dy);
    if dz < 0.0 {
      assert m.atan2Deg(-dz, dy) == -m.atan2Deg(dz, dy);
      assert m.atan2Deg(dz, dy) < 0.0;
    } else {
      assert !(m.atan2Deg(dz, dy) < 0.0);
    }
  }

  /** The lengths written in the top-view annotation, in metres. */
  datatype Annotation = Annotation(
    baseWidth: real,
    baseDepth: real,
    comOffsetX: real,
    comOffsetZ: real,
    distanceToFront: real)

  function Annotate(b: Box, com: Vec3, scale: real): (a: Annotation)
    ensures scale >= 0.0 ==> a.comOffsetX >= 0.0 && a.comOffsetZ >= 0.0
    ensures scale > 0.0 ==> (a.distanceToFront < 0.0 <==> com.z > b.hi.z)
    ensures scale > 0.0 && b.lo.x <= b.hi.x && b.lo.z <= b.hi.z ==>
      a.baseWidth >= 0.0 && a.baseDepth >= 0.0
  {
    var c := MeshCenter(b);
    var a := Annotation(
      Mul(b.hi.x - b.lo.x, scale), Mul(b.hi.z - b.lo.z, scale),
      Mul(Abs(com.x - c.x), scale), Mul(Abs(com.z - c.z), scale),
      Mul(b.hi.z - com.z, scale));
    if scale > 0.0 then
      MulSign(b.hi.x - b.lo.x, scale);
      MulSign(b.hi.z - b.lo.z, scale);
      MulSign(Abs(com.x - c.x), scale);
      MulSign(Abs(com.z - c.z), scale);
      MulSign(b.hi.z - com.z, scale);
      a
    else a
  }

  /**
   * A centre of mass inside the box is offset from the box centre by at
   * most half the printed width and depth.
   */
  lemma OffsetsWithinHalfBox(b: Box, com: Vec3, scale: real)
    requires scale > 0.0
    requires b.lo.x <= com.x <= b.hi.x && b.lo.z <= com.z <= b.hi.z
    ensures var a := Annotate(b, com, scale);
      2.0 * a.comOffsetX <= a.baseWidth && 2.0 * a.comOffsetZ <= a.baseDepth
  {
    var c := MeshCenter(b);
    assert 2.0 * Abs(com.x - c.x) <= b.hi.x - b.lo.x;
    assert 2.0 * Abs(com.z - c.z) <= b.hi.z - b.lo.z;
    MulLe(2.0 * Abs(com.x - c.x), b.hi.x - b.lo.x, scale);
    MulLe(2.0 * Abs(com.z - c.z), b.hi.z - b.lo.z, scale);
    assert Mul(2.0 * Abs(com.x - c.x), scale) == 2.0 * Mul(Abs(com.x - c.x), scale);
    assert Mul(2.0 * Abs(com.z - c.z), scale) == 2.0 * Mul(Abs(com.z - c.z), scale);
  }

  /**
   * The annotation measures the distance to the front from the box of the
   * whole mesh, whose front is never behind the footprint's maximum-Z edge
   * that the printed front-edge analysis uses: when the annotation finds
   * the centre of mass beyond the front, so does the analysis.
   */
  lemma AnnotatedOverImpliesFootprintOver(vs: seq<Vec3>, com: Vec3, scale: real)
    requires |vs| > 0 && scale > 0.0
    requires Annotate(Bounds(vs), com, scale).distanceToFront < 0.0
    ensures com.z > FootprintRect(BaseVertices(vs)).zMax
  {
    FootprintInsideMeshBox(vs);
  }

  /** The mesh box and the centre of mass multiplied by a scale factor. */
  function ScaleBox(b: Box, k: real): Box {
    Box(Scale(b.lo, k), Scale(b.hi, k))
  }

  /**
   * Scaling the mesh scales the printed heights and leaves the percentage
   * of the height at which the centre of mass sits unchanged.
   */
  lemma HeightsScaleInvariant(b: Box, com: Vec3, k: real)
    requires k > 0.0
    ensures var h, h' := HeightAnalysis(b, com), HeightAnalysis(ScaleBox(b, k), Scale(com, k));
      h'.baseY == h.baseY * k && h'.heightFromBase == h.heightFromBase * k &&
      h'.totalHeight == h.totalHeight * k && h'.percentage == h.percentage
  {
    var hfb, th := com.y - b.lo.y, b.hi.y - b.lo.y;
    var b', com' := ScaleBox(b, k), Scale(com, k);
    assert com'.y - b'.lo.y == hfb * k;
    assert b'.hi.y - b'.lo.y == th * k;
    MulSign(th, k);
    var p' := HeightAnalysis(b', com').percentage;
    if th != 0.0 {
      DivideBothByFactor(hfb, th, k);
      assert p' == Some(((hfb * k) / (th * k)) * 100.0);
    } else {
      assert p' == None;
    }
  }

  lemma DivideBothByFactor(x: real, y: real, k: real)
    requires y != 0.0 && k > 0.0
    ensures y * k != 0.0 && (x * k) / (y * k) == x / y
  {
    MulSign(y, k);
    var q := x / y;
    assert q * y == x;
    assert q * (y * k) == x * k;
  }
}
