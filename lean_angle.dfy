/**
 * `calculate_lean_angle`: the vector from the footprint centre (at base
 * height) to the centre of mass, its horizontal projection, the signed
 * forward/backward and left/right lean angles, the front-view angle and how
 * far the top would sit from the base.
 *
 * The square root and the trigonometric functions are not defined here; they
 * come in as a `MathLib` value, and the lemmas that need a law of one of them
 * take that law as a precondition.
 */
module LeanAngle {
  import opened Outcomes
  import opened Geometry
  import opened BaseAnalysis

  /**
   * `np.sqrt` (inside `np.linalg.norm`), and the degree-valued
   * `np.degrees(np.arctan2(y, x))`, `np.degrees(np.arccos(c))` and
   * `np.tan(np.radians(d))`.
   */
  datatype MathLib = MathLib(
    sqrt: real -> real,
    atan2Deg: (real, real) -> real,
    arccosDeg: real -> real,
    tanDeg: real -> real)

  /** `sqrt` is the non-negative square root on the non-negative reals. */
  ghost predicate IsSqrt(m: MathLib) {
    forall x :: x >= 0.0 ==> m.sqrt(x) >= 0.0 && Sq(m.sqrt(x)) == x
  }

  /** With a positive second argument, `atan2(y, x)` has the sign of `y`. */
  ghost predicate Atan2SignRule(m: MathLib) {
    forall y, x :: x > 0.0 ==> (m.atan2Deg(y, x) < 0.0 <==> y < 0.0)
  }

  /**
   * `atan2` is odd in its first argument everywhere except on the negative
   * x axis, where the angle is 180° and negating a zero `y` changes nothing.
   */
  ghost predicate Atan2Odd(m: MathLib) {
    forall y, x :: y != 0.0 || x >= 0.0 ==> m.atan2Deg(-y, x) == -m.atan2Deg(y, x)
  }

  /** On the negative x axis, `atan2(0, x)` is 180°. */
  ghost predicate Atan2NegativeAxis(m: MathLib) {
    forall x :: x < 0.0 ==> m.atan2Deg(0.0, x) == 180.0
  }

  function Sq(a: real): (r: real)
    ensures r >= 0.0
    ensures a != 0.0 ==> r > 0.0
  {
    if a < 0.0 then MulPos(-a, -a); assert Mul(-a, -a) == Mul(a, a); Mul(a, a)
    else if a > 0.0 then MulPos(a, a); Mul(a, a)
    else Mul(a, a)
  }

  /** A number whose square is at most n² lies in [-n, n]. */
  lemma SquareBelow(y: real, n: real)
    requires n >= 0.0 && Sq(y) <= Sq(n)
    ensures -n <= y <= n
  {
    if y > n {
      MulPos(y - n, y + n);
    } else if y < -n {
      MulPos(-y - n, -y + n);
    }
  }

  /** The squared Euclidean norm, ‖v‖². */
  function NormSq(v: Vec3): (n: real)
    ensures n >= 0.0
    ensures n == 0.0 <==> v == Vec3(0.0, 0.0, 0.0)
    ensures Sq(v.y) <= n
  {
    Sq(v.x) + Sq(v.y) + Sq(v.z)
  }

  /** `np.clip(c, -1, 1)` */
  function Clip(c: real): (r: real)
    ensures -1.0 <= r <= 1.0
    ensures -1.0 <= c <= 1.0 ==> r == c
  {
    if c < -1.0 then -1.0 else if c > 1.0 then 1.0 else c
  }

  /** The printed reading of the raw Z offset: negative is "toward front/face". */
  datatype Facing = TowardFront | TowardBack

  datatype LeanReport = LeanReport(
    baseCenter: Vec3,
    baseToCom: Vec3,
    /** `base_to_com / norm`: numpy yields nan when the norm is zero. */
    normalized: Option<Vec3>,
    /** The total lean from vertical; nan when `normalized` is. */
    totalAngle: Option<real>,
    horizontalDistance: real,
    zOffset: real,
    yOffset: real,
    forwardBackward: real,
    leftRight: real,
    facing: Facing,
    forwardBackwardSide: Side,
    leftRightSide: Side,
    frontViewAngle: real,
    totalHeight: real,
    leanAtTop: real,
    /** The debug block: edges and the distances from the centre of mass to them. */
    frontEdgeZ: real,
    backEdgeZ: real,
    distanceToFront: real,
    distanceToBack: real)

  function Scale(v: Vec3, k: real): Vec3 {
    Vec3(v.x * k, v.y * k, v.z * k)
  }

  /** `horizontal_offset = [x, 0, z]`, so its norm only sees x and z. */
  function HorizontalDistance(v: Vec3, m: MathLib): real {
    m.sqrt(NormSq(Vec3(v.x, 0.0, v.z)))
  }

  function LeanAtTop(totalHeight: real, forwardBackward: real, m: MathLib): real {
    totalHeight * m.tanDeg(Abs(forwardBackward))
  }

  /**
   * `base_to_com / np.linalg.norm(base_to_com)`: defined exactly when the
   * vector is not zero (numpy yields nan otherwise), and then its vertical
   * component lies in [-1, 1].
   */
  function Normalize(v: Vec3, m: MathLib): (u: Option<Vec3>)
    ensures u.Some? <==> m.sqrt(NormSq(v)) != 0.0
    ensures u.Some? ==> u.value.y == v.y * (1.0 / m.sqrt(NormSq(v)))
  {
    var n := m.sqrt(NormSq(v));
    if n == 0.0 then None else Some(Scale(v, 1.0 / n))
  }

  lemma NormalizeDefinedOffZero(v: Vec3, m: MathLib)
    requires IsSqrt(m)
    ensures Normalize(v, m).Some? <==> v != Vec3(0.0, 0.0, 0.0)
    ensures Normalize(v, m).Some? ==> -1.0 <= Normalize(v, m).value.y <= 1.0
  {
    UnitVertical(v, m);
  }

  /**
   * `np.degrees(np.arccos(np.clip(dot, -1, 1)))` with `dot` the vertical
   * component of the normalised vector; the clip never changes a component
   * that is already in range.
   */
  function TotalAngle(u: Option<Vec3>, m: MathLib): (a: Option<real>)
    ensures a.Some? <==> u.Some?
    ensures u.Some? && -1.0 <= u.value.y <= 1.0 ==> a == Some(m.arccosDeg(u.value.y))
  {
    if u.None? then None else Some(m.arccosDeg(Clip(u.value.y)))
  }

  /**
   * The lean quantities, from the base centre, the centre of mass, the
   * footprint's Z edges and the total height of the mesh.
   */
  function Lean(center: Vec3, com: Vec3, zMin: real, zMax: real, totalHeight: real, m: MathLib): (l: LeanReport)
    ensures l.baseCenter == center && l.totalHeight == totalHeight
    ensures center.x + l.baseToCom.x == com.x && center.y + l.baseToCom.y == com.y
    ensures center.z + l.baseToCom.z == com.z
    ensures l.zOffset == l.baseToCom.z && l.yOffset == l.baseToCom.y
    ensures l.normalized == Normalize(l.baseToCom, m)
    ensures l.totalAngle == TotalAngle(l.normalized, m)
    ensures l.frontViewAngle + Abs(l.forwardBackward) == 90.0
    ensures l.facing == TowardFront <==> l.zOffset < 0.0
    ensures l.forwardBackwardSide == Forward <==> l.forwardBackward < 0.0
    ensures l.leftRightSide == Left <==> l.leftRight < 0.0
    ensures l.frontEdgeZ == zMax && l.backEdgeZ == zMin
    ensures com.z + l.distanceToFront == zMax && zMin + l.distanceToBack == com.z
    ensures l.distanceToFront + l.distanceToBack == zMax - zMin
  {
    var v := Vec3(com.x - center.x, com.y - center.y, com.z - center.z);
    var normalized := Normalize(v, m);
    var totalAngle := TotalAngle(normalized, m);
    var fb := m.atan2Deg(v.z, v.y);
    var lr := m.atan2Deg(v.x, v.y);
    LeanReport(
      center, v, normalized, totalAngle, HorizontalDistance(v, m), v.z, v.y, fb, lr,
      if v.z < 0.0 then TowardFront else TowardBack,
      if fb < 0.0 then Forward else Backward,
      if lr < 0.0 then Left else Right,
      90.0 - Abs(fb),
      totalHeight,
      LeanAtTop(totalHeight, fb, m),
      zMax, zMin, zMax - com.z, com.z - zMin)
  }

  /**
   * `(base_center_x, base_center_y, base_center_z)`: the footprint midpoint
   * at the height of the lowest vertex.
   */
  function BaseCenter(vs: seq<Vec3>): (c: Vec3)
    requires |vs| > 0
    ensures var rect := FootprintRect(BaseVertices(vs));
      c.y == BaseY(vs) &&
      Contains(rect, c.x, c.z) &&
      c.x - rect.xMin == rect.xMax - c.x && c.z - rect.zMin == rect.zMax - c.z
  {
    var c := Midpoint(FootprintRect(BaseVertices(vs)));
    Vec3(c.x, BaseY(vs), c.z)
  }

  /** `calculate_lean_angle` with the mesh loading and `center_mass` replaced by inputs. */
  function CalculateLeanAngle(vs: seq<Vec3>, com: Vec3, m: MathLib): (r: Result<LeanReport, AnalysisError>)
    ensures r.Failure? <==> |vs| == 0
    ensures r.Success? ==> |vs| > 0 && r.value.baseCenter == BaseCenter(vs)
    ensures r.Success? ==> r.value.frontEdgeZ == FootprintRect(BaseVertices(vs)).zMax
    ensures r.Success? ==> r.value.backEdgeZ == FootprintRect(BaseVertices(vs)).zMin
    ensures r.Success? ==> r.value.totalHeight == Bounds(vs).hi.y - Bounds(vs).lo.y
    ensures r.Success? ==> r.value == LeanOfMesh(vs, com, m)
  {
    if |vs| == 0 then Failure(EmptyMesh) else Success(LeanOfMesh(vs, com, m))
  }

  /** `Lean` from the footprint centre and edges and the mesh's height. */
  function LeanOfMesh(vs: seq<Vec3>, com: Vec3, m: MathLib): LeanReport
    requires |vs| > 0
  {
    var rect := FootprintRect(BaseVertices(vs));
    var b := Bounds(vs);
    Lean(BaseCenter(vs), com, rect.zMin, rect.zMax, b.hi.y - b.lo.y, m)
  }

  lemma SqrtZero(m: MathLib, x: real)
    requires IsSqrt(m) && x >= 0.0
    ensures m.sqrt(x) == 0.0 <==> x == 0.0
  {
    assert Sq(m.sqrt(x)) == x;
  }

  /**
   * `horizontal_distance² + y_offset² = |base_to_com|²`; the horizontal
   * distance is non-negative and 0 exactly when the centre of mass is straight
   * above the base centre.
   */
  lemma Pythagoras(center: Vec3, com: Vec3, zMin: real, zMax: real, th: real, m: MathLib)
    requires IsSqrt(m)
    ensures var l := Lean(center, com, zMin, zMax, th, m);
      l.horizontalDistance >= 0.0 &&
      Sq(l.horizontalDistance) + Sq(l.yOffset) == NormSq(l.baseToCom) &&
      (l.horizontalDistance == 0.0 <==> l.baseToCom.x == 0.0 && l.baseToCom.z == 0.0)
  {
    var l := Lean(center, com, zMin, zMax, th, m);
    var v := l.baseToCom;
    var hs := NormSq(Vec3(v.x, 0.0, v.z));
    assert l.horizontalDistance == m.sqrt(hs);
    SqrtZero(m, hs);
  }

  /** The vertical component of a non-zero vector, divided by its norm, lies in [-1, 1]. */
  lemma UnitVertical(v: Vec3, m: MathLib)
    requires IsSqrt(m)
    ensures m.sqrt(NormSq(v)) == 0.0 <==> v == Vec3(0.0, 0.0, 0.0)
    ensures v != Vec3(0.0, 0.0, 0.0) ==> -1.0 <= v.y * (1.0 / m.sqrt(NormSq(v))) <= 1.0
  {
    var n := m.sqrt(NormSq(v));
    SqrtZero(m, NormSq(v));
    if n != 0.0 {
      assert n > 0.0 && Sq(n) == NormSq(v);
      SquareBelow(v.y, n);
      var k := 1.0 / n;
      assert Mul(n, k) == 1.0 && Mul(-n, k) == -1.0;
      MulLe(v.y, n, k);
      MulLe(-n, v.y, k);
    }
  }

  /**
   * The total lean from vertical is defined exactly when the base-to-COM
   * vector is not zero, that is when the centre of mass is not the
   * base-centre point, and then the clip before `arccos` changes nothing.
   */
  lemma TotalAngleOffCenter(v: Vec3, m: MathLib)
    requires IsSqrt(m)
    ensures var u := Normalize(v, m);
      (TotalAngle(u, m).Some? <==> v != Vec3(0.0, 0.0, 0.0)) &&
      (u.Some? ==> TotalAngle(u, m) == Some(m.arccosDeg(u.value.y)))
  {
    NormalizeDefinedOffZero(v, m);
  }

  /**
   * When the centre of mass is above the base, a negative forward/backward
   * angle (printed "forward") is exactly a negative Z offset (printed "toward
   * front/face").
   */
  lemma ForwardLabelsAgree(center: Vec3, com: Vec3, zMin: real, zMax: real, th: real, m: MathLib)
    requires Atan2SignRule(m)
    requires com.y > center.y
    ensures var l := Lean(center, com, zMin, zMax, th, m);
      l.forwardBackwardSide == Forward <==> l.facing == TowardFront
  {
    var l := Lean(center, com, zMin, zMax, th, m);
    assert l.forwardBackward == m.atan2Deg(l.zOffset, l.yOffset);
  }

  /** The centre of mass reflected in the Z direction through the plane `z = cz`. */
  function MirrorZ(com: Vec3, cz: real): (r: Vec3)
    ensures r.x == com.x && r.y == com.y && r.z - cz == cz - com.z
  {
    Vec3(com.x, com.y, 2.0 * cz - com.z)
  }

  /**
   * Mirroring the lean direction negates the forward/backward angle, except
   * for a centre of mass straight below the base centre, whose Z offset is
   * zero so that the mirror changes nothing. Either way the front-view angle
   * and the lean at the top are unchanged.
   */
  lemma MirrorKeepsLeanMagnitude(center: Vec3, com: Vec3, zMin: real, zMax: real, th: real, m: MathLib)
    requires Atan2Odd(m)
    ensures var l := Lean(center, com, zMin, zMax, th, m);
      var l' := Lean(center, MirrorZ(com, center.z), zMin, zMax, th, m);
      l'.zOffset == -l.zOffset &&
      (l.zOffset != 0.0 || l.yOffset >= 0.0 ==> l'.forwardBackward == -l.forwardBackward) &&
      (l.zOffset == 0.0 ==> l'.forwardBackward == l.forwardBackward) &&
      l'.frontViewAngle == l.frontViewAngle &&
      l'.leanAtTop == l.leanAtTop
  {
    var l := Lean(center, com, zMin, zMax, th, m);
    var l' := Lean(center, MirrorZ(com, center.z), zMin, zMax, th, m);
    assert l'.zOffset == -l.zOffset && l'.yOffset == l.yOffset;
    if l.zOffset == 0.0 {
      assert l'.zOffset == l.zOffset;
    } else {
      assert m.atan2Deg(-l.zOffset, l.yOffset) == -m.atan2Deg(l.zOffset, l.yOffset);
    }
    assert Abs(l'.forwardBackward) == Abs(l.forwardBackward);
  }
}
