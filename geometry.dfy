/**
 * Vertex arrays and the numpy reductions the analyzers apply to them:
 * column extraction, min/max, boolean-mask filtering on height and
 * axis-aligned bounding rectangles in the top (x, z) view.
 * The mesh's vertical axis is y.
 */
module Geometry {

  datatype Vec3 = Vec3(x: real, y: real, z: real)

  /** A point of the top view: the x (width) and z (depth) coordinates. */
  datatype Point2 = Point2(x: real, z: real)

  datatype Axis = X | Y | Z

  function Coord(v: Vec3, a: Axis): real {
    match a
    case X => v.x
    case Y => v.y
    case Z => v.z
  }

  function Abs(r: real): (a: real)
    ensures a >= 0.0 && (a == r || a == -r)
  {
    if r < 0.0 then -r else r
  }

  /** `vertices[:, axis]` */
  function Column(vs: seq<Vec3>, a: Axis): (c: seq<real>)
    ensures |c| == |vs|
    ensures forall i :: 0 <= i < |vs| ==> c[i] == Coord(vs[i], a)
  {
    seq(|vs|, i requires 0 <= i < |vs| => Coord(vs[i], a))
  }

  /** `vertices[:, [0, 2]]`: the top-view projection */
  function TopView(vs: seq<Vec3>): (ps: seq<Point2>)
    ensures |ps| == |vs|
    ensures forall i :: 0 <= i < |vs| ==> ps[i] == Point2(vs[i].x, vs[i].z)
  {
    seq(|vs|, i requires 0 <= i < |vs| => Point2(vs[i].x, vs[i].z))
  }

  function XsOf(ps: seq<Point2>): (c: seq<real>)
    ensures |c| == |ps|
    ensures forall i :: 0 <= i < |ps| ==> c[i] == ps[i].x
  {
    seq(|ps|, i requires 0 <= i < |ps| => ps[i].x)
  }

  function ZsOf(ps: seq<Point2>): (c: seq<real>)
    ensures |c| == |ps|
    ensures forall i :: 0 <= i < |ps| ==> c[i] == ps[i].z
  {
    seq(|ps|, i requires 0 <= i < |ps| => ps[i].z)
  }

  /** numpy's `min()`: defined only on a non-empty array. */
  function Min(s: seq<real>): (m: real)
    requires |s| > 0
    ensures forall i :: 0 <= i < |s| ==> m <= s[i]
    ensures exists i :: 0 <= i < |s| && s[i] == m
  {
    if |s| == 1 then s[0]
    else
      var rest := Min(s[1..]);
      assert forall i :: 1 <= i < |s| ==> s[1..][i - 1] == s[i];
      if s[0] <= rest then s[0] else rest
  }

  /** numpy's `max()`: defined only on a non-empty array. */
  function Max(s: seq<real>): (m: real)
    requires |s| > 0
    ensures forall i :: 0 <= i < |s| ==> s[i] <= m
    ensures exists i :: 0 <= i < |s| && s[i] == m
  {
    if |s| == 1 then s[0]
    else
      var rest := Max(s[1..]);
      assert forall i :: 1 <= i < |s| ==> s[1..][i - 1] == s[i];
      if s[0] >= rest then s[0] else rest
  }

  /** `mesh.bounds`: the per-axis minimum and maximum corner. */
  datatype Box = Box(lo: Vec3, hi: Vec3)

  function Bounds(vs: seq<Vec3>): (b: Box)
    requires |vs| > 0
    ensures forall i :: 0 <= i < |vs| ==> b.lo.x <= vs[i].x <= b.hi.x
    ensures forall i :: 0 <= i < |vs| ==> b.lo.y <= vs[i].y <= b.hi.y
    ensures forall i :: 0 <= i < |vs| ==> b.lo.z <= vs[i].z <= b.hi.z
    ensures exists i :: 0 <= i < |vs| && vs[i].x == b.lo.x
    ensures exists i :: 0 <= i < |vs| && vs[i].x == b.hi.x
    ensures exists i :: 0 <= i < |vs| && vs[i].y == b.lo.y
    ensures exists i :: 0 <= i < |vs| && vs[i].y == b.hi.y
    ensures exists i :: 0 <= i < |vs| && vs[i].z == b.lo.z
    ensures exists i :: 0 <= i < |vs| && vs[i].z == b.hi.z
  {
    var xs, ys, zs := Column(vs, X), Column(vs, Y), Column(vs, Z);
    Box(Vec3(Min(xs), Min(ys), Min(zs)), Vec3(Max(xs), Max(ys), Max(zs)))
  }

  /** The two height masks the scripts use: `y < top` and `bottom < y < top`. */
  datatype Band = Below(top: real) | Between(bottom: real, top: real)

  predicate InBand(v: Vec3, f: Band) {
    match f
    case Below(t) => v.y < t
    case Between(b, t) => b < v.y && v.y < t
  }

  /**
   * `vertices[mask]`: the vertices inside the band, each as often as it
   * occurs in `vs`; `SelectAppend` says they keep their original order.
   */
  function Select(vs: seq<Vec3>, f: Band): (r: seq<Vec3>)
    ensures |r| <= |vs|
    ensures forall v :: v in r <==> v in vs && InBand(v, f)
    ensures forall v :: multiset(r)[v] == if InBand(v, f) then multiset(vs)[v] else 0
  {
    if vs == [] then []
    else
      assert vs == [vs[0]] + vs[1..];
      assert forall v :: v in vs <==> v == vs[0] || v in vs[1..];
      (if InBand(vs[0], f) then [vs[0]] else []) + Select(vs[1..], f)
  }

  /** Masking a concatenation masks each part and keeps the parts in order. */
  lemma {:induction false} SelectAppend(a: seq<Vec3>, b: seq<Vec3>, f: Band)
    ensures Select(a + b, f) == Select(a, f) + Select(b, f)
  {
    if a == [] {
      assert a + b == b;
    } else {
      var head := if InBand(a[0], f) then [a[0]] else [];
      calc {
        Select(a + b, f);
        == { assert a + b == [a[0]] + (a[1..] + b); SelectCons(a[0], a[1..] + b, f); }
        head + Select(a[1..] + b, f);
        == { SelectAppend(a[1..], b, f); }
        head + (Select(a[1..], f) + Select(b, f));
        == { ConcatAssoc(head, Select(a[1..], f), Select(b, f)); }
        (head + Select(a[1..], f)) + Select(b, f);
        == { assert a == [a[0]] + a[1..]; SelectCons(a[0], a[1..], f); }
        Select(a, f) + Select(b, f);
      }
    }
  }

  lemma ConcatAssoc<T>(a: seq<T>, b: seq<T>, c: seq<T>)
    ensures a + (b + c) == (a + b) + c
  {
  }

  lemma SelectCons(v: Vec3, rest: seq<Vec3>, f: Band)
    ensures Select([v] + rest, f) == (if InBand(v, f) then [v] else []) + Select(rest, f)
  {
    assert ([v] + rest)[0] == v && ([v] + rest)[1..] == rest;
  }

  /** An axis-aligned rectangle of the top view. */
  datatype Rect = Rect(xMin: real, xMax: real, zMin: real, zMax: real)

  predicate Contains(r: Rect, x: real, z: real) {
    r.xMin <= x <= r.xMax && r.zMin <= z <= r.zMax
  }

  /** `x_min, x_max = pts[:, 0].min(), pts[:, 0].max()` and likewise for z. */
  function BoundingRect(ps: seq<Point2>): (r: Rect)
    requires |ps| > 0
    ensures r.xMin <= r.xMax && r.zMin <= r.zMax
    ensures forall i :: 0 <= i < |ps| ==> Contains(r, ps[i].x, ps[i].z)
    ensures exists i :: 0 <= i < |ps| && ps[i].x == r.xMin
    ensures exists i :: 0 <= i < |ps| && ps[i].x == r.xMax
    ensures exists i :: 0 <= i < |ps| && ps[i].z == r.zMin
    ensures exists i :: 0 <= i < |ps| && ps[i].z == r.zMax
  {
    var xs, zs := XsOf(ps), ZsOf(ps);
    assert xs[0] == ps[0].x && zs[0] == ps[0].z;
    Rect(Min(xs), Max(xs), Min(zs), Max(zs))
  }

  /** `((x_min + x_max) / 2, (z_min + z_max) / 2)` */
  function Midpoint(r: Rect): (c: Point2)
    ensures r.xMin <= r.xMax && r.zMin <= r.zMax ==> Contains(r, c.x, c.z)
    ensures c.x - r.xMin == r.xMax - c.x && c.z - r.zMin == r.zMax - c.z
  {
    Point2((r.xMin + r.xMax) / 2.0, (r.zMin + r.zMax) / 2.0)
  }

  /**
   * Products whose sign matters in a proof go through `Mul`, so that the
   * facts below are stated about one term.
   */
  function Mul(a: real, b: real): real { a * b }

  lemma MulPos(a: real, b: real)
    requires a > 0.0 && b > 0.0
    ensures Mul(a, b) > 0.0
  {
  }

  lemma MulLe(a: real, b: real, k: real)
    requires a <= b && k > 0.0
    ensures Mul(a, k) <= Mul(b, k)
  {
    if a < b {
      MulPos(b - a, k);
      assert Mul(b - a, k) == Mul(b, k) - Mul(a, k);
    }
  }

  /** A positive factor keeps the sign of a product's other factor. */
  lemma MulSign(a: real, k: real)
    requires k > 0.0
    ensures Mul(a, k) < 0.0 <==> a < 0.0
    ensures Mul(a, k) == 0.0 <==> a == 0.0
  {
    if a > 0.0 {
      MulPos(a, k);
    } else if a < 0.0 {
      MulPos(-a, k);
      assert Mul(-a, k) == -Mul(a, k);
    }
  }
}
