/** The fixed-size vectors Vec2, Vec3 and Vec4 of include/Math/Vector.h, as
    sequences of reals of the fixed length (the element type float becomes
    real). A vector value owns its components; the reference-returning
    accessors x(), y(), z() and w() become a read (X, Y, Z, W) and a
    functional write of one slot (WithX, WithY, WithZ, WithW). */
module Vectors {

  type Vec2 = v: seq<real> | |v| == 2 witness [0.0, 0.0]
  type Vec3 = v: seq<real> | |v| == 3 witness [0.0, 0.0, 0.0]
  type Vec4 = v: seq<real> | |v| == 4 witness [0.0, 0.0, 0.0, 0.0]

  /** A vector of one of the three specialised sizes. */
  predicate IsSpecialised(v: seq<real>) {
    2 <= |v| <= 4
  }

  // ---- composition constructors; each body writes the slots one by one ----

  function Vec2Of(x: real, y: real): (v: Vec2)
    ensures X(v) == x && Y(v) == y
  {
    [x, y]
  }

  function Vec3Of(x: real, y: real, z: real): (v: Vec3)
    ensures X(v) == x && Y(v) == y && Z(v) == z
  {
    [x, y, z]
  }

  /** Vector(Vector<T,2> xy, T z) */
  function Vec3FromXYAndZ(xy: Vec2, z: real): (v: Vec3)
    ensures v == xy + [z]
  {
    [xy[0], xy[1], z]
  }

  /** Vector(T x, Vector<T,2> yz) */
  function Vec3FromXAndYZ(x: real, yz: Vec2): (v: Vec3)
    ensures v == [x] + yz
  {
    [x, yz[0], yz[1]]
  }

  function Vec4Of(x: real, y: real, z: real, w: real): (v: Vec4)
    ensures X(v) == x && Y(v) == y && Z(v) == z && W(v) == w
  {
    [x, y, z, w]
  }

  /** Vector(Vector<T,3> xyz, T w) */
  function Vec4FromXYZAndW(xyz: Vec3, w: real): (v: Vec4)
    ensures v == xyz + [w]
  {
    [xyz[0], xyz[1], xyz[2], w]
  }

  /** Vector(T x, Vector<T,3> yzw) */
  function Vec4FromXAndYZW(x: real, yzw: Vec3): (v: Vec4)
    ensures v == [x] + yzw
  {
    [x, yzw[0], yzw[1], yzw[2]]
  }

  /** Vector(Vector<T,2> xy, T z, T w) */
  function Vec4FromXYAndZAndW(xy: Vec2, z: real, w: real): (v: Vec4)
    ensures v == xy + [z, w]
  {
    [xy[0], xy[1], z, w]
  }

  /** Vector(T x, Vector<T,2> yz, T w) */
  function Vec4FromXAndYZAndW(x: real, yz: Vec2, w: real): (v: Vec4)
    ensures v == [x] + yz + [w]
  {
    [x, yz[0], yz[1], w]
  }

  /** Vector(T x, T y, Vector<T,2> zw), with the meaning its other slots give it:
      the third slot is zw's first component. */
  function Vec4FromXAndYAndZW(x: real, y: real, zw: Vec2): (v: Vec4)
    ensures v == [x, y] + zw
  {
    [x, y, zw[0], zw[1]]
  }

  // ---- accessors ----

  function X(v: seq<real>): real
    requires IsSpecialised(v)
  {
    v[0]
  }

  function Y(v: seq<real>): real
    requires IsSpecialised(v)
  {
    v[1]
  }

  function Z(v: seq<real>): real
    requires 3 <= |v| <= 4
  {
    v[2]
  }

  function W(v: seq<real>): real
    requires |v| == 4
  {
    v[3]
  }

  /** Writing through x(): only slot 0 changes. */
  function WithX(v: seq<real>, a: real): (u: seq<real>)
    requires IsSpecialised(v)
    ensures |u| == |v| && X(u) == a
    ensures forall i :: 1 <= i < |v| ==> u[i] == v[i]
  {
    v[0 := a]
  }

  /** Writing through y(): only slot 1 changes. */
  function WithY(v: seq<real>, a: real): (u: seq<real>)
    requires IsSpecialised(v)
    ensures |u| == |v| && Y(u) == a
    ensures forall i :: 0 <= i < |v| && i != 1 ==> u[i] == v[i]
  {
    v[1 := a]
  }

  /** Writing through z(): only slot 2 changes. */
  function WithZ(v: seq<real>, a: real): (u: seq<real>)
    requires 3 <= |v| <= 4
    ensures |u| == |v| && Z(u) == a
    ensures forall i :: 0 <= i < |v| && i != 2 ==> u[i] == v[i]
  {
    v[2 := a]
  }

  /** Writing through w(): only slot 3 changes. */
  function WithW(v: seq<real>, a: real): (u: seq<real>)
    requires |v| == 4
    ensures |u| == 4 && W(u) == a
    ensures forall i :: 0 <= i < 3 ==> u[i] == v[i]
  {
    v[3 := a]
  }

  /** Two Vec3 with the same three components are the same vector. */
  lemma SameComponents(u: Vec3, v: Vec3)
    requires X(u) == X(v) && Y(u) == Y(v) && Z(u) == Z(v)
    ensures u == v
  {
  }

  /** Reading a component through an accessor gives what was last written
      through that accessor, and a write through one accessor leaves what the
      others read unchanged. */
  lemma ReadAfterWrite(v: Vec4, a: real)
    ensures X(WithX(v, a)) == a && Y(WithX(v, a)) == Y(v) && Z(WithX(v, a)) == Z(v) && W(WithX(v, a)) == W(v)
    ensures X(WithY(v, a)) == X(v) && Y(WithY(v, a)) == a && Z(WithY(v, a)) == Z(v) && W(WithY(v, a)) == W(v)
    ensures X(WithZ(v, a)) == X(v) && Y(WithZ(v, a)) == Y(v) && Z(WithZ(v, a)) == a && W(WithZ(v, a)) == W(v)
    ensures X(WithW(v, a)) == X(v) && Y(WithW(v, a)) == Y(v) && Z(WithW(v, a)) == Z(v) && W(WithW(v, a)) == a
  {
  }

  /** The composition constructors agree with the all-scalar ones. */
  lemma CompositionsAgree(x: real, y: real, z: real, w: real)
    ensures Vec3FromXYAndZ(Vec2Of(x, y), z) == Vec3Of(x, y, z)
    ensures Vec3FromXAndYZ(x, Vec2Of(y, z)) == Vec3Of(x, y, z)
    ensures Vec4FromXYZAndW(Vec3Of(x, y, z), w) == Vec4Of(x, y, z, w)
    ensures Vec4FromXAndYZW(x, Vec3Of(y, z, w)) == Vec4Of(x, y, z, w)
    ensures Vec4FromXYAndZAndW(Vec2Of(x, y), z, w) == Vec4Of(x, y, z, w)
    ensures Vec4FromXAndYZAndW(x, Vec2Of(y, z), w) == Vec4Of(x, y, z, w)
    ensures Vec4FromXAndYAndZW(x, y, Vec2Of(z, w)) == Vec4Of(x, y, z, w)
  {
  }

  // ---- element-wise arithmetic used by the camera (operators of IVector) ----

  /** operator+ on two Vec3: element-wise sum. */
  function Add(a: Vec3, b: Vec3): (r: Vec3)
    ensures forall i :: 0 <= i < 3 ==> r[i] == a[i] + b[i]
  {
    [a[0] + b[0], a[1] + b[1], a[2] + b[2]]
  }

  /** operator- on two Vec3: element-wise difference. */
  function Sub(a: Vec3, b: Vec3): (r: Vec3)
    ensures forall i :: 0 <= i < 3 ==> r[i] == a[i] - b[i]
  {
    [a[0] - b[0], a[1] - b[1], a[2] - b[2]]
  }

  /** operator* of a scalar and a Vec3. */
  function Scale(k: real, a: Vec3): (r: Vec3)
    ensures forall i :: 0 <= i < 3 ==> r[i] == k * a[i]
  {
    [k * a[0], k * a[1], k * a[2]]
  }

  lemma SubUndoesAdd(a: Vec3, b: Vec3)
    ensures Sub(Add(a, b), b) == a
  {
  }
}
