/** Rotations, unit quaternions and serial-chain forward kinematics over the reals.

Rounding is not modelled: every number is a mathematical real. The three library
functions the source calls (square root, cosine, sine) are a parameter, `Libm`, of which
only the defining equations are used. */
module Rotation {

  datatype Vec3 = Vec3(x: real, y: real, z: real)

  /** A 3x3 matrix by rows. */
  datatype Mat3 = Mat3(r0: Vec3, r1: Vec3, r2: Vec3)

  /** A quaternion, scalar part first. */
  datatype Quat = Quat(w: real, x: real, y: real, z: real)

  /** The mathematical library. */
  datatype Libm = Libm(sqrt: real -> real, cos: real -> real, sin: real -> real) {
    ghost predicate Valid() {
      && (forall a :: a >= 0.0 ==> sqrt(a) >= 0.0 && sqrt(a) * sqrt(a) == a)
      && (forall a :: cos(a) * cos(a) + sin(a) * sin(a) == 1.0)
    }
  }

  const ZERO := Vec3(0.0, 0.0, 0.0)
  const IDENTITY := Mat3(Vec3(1.0, 0.0, 0.0), Vec3(0.0, 1.0, 0.0), Vec3(0.0, 0.0, 1.0))

  /** The inner product and the two-by-two determinant on bare numbers. */
  function Inner(a: real, b: real, c: real, d: real, e: real, f: real): real { a * d + b * e + c * f }

  function Minor(a: real, b: real, c: real, d: real): real { a * d - b * c }

  function Dot(u: Vec3, v: Vec3): real { Inner(u.x, u.y, u.z, v.x, v.y, v.z) }

  function Add(u: Vec3, v: Vec3): Vec3 { Vec3(u.x + v.x, u.y + v.y, u.z + v.z) }

  function Cross(u: Vec3, v: Vec3): Vec3 {
    Vec3(Minor(u.y, u.z, v.y, v.z), Minor(u.z, u.x, v.z, v.x), Minor(u.x, u.y, v.x, v.y))
  }

  /** `u` as a row times `m`: the combination of the rows of `m` weighted by `u`. */
  function RowTimes(u: Vec3, m: Mat3): Vec3 {
    Vec3(
      Inner(u.x, u.y, u.z, m.r0.x, m.r1.x, m.r2.x),
      Inner(u.x, u.y, u.z, m.r0.y, m.r1.y, m.r2.y),
      Inner(u.x, u.y, u.z, m.r0.z, m.r1.z, m.r2.z))
  }

  /** `m @ v` */
  function Apply(m: Mat3, v: Vec3): Vec3 { Vec3(Dot(m.r0, v), Dot(m.r1, v), Dot(m.r2, v)) }

  /** `m @ n` */
  function Times(m: Mat3, n: Mat3): Mat3 {
    Mat3(RowTimes(m.r0, n), RowTimes(m.r1, n), RowTimes(m.r2, n))
  }

  function Det(m: Mat3): real { Dot(m.r2, Cross(m.r0, m.r1)) }

  /** Orthonormal rows and determinant one. */
  predicate IsRotation(m: Mat3) {
    && OrthonormalRows(m)
    && Det(m) == 1.0
  }

  predicate OrthonormalRows(m: Mat3) {
    && Dot(m.r0, m.r0) == 1.0
    && Dot(m.r1, m.r1) == 1.0
    && Dot(m.r2, m.r2) == 1.0
    && Dot(m.r0, m.r1) == 0.0
    && Dot(m.r0, m.r2) == 0.0
    && Dot(m.r1, m.r2) == 0.0
  }

  predicate OrthonormalColumns(m: Mat3) {
    && m.r0.x * m.r0.x + m.r1.x * m.r1.x + m.r2.x * m.r2.x == 1.0
    && m.r0.y * m.r0.y + m.r1.y * m.r1.y + m.r2.y * m.r2.y == 1.0
    && m.r0.z * m.r0.z + m.r1.z * m.r1.z + m.r2.z * m.r2.z == 1.0
    && m.r0.x * m.r0.y + m.r1.x * m.r1.y + m.r2.x * m.r2.y == 0.0
    && m.r0.x * m.r0.z + m.r1.x * m.r1.z + m.r2.x * m.r2.z == 0.0
    && m.r0.y * m.r0.z + m.r1.y * m.r1.z + m.r2.y * m.r2.z == 0.0
  }

  /** Every row is the cross product of the other two, in cyclic order. */
  predicate RightHanded(m: Mat3) {
    && Cross(m.r0, m.r1) == m.r2
    && Cross(m.r1, m.r2) == m.r0
    && Cross(m.r2, m.r0) == m.r1
  }

  // ----- facts about rotation matrices

  lemma ProductPositive(a: real, b: real, p: real)
    requires a > 0.0 && b > 0.0 && p == a * b
    ensures p > 0.0
  {}

  function Square(a: real): real { a * a }

  lemma SquarePositive(a: real)
    ensures Square(a) >= 0.0
    ensures a != 0.0 ==> Square(a) > 0.0
  {
    if a > 0.0 {
      ProductPositive(a, a, a * a);
    } else if a < 0.0 {
      ProductPositive(-a, -a, a * a);
    }
  }

  /** A unit vector whose inner product with another unit vector is one is that vector. */
  lemma UnitsAligned(u: Vec3, v: Vec3)
    requires Dot(u, u) == 1.0 && Dot(v, v) == 1.0 && Dot(u, v) == 1.0
    ensures u == v
  {
    var a, b, c := u.x - v.x, u.y - v.y, u.z - v.z;
    assert a * a + b * b + c * c == Dot(u, u) - 2.0 * Dot(u, v) + Dot(v, v);
    SquarePositive(a);
    SquarePositive(b);
    SquarePositive(c);
  }

  lemma Lagrange(u: Vec3, v: Vec3)
    ensures Dot(Cross(u, v), Cross(u, v)) == Dot(u, u) * Dot(v, v) - Dot(u, v) * Dot(u, v)
  {
    var (a, b, c, d, e, f) := (u.x, u.y, u.z, v.x, v.y, v.z);
    assert Inner(b * f - c * e, c * d - a * f, a * e - b * d, b * f - c * e, c * d - a * f, a * e - b * d)
        == (a * a + b * b + c * c) * (d * d + e * e + f * f) - (a * d + b * e + c * f) * (a * d + b * e + c * f);
  }

  lemma Cyclic(u: Vec3, v: Vec3, t: Vec3)
    ensures Dot(t, Cross(u, v)) == Dot(u, Cross(v, t))
  {
    var (a, b, c, d, e, f) := (u.x, u.y, u.z, v.x, v.y, v.z);
    assert Inner(t.x, t.y, t.z, b * f - c * e, c * d - a * f, a * e - b * d)
        == Inner(a, b, c, e * t.z - f * t.y, f * t.x - d * t.z, d * t.y - e * t.x);
  }

  lemma RotationRightHanded(m: Mat3)
    requires IsRotation(m)
    ensures RightHanded(m)
  {
    Lagrange(m.r0, m.r1);
    Lagrange(m.r1, m.r2);
    Lagrange(m.r2, m.r0);
    Cyclic(m.r0, m.r1, m.r2);
    Cyclic(m.r1, m.r2, m.r0);
    UnitsAligned(m.r2, Cross(m.r0, m.r1));
    UnitsAligned(m.r0, Cross(m.r1, m.r2));
    UnitsAligned(m.r1, Cross(m.r2, m.r0));
  }

  /** The determinant does not care whether it is expanded by rows or by columns, so the
  columns of a rotation are orthonormal too. */
  lemma RotationColumns(m: Mat3)
    requires IsRotation(m)
    ensures OrthonormalColumns(m)
  {
    RotationRightHanded(m);
    var Mat3(a, b, c) := m;
    ExpandColumn(a.x, b.x, c.x, a.y, b.y, c.y, a.z, b.z, c.z);
    ExpandColumn(a.y, b.y, c.y, a.z, b.z, c.z, a.x, b.x, c.x);
    ExpandColumn(a.z, b.z, c.z, a.x, b.x, c.x, a.y, b.y, c.y);
  }

  /** One column against the cofactors of its own and of the next column. */
  lemma ExpandColumn(p1: real, p2: real, p3: real, q1: real, q2: real, q3: real, r1: real, r2: real, r3: real)
    requires p1 == q2 * r3 - r2 * q3 && p2 == q3 * r1 - r3 * q1 && p3 == q1 * r2 - r1 * q2
    requires p3 * (q1 * r2 - r1 * q2) + q3 * (r1 * p2 - p1 * r2) + r3 * (p1 * q2 - q1 * p2) == 1.0
    ensures p1 * p1 + p2 * p2 + p3 * p3 == 1.0
    ensures q1 * p1 + q2 * p2 + q3 * p3 == 0.0
  {
    assert p1 * (q2 * r3 - r2 * q3) + p2 * (q3 * r1 - r3 * q1) + p3 * (q1 * r2 - r1 * q2) == 1.0;
    assert q1 * (q2 * r3 - r2 * q3) + q2 * (q3 * r1 - r3 * q1) + q3 * (q1 * r2 - r1 * q2) == 0.0;
  }

  function Scale(k: real, u: Vec3): Vec3 { Vec3(k * u.x, k * u.y, k * u.z) }

  lemma RowTimesDotLinear(u: Vec3, m: Mat3, t: Vec3)
    ensures Dot(RowTimes(u, m), t) == u.x * Dot(m.r0, t) + u.y * Dot(m.r1, t) + u.z * Dot(m.r2, t)
  {}

  lemma RowTimesDot(u: Vec3, v: Vec3, m: Mat3)
    requires OrthonormalRows(m)
    ensures Dot(RowTimes(u, m), RowTimes(v, m)) == Dot(u, v)
  {
    RowTimesDotLinear(v, m, m.r0);
    RowTimesDotLinear(v, m, m.r1);
    RowTimesDotLinear(v, m, m.r2);
    RowTimesDotLinear(u, m, RowTimes(v, m));
  }

  lemma CrossComponent(u: Vec3, a1: real, a2: real, b1: real, b2: real, c1: real, c2: real, t1: real, t2: real,
                       p1: real, p2: real, d: real, e: real, f: real)
    requires p1 == u.x * a1 + u.y * b1 + u.z * c1 && p2 == u.x * a2 + u.y * b2 + u.z * c2
    requires d == a1 * t2 - a2 * t1 && e == b1 * t2 - b2 * t1 && f == c1 * t2 - c2 * t1
    ensures p1 * t2 - p2 * t1 == u.x * d + u.y * e + u.z * f
  {}

  lemma CrossCollect(u: Vec3, v: Vec3, t: Vec3, a: real, b: real, c: real, d: real, e: real, f: real)
    requires t == Cross(u, v)
    requires d == v.y * c - v.z * b && e == v.z * a - v.x * c && f == v.x * b - v.y * a
    ensures u.x * d + u.y * e + u.z * f == t.x * a + t.y * b + t.z * c
  {
    assert t.x * a == (u.y * v.z - u.z * v.y) * a;
    assert t.y * b == (u.z * v.x - u.x * v.z) * b;
    assert t.z * c == (u.x * v.y - u.y * v.x) * c;
  }

  /** One component of the cross product of two rows carried through a right-handed frame. */
  lemma CrossRow(u: Vec3, v: Vec3, t: Vec3, a1: real, a2: real, b1: real, b2: real, c1: real, c2: real,
                 a: real, b: real, c: real, p1: real, p2: real, q1: real, q2: real)
    requires t == Cross(u, v)
    requires p1 == u.x * a1 + u.y * b1 + u.z * c1 && p2 == u.x * a2 + u.y * b2 + u.z * c2
    requires q1 == v.x * a1 + v.y * b1 + v.z * c1 && q2 == v.x * a2 + v.y * b2 + v.z * c2
    requires a == b1 * c2 - b2 * c1 && b == c1 * a2 - c2 * a1 && c == a1 * b2 - a2 * b1
    ensures p1 * q2 - p2 * q1 == t.x * a + t.y * b + t.z * c
  {
    var d, e, f := a1 * q2 - a2 * q1, b1 * q2 - b2 * q1, c1 * q2 - c2 * q1;
    CrossComponent(u, a1, a2, b1, b2, c1, c2, q1, q2, p1, p2, d, e, f);
    CrossComponent(v, a1, a2, b1, b2, c1, c2, a1, a2, q1, q2, 0.0, -c, b);
    CrossComponent(v, a1, a2, b1, b2, c1, c2, b1, b2, q1, q2, c, 0.0, -a);
    CrossComponent(v, a1, a2, b1, b2, c1, c2, c1, c2, q1, q2, -b, a, 0.0);
    CrossCollect(u, v, t, a, b, c, d, e, f);
  }

  lemma RowTimesCrossX(u: Vec3, v: Vec3, t: Vec3, m: Mat3)
    requires RightHanded(m) && t == Cross(u, v)
    ensures Cross(RowTimes(u, m), RowTimes(v, m)).x == RowTimes(t, m).x
  {
    var Mat3(a, b, c) := m;
    var p, q := RowTimes(u, m), RowTimes(v, m);
    CrossRow(u, v, t, a.y, a.z, b.y, b.z, c.y, c.z, a.x, b.x, c.x, p.y, p.z, q.y, q.z);
  }

  lemma RowTimesCrossY(u: Vec3, v: Vec3, t: Vec3, m: Mat3)
    requires RightHanded(m) && t == Cross(u, v)
    ensures Cross(RowTimes(u, m), RowTimes(v, m)).y == RowTimes(t, m).y
  {
    var Mat3(a, b, c) := m;
    var p, q := RowTimes(u, m), RowTimes(v, m);
    CrossRow(u, v, t, a.z, a.x, b.z, b.x, c.z, c.x, a.y, b.y, c.y, p.z, p.x, q.z, q.x);
  }

  lemma RowTimesCrossZ(u: Vec3, v: Vec3, t: Vec3, m: Mat3)
    requires RightHanded(m) && t == Cross(u, v)
    ensures Cross(RowTimes(u, m), RowTimes(v, m)).z == RowTimes(t, m).z
  {
    var Mat3(a, b, c) := m;
    var p, q := RowTimes(u, m), RowTimes(v, m);
    CrossRow(u, v, t, a.x, a.y, b.x, b.y, c.x, c.y, a.z, b.z, c.z, p.x, p.y, q.x, q.y);
  }

  /** The cross product turns with the frame. */
  lemma RowTimesCross(u: Vec3, v: Vec3, t: Vec3, m: Mat3)
    requires RightHanded(m) && t == Cross(u, v)
    ensures Cross(RowTimes(u, m), RowTimes(v, m)) == RowTimes(t, m)
  {
    RowTimesCrossX(u, v, t, m);
    RowTimesCrossY(u, v, t, m);
    RowTimesCrossZ(u, v, t, m);
  }

  /** Rotations are closed under the matrix product. */
  lemma TimesRotation(m: Mat3, n: Mat3)
    requires IsRotation(m) && IsRotation(n)
    ensures IsRotation(Times(m, n))
  {
    RowTimesDot(m.r0, m.r0, n);
    RowTimesDot(m.r1, m.r1, n);
    RowTimesDot(m.r2, m.r2, n);
    RowTimesDot(m.r0, m.r1, n);
    RowTimesDot(m.r0, m.r2, n);
    RowTimesDot(m.r1, m.r2, n);
    RotationRightHanded(m);
    RotationRightHanded(n);
    RowTimesCross(m.r0, m.r1, m.r2, n);
  }

  lemma TimesAssociative(a: Mat3, b: Mat3, c: Mat3)
    ensures Times(Times(a, b), c) == Times(a, Times(b, c))
  {
    RowTimesAssociative(a.r0, b, c);
    RowTimesAssociative(a.r1, b, c);
    RowTimesAssociative(a.r2, b, c);
  }

  lemma RowTimesAssociative(u: Vec3, b: Mat3, c: Mat3)
    ensures RowTimes(RowTimes(u, b), c) == RowTimes(u, Times(b, c))
  {
    var p, d, l, r := RowTimes(u, b), Times(b, c), RowTimes(RowTimes(u, b), c), RowTimes(u, Times(b, c));
    assert l.x == r.x by {
      SumSwap(u, b, p, Vec3(c.r0.x, c.r1.x, c.r2.x), Vec3(d.r0.x, d.r1.x, d.r2.x));
    }
    assert l.y == r.y by {
      SumSwap(u, b, p, Vec3(c.r0.y, c.r1.y, c.r2.y), Vec3(d.r0.y, d.r1.y, d.r2.y));
    }
    assert l.z == r.z by {
      SumSwap(u, b, p, Vec3(c.r0.z, c.r1.z, c.r2.z), Vec3(d.r0.z, d.r1.z, d.r2.z));
    }
  }

  /** `(u @ b) . t == u . (b @ t)`, with both inner results named. */
  lemma SumSwap(u: Vec3, b: Mat3, p: Vec3, t: Vec3, d: Vec3)
    requires p == RowTimes(u, b) && d == Apply(b, t)
    ensures Dot(p, t) == Dot(u, d)
  {
    RowTimesDotLinear(u, b, t);
  }

  lemma ApplyTimes(a: Mat3, b: Mat3, v: Vec3)
    ensures Apply(Times(a, b), v) == Apply(a, Apply(b, v))
  {
    DotRowTimes(a.r0, b, v);
    DotRowTimes(a.r1, b, v);
    DotRowTimes(a.r2, b, v);
  }

  lemma DotRowTimes(u: Vec3, b: Mat3, v: Vec3)
    ensures Dot(RowTimes(u, b), v) == Dot(u, Apply(b, v))
  {}

  lemma ApplyAdd(a: Mat3, u: Vec3, v: Vec3)
    ensures Apply(a, Add(u, v)) == Add(Apply(a, u), Apply(a, v))
  {}

  // ----- roll, pitch, yaw

  function RotX(c: real, s: real): Mat3 {
    Mat3(Vec3(1.0, 0.0, 0.0), Vec3(0.0, c, -s), Vec3(0.0, s, c))
  }

  function RotY(c: real, s: real): Mat3 {
    Mat3(Vec3(c, 0.0, s), Vec3(0.0, 1.0, 0.0), Vec3(-s, 0.0, c))
  }

  function RotZ(c: real, s: real): Mat3 {
    Mat3(Vec3(c, -s, 0.0), Vec3(s, c, 0.0), Vec3(0.0, 0.0, 1.0))
  }

  /** `Rz(yaw) @ Ry(pitch) @ Rx(roll)` */
  function RpyMatrix(m: Libm, rpy: Vec3): Mat3 {
    Times(
      Times(RotZ(m.cos(rpy.z), m.sin(rpy.z)), RotY(m.cos(rpy.y), m.sin(rpy.y))),
      RotX(m.cos(rpy.x), m.sin(rpy.x)))
  }

  lemma AxisX(c: real, s: real)
    requires c * c + s * s == 1.0
    ensures IsRotation(RotX(c, s))
  {}

  lemma AxisY(c: real, s: real)
    requires c * c + s * s == 1.0
    ensures IsRotation(RotY(c, s))
  {}

  lemma AxisZ(c: real, s: real)
    requires c * c + s * s == 1.0
    ensures IsRotation(RotZ(c, s))
  {}

  lemma TurnsRotate(m: Libm, a: real)
    requires m.Valid()
    ensures IsRotation(RotX(m.cos(a), m.sin(a)))
    ensures IsRotation(RotY(m.cos(a), m.sin(a)))
    ensures IsRotation(RotZ(m.cos(a), m.sin(a)))
  {
    var c, s := m.cos(a), m.sin(a);
    AxisX(c, s);
    AxisY(c, s);
    AxisZ(c, s);
  }

  lemma RpyFromTurns(m: Libm, rpy: Vec3)
    requires IsRotation(RotZ(m.cos(rpy.z), m.sin(rpy.z)))
    requires IsRotation(RotY(m.cos(rpy.y), m.sin(rpy.y)))
    requires IsRotation(RotX(m.cos(rpy.x), m.sin(rpy.x)))
    ensures IsRotation(RpyMatrix(m, rpy))
  {
    var z, y, x :=
      RotZ(m.cos(rpy.z), m.sin(rpy.z)), RotY(m.cos(rpy.y), m.sin(rpy.y)), RotX(m.cos(rpy.x), m.sin(rpy.x));
    TimesRotation(z, y);
    TimesRotation(Times(z, y), x);
  }

  /** Roll, pitch and yaw always make a rotation. */
  lemma RpyRotation(m: Libm, rpy: Vec3)
    requires m.Valid()
    ensures IsRotation(RpyMatrix(m, rpy))
  {
    TurnsRotate(m, rpy.x);
    TurnsRotate(m, rpy.y);
    TurnsRotate(m, rpy.z);
    RpyFromTurns(m, rpy);
  }
}
