/** Rotation matrices to unit quaternions (scalar first) and back. */
module Quaternion {
  import opened Rotation

  /** Four times the outer product of a unit quaternion with itself, read off the rotation
  matrix it stands for: the ten products `4 * q_i * q_j`. */
  datatype Gram = Gram(
    ww: real, xx: real, yy: real, zz: real,
    wx: real, wy: real, wz: real, xy: real, xz: real, yz: real)

  function GramOf(m: Mat3): Gram {
    Gram(
      1.0 + m.r0.x + m.r1.y + m.r2.z, 1.0 + m.r0.x - m.r1.y - m.r2.z,
      1.0 + m.r1.y - m.r0.x - m.r2.z, 1.0 + m.r2.z - m.r0.x - m.r1.y,
      m.r2.y - m.r1.z, m.r0.z - m.r2.x, m.r1.x - m.r0.y,
      m.r0.y + m.r1.x, m.r0.z + m.r2.x, m.r1.z + m.r2.y)
  }

  /** The square a branch takes the root of. */
  function Pivot(m: Mat3): (n: real)
    ensures n >= 1.0
  {
    if m.r0.x + m.r1.y + m.r2.z > 0.0 then m.r0.x + m.r1.y + m.r2.z + 1.0
    else if m.r0.x > m.r1.y && m.r0.x > m.r2.z then 1.0 + m.r0.x - m.r1.y - m.r2.z
    else if m.r1.y > m.r2.z then 1.0 + m.r1.y - m.r0.x - m.r2.z
    else 1.0 + m.r2.z - m.r0.x - m.r1.y
  }

  function Divisor(lib: Libm, m: Mat3): real { lib.sqrt(Pivot(m)) * 2.0 }

  /** Whatever the matrix, no branch divides by less than two. */
  lemma DivisorAtLeastTwo(lib: Libm, m: Mat3)
    requires lib.Valid()
    ensures Divisor(lib, m) >= 2.0
  {
    RootAtLeastOne(lib.sqrt(Pivot(m)), Pivot(m));
  }

  lemma RootAtLeastOne(r: real, n: real)
    requires r >= 0.0 && r * r == n && n >= 1.0
    ensures r >= 1.0
  {
    if r < 1.0 {
      ProductPositive(1.0 - r, 1.0 + r, 1.0 - n);
    }
  }

  /** `quaternion_wxyz`: the branch with the safe divisor, scalar part first. */
  function QuaternionWxyz(lib: Libm, m: Mat3): Quat
    requires lib.Valid()
  {
    var s := Divisor(lib, m);
    DivisorAtLeastTwo(lib, m);
    if m.r0.x + m.r1.y + m.r2.z > 0.0 then
      Quat(0.25 * s, (m.r2.y - m.r1.z) / s, (m.r0.z - m.r2.x) / s, (m.r1.x - m.r0.y) / s)
    else if m.r0.x > m.r1.y && m.r0.x > m.r2.z then
      Quat((m.r2.y - m.r1.z) / s, 0.25 * s, (m.r0.y + m.r1.x) / s, (m.r0.z + m.r2.x) / s)
    else if m.r1.y > m.r2.z then
      Quat((m.r0.z - m.r2.x) / s, (m.r0.y + m.r1.x) / s, 0.25 * s, (m.r1.z + m.r2.y) / s)
    else
      Quat((m.r1.x - m.r0.y) / s, (m.r0.z + m.r2.x) / s, (m.r1.z + m.r2.y) / s, 0.25 * s)
  }

  function Diagonal(y: real, z: real): real { 1.0 - 2.0 * (y * y + z * z) }

  function Sum(x: real, y: real, z: real, w: real): real { 2.0 * (x * y + z * w) }

  function Dif(x: real, y: real, z: real, w: real): real { 2.0 * (x * y - z * w) }

  /** The diagonal of a unit quaternion's matrix, as a form of degree two. */
  function Even(w: real, x: real, y: real, z: real): real { w * w + x * x - y * y - z * z }

  /** The rotation block of `_pose_matrix`. */
  function PoseMatrix(q: Quat): Mat3 {
    Mat3(
      Vec3(Diagonal(q.y, q.z), Dif(q.x, q.y, q.z, q.w), Sum(q.x, q.z, q.y, q.w)),
      Vec3(Sum(q.y, q.x, q.z, q.w), Diagonal(q.z, q.x), Dif(q.y, q.z, q.x, q.w)),
      Vec3(Dif(q.z, q.x, q.y, q.w), Sum(q.z, q.y, q.x, q.w), Diagonal(q.x, q.y)))
  }

  /** `_multiply_quaternion` */
  function Multiply(l: Quat, r: Quat): Quat {
    Quat(
      l.w * r.w - l.x * r.x - l.y * r.y - l.z * r.z,
      l.w * r.x + l.x * r.w + l.y * r.z - l.z * r.y,
      l.w * r.y - l.x * r.z + l.y * r.w + l.z * r.x,
      l.w * r.z + l.x * r.y - l.y * r.x + l.z * r.w)
  }

  function SquareSum(w: real, x: real, y: real, z: real): real { w * w + x * x + y * y + z * z }

  function Norm2(q: Quat): real { SquareSum(q.w, q.x, q.y, q.z) }

  predicate IsUnit(q: Quat) { Norm2(q) == 1.0 }

  function Negate(q: Quat): Quat { Quat(-q.w, -q.x, -q.y, -q.z) }

  // ----- the ten products determine everything

  /** The six minors with a diagonal entry that one cyclic choice of axes gives. */
  predicate MinorsVanish(ww: real, xx: real, yy: real, wx: real, wy: real, wz: real, xy: real, xz: real, yz: real) {
    && wx * wx == ww * xx
    && xy * xy == xx * yy
    && wx * wy == ww * xy
    && wx * xy == xx * wy
    && wx * xz == xx * wz
    && xy * xz == xx * yz
  }

  /** Every two-by-two minor of the table that involves a diagonal entry vanishes. */
  predicate RankOne(g: Gram) {
    && MinorsVanish(g.ww, g.xx, g.yy, g.wx, g.wy, g.wz, g.xy, g.xz, g.yz)
    && MinorsVanish(g.ww, g.yy, g.zz, g.wy, g.wz, g.wx, g.yz, g.xy, g.xz)
    && MinorsVanish(g.ww, g.zz, g.xx, g.wz, g.wx, g.wy, g.xz, g.yz, g.xy)
  }

  /** Orthonormal rows and columns, each entry its own cofactor. */
  predicate Axes(a1: real, a2: real, a3: real, b1: real, b2: real, b3: real, c1: real, c2: real, c3: real) {
    && a1 * a1 + a2 * a2 + a3 * a3 == 1.0 && b1 * b1 + b2 * b2 + b3 * b3 == 1.0 && c1 * c1 + c2 * c2 + c3 * c3 == 1.0
    && a1 * b1 + a2 * b2 + a3 * b3 == 0.0 && a1 * c1 + a2 * c2 + a3 * c3 == 0.0 && b1 * c1 + b2 * c2 + b3 * c3 == 0.0
    && a1 * a1 + b1 * b1 + c1 * c1 == 1.0 && a2 * a2 + b2 * b2 + c2 * c2 == 1.0 && a3 * a3 + b3 * b3 + c3 * c3 == 1.0
    && a1 * a2 + b1 * b2 + c1 * c2 == 0.0 && a1 * a3 + b1 * b3 + c1 * c3 == 0.0 && a2 * a3 + b2 * b3 + c2 * c3 == 0.0
    && a1 == b2 * c3 - b3 * c2 && a2 == b3 * c1 - b1 * c3 && a3 == b1 * c2 - b2 * c1
    && b1 == c2 * a3 - c3 * a2 && b2 == c3 * a1 - c1 * a3 && b3 == c1 * a2 - c2 * a1
    && c1 == a2 * b3 - a3 * b2 && c2 == a3 * b1 - a1 * b3 && c3 == a1 * b2 - a2 * b1
  }

  lemma MinorWX(a1: real, b2: real, b3: real, c2: real, c3: real, bb: real, cc: real, ww: real, xx: real, wx: real)
    requires bb + b2 * b2 + b3 * b3 == 1.0 && cc + c2 * c2 + c3 * c3 == 1.0 && a1 * a1 + bb + cc == 1.0
    requires a1 == b2 * c3 - b3 * c2
    requires ww == 1.0 + a1 + b2 + c3 && xx == 1.0 + a1 - b2 - c3 && wx == c2 - b3
    ensures wx * wx == ww * xx
  {
    assert wx * wx == (c2 - b3) * (c2 - b3);
    assert ww * xx == (1.0 + a1 + b2 + c3) * (1.0 + a1 - b2 - c3);
  }

  lemma MinorXY(a1: real, a2: real, b1: real, b2: real, c3: real, aa: real, bb: real, xx: real, yy: real, xy: real)
    requires a1 * a1 + a2 * a2 + aa == 1.0 && b1 * b1 + b2 * b2 + bb == 1.0 && aa + bb + c3 * c3 == 1.0
    requires c3 == a1 * b2 - a2 * b1
    requires xx == 1.0 + a1 - b2 - c3 && yy == 1.0 + b2 - a1 - c3 && xy == a2 + b1
    ensures xy * xy == xx * yy
  {
    assert xy * xy == (a2 + b1) * (a2 + b1);
    assert xx * yy == (1.0 + a1 - b2 - c3) * (1.0 + b2 - a1 - c3);
  }

  lemma MinorWXWY(a1: real, a2: real, a3: real, b1: real, b2: real, b3: real, c1: real, c2: real, c3: real,
                  ww: real, xy: real, wx: real, wy: real)
    requires a1 * b1 + a2 * b2 + a3 * b3 == 0.0 && a1 * a2 + b1 * b2 + c1 * c2 == 0.0
    requires a2 == b3 * c1 - b1 * c3 && b1 == c2 * a3 - c3 * a2
    requires ww == 1.0 + a1 + b2 + c3 && xy == a2 + b1 && wx == c2 - b3 && wy == a3 - c1
    ensures wx * wy == ww * xy
  {
    assert wx * wy == (c2 - b3) * (a3 - c1);
    assert ww * xy == (1.0 + a1 + b2 + c3) * (a2 + b1);
  }

  lemma MinorWXXY(a1: real, a2: real, a3: real, b1: real, b2: real, b3: real, c1: real, c2: real, c3: real,
                  xx: real, wy: real, wx: real, xy: real)
    requires a1 * c1 + a2 * c2 + a3 * c3 == 0.0 && a1 * a3 + b1 * b3 + c1 * c3 == 0.0
    requires a3 == b1 * c2 - b2 * c1 && c1 == a2 * b3 - a3 * b2
    requires xx == 1.0 + a1 - b2 - c3 && wy == a3 - c1 && wx == c2 - b3 && xy == a2 + b1
    ensures wx * xy == xx * wy
  {
    assert wx * xy == (c2 - b3) * (a2 + b1);
    assert xx * wy == (1.0 + a1 - b2 - c3) * (a3 - c1);
  }

  lemma MinorWXXZ(a1: real, a2: real, a3: real, b1: real, b2: real, b3: real, c1: real, c2: real, c3: real,
                  xx: real, wz: real, wx: real, xz: real)
    requires a1 * b1 + a2 * b2 + a3 * b3 == 0.0 && a1 * a2 + b1 * b2 + c1 * c2 == 0.0
    requires a2 == b3 * c1 - b1 * c3 && b1 == c2 * a3 - c3 * a2
    requires xx == 1.0 + a1 - b2 - c3 && wz == b1 - a2 && wx == c2 - b3 && xz == a3 + c1
    ensures wx * xz == xx * wz
  {
    assert wx * xz == (c2 - b3) * (a3 + c1);
    assert xx * wz == (1.0 + a1 - b2 - c3) * (b1 - a2);
  }

  lemma MinorXYXZ(a1: real, a2: real, a3: real, b1: real, b2: real, b3: real, c1: real, c2: real, c3: real,
                  xx: real, yz: real, xy: real, xz: real)
    requires a2 * a3 + b2 * b3 + c2 * c3 == 0.0 && b1 * c1 + b2 * c2 + b3 * c3 == 0.0
    requires b3 == c1 * a2 - c2 * a1 && c2 == a3 * b1 - a1 * b3
    requires xx == 1.0 + a1 - b2 - c3 && yz == b3 + c2 && xy == a2 + b1 && xz == a3 + c1
    ensures xy * xz == xx * yz
  {
    assert xy * xz == (a2 + b1) * (a3 + c1);
    assert xx * yz == (1.0 + a1 - b2 - c3) * (b3 + c2);
  }

  lemma AxesMinors(a1: real, a2: real, a3: real, b1: real, b2: real, b3: real, c1: real, c2: real, c3: real,
                   ww: real, xx: real, yy: real, wx: real, wy: real, wz: real, xy: real, xz: real, yz: real)
    requires Axes(a1, a2, a3, b1, b2, b3, c1, c2, c3)
    requires ww == 1.0 + a1 + b2 + c3 && xx == 1.0 + a1 - b2 - c3 && yy == 1.0 + b2 - a1 - c3
    requires wx == c2 - b3 && wy == a3 - c1 && wz == b1 - a2 && xy == a2 + b1 && xz == a3 + c1 && yz == b3 + c2
    ensures MinorsVanish(ww, xx, yy, wx, wy, wz, xy, xz, yz)
  {
    assert wx * wx == ww * xx by { MinorWX(a1, b2, b3, c2, c3, b1 * b1, c1 * c1, ww, xx, wx); }
    assert xy * xy == xx * yy by { MinorXY(a1, a2, b1, b2, c3, a3 * a3, b3 * b3, xx, yy, xy); }
    assert wx * wy == ww * xy by { MinorWXWY(a1, a2, a3, b1, b2, b3, c1, c2, c3, ww, xy, wx, wy); }
    assert wx * xy == xx * wy by { MinorWXXY(a1, a2, a3, b1, b2, b3, c1, c2, c3, xx, wy, wx, xy); }
    assert wx * xz == xx * wz by { MinorWXXZ(a1, a2, a3, b1, b2, b3, c1, c2, c3, xx, wz, wx, xz); }
    assert xy * xz == xx * yz by { MinorXYXZ(a1, a2, a3, b1, b2, b3, c1, c2, c3, xx, yz, xy, xz); }
  }

  lemma AxesCycle(a1: real, a2: real, a3: real, b1: real, b2: real, b3: real, c1: real, c2: real, c3: real)
    requires Axes(a1, a2, a3, b1, b2, b3, c1, c2, c3)
    ensures Axes(b2, b3, b1, c2, c3, c1, a2, a3, a1)
  {}

  lemma RotationAxes(m: Mat3)
    requires IsRotation(m)
    ensures Axes(m.r0.x, m.r0.y, m.r0.z, m.r1.x, m.r1.y, m.r1.z, m.r2.x, m.r2.y, m.r2.z)
  {
    RotationRightHanded(m);
    RotationColumns(m);
  }

  lemma RotationRankOne(m: Mat3)
    requires IsRotation(m)
    ensures RankOne(GramOf(m))
  {
    var Mat3(Vec3(a1, a2, a3), Vec3(b1, b2, b3), Vec3(c1, c2, c3)) := m;
    var Gram(ww, xx, yy, zz, wx, wy, wz, xy, xz, yz) := GramOf(m);
    assert MinorsVanish(ww, xx, yy, wx, wy, wz, xy, xz, yz) by {
      RotationAxes(m);
      AxesMinors(a1, a2, a3, b1, b2, b3, c1, c2, c3, ww, xx, yy, wx, wy, wz, xy, xz, yz);
    }
    assert MinorsVanish(ww, yy, zz, wy, wz, wx, yz, xy, xz) by {
      RotationAxes(m);
      AxesCycle(a1, a2, a3, b1, b2, b3, c1, c2, c3);
      AxesMinors(b2, b3, b1, c2, c3, c1, a2, a3, a1, ww, yy, zz, wy, wz, wx, yz, xy, xz);
    }
    assert MinorsVanish(ww, zz, xx, wz, wx, wy, xz, yz, xy) by {
      RotationAxes(m);
      AxesCycle(a1, a2, a3, b1, b2, b3, c1, c2, c3);
      AxesCycle(b2, b3, b1, c2, c3, c1, a2, a3, a1);
      AxesMinors(c3, c1, c2, a3, a1, a2, b3, b1, b2, ww, zz, xx, wz, wx, wy, xz, yz, xy);
    }
  }

  // ----- matrix to quaternion and back

  /** The ten products of four numbers, each times four. */
  predicate Products(pp: real, pu: real, pv: real, pt: real, uu: real, vv: real, tt: real, uv: real, ut: real, vt: real,
                     p: real, u: real, v: real, t: real) {
    && 4.0 * p * p == pp && 4.0 * p * u == pu && 4.0 * p * v == pv && 4.0 * p * t == pt
    && 4.0 * u * u == uu && 4.0 * v * v == vv && 4.0 * t * t == tt
    && 4.0 * u * v == uv && 4.0 * u * t == ut && 4.0 * v * t == vt
  }

  predicate IsGram(g: Gram, q: Quat) {
    Products(g.ww, g.wx, g.wy, g.wz, g.xx, g.yy, g.zz, g.xy, g.xz, g.yz, q.w, q.x, q.y, q.z)
  }

  /** The minors on one pivot. */
  predicate PivotMinors(n: real, a: real, b: real, c: real, aa: real, bb: real, cc: real, ab: real, ac: real,
                        bc: real) {
    && a * a == n * aa && b * b == n * bb && c * c == n * cc
    && a * b == n * ab && a * c == n * ac && b * c == n * bc
  }

  lemma RankOnePivots(g: Gram)
    requires RankOne(g)
    ensures PivotMinors(g.ww, g.wx, g.wy, g.wz, g.xx, g.yy, g.zz, g.xy, g.xz, g.yz)
    ensures PivotMinors(g.xx, g.wx, g.xy, g.xz, g.ww, g.yy, g.zz, g.wy, g.wz, g.yz)
    ensures PivotMinors(g.yy, g.wy, g.xy, g.yz, g.ww, g.xx, g.zz, g.wx, g.wz, g.xz)
    ensures PivotMinors(g.zz, g.wz, g.xz, g.yz, g.ww, g.xx, g.yy, g.wx, g.wy, g.xy)
  {}

  lemma Cancel(n: real, x: real, p: real)
    requires n > 0.0 && p == n * x && p == 0.0
    ensures x == 0.0
  {
    if x > 0.0 {
      ProductPositive(n, x, p);
    } else if x < 0.0 {
      ProductPositive(n, -x, -p);
    }
  }

  lemma Quotients(s: real, n: real, k: real, l: real, e: real, p: real, o: real)
    requires n >= 1.0 && s * s == 4.0 * n && k == p * s && l == o * s && k * l == n * e
    ensures 4.0 * p * o == e
  {
    assert k * l == (p * s) * (o * s);
    assert (p * s) * (o * s) == (p * o) * (s * s);
    assert (p * o) * (s * s) == (p * o) * (4.0 * n);
    Cancel(n, 4.0 * p * o - e, k * l - n * e);
  }

  lemma PivotProduct(s: real, k: real, p: real, u: real)
    requires p == 0.25 * s && k == u * s
    ensures 4.0 * p * u == k
  {
    assert 4.0 * p * u == s * u;
  }

  /** The pivot is a quarter of the divisor, every other component a table entry over it. */
  lemma PivotTable(s: real, n: real, a: real, b: real, c: real, aa: real, bb: real, cc: real, ab: real, ac: real,
                   bc: real,
                   p: real, u: real, v: real, t: real)
    requires n >= 1.0 && s * s == 4.0 * n && p == 0.25 * s && a == u * s && b == v * s && c == t * s
    requires PivotMinors(n, a, b, c, aa, bb, cc, ab, ac, bc)
    ensures Products(n, a, b, c, aa, bb, cc, ab, ac, bc, p, u, v, t)
  {
    assert p * s == 0.25 * (s * s);
    PivotProduct(s, n, p, p);
    PivotProduct(s, a, p, u);
    PivotProduct(s, b, p, v);
    PivotProduct(s, c, p, t);
    Quotients(s, n, a, a, aa, u, u);
    Quotients(s, n, b, b, bb, v, v);
    Quotients(s, n, c, c, cc, t, t);
    Quotients(s, n, a, b, ab, u, v);
    Quotients(s, n, a, c, ac, u, t);
    Quotients(s, n, b, c, bc, v, t);
  }

  lemma DivisorSquare(lib: Libm, m: Mat3, s: real)
    requires lib.Valid() && s == Divisor(lib, m)
    ensures s * s == 4.0 * Pivot(m)
  {
    var r := lib.sqrt(Pivot(m));
    assert s * s == (r * 2.0) * (r * 2.0);
    assert (r * 2.0) * (r * 2.0) == 4.0 * (r * r);
  }

  lemma Repivot(pp: real, pu: real, pv: real, pt: real, uu: real, vv: real, tt: real, uv: real, ut: real, vt: real,
                p: real, u: real, v: real, t: real)
    requires Products(pp, pu, pv, pt, uu, vv, tt, uv, ut, vt, p, u, v, t)
    ensures Products(uu, pu, uv, ut, pp, vv, tt, pv, pt, vt, u, p, v, t)
    ensures Products(vv, pv, uv, vt, pp, uu, tt, pu, pt, ut, v, p, u, t)
    ensures Products(tt, pt, ut, vt, pp, uu, vv, pu, pv, uv, t, p, u, v)
  {}

  /** The inverse arrangements: the second, third or fourth number was the pivot. */
  lemma Unpivot(pp: real, pu: real, pv: real, pt: real, uu: real, vv: real, tt: real, uv: real, ut: real, vt: real,
                p: real, u: real, v: real, t: real)
    requires Products(pp, pu, pv, pt, uu, vv, tt, uv, ut, vt, p, u, v, t)
    ensures Products(uu, pu, uv, ut, pp, vv, tt, pv, pt, vt, u, p, v, t)
    ensures Products(uu, uv, pu, ut, vv, pp, tt, pv, vt, pt, u, v, p, t)
    ensures Products(uu, uv, ut, pu, vv, tt, pp, vt, pv, pt, u, v, t, p)
  {}

  lemma PivotAtW(g: Gram, s: real, q: Quat)
    requires PivotMinors(g.ww, g.wx, g.wy, g.wz, g.xx, g.yy, g.zz, g.xy, g.xz, g.yz)
    requires s >= 2.0 && g.ww >= 1.0 && s * s == 4.0 * g.ww
    requires q.w == 0.25 * s && q.x == g.wx / s && q.y == g.wy / s && q.z == g.wz / s
    ensures IsGram(g, q)
  {
    QuotientTimes(g.wx, s, q.x);
    QuotientTimes(g.wy, s, q.y);
    QuotientTimes(g.wz, s, q.z);
    PivotTable(s, g.ww, g.wx, g.wy, g.wz, g.xx, g.yy, g.zz, g.xy, g.xz, g.yz, q.w, q.x, q.y, q.z);
  }

  lemma PivotAtX(g: Gram, s: real, q: Quat)
    requires PivotMinors(g.xx, g.wx, g.xy, g.xz, g.ww, g.yy, g.zz, g.wy, g.wz, g.yz)
    requires s >= 2.0 && g.xx >= 1.0 && s * s == 4.0 * g.xx
    requires q.x == 0.25 * s && q.w == g.wx / s && q.y == g.xy / s && q.z == g.xz / s
    ensures IsGram(g, q)
  {
    QuotientTimes(g.wx, s, q.w);
    QuotientTimes(g.xy, s, q.y);
    QuotientTimes(g.xz, s, q.z);
    PivotTable(s, g.xx, g.wx, g.xy, g.xz, g.ww, g.yy, g.zz, g.wy, g.wz, g.yz, q.x, q.w, q.y, q.z);
    Unpivot(g.xx, g.wx, g.xy, g.xz, g.ww, g.yy, g.zz, g.wy, g.wz, g.yz, q.x, q.w, q.y, q.z);
  }

  lemma PivotAtY(g: Gram, s: real, q: Quat)
    requires PivotMinors(g.yy, g.wy, g.xy, g.yz, g.ww, g.xx, g.zz, g.wx, g.wz, g.xz)
    requires s >= 2.0 && g.yy >= 1.0 && s * s == 4.0 * g.yy
    requires q.y == 0.25 * s && q.w == g.wy / s && q.x == g.xy / s && q.z == g.yz / s
    ensures IsGram(g, q)
  {
    QuotientTimes(g.wy, s, q.w);
    QuotientTimes(g.xy, s, q.x);
    QuotientTimes(g.yz, s, q.z);
    PivotTable(s, g.yy, g.wy, g.xy, g.yz, g.ww, g.xx, g.zz, g.wx, g.wz, g.xz, q.y, q.w, q.x, q.z);
    Unpivot(g.yy, g.wy, g.xy, g.yz, g.ww, g.xx, g.zz, g.wx, g.wz, g.xz, q.y, q.w, q.x, q.z);
  }

  lemma PivotAtZ(g: Gram, s: real, q: Quat)
    requires PivotMinors(g.zz, g.wz, g.xz, g.yz, g.ww, g.xx, g.yy, g.wx, g.wy, g.xy)
    requires s >= 2.0 && g.zz >= 1.0 && s * s == 4.0 * g.zz
    requires q.z == 0.25 * s && q.w == g.wz / s && q.x == g.xz / s && q.y == g.yz / s
    ensures IsGram(g, q)
  {
    QuotientTimes(g.wz, s, q.w);
    QuotientTimes(g.xz, s, q.x);
    QuotientTimes(g.yz, s, q.y);
    PivotTable(s, g.zz, g.wz, g.xz, g.yz, g.ww, g.xx, g.yy, g.wx, g.wy, g.xy, q.z, q.w, q.x, q.y);
    Unpivot(g.zz, g.wz, g.xz, g.yz, g.ww, g.xx, g.yy, g.wx, g.wy, g.xy, q.z, q.w, q.x, q.y);
  }

  lemma QuaternionProducts(lib: Libm, m: Mat3)
    requires lib.Valid() && IsRotation(m)
    ensures IsGram(GramOf(m), QuaternionWxyz(lib, m))
  {
    var q, g, s := QuaternionWxyz(lib, m), GramOf(m), Divisor(lib, m);
    DivisorAtLeastTwo(lib, m);
    DivisorSquare(lib, m, s);
    RotationRankOne(m);
    RankOnePivots(g);
    if m.r0.x + m.r1.y + m.r2.z > 0.0 {
      PivotAtW(g, s, q);
    } else if m.r0.x > m.r1.y && m.r0.x > m.r2.z {
      PivotAtX(g, s, q);
    } else if m.r1.y > m.r2.z {
      PivotAtY(g, s, q);
    } else {
      PivotAtZ(g, s, q);
    }
  }

  lemma QuotientTimes(k: real, s: real, q: real)
    requires s >= 2.0 && q == k / s
    ensures k == q * s
  {}

  /** Four numbers with the right ten products are a unit quaternion for the matrix. */
  lemma GramDetermines(m: Mat3, q: Quat)
    requires IsGram(GramOf(m), q)
    ensures IsUnit(q)
    ensures PoseMatrix(q) == m
  {
    var g, p := GramOf(m), PoseMatrix(q);
    assert 4.0 * Norm2(q) == g.ww + g.xx + g.yy + g.zz;
    assert p.r0.x == m.r0.x && p.r0.y == m.r0.y && p.r0.z == m.r0.z;
    assert p.r1.x == m.r1.x && p.r1.y == m.r1.y && p.r1.z == m.r1.z;
    assert p.r2.x == m.r2.x && p.r2.y == m.r2.y && p.r2.z == m.r2.z;
  }

  /** Round trip: every rotation matrix comes back from its quaternion, which is a unit one. */
  lemma MatrixRoundTrip(lib: Libm, m: Mat3)
    requires lib.Valid() && IsRotation(m)
    ensures IsUnit(QuaternionWxyz(lib, m))
    ensures PoseMatrix(QuaternionWxyz(lib, m)) == m
  {
    QuaternionProducts(lib, m);
    GramDetermines(m, QuaternionWxyz(lib, m));
  }

  // ----- quaternion to matrix and back

  lemma DiagonalEven(w: real, x: real, y: real, z: real)
    requires SquareSum(w, x, y, z) == 1.0
    ensures Diagonal(y, z) == Even(w, x, y, z)
  {}

  lemma Homogeneous(q: Quat)
    requires IsUnit(q)
    ensures PoseMatrix(q).r0.x == Even(q.w, q.x, q.y, q.z)
    ensures PoseMatrix(q).r1.y == Even(q.w, q.y, q.z, q.x)
    ensures PoseMatrix(q).r2.z == Even(q.w, q.z, q.x, q.y)
  {
    UnitTurn(q.w, q.x, q.y, q.z);
    DiagonalEven(q.w, q.x, q.y, q.z);
    DiagonalEven(q.w, q.y, q.z, q.x);
    DiagonalEven(q.w, q.z, q.x, q.y);
  }

  lemma TimesOne(k: real, n: real, w: real, x: real, y: real, z: real)
    requires n == w * w + x * x + y * y + z * z && n == 1.0
    ensures k * (w * w) + k * (x * x) + k * (y * y) + k * (z * z) == k
  {
    assert k * n == k * (w * w) + k * (x * x) + k * (y * y) + k * (z * z);
  }

  /** The first row is as long as the quaternion, squared. */
  lemma RowUnit(w: real, x: real, y: real, z: real)
    requires SquareSum(w, x, y, z) == 1.0
    ensures Inner(Even(w, x, y, z), Dif(x, y, z, w), Sum(x, z, y, w), Even(w, x, y, z), Dif(x, y, z, w),
                  Sum(x, z, y, w)) == 1.0
  {
    var n := SquareSum(w, x, y, z);
    assert Inner(w * w + x * x - y * y - z * z, 2.0 * (x * y - z * w), 2.0 * (x * z + y * w),
                 w * w + x * x - y * y - z * z, 2.0 * (x * y - z * w), 2.0 * (x * z + y * w))
        == (w * w + x * x + y * y + z * z) * (w * w + x * x + y * y + z * z);
    TimesOne(w * w, n, w, x, y, z);
    TimesOne(x * x, n, w, x, y, z);
    TimesOne(y * y, n, w, x, y, z);
    TimesOne(z * z, n, w, x, y, z);
  }

  /** The first two rows are perpendicular, whatever the length. */
  lemma RowsApart(w: real, x: real, y: real, z: real)
    ensures Inner(Even(w, x, y, z), Dif(x, y, z, w), Sum(x, z, y, w), Sum(y, x, z, w), Even(w, y, z, x),
                  Dif(y, z, x, w)) == 0.0
  {
    assert Inner(w * w + x * x - y * y - z * z, 2.0 * (x * y - z * w), 2.0 * (x * z + y * w),
                 2.0 * (y * x + z * w), w * w + y * y - z * z - x * x, 2.0 * (y * z - x * w)) == 0.0;
  }

  /** The cross product of the first two rows is the third, component by component. */
  lemma RowsTurnX(w: real, x: real, y: real, z: real)
    requires SquareSum(w, x, y, z) == 1.0
    ensures Minor(Dif(x, y, z, w), Sum(x, z, y, w), Even(w, y, z, x), Dif(y, z, x, w)) == Dif(z, x, y, w)
  {
    assert Minor(2.0 * (x * y - z * w), 2.0 * (x * z + y * w), w * w + y * y - z * z - x * x, 2.0 * (y * z - x * w))
        == 2.0 * (z * x - y * w) * (w * w) + 2.0 * (z * x - y * w) * (x * x)
         + 2.0 * (z * x - y * w) * (y * y) + 2.0 * (z * x - y * w) * (z * z);
    TimesOne(z * x, SquareSum(w, x, y, z), w, x, y, z);
    TimesOne(y * w, SquareSum(w, x, y, z), w, x, y, z);
  }

  lemma RowsTurnY(w: real, x: real, y: real, z: real)
    requires SquareSum(w, x, y, z) == 1.0
    ensures Minor(Sum(x, z, y, w), Even(w, x, y, z), Dif(y, z, x, w), Sum(y, x, z, w)) == Sum(z, y, x, w)
  {
    assert Minor(2.0 * (x * z + y * w), w * w + x * x - y * y - z * z, 2.0 * (y * z - x * w), 2.0 * (y * x + z * w))
        == 2.0 * (z * y + x * w) * (w * w) + 2.0 * (z * y + x * w) * (x * x)
         + 2.0 * (z * y + x * w) * (y * y) + 2.0 * (z * y + x * w) * (z * z);
    TimesOne(z * y, SquareSum(w, x, y, z), w, x, y, z);
    TimesOne(x * w, SquareSum(w, x, y, z), w, x, y, z);
  }

  lemma RowsTurnZ(w: real, x: real, y: real, z: real)
    requires SquareSum(w, x, y, z) == 1.0
    ensures Minor(Even(w, x, y, z), Dif(x, y, z, w), Sum(y, x, z, w), Even(w, y, z, x)) == Even(w, z, x, y)
  {
    assert Minor(w * w + x * x - y * y - z * z, 2.0 * (x * y - z * w), 2.0 * (y * x + z * w),
                 w * w + y * y - z * z - x * x)
        == (w * w + x * x + y * y + z * z) * (w * w + z * z - x * x - y * y);
    TimesOne(w * w, SquareSum(w, x, y, z), w, x, y, z);
    TimesOne(x * x, SquareSum(w, x, y, z), w, x, y, z);
    TimesOne(y * y, SquareSum(w, x, y, z), w, x, y, z);
    TimesOne(z * z, SquareSum(w, x, y, z), w, x, y, z);
  }

  lemma InnerTurn(a: real, b: real, c: real, d: real, e: real, f: real)
    ensures Inner(a, b, c, d, e, f) == Inner(b, c, a, e, f, d)
    ensures Inner(a, b, c, d, e, f) == Inner(d, e, f, a, b, c)
  {}

  lemma UnitTurn(w: real, x: real, y: real, z: real)
    ensures SquareSum(w, x, y, z) == SquareSum(w, y, z, x) == SquareSum(w, z, x, y)
  {}

  lemma PoseRows(q: Quat)
    requires IsUnit(q)
    ensures OrthonormalRows(PoseMatrix(q))
  {
    var Quat(w, x, y, z) := q;
    var Mat3(a, b, c) := PoseMatrix(q);
    Homogeneous(q);
    UnitTurn(w, x, y, z);
    assert Dot(a, a) == 1.0 by { RowUnit(w, x, y, z); }
    assert Dot(b, b) == 1.0 by {
      RowUnit(w, y, z, x);
      InnerTurn(b.x, b.y, b.z, b.x, b.y, b.z);
    }
    assert Dot(c, c) == 1.0 by {
      RowUnit(w, z, x, y);
      InnerTurn(c.z, c.x, c.y, c.z, c.x, c.y);
    }
    assert Dot(a, b) == 0.0 by { RowsApart(w, x, y, z); }
    assert Dot(b, c) == 0.0 by {
      RowsApart(w, y, z, x);
      InnerTurn(b.x, b.y, b.z, c.x, c.y, c.z);
    }
    assert Dot(a, c) == 0.0 by {
      RowsApart(w, z, x, y);
      InnerTurn(c.z, c.x, c.y, a.z, a.x, a.y);
      InnerTurn(c.x, c.y, c.z, a.x, a.y, a.z);
    }
  }

  lemma PoseTurns(q: Quat)
    requires IsUnit(q)
    ensures Cross(PoseMatrix(q).r0, PoseMatrix(q).r1) == PoseMatrix(q).r2
  {
    Homogeneous(q);
    RowsTurnX(q.w, q.x, q.y, q.z);
    RowsTurnY(q.w, q.x, q.y, q.z);
    RowsTurnZ(q.w, q.x, q.y, q.z);
  }

  /** Every unit quaternion stands for a rotation. */
  lemma PoseRotation(q: Quat)
    requires IsUnit(q)
    ensures IsRotation(PoseMatrix(q))
  {
    PoseRows(q);
    PoseTurns(q);
  }

  lemma SameUpToSign(p0: real, p1: real, p2: real, p3: real, q0: real, q1: real, q2: real, q3: real)
    requires q0 != 0.0
    requires p0 * p0 == q0 * q0 && p0 * p1 == q0 * q1 && p0 * p2 == q0 * q2 && p0 * p3 == q0 * q3
    ensures (p0 == q0 && p1 == q1 && p2 == q2 && p3 == q3) || (p0 == -q0 && p1 == -q1 && p2 == -q2 && p3 == -q3)
  {
    assert (p0 - q0) * (p0 + q0) == 0.0;
    if p0 == q0 {
      Factor(q0, p1 - q1);
      Factor(q0, p2 - q2);
      Factor(q0, p3 - q3);
    } else {
      Factor(p0 - q0, p0 + q0);
      Factor(q0, p1 + q1);
      Factor(q0, p2 + q2);
      Factor(q0, p3 + q3);
    }
  }

  lemma Factor(a: real, b: real)
    requires a != 0.0 && a * b == 0.0
    ensures b == 0.0
  {
    if a > 0.0 {
      Cancel(a, b, a * b);
    } else {
      Cancel(-a, b, -(a * b));
    }
  }

  lemma SomeNonZero(q: Quat)
    requires IsUnit(q)
    ensures q.w != 0.0 || q.x != 0.0 || q.y != 0.0 || q.z != 0.0
  {}

  lemma ProductsOfUnit(w: real, x: real, y: real, z: real, g: Gram)
    requires SquareSum(w, x, y, z) == 1.0
    requires g.ww == 1.0 + Even(w, x, y, z) + Even(w, y, z, x) + Even(w, z, x, y)
    requires g.xx == 1.0 + Even(w, x, y, z) - Even(w, y, z, x) - Even(w, z, x, y)
    requires g.yy == 1.0 + Even(w, y, z, x) - Even(w, x, y, z) - Even(w, z, x, y)
    requires g.zz == 1.0 + Even(w, z, x, y) - Even(w, x, y, z) - Even(w, y, z, x)
    requires g.wx == Sum(z, y, x, w) - Dif(y, z, x, w) && g.yz == Dif(y, z, x, w) + Sum(z, y, x, w)
    requires g.wy == Sum(x, z, y, w) - Dif(z, x, y, w) && g.xz == Sum(x, z, y, w) + Dif(z, x, y, w)
    requires g.wz == Sum(y, x, z, w) - Dif(x, y, z, w) && g.xy == Dif(x, y, z, w) + Sum(y, x, z, w)
    ensures Products(g.ww, g.wx, g.wy, g.wz, g.xx, g.yy, g.zz, g.xy, g.xz, g.yz, w, x, y, z)
  {}

  /** The products read off the matrix of a unit quaternion are its own. */
  lemma PoseGram(q: Quat)
    requires IsUnit(q)
    ensures IsGram(GramOf(PoseMatrix(q)), q)
  {
    Homogeneous(q);
    ProductsOfUnit(q.w, q.x, q.y, q.z, GramOf(PoseMatrix(q)));
  }

  /** Equal tables of products, and one component that is not zero. */
  lemma SameProducts(pp: real, pu: real, pv: real, pt: real, uu: real, vv: real, tt: real, uv: real, ut: real, vt: real,
                     p: real, u: real, v: real, t: real, p': real, u': real, v': real, t': real)
    requires Products(pp, pu, pv, pt, uu, vv, tt, uv, ut, vt, p, u, v, t)
    requires Products(pp, pu, pv, pt, uu, vv, tt, uv, ut, vt, p', u', v', t')
    requires p' != 0.0
    ensures (p == p' && u == u' && v == v' && t == t') || (p == -p' && u == -u' && v == -v' && t == -t')
  {
    SameUpToSign(p, u, v, t, p', u', v', t');
  }

  /** Two unit quaternions with one matrix differ at most in sign. */
  lemma PoseInjective(p: Quat, q: Quat)
    requires IsUnit(p) && IsUnit(q) && PoseMatrix(p) == PoseMatrix(q)
    ensures p == q || p == Negate(q)
  {
    PoseGram(p);
    PoseGram(q);
    SomeNonZero(q);
    GramInjective(GramOf(PoseMatrix(q)), p, q);
  }

  lemma GramInjective(g: Gram, p: Quat, q: Quat)
    requires IsGram(g, p) && IsGram(g, q)
    requires q.w != 0.0 || q.x != 0.0 || q.y != 0.0 || q.z != 0.0
    ensures p == q || p == Negate(q)
  {
    Repivot(g.ww, g.wx, g.wy, g.wz, g.xx, g.yy, g.zz, g.xy, g.xz, g.yz, p.w, p.x, p.y, p.z);
    Repivot(g.ww, g.wx, g.wy, g.wz, g.xx, g.yy, g.zz, g.xy, g.xz, g.yz, q.w, q.x, q.y, q.z);
    if q.w != 0.0 {
      SameProducts(g.ww, g.wx, g.wy, g.wz, g.xx, g.yy, g.zz, g.xy, g.xz, g.yz, p.w, p.x, p.y, p.z, q.w, q.x, q.y, q.z);
    } else if q.x != 0.0 {
      SameProducts(g.xx, g.wx, g.xy, g.xz, g.ww, g.yy, g.zz, g.wy, g.wz, g.yz, p.x, p.w, p.y, p.z, q.x, q.w, q.y, q.z);
    } else if q.y != 0.0 {
      SameProducts(g.yy, g.wy, g.xy, g.yz, g.ww, g.xx, g.zz, g.wx, g.wz, g.xz, p.y, p.w, p.x, p.z, q.y, q.w, q.x, q.z);
    } else {
      SameProducts(g.zz, g.wz, g.xz, g.yz, g.ww, g.xx, g.yy, g.wx, g.wy, g.xy, p.z, p.w, p.x, p.y, q.z, q.w, q.x, q.y);
    }
  }

  /** Round trip the other way: a unit quaternion comes back up to the sign that
  stands for the same rotation. */
  lemma QuaternionRoundTrip(lib: Libm, q: Quat)
    requires lib.Valid() && IsUnit(q)
    ensures QuaternionWxyz(lib, PoseMatrix(q)) == q || QuaternionWxyz(lib, PoseMatrix(q)) == Negate(q)
  {
    PoseRotation(q);
    MatrixRoundTrip(lib, PoseMatrix(q));
    PoseInjective(QuaternionWxyz(lib, PoseMatrix(q)), q);
  }

  // ----- quaternion product and matrix product

  /** `_multiply_quaternion` on bare numbers. */
  predicate IsProduct(lw: real, lx: real, ly: real, lz: real, rw: real, rx: real, ry: real, rz: real, w: real, x: real,
                      y: real, z: real) {
    && w == lw * rw - lx * rx - ly * ry - lz * rz
    && x == lw * rx + lx * rw + ly * rz - lz * ry
    && y == lw * ry - lx * rz + ly * rw + lz * rx
    && z == lw * rz + lx * ry - ly * rx + lz * rw
  }

  lemma ProductTurn(lw: real, lx: real, ly: real, lz: real, rw: real, rx: real, ry: real, rz: real, w: real, x: real,
                    y: real, z: real)
    requires IsProduct(lw, lx, ly, lz, rw, rx, ry, rz, w, x, y, z)
    ensures IsProduct(lw, ly, lz, lx, rw, ry, rz, rx, w, y, z, x)
  {}

  lemma Entry00(lw: real, lx: real, ly: real, lz: real, rw: real, rx: real, ry: real, rz: real, w: real, x: real,
                y: real, z: real)
    requires IsProduct(lw, lx, ly, lz, rw, rx, ry, rz, w, x, y, z)
    ensures Even(w, x, y, z) == Inner(Even(lw, lx, ly, lz), Dif(lx, ly, lz, lw), Sum(lx, lz, ly, lw),
                                      Even(rw, rx, ry, rz), Sum(ry, rx, rz, rw), Dif(rz, rx, ry, rw))
  {
    assert Even(lw * rw - lx * rx - ly * ry - lz * rz, lw * rx + lx * rw + ly * rz - lz * ry,
                lw * ry - lx * rz + ly * rw + lz * rx, lw * rz + lx * ry - ly * rx + lz * rw)
        == Inner(lw * lw + lx * lx - ly * ly - lz * lz, 2.0 * (lx * ly - lz * lw), 2.0 * (lx * lz + ly * lw),
                 rw * rw + rx * rx - ry * ry - rz * rz, 2.0 * (ry * rx + rz * rw), 2.0 * (rz * rx - ry * rw));
  }

  lemma Entry01(lw: real, lx: real, ly: real, lz: real, rw: real, rx: real, ry: real, rz: real, w: real, x: real,
                y: real, z: real)
    requires IsProduct(lw, lx, ly, lz, rw, rx, ry, rz, w, x, y, z)
    ensures Dif(x, y, z, w) == Inner(Even(lw, lx, ly, lz), Dif(lx, ly, lz, lw), Sum(lx, lz, ly, lw),
                                     Dif(rx, ry, rz, rw), Even(rw, ry, rz, rx), Sum(rz, ry, rx, rw))
  {
    assert Dif(lw * rx + lx * rw + ly * rz - lz * ry, lw * ry - lx * rz + ly * rw + lz * rx,
               lw * rz + lx * ry - ly * rx + lz * rw, lw * rw - lx * rx - ly * ry - lz * rz)
        == Inner(lw * lw + lx * lx - ly * ly - lz * lz, 2.0 * (lx * ly - lz * lw), 2.0 * (lx * lz + ly * lw),
                 2.0 * (rx * ry - rz * rw), rw * rw + ry * ry - rz * rz - rx * rx, 2.0 * (rz * ry + rx * rw));
  }

  lemma Entry02(lw: real, lx: real, ly: real, lz: real, rw: real, rx: real, ry: real, rz: real, w: real, x: real,
                y: real, z: real)
    requires IsProduct(lw, lx, ly, lz, rw, rx, ry, rz, w, x, y, z)
    ensures Sum(x, z, y, w) == Inner(Even(lw, lx, ly, lz), Dif(lx, ly, lz, lw), Sum(lx, lz, ly, lw),
                                     Sum(rx, rz, ry, rw), Dif(ry, rz, rx, rw), Even(rw, rz, rx, ry))
  {
    assert Sum(lw * rx + lx * rw + ly * rz - lz * ry, lw * rz + lx * ry - ly * rx + lz * rw,
               lw * ry - lx * rz + ly * rw + lz * rx, lw * rw - lx * rx - ly * ry - lz * rz)
        == Inner(lw * lw + lx * lx - ly * ly - lz * lz, 2.0 * (lx * ly - lz * lw), 2.0 * (lx * lz + ly * lw),
                 2.0 * (rx * rz + ry * rw), 2.0 * (ry * rz - rx * rw), rw * rw + rz * rz - rx * rx - ry * ry);
  }

  lemma EulerFourSquares(lw: real, lx: real, ly: real, lz: real, rw: real, rx: real, ry: real, rz: real)
    ensures SquareSum(lw * rw - lx * rx - ly * ry - lz * rz, lw * rx + lx * rw + ly * rz - lz * ry,
                     lw * ry - lx * rz + ly * rw + lz * rx, lw * rz + lx * ry - ly * rx + lz * rw)
        == rw * rw * (lw * lw) + rw * rw * (lx * lx) + rw * rw * (ly * ly) + rw * rw * (lz * lz)
         + rx * rx * (lw * lw) + rx * rx * (lx * lx) + rx * rx * (ly * ly) + rx * rx * (lz * lz)
         + ry * ry * (lw * lw) + ry * ry * (lx * lx) + ry * ry * (ly * ly) + ry * ry * (lz * lz)
         + rz * rz * (lw * lw) + rz * rz * (lx * lx) + rz * rz * (ly * ly) + rz * rz * (lz * lz)
  {}

  lemma ProductUnit(lw: real, lx: real, ly: real, lz: real, rw: real, rx: real, ry: real, rz: real, w: real, x: real,
                    y: real, z: real)
    requires IsProduct(lw, lx, ly, lz, rw, rx, ry, rz, w, x, y, z)
    requires SquareSum(lw, lx, ly, lz) == 1.0 && SquareSum(rw, rx, ry, rz) == 1.0
    ensures SquareSum(w, x, y, z) == 1.0
  {
    EulerFourSquares(lw, lx, ly, lz, rw, rx, ry, rz);
    var n := SquareSum(lw, lx, ly, lz);
    TimesOne(rw * rw, n, lw, lx, ly, lz);
    TimesOne(rx * rx, n, lw, lx, ly, lz);
    TimesOne(ry * ry, n, lw, lx, ly, lz);
    TimesOne(rz * rz, n, lw, lx, ly, lz);
  }

  lemma MultiplyIsProduct(l: Quat, r: Quat, q: Quat)
    requires q == Multiply(l, r)
    ensures IsProduct(l.w, l.x, l.y, l.z, r.w, r.x, r.y, r.z, q.w, q.x, q.y, q.z)
  {}

  lemma MultiplyUnit(l: Quat, r: Quat, q: Quat)
    requires IsUnit(l) && IsUnit(r)
    requires IsProduct(l.w, l.x, l.y, l.z, r.w, r.x, r.y, r.z, q.w, q.x, q.y, q.z)
    ensures IsUnit(q)
  {
    ProductUnit(l.w, l.x, l.y, l.z, r.w, r.x, r.y, r.z, q.w, q.x, q.y, q.z);
  }

  /** The first row of the product, by the three entries. */
  lemma ProductRow(lw: real, lx: real, ly: real, lz: real, rw: real, rx: real, ry: real, rz: real, w: real, x: real,
                   y: real, z: real)
    requires IsProduct(lw, lx, ly, lz, rw, rx, ry, rz, w, x, y, z)
    requires SquareSum(lw, lx, ly, lz) == 1.0 && SquareSum(rw, rx, ry, rz) == 1.0
    ensures Diagonal(y, z) == Inner(Diagonal(ly, lz), Dif(lx, ly, lz, lw), Sum(lx, lz, ly, lw),
                                    Diagonal(ry, rz), Sum(ry, rx, rz, rw), Dif(rz, rx, ry, rw))
    ensures Dif(x, y, z, w) == Inner(Diagonal(ly, lz), Dif(lx, ly, lz, lw), Sum(lx, lz, ly, lw),
                                     Dif(rx, ry, rz, rw), Diagonal(rz, rx), Sum(rz, ry, rx, rw))
    ensures Sum(x, z, y, w) == Inner(Diagonal(ly, lz), Dif(lx, ly, lz, lw), Sum(lx, lz, ly, lw),
                                     Sum(rx, rz, ry, rw), Dif(ry, rz, rx, rw), Diagonal(rx, ry))
  {
    ProductUnit(lw, lx, ly, lz, rw, rx, ry, rz, w, x, y, z);
    UnitTurn(rw, rx, ry, rz);
    DiagonalEven(w, x, y, z);
    DiagonalEven(lw, lx, ly, lz);
    DiagonalEven(rw, rx, ry, rz);
    DiagonalEven(rw, ry, rz, rx);
    DiagonalEven(rw, rz, rx, ry);
    Entry00(lw, lx, ly, lz, rw, rx, ry, rz, w, x, y, z);
    Entry01(lw, lx, ly, lz, rw, rx, ry, rz, w, x, y, z);
    Entry02(lw, lx, ly, lz, rw, rx, ry, rz, w, x, y, z);
  }

  lemma ProductRow0(l: Quat, r: Quat, q: Quat)
    requires IsUnit(l) && IsUnit(r)
    requires IsProduct(l.w, l.x, l.y, l.z, r.w, r.x, r.y, r.z, q.w, q.x, q.y, q.z)
    ensures PoseMatrix(q).r0 == RowTimes(PoseMatrix(l).r0, PoseMatrix(r))
  {
    ProductRow(l.w, l.x, l.y, l.z, r.w, r.x, r.y, r.z, q.w, q.x, q.y, q.z);
  }

  lemma ProductRow1(l: Quat, r: Quat, q: Quat)
    requires IsUnit(l) && IsUnit(r)
    requires IsProduct(l.w, l.x, l.y, l.z, r.w, r.x, r.y, r.z, q.w, q.x, q.y, q.z)
    ensures PoseMatrix(q).r1 == RowTimes(PoseMatrix(l).r1, PoseMatrix(r))
  {
    UnitTurn(l.w, l.x, l.y, l.z);
    UnitTurn(r.w, r.x, r.y, r.z);
    ProductTurn(l.w, l.x, l.y, l.z, r.w, r.x, r.y, r.z, q.w, q.x, q.y, q.z);
    ProductRow(l.w, l.y, l.z, l.x, r.w, r.y, r.z, r.x, q.w, q.y, q.z, q.x);
    var u, m := PoseMatrix(l).r1, PoseMatrix(r);
    InnerTurn(u.x, u.y, u.z, m.r0.x, m.r1.x, m.r2.x);
    InnerTurn(u.x, u.y, u.z, m.r0.y, m.r1.y, m.r2.y);
    InnerTurn(u.x, u.y, u.z, m.r0.z, m.r1.z, m.r2.z);
  }

  lemma ProductRow2(l: Quat, r: Quat, q: Quat)
    requires IsUnit(l) && IsUnit(r)
    requires IsProduct(l.w, l.x, l.y, l.z, r.w, r.x, r.y, r.z, q.w, q.x, q.y, q.z)
    ensures PoseMatrix(q).r2 == RowTimes(PoseMatrix(l).r2, PoseMatrix(r))
  {
    UnitTurn(l.w, l.x, l.y, l.z);
    UnitTurn(r.w, r.x, r.y, r.z);
    ProductTurn(l.w, l.x, l.y, l.z, r.w, r.x, r.y, r.z, q.w, q.x, q.y, q.z);
    ProductTurn(l.w, l.y, l.z, l.x, r.w, r.y, r.z, r.x, q.w, q.y, q.z, q.x);
    ProductRow(l.w, l.z, l.x, l.y, r.w, r.z, r.x, r.y, q.w, q.z, q.x, q.y);
    var u, m := PoseMatrix(l).r2, PoseMatrix(r);
    InnerTurn(u.z, u.x, u.y, m.r2.x, m.r0.x, m.r1.x);
    InnerTurn(u.z, u.x, u.y, m.r2.y, m.r0.y, m.r1.y);
    InnerTurn(u.z, u.x, u.y, m.r2.z, m.r0.z, m.r1.z);
  }

  /** Multiplying unit quaternions multiplies their rotations. */
  lemma MultiplyMatches(l: Quat, r: Quat)
    requires IsUnit(l) && IsUnit(r)
    ensures IsUnit(Multiply(l, r))
    ensures PoseMatrix(Multiply(l, r)) == Times(PoseMatrix(l), PoseMatrix(r))
  {
    var q := Multiply(l, r);
    MultiplyIsProduct(l, r, q);
    MultiplyUnit(l, r, q);
    ProductRow0(l, r, q);
    ProductRow1(l, r, q);
    ProductRow2(l, r, q);
  }
}
