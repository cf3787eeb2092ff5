/** What the kinematics do to points and directions: every statement is about coordinates. */
module Turns {
  import opened Rotation
  import opened Kinematics
  import opened Quaternion

  const X := Vec3(1.0, 0.0, 0.0)
  const Y := Vec3(0.0, 1.0, 0.0)
  const Z := Vec3(0.0, 0.0, 1.0)

  // ----- roll, pitch and yaw

  /** The three axes after roll `x`, pitch `y` and yaw `z`, given by their cosines and sines. */
  lemma TurnedAxes(cx: real, sx: real, cy: real, sy: real, cz: real, sz: real)
    ensures var m := Times(Times(RotZ(cz, sz), RotY(cy, sy)), RotX(cx, sx));
            && Apply(m, X) == Vec3(cz * cy, sz * cy, -sy)
            && m.r2 == Vec3(-sy, cy * sx, cy * cx)
            && Apply(m, Y) == Vec3(cz * sy * sx - sz * cx, sz * sy * sx + cz * cx, cy * sx)
            && Apply(m, Z) == Vec3(cz * sy * cx + sz * sx, sz * sy * cx - cz * sx, cy * cx)
  {}

  /** Where the axes go: +X by yaw and pitch alone, whatever the roll; the last row by roll and pitch alone. */
  lemma RpyAxes(lib: Libm, rpy: Vec3)
    ensures var m := RpyMatrix(lib, rpy);
            var (cx, sx) := (lib.cos(rpy.x), lib.sin(rpy.x));
            var (cy, sy) := (lib.cos(rpy.y), lib.sin(rpy.y));
            var (cz, sz) := (lib.cos(rpy.z), lib.sin(rpy.z));
            && Apply(m, X) == Vec3(cz * cy, sz * cy, -sy)
            && m.r2 == Vec3(-sy, cy * sx, cy * cx)
            && Apply(m, Y) == Vec3(cz * sy * sx - sz * cx, sz * sy * sx + cz * cx, cy * sx)
            && Apply(m, Z) == Vec3(cz * sy * cx + sz * sx, sz * sy * cx - cz * sx, cy * cx)
  {
    TurnedAxes(lib.cos(rpy.x), lib.sin(rpy.x), lib.cos(rpy.y), lib.sin(rpy.y), lib.cos(rpy.z), lib.sin(rpy.z));
  }

  /** No turn at all, as the library has it. */
  predicate Still(lib: Libm, a: real) { lib.cos(a) == 1.0 && lib.sin(a) == 0.0 }

  /** A pure roll, pitch or yaw fixes its own axis and turns the next one towards the one after. */
  lemma PureTurns(lib: Libm, rpy: Vec3)
    ensures var m := RpyMatrix(lib, rpy);
            && (Still(lib, rpy.y) && Still(lib, rpy.z) ==>
                  Apply(m, X) == X && Apply(m, Y) == Vec3(0.0, lib.cos(rpy.x), lib.sin(rpy.x)))
            && (Still(lib, rpy.x) && Still(lib, rpy.z) ==>
                  Apply(m, Y) == Y && Apply(m, Z) == Vec3(lib.sin(rpy.y), 0.0, lib.cos(rpy.y)))
            && (Still(lib, rpy.x) && Still(lib, rpy.y) ==>
                  Apply(m, Z) == Z && Apply(m, X) == Vec3(lib.cos(rpy.z), lib.sin(rpy.z), 0.0))
  {
    RpyAxes(lib, rpy);
  }

  // ----- joints and chains

  /** Turned about +Z, from +X towards +Y, by the angle of this cosine and sine. */
  function Spun(c: real, s: real, p: Vec3): Vec3 { Vec3(c * p.x - s * p.y, s * p.x + c * p.y, p.z) }

  lemma TurnAboutZ(c: real, s: real, p: Vec3)
    ensures Apply(RotZ(c, s), p) == Spun(c, s, p)
  {}

  /** A joint stands at its origin; its own +Z does not move with its angle, and its +X turns towards +Y. */
  lemma JointAxes(lib: Libm, j: Joint)
    ensures var pose, fixed := JointPose(lib, j), RpyMatrix(lib, j.rpy);
            && pose.position == j.origin
            && Apply(pose.rotation, Z) == Apply(fixed, Z)
            && Apply(pose.rotation, X) == Apply(fixed, Vec3(lib.cos(j.angle), lib.sin(j.angle), 0.0))
  {
    var c, s := lib.cos(j.angle), lib.sin(j.angle);
    var fixed := RpyMatrix(lib, j.rpy);
    ApplyTimes(fixed, RotZ(c, s), Z);
    ApplyTimes(fixed, RotZ(c, s), X);
    TurnAboutZ(c, s, Z);
    TurnAboutZ(c, s, X);
  }

  /** The point with coordinates `p` in a frame, in that frame's parent. */
  function Seen(frame: Pose, p: Vec3): Vec3 {
    var Mat3(r0, r1, r2) := frame.rotation;
    Vec3(frame.position.x + Inner(r0.x, r0.y, r0.z, p.x, p.y, p.z),
         frame.position.y + Inner(r1.x, r1.y, r1.z, p.x, p.y, p.z),
         frame.position.z + Inner(r2.x, r2.y, r2.z, p.x, p.y, p.z))
  }

  lemma SeenApplied(frame: Pose, p: Vec3)
    ensures Seen(frame, p) == Add(frame.position, Apply(frame.rotation, p))
  {}

  /** A composed pose is the inner one seen from the outer one. */
  lemma ComposeSeen(a: Pose, b: Pose, p: Vec3)
    ensures Seen(Compose(a, b), p) == Seen(a, Seen(b, p))
  {
    var u := Apply(b.rotation, p);
    ApplyTimes(a.rotation, b.rotation, p);
    ApplyAdd(a.rotation, b.position, u);
    AddAssociative(a.position, Apply(a.rotation, b.position), Apply(a.rotation, u));
    SeenApplied(Compose(a, b), p);
    SeenApplied(b, p);
    SeenApplied(a, Add(b.position, u));
  }

  /** A point of the last link, carried through the joints from the tip inwards: turned by each joint's angle
  about its +Z, then by its fixed roll, pitch and yaw, then moved to its origin. */
  function Carried(lib: Libm, joints: seq<Joint>, p: Vec3): Vec3 {
    if joints == [] then p
    else
      var j, q := joints[0], Carried(lib, joints[1..], p);
      Seen(Pose(j.origin, RpyMatrix(lib, j.rpy)), Spun(lib.cos(j.angle), lib.sin(j.angle), q))
  }

  lemma JointSeen(lib: Libm, j: Joint, q: Vec3)
    ensures Seen(JointPose(lib, j), q)
              == Seen(Pose(j.origin, RpyMatrix(lib, j.rpy)), Spun(lib.cos(j.angle), lib.sin(j.angle), q))
  {
    FixedThenTurned(j.origin, RpyMatrix(lib, j.rpy), lib.cos(j.angle), lib.sin(j.angle), q);
  }

  lemma FixedThenTurned(origin: Vec3, fixed: Mat3, c: real, s: real, q: Vec3)
    ensures Seen(Pose(origin, Times(fixed, RotZ(c, s))), q) == Seen(Pose(origin, fixed), Spun(c, s, q))
  {
    ApplyTimes(fixed, RotZ(c, s), q);
    TurnAboutZ(c, s, q);
    SeenApplied(Pose(origin, Times(fixed, RotZ(c, s))), q);
    SeenApplied(Pose(origin, fixed), Spun(c, s, q));
  }

  lemma CarriedFirst(lib: Libm, joints: seq<Joint>, p: Vec3, q: Vec3)
    requires joints != [] && q == Carried(lib, joints[1..], p)
    ensures Carried(lib, joints, p) == Seen(JointPose(lib, joints[0]), q)
  {
    JointSeen(lib, joints[0], q);
  }

  lemma ChainFirst(lib: Libm, joints: seq<Joint>, tool: Pose, p: Vec3, q: Vec3)
    requires joints != [] && Seen(Chain(lib, joints[1..], tool), p) == q
    ensures Seen(Chain(lib, joints, tool), p) == Seen(JointPose(lib, joints[0]), q)
  {
    ComposeSeen(JointPose(lib, joints[0]), Chain(lib, joints[1..], tool), p);
  }

  /** What the end of a chain sees, the base sees where the joints carry it. */
  lemma {:induction false} ChainSeen(lib: Libm, joints: seq<Joint>, tool: Pose, p: Vec3)
    ensures Seen(Chain(lib, joints, tool), p) == Carried(lib, joints, Seen(tool, p))
  {
    if joints != [] {
      ChainSeen(lib, joints[1..], tool, p);
      var q := Carried(lib, joints[1..], Seen(tool, p));
      CarriedFirst(lib, joints, Seen(tool, p), q);
      ChainFirst(lib, joints, tool, p, q);
    }
  }

  // ----- quaternions

  /** The quaternion of half an angle about an axis turns the next axis towards the one after: the double-angle
  cosine and sine are its coordinates. */
  lemma HalfTurns(c: real, s: real)
    requires c * c + s * s == 1.0
    ensures var x, y, z := PoseMatrix(Quat(c, s, 0.0, 0.0)), PoseMatrix(Quat(c, 0.0, s, 0.0)),
                PoseMatrix(Quat(c, 0.0, 0.0, s));
            && Apply(x, X) == X && Apply(x, Y) == Vec3(0.0, c * c - s * s, 2.0 * c * s)
            && Apply(y, Y) == Y && Apply(y, Z) == Vec3(2.0 * c * s, 0.0, c * c - s * s)
            && Apply(z, Z) == Z && Apply(z, X) == Vec3(c * c - s * s, 2.0 * c * s, 0.0)
  {}

  /** Of the two quaternions of a rotation the one whose leading component is positive is returned: the scalar
  part for a positive trace, else the component of the largest diagonal entry. */
  lemma LeadingPositive(lib: Libm, m: Mat3)
    requires lib.Valid()
    ensures var q, trace := QuaternionWxyz(lib, m), m.r0.x + m.r1.y + m.r2.z;
            && (trace > 0.0 ==> q.w >= 0.5)
            && (trace <= 0.0 && m.r0.x > m.r1.y && m.r0.x > m.r2.z ==> q.x >= 0.5)
            && (trace <= 0.0 && m.r1.y >= m.r0.x && m.r1.y > m.r2.z ==> q.y >= 0.5)
            && (trace <= 0.0 && m.r2.z >= m.r0.x && m.r2.z >= m.r1.y ==> q.z >= 0.5)
  {
    DivisorAtLeastTwo(lib, m);
  }
}
