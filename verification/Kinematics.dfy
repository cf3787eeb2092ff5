/** Forward kinematics of a serial chain of revolute joints. */
module Kinematics {
  import opened Rotation

  /** A rigid pose: where a frame stands in its parent, and how it is turned. */
  datatype Pose = Pose(position: Vec3, rotation: Mat3)

  /** One joint: its frame in the parent's frame, and the angle it turns about its own +Z. */
  datatype Joint = Joint(origin: Vec3, rpy: Vec3, angle: real)

  /** The chain the caller describes by three sequences; `zip(..., strict=True)` refuses
  sequences of different lengths. */
  datatype FkResult = LengthMismatch | At(pose: Pose)

  function Compose(a: Pose, b: Pose): Pose {
    Pose(Add(a.position, Apply(a.rotation, b.position)), Times(a.rotation, b.rotation))
  }

  function JointPose(m: Libm, j: Joint): Pose {
    Pose(j.origin, Times(RpyMatrix(m, j.rpy), RotZ(m.cos(j.angle), m.sin(j.angle))))
  }

  /** What a chain means: each joint's pose in its parent, composed from the tip inwards. */
  function Chain(m: Libm, joints: seq<Joint>, tool: Pose): Pose {
    if joints == [] then tool else Compose(JointPose(m, joints[0]), Chain(m, joints[1..], tool))
  }

  function Zip(origins: seq<Vec3>, rpys: seq<Vec3>, q: seq<real>): (joints: seq<Joint>)
    requires |origins| == |rpys| == |q|
  {
    seq(|q|, i requires 0 <= i < |q| => Joint(origins[i], rpys[i], q[i]))
  }

  lemma ComposeAssociative(a: Pose, b: Pose, c: Pose)
    ensures Compose(Compose(a, b), c) == Compose(a, Compose(b, c))
  {
    TimesAssociative(a.rotation, b.rotation, c.rotation);
    ApplyTimes(a.rotation, b.rotation, c.position);
    ApplyAdd(a.rotation, b.position, Apply(b.rotation, c.position));
    AddAssociative(a.position, Apply(a.rotation, b.position), Apply(a.rotation, Apply(b.rotation, c.position)));
  }

  lemma AddAssociative(u: Vec3, v: Vec3, t: Vec3)
    ensures Add(Add(u, v), t) == Add(u, Add(v, t))
  {}

  lemma ComposeIdentity(a: Pose)
    ensures Compose(Pose(ZERO, IDENTITY), a) == a
  {
    var Mat3(r0, r1, r2) := a.rotation;
    assert Times(IDENTITY, a.rotation) == Mat3(r0, r1, r2);
    assert Add(ZERO, Apply(IDENTITY, a.position)) == a.position;
  }

  lemma JointRotation(m: Libm, j: Joint)
    requires m.Valid()
    ensures IsRotation(JointPose(m, j).rotation)
  {
    RpyRotation(m, j.rpy);
    TurnsRotate(m, j.angle);
    TimesRotation(RpyMatrix(m, j.rpy), RotZ(m.cos(j.angle), m.sin(j.angle)));
  }

  /** Every chain, of whatever length, ends in a rotation when its tool frame is one. */
  lemma {:induction false} ChainRotation(m: Libm, joints: seq<Joint>, tool: Pose)
    requires m.Valid() && IsRotation(tool.rotation)
    ensures IsRotation(Chain(m, joints, tool).rotation)
  {
    if joints != [] {
      JointRotation(m, joints[0]);
      ChainRotation(m, joints[1..], tool);
      TimesRotation(JointPose(m, joints[0]).rotation, Chain(m, joints[1..], tool).rotation);
    }
  }

  /** The base-outwards walk the source performs, one joint at a time. */
  method ChainFk(m: Libm, origins: seq<Vec3>, rpys: seq<Vec3>, toolXyz: Vec3, toolRpy: Vec3, q: seq<real>)
    returns (r: FkResult)
    requires m.Valid()
    ensures r.LengthMismatch? <==> !(|origins| == |rpys| == |q|)
    ensures r.At? ==> r.pose == Chain(m, Zip(origins, rpys, q), Pose(toolXyz, RpyMatrix(m, toolRpy)))
    ensures r.At? ==> IsRotation(r.pose.rotation)
  {
    if |origins| != |q| || |rpys| != |q| {
      return LengthMismatch;
    }
    ghost var joints := Zip(origins, rpys, q);
    ghost var tool := Pose(toolXyz, RpyMatrix(m, toolRpy));
    var rotation, position := IDENTITY, ZERO;
    ComposeIdentity(Chain(m, joints, tool));
    for i := 0 to |q|
      invariant Compose(Pose(position, rotation), Chain(m, joints[i..], tool)) == Chain(m, joints, tool)
    {
      ghost var before, joint, rest := Pose(position, rotation), JointPose(m, joints[i]),
          Chain(m, joints[i + 1..], tool);
      position := Add(position, Apply(rotation, origins[i]));
      var turn := RotZ(m.cos(q[i]), m.sin(q[i]));
      TimesAssociative(rotation, RpyMatrix(m, rpys[i]), turn);
      rotation := Times(Times(rotation, RpyMatrix(m, rpys[i])), turn);
      assert Pose(position, rotation) == Compose(before, joint);
      assert joints[i..][1..] == joints[i + 1..];
      ComposeAssociative(before, joint, rest);
    }
    position := Add(position, Apply(rotation, toolXyz));
    rotation := Times(rotation, RpyMatrix(m, toolRpy));
    r := At(Pose(position, rotation));
    RpyRotation(m, toolRpy);
    ChainRotation(m, joints, tool);
  }
}
