/** The owner envelope of one part: what `Arm.check` admits, and what admission means.

Forward kinematics and body geometry are arbitrary functions of the joint rows: every
statement holds for any robot. */
module Envelope {
  import opened Wrappers
  import opened Rotation
  import opened Solids

  /** One floating-point number: what the wire commands, what a driver measures, what a part declares. */
  datatype Scalar = Finite(v: real) | Infinite(negative: bool) | NaN

  /** What the part's forward kinematics answers for a row. */
  datatype Tcp = Raises | Malformed | TcpAt(p: Vec3)

  datatype RawSphere = Sphere(name: string, ball: Ball)

  /** `CollisionSphere.__post_init__` */
  type Sphere = s: RawSphere | s.name != "" && s.ball.radius > 0.0 witness Sphere("body", Ball(ZERO, 1.0))

  datatype Keepout =
    | SphereKeepout(ball: Ball, margin: real)
    | BoxKeepout(box: Box, margin: real)

  datatype Workspace = Workspace(box: Box, fk: seq<Scalar> -> Tcp)

  /** The declared facts of one part. An unordered pair of body names is a two-element multiset. */
  datatype Arm = Arm(
    part: string,
    limits: seq<(real, real)>,
    stepCaps: seq<Scalar>,
    errorCaps: Option<seq<real>>,
    armDof: nat,
    workspace: Option<Workspace>,
    bodies: Option<seq<Scalar> -> Option<seq<Sphere>>>,
    frame: string,
    keepouts: seq<Keepout>,
    selfCollision: bool,
    margin: real,
    ignored: set<multiset<string>>)
  {
    function Width(): nat { |limits| }

    /** `self.position_error_caps or self.step_caps` */
    function Caps(): seq<Scalar> {
      match errorCaps
      case None => stepCaps
      case Some(caps) => if caps == [] then stepCaps else Commanded(caps)
    }

    /** What `__post_init__` and `_validate_static_safety` refuse to go without. */
    predicate Valid() {
      && |stepCaps| == Width()
      && (errorCaps.Some? ==> |errorCaps.value| == Width() && forall i :: 0 <= i < Width() ==> errorCaps.value[i] > 0.0)
      && (forall i :: 0 <= i < Width() ==> limits[i].0 <= limits[i].1)
      && 0 < armDof <= Width()
      && (workspace.Some? ==> ValidBox(workspace.value.box))
      && margin >= 0.0
      && (RulesActive() ==> bodies.Some?)
    }

    predicate RulesActive() { keepouts != [] || selfCollision }
  }

  datatype Reason =
    | WidthMismatch | MeasuredWidthMismatch | NonFiniteValues
    | OutsideLimits(joint: nat) | OverCap(joint: nat)
    | TcpUnavailable | BodiesUnavailable | NoBodies | OutsideWorkspace
    | BodiesChanged | RadiusChanged | CurrentUnavailable
    | KeepoutHit | SelfCollision
    | EStopped | FramesDiffer | CrossCollision

  predicate Geometric(r: Reason) { !r.OutsideLimits? && !r.OverCap? }

  /** `Raise` is an exception from the part's own kinematics on the target row. */
  datatype Verdict = Admit | Refuse(reason: Reason) | Raise

  const TOLERANCE: real := 0.000000001

  // ----- geometry of a row

  function Prefix<T>(q: seq<T>, n: nat): seq<T> { if n <= |q| then q[..n] else q }

  /** `_body_name` */
  function BodyName(part: string, name: string): (r: string)
    ensures name != "" ==> r != ""
    ensures part != "" ==> '/' in r
  {
    if part != "" && '/' !in name then
      var r := part + "/" + name;
      assert r[|part|] == '/';
      r
    else name
  }

  function Qualify(part: string, s: Sphere): Sphere { Sphere(BodyName(part, s.name), s.ball) }

  predicate DistinctNames(bodies: seq<Sphere>) {
    forall i, j :: 0 <= i < j < |bodies| ==> bodies[i].name != bodies[j].name
  }

  /** `collision_snapshot`: part-qualified bodies, or `None` when the geometry is malformed. */
  function Snapshot(arm: Arm, q: seq<Scalar>): (r: Option<seq<Sphere>>)
    ensures r.Some? ==> DistinctNames(r.value)
  {
    match arm.bodies
    case None => Some([])
    case Some(provide) =>
      match provide(Prefix(q, arm.armDof))
      case None => None
      case Some(raw) =>
        var bodies := seq(|raw|, i requires 0 <= i < |raw| => Qualify(arm.part, raw[i]));
        if DistinctNames(bodies) then Some(bodies) else None
  }

  function TcpOf(arm: Arm, q: seq<Scalar>): Tcp
    requires arm.workspace.Some?
  {
    arm.workspace.value.fk(Prefix(q, arm.armDof))
  }

  /** The per-face excess of a point, as the source writes it: a sphere of radius zero. */
  function PointExcess(p: Vec3, box: Box): seq<real> { Excess(Ball(p, 0.0), box) }

  predicate HitsKeepout(s: Sphere, k: Keepout) {
    match k
    case SphereKeepout(ball, margin) => Overlap(s.ball, ball, margin)
    case BoxKeepout(box, margin) => HitsBox(s.ball, box, margin)
  }

  // ----- what admission means

  function Values(target: seq<Scalar>): (q: seq<real>)
    requires AllFinite(target)
    ensures |q| == |target|
  {
    seq(|target|, i requires 0 <= i < |target| => target[i].v)
  }

  function Commanded(q: seq<real>): (t: seq<Scalar>)
    ensures |t| == |q| && AllFinite(t) && Values(t) == q
    ensures forall i :: 0 <= i < |q| ==> t[i] == Finite(q[i])
  {
    var t := seq(|q|, i requires 0 <= i < |q| => Finite(q[i]));
    assert forall i :: 0 <= i < |q| ==> Values(t)[i] == q[i];
    t
  }

  predicate AllFinite(target: seq<Scalar>) { forall i :: 0 <= i < |target| ==> target[i].Finite? }

  predicate InLimits(arm: Arm, q: seq<real>) {
    |q| == arm.Width() && forall i :: 0 <= i < |q| ==> arm.limits[i].0 <= q[i] <= arm.limits[i].1
  }

  function Abs(x: real): real { if x >= 0.0 then x else -x }

  /** `abs(target - measured) > cap`: no comparison with a NaN holds. */
  predicate Exceeds(t: real, m: Scalar, cap: Scalar) {
    match cap
    case NaN => false
    case Infinite(negative) => negative && !m.NaN?
    case Finite(c) =>
      match m
      case Finite(v) => Abs(t - v) > c
      case Infinite(_) => true
      case NaN => false
  }

  /** What the check asks of every joint. */
  predicate PassesCaps(arm: Arm, q: seq<real>, measured: seq<Scalar>) {
    && |q| == |measured| == |arm.Caps()|
    && forall i :: 0 <= i < |q| ==> !Exceeds(q[i], measured[i], arm.Caps()[i])
  }

  /** What the caps are for: this joint is told to be no further than its cap from where it was measured. */
  predicate Bounded(t: real, m: Scalar, cap: Scalar) { m.Finite? && cap.Finite? && Abs(t - m.v) <= cap.v }

  predicate WithinCaps(arm: Arm, q: seq<real>, measured: seq<Scalar>) {
    && |q| == |measured| == |arm.Caps()|
    && forall i :: 0 <= i < |q| ==> Bounded(q[i], measured[i], arm.Caps()[i])
  }

  /** The geometry a workspace needs: a tool point, and bodies when the part declares any. */
  predicate Described(arm: Arm, q: seq<Scalar>)
    requires arm.workspace.Some?
  {
    && TcpOf(arm, q).TcpAt?
    && Snapshot(arm, q).Some?
    && (arm.bodies.Some? ==> Snapshot(arm, q).value != [])
  }

  predicate InsideWorkspace(arm: Arm, q: seq<Scalar>)
    requires arm.workspace.Some? && Described(arm, q)
  {
    var box, bodies := arm.workspace.value.box, Snapshot(arm, q).value;
    && NoExcess(PointExcess(TcpOf(arm, q).p, box))
    && forall i :: 0 <= i < |bodies| ==> NoExcess(Excess(bodies[i].ball, box))
  }

  /** The dictionary of excesses: the tool point under "tcp", then each body under its name. */
  function Excesses(tcp: Vec3, bodies: seq<Sphere>, box: Box): map<string, seq<real>> {
    if bodies == [] then map["tcp" := PointExcess(tcp, box)]
    else
      var last := bodies[|bodies| - 1];
      Excesses(tcp, bodies[..|bodies| - 1], box)[last.name := Excess(last.ball, box)]
  }

  predicate SameBodies(was: seq<Sphere>, now: seq<Sphere>) {
    Names(was) == Names(now)
  }

  predicate SameRadii(was: seq<Sphere>, now: seq<Sphere>) {
    forall i, j :: 0 <= i < |was| && 0 <= j < |now| && was[i].name == now[j].name ==>
        was[i].ball.radius == now[j].ball.radius
  }

  predicate Worse(now: seq<real>, was: seq<real>) {
    exists f :: 0 <= f < |now| && f < |was| && now[f] > was[f] + TOLERANCE
  }

  predicate Better(now: seq<real>, was: seq<real>) {
    exists f :: 0 <= f < |now| && f < |was| && now[f] < was[f] - TOLERANCE
  }

  /** An outside target is tolerated only as a recovery: no face of any body is worse than
  measured, and some face of some body is better. */
  predicate Recovers(arm: Arm, q: seq<Scalar>, measured: seq<Scalar>)
    requires arm.workspace.Some? && Described(arm, q)
  {
    var box, now := arm.workspace.value.box, Snapshot(arm, q).value;
    && Comparable(arm, now, measured)
    && var before := Excesses(TcpOf(arm, measured).p, Earlier(arm, now, measured), box);
       var after := Excesses(TcpOf(arm, q).p, now, box);
       && before.Keys == after.Keys
       && (forall name :: name in before ==> !Worse(after[name], before[name]))
       && (exists name :: name in before && Better(after[name], before[name]))
  }

  predicate WorkspaceAllows(arm: Arm, q: seq<Scalar>, measured: seq<Scalar>) {
    arm.workspace.Some? ==> Described(arm, q) && (InsideWorkspace(arm, q) || Recovers(arm, q, measured))
  }

  predicate PairClear(arm: Arm, a: Sphere, b: Sphere) {
    multiset{a.name, b.name} in arm.ignored || !Overlap(a.ball, b.ball, arm.margin)
  }

  /** Static keep-outs and the part's own bodies. */
  predicate BodiesClear(arm: Arm, q: seq<Scalar>) {
    arm.RulesActive() ==>
      && Snapshot(arm, q).Some?
      && var bodies := Snapshot(arm, q).value;
         && bodies != []
         && (forall i, k :: 0 <= i < |bodies| && 0 <= k < |arm.keepouts| ==> !HitsKeepout(bodies[i], arm.keepouts[k]))
         && (arm.selfCollision ==> forall i, j :: 0 <= i < j < |bodies| ==> PairClear(arm, bodies[i], bodies[j]))
  }

  /** The owner envelope, as one condition on a row and a measurement. */
  predicate Admissible(arm: Arm, target: seq<Scalar>, measured: seq<Scalar>)
    requires arm.Valid()
  {
    && |target| == arm.Width()
    && |measured| == arm.Width()
    && AllFinite(target)
    && var q := Values(target);
       && InLimits(arm, q)
       && PassesCaps(arm, q, measured)
       && WorkspaceAllows(arm, target, measured)
       && BodiesClear(arm, target)
  }

  /** The part's own kinematics raises on a target that every check before it lets through. */
  predicate KinematicsRaise(arm: Arm, target: seq<Scalar>, measured: seq<Scalar>)
    requires arm.Valid()
  {
    && |target| == |measured| == arm.Width() && AllFinite(target)
    && InLimits(arm, Values(target)) && PassesCaps(arm, Values(target), measured)
    && arm.workspace.Some? && TcpOf(arm, target).Raises?
  }

  // ----- the dictionary of excesses

  function Names(bodies: seq<Sphere>): set<string> { set i | 0 <= i < |bodies| :: bodies[i].name }

  lemma {:induction false} ExcessesKeys(tcp: Vec3, bodies: seq<Sphere>, box: Box)
    ensures Excesses(tcp, bodies, box).Keys == {"tcp"} + Names(bodies)
    ensures forall name :: name in Excesses(tcp, bodies, box) ==> |Excesses(tcp, bodies, box)[name]| == 6
  {
    if bodies != [] {
      var init := bodies[..|bodies| - 1];
      ExcessesKeys(tcp, init, box);
      assert Names(bodies) == Names(init) + {bodies[|bodies| - 1].name};
    }
  }

  lemma {:induction false} ExcessesAt(tcp: Vec3, bodies: seq<Sphere>, box: Box, i: nat)
    requires DistinctNames(bodies) && i < |bodies|
    ensures bodies[i].name in Excesses(tcp, bodies, box)
    ensures Excesses(tcp, bodies, box)[bodies[i].name] == Excess(bodies[i].ball, box)
  {
    var init := bodies[..|bodies| - 1];
    if i < |bodies| - 1 {
      ExcessesAt(tcp, init, box, i);
    }
  }

  lemma {:induction false} ExcessesTcp(tcp: Vec3, bodies: seq<Sphere>, box: Box)
    requires "tcp" !in Names(bodies)
    ensures "tcp" in Excesses(tcp, bodies, box)
    ensures Excesses(tcp, bodies, box)["tcp"] == PointExcess(tcp, box)
  {
    if bodies != [] {
      var init := bodies[..|bodies| - 1];
      assert bodies[|bodies| - 1].name in Names(bodies);
      assert forall n :: n in Names(init) ==> n in Names(bodies);
      ExcessesTcp(tcp, init, box);
    }
  }

  // ----- Arm.check

  method CheckWorkspace(arm: Arm, q: seq<Scalar>, measured: seq<Scalar>) returns (v: Verdict)
    requires arm.Valid()
    ensures v.Admit? <==> WorkspaceAllows(arm, q, measured)
    ensures v.Raise? <==> arm.workspace.Some? && TcpOf(arm, q).Raises?
    ensures v.Refuse? ==> Geometric(v.reason)
  {
    if arm.workspace.None? {
      return Admit;
    }
    var box, tcp := arm.workspace.value.box, TcpOf(arm, q);
    if tcp.Raises? {
      return Raise;
    }
    if tcp.Malformed? {
      return Refuse(TcpUnavailable);
    }
    var outside := !NoExcess(PointExcess(tcp.p, box));
    var bodies := [];
    if arm.bodies.Some? {
      var snapshot := Snapshot(arm, q);
      if snapshot.None? {
        return Refuse(BodiesUnavailable);
      }
      bodies := snapshot.value;
      if bodies == [] {
        return Refuse(NoBodies);
      }
    }
    var after := map["tcp" := PointExcess(tcp.p, box)];
    for i := 0 to |bodies|
      invariant after == Excesses(tcp.p, bodies[..i], box)
      invariant outside <==> !(NoExcess(PointExcess(tcp.p, box)) && forall k :: 0 <= k < i ==>
                NoExcess(Excess(bodies[k].ball, box)))
    {
      assert bodies[..i + 1][..i] == bodies[..i];
      after := after[bodies[i].name := Excess(bodies[i].ball, box)];
      if !outside && !NoExcess(Excess(bodies[i].ball, box)) {
        outside := true;
      }
    }
    assert bodies[..|bodies|] == bodies;
    if !outside {
      return Admit;
    }
    v := CheckRecovery(arm, q, measured, after);
  }

  /** The measured geometry is there and describes the same bodies as the target's. */
  predicate Comparable(arm: Arm, now: seq<Sphere>, measured: seq<Scalar>)
    requires arm.workspace.Some?
  {
    && TcpOf(arm, measured).TcpAt?
    && (now != [] ==> Snapshot(arm, measured).Some? && SameBodies(Snapshot(arm, measured).value, now)
                      && SameRadii(Snapshot(arm, measured).value, now))
  }

  /** The bodies the measured excesses are taken over. */
  function Earlier(arm: Arm, now: seq<Sphere>, measured: seq<Scalar>): seq<Sphere>
    requires arm.workspace.Some? && Comparable(arm, now, measured)
  {
    if now == [] then [] else Snapshot(arm, measured).value
  }

  method EarlierExcesses(arm: Arm, bodies: seq<Sphere>, measured: seq<Scalar>)
    returns (v: Verdict, before: map<string, seq<real>>)
    requires arm.workspace.Some?
    ensures v.Admit? <==> Comparable(arm, bodies, measured)
    ensures v.Admit? ==> before == Excesses(TcpOf(arm, measured).p, Earlier(arm, bodies, measured),
                                            arm.workspace.value.box)
    ensures !v.Raise? && (v.Refuse? ==> Geometric(v.reason))
  {
    var box, tcp := arm.workspace.value.box, TcpOf(arm, measured);
    before := map[];
    if !tcp.TcpAt? {
      return Refuse(CurrentUnavailable), before;
    }
    before := map["tcp" := PointExcess(tcp.p, box)];
    if bodies == [] {
      return Admit, before;
    }
    var snapshot := Snapshot(arm, measured);
    if snapshot.None? {
      return Refuse(CurrentUnavailable), before;
    }
    var earlier := snapshot.value;
    if Names(earlier) != Names(bodies) {
      return Refuse(BodiesChanged), before;
    }
    var same;
    same, before := FillEarlier(bodies, earlier, box, before);
    if !same {
      return Refuse(RadiusChanged), before;
    }
    BeforeIsExcesses(tcp.p, earlier, bodies, box, before);
    v := Admit;
  }

  /** The loop that compares radii and fills the table, body by body. */
  method FillEarlier(bodies: seq<Sphere>, earlier: seq<Sphere>, box: Box, start: map<string, seq<real>>)
    returns (same: bool, before: map<string, seq<real>>)
    requires DistinctNames(earlier) && Names(earlier) == Names(bodies) && start.Keys == {"tcp"}
    ensures same <==> SameRadii(earlier, bodies)
    ensures same ==> before.Keys == {"tcp"} + Names(bodies)
    ensures same ==> forall k, j :: 0 <= k < |bodies| && 0 <= j < |earlier| && bodies[k].name == earlier[j].name ==>
                       before[bodies[k].name] == Excess(earlier[j].ball, box)
    ensures same && "tcp" !in Names(bodies) ==> before["tcp"] == start["tcp"]
  {
    before := start;
    for i := 0 to |bodies|
      invariant before.Keys == {"tcp"} + Names(bodies[..i])
      invariant forall k, j :: 0 <= k < i && 0 <= j < |earlier| && bodies[k].name == earlier[j].name ==>
                  earlier[j].ball.radius == bodies[k].ball.radius
                      && before[bodies[k].name] == Excess(earlier[j].ball, box)
      invariant "tcp" !in Names(bodies[..i]) ==> before["tcp"] == start["tcp"]
    {
      assert bodies[i].name in Names(bodies);
      var body := Find(earlier, bodies[i].name);
      assert Names(bodies[..i + 1]) == Names(bodies[..i]) + {bodies[i].name};
      if body.ball.radius != bodies[i].ball.radius {
        return false, before;
      }
      before := before[bodies[i].name := Excess(body.ball, box)];
    }
    assert bodies[..|bodies|] == bodies;
    same := true;
  }

  /** The dictionary look-up by body name. */
  function Find(bodies: seq<Sphere>, name: string): (b: Sphere)
    requires DistinctNames(bodies) && name in Names(bodies)
    ensures forall j :: 0 <= j < |bodies| && bodies[j].name == name ==> b == bodies[j]
  {
    if bodies[0].name == name then bodies[0]
    else
      assert forall j :: 0 < j < |bodies| ==> bodies[j] == bodies[1..][j - 1];
      assert name in Names(bodies[1..]) by { FoundInTail(bodies, name); }
      Find(bodies[1..], name)
  }

  lemma FoundInTail(bodies: seq<Sphere>, name: string)
    requires name in Names(bodies) && bodies[0].name != name
    ensures name in Names(bodies[1..])
  {
    var j :| 0 <= j < |bodies| && bodies[j].name == name;
    assert bodies[1..][j - 1].name == name;
  }

  /** The part of the check that runs once a target is known to be outside the box. */
  method CheckRecovery(arm: Arm, q: seq<Scalar>, measured: seq<Scalar>, after: map<string, seq<real>>)
    returns (v: Verdict)
    requires arm.workspace.Some? && Described(arm, q)
    requires after == Excesses(TcpOf(arm, q).p, Snapshot(arm, q).value, arm.workspace.value.box)
    ensures v.Admit? <==> Recovers(arm, q, measured)
    ensures !v.Raise? && (v.Refuse? ==> Geometric(v.reason))
  {
    var box, bodies := arm.workspace.value.box, Snapshot(arm, q).value;
    var before;
    v, before := EarlierExcesses(arm, bodies, measured);
    if !v.Admit? {
      return;
    }
    ExcessesKeys(TcpOf(arm, measured).p, Earlier(arm, bodies, measured), box);
    ExcessesKeys(TcpOf(arm, q).p, bodies, box);
    if (exists name :: name in before && Worse(after[name], before[name]))
       || !(exists name :: name in before && Better(after[name], before[name])) {
      return Refuse(OutsideWorkspace);
    }
  }

  /** Filling the earlier dictionary in the order of the later bodies gives the same dictionary. */
  lemma BeforeIsExcesses(tcp: Vec3, was: seq<Sphere>, now: seq<Sphere>, box: Box, before: map<string, seq<real>>)
    requires DistinctNames(was) && Names(was) == Names(now)
    requires before.Keys == {"tcp"} + Names(now)
    requires forall k, j :: 0 <= k < |now| && 0 <= j < |was| && now[k].name == was[j].name ==>
               before[now[k].name] == Excess(was[j].ball, box)
    requires "tcp" !in Names(now) ==> before["tcp"] == PointExcess(tcp, box)
    ensures before == Excesses(tcp, was, box)
  {
    ExcessesKeys(tcp, was, box);
    var e := Excesses(tcp, was, box);
    forall name | name in before
      ensures name in e && e[name] == before[name]
    {
      if name in Names(was) {
        var j :| 0 <= j < |was| && was[j].name == name;
        var k :| 0 <= k < |now| && now[k].name == name;
        ExcessesAt(tcp, was, box, j);
      } else {
        ExcessesTcp(tcp, was, box);
      }
    }
  }

  /** `_static_collision_reason` */
  method CheckBodies(arm: Arm, q: seq<Scalar>) returns (r: Option<Reason>)
    requires arm.Valid()
    ensures r.None? <==> BodiesClear(arm, q)
    ensures r.Some? ==> Geometric(r.value)
  {
    if !arm.RulesActive() {
      return None;
    }
    var snapshot := Snapshot(arm, q);
    if snapshot.None? {
      return Some(BodiesUnavailable);
    }
    var bodies := snapshot.value;
    if bodies == [] {
      return Some(NoBodies);
    }
    for i := 0 to |bodies|
      invariant forall a, k :: 0 <= a < i && 0 <= k < |arm.keepouts| ==> !HitsKeepout(bodies[a], arm.keepouts[k])
    {
      for j := 0 to |arm.keepouts|
        invariant forall k :: 0 <= k < j ==> !HitsKeepout(bodies[i], arm.keepouts[k])
      {
        if HitsKeepout(bodies[i], arm.keepouts[j]) {
          return Some(KeepoutHit);
        }
      }
    }
    if arm.selfCollision {
      for i := 0 to |bodies|
        invariant forall a, b :: 0 <= a < i && a < b < |bodies| ==> PairClear(arm, bodies[a], bodies[b])
      {
        for j := i + 1 to |bodies|
          invariant forall b :: i < b < j ==> PairClear(arm, bodies[i], bodies[b])
        {
          if multiset{bodies[i].name, bodies[j].name} !in arm.ignored
              && Overlap(bodies[i].ball, bodies[j].ball, arm.margin) {
            return Some(SelfCollision);
          }
        }
      }
    }
    return None;
  }

  /** `Arm.check`: admits exactly the admissible rows, and names the first joint that fails. */
  method Check(arm: Arm, target: seq<Scalar>, measured: seq<Scalar>) returns (v: Verdict)
    requires arm.Valid()
    ensures v.Admit? <==> Admissible(arm, target, measured)
    ensures v.Refuse? && v.reason.OutsideLimits? ==>
              var i := v.reason.joint;
              && i < |target| == arm.Width() && AllFinite(target)
              && !(arm.limits[i].0 <= target[i].v <= arm.limits[i].1)
              && forall k :: 0 <= k < i ==> arm.limits[k].0 <= target[k].v <= arm.limits[k].1
    ensures v.Refuse? && v.reason.OverCap? ==>
              var i := v.reason.joint;
              && i < |target| == |measured| == |arm.Caps()| && AllFinite(target) && InLimits(arm, Values(target))
              && Exceeds(target[i].v, measured[i], arm.Caps()[i])
              && forall k :: 0 <= k < i ==> !Exceeds(target[k].v, measured[k], arm.Caps()[k])
    ensures v.Raise? <==> KinematicsRaise(arm, target, measured)
  {
    if |target| != arm.Width() {
      return Refuse(WidthMismatch);
    }
    if |measured| != arm.Width() {
      return Refuse(MeasuredWidthMismatch);
    }
    if !AllFinite(target) {
      return Refuse(NonFiniteValues);
    }
    var q := Values(target);
    for i := 0 to |q|
      invariant forall k :: 0 <= k < i ==> arm.limits[k].0 <= q[k] <= arm.limits[k].1
    {
      if !(arm.limits[i].0 <= q[i] <= arm.limits[i].1) {
        return Refuse(OutsideLimits(i));
      }
    }
    var caps := arm.Caps();
    for i := 0 to |q|
      invariant forall k :: 0 <= k < i ==> !Exceeds(q[k], measured[k], caps[k])
    {
      if Exceeds(q[i], measured[i], caps[i]) {
        return Refuse(OverCap(i));
      }
    }
    v := CheckWorkspace(arm, target, measured);
    if !v.Admit? {
      return;
    }
    var reason := CheckBodies(arm, target);
    if reason.Some? {
      return Refuse(reason.value);
    }
  }
}
