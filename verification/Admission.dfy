/** The admission rule over a part's declared fields alone, and the geometry it looks at. */
module Admission {
  import opened Wrappers
  import opened Rotation
  import opened Solids
  import opened Envelope
  import opened Recovery

  // ----- numbers

  /** The rule in the part's own numbers. The position error caps, where a part has any, are the only ones that
  count; otherwise the step caps are. */
  lemma AdmissibleIff(arm: Arm, target: seq<Scalar>, measured: seq<Scalar>)
    requires arm.Valid()
    ensures Admissible(arm, target, measured) <==>
              && |target| == |arm.limits| && |measured| == |arm.limits|
              && (forall i :: 0 <= i < |target| ==>
                    target[i].Finite? && arm.limits[i].0 <= target[i].v <= arm.limits[i].1)
              && (arm.errorCaps.Some? && arm.errorCaps.value != [] ==> forall i :: 0 <= i < |target| ==>
                    && !measured[i].Infinite?
                    && (measured[i].Finite? ==>
                          -arm.errorCaps.value[i] <= target[i].v - measured[i].v <= arm.errorCaps.value[i]))
              && (arm.errorCaps.None? || arm.errorCaps.value == [] ==> forall i :: 0 <= i < |target| ==>
                    && (arm.stepCaps[i].Finite? ==> !measured[i].Infinite?)
                    && (arm.stepCaps[i].Finite? && measured[i].Finite? ==>
                          -arm.stepCaps[i].v <= target[i].v - measured[i].v <= arm.stepCaps[i].v)
                    && (arm.stepCaps[i] == Infinite(true) ==> measured[i].NaN?))
              && (arm.workspace.Some? ==>
                    && TcpOf(arm, target).TcpAt? && Snapshot(arm, target).Some?
                    && (arm.bodies.Some? ==> Snapshot(arm, target).value != [])
                    && (Inside(arm, target) || Recovers(arm, target, measured)))
              && BodiesClear(arm, target)
  {}

  /** With position error caps the step caps play no part. */
  lemma StepCapsIdle(arm: Arm, steps: seq<Scalar>, target: seq<Scalar>, measured: seq<Scalar>)
    requires arm.Valid() && |steps| == |arm.stepCaps| && arm.errorCaps.Some? && arm.errorCaps.value != []
    ensures Admissible(arm, target, measured) <==> Admissible(arm.(stepCaps := steps), target, measured)
  {
    var other := arm.(stepCaps := steps);
    assert forall q: seq<Scalar> :: Snapshot(other, q) == Snapshot(arm, q);
    SameGeometry(arm, other, target, measured);
  }

  lemma SameGeometry(a: Arm, b: Arm, target: seq<Scalar>, measured: seq<Scalar>)
    requires b == a.(stepCaps := b.stepCaps)
    ensures WorkspaceAllows(a, target, measured) <==> WorkspaceAllows(b, target, measured)
    ensures BodiesClear(a, target) <==> BodiesClear(b, target)
  {
    assert forall q: seq<Scalar> :: Snapshot(b, q) == Snapshot(a, q);
    if a.workspace.Some? {
      assert forall q: seq<Scalar> :: TcpOf(b, q) == TcpOf(a, q);
    }
  }

  // ----- geometry

  /** Kinematics and bodies are those of the first `armDof` joints; a body's name without a slash gets the
  part's own name before it; two bodies of one name are no geometry. */
  lemma GeometryMeans(arm: Arm, q: seq<Scalar>)
    requires arm.Valid() && |q| >= arm.armDof
    ensures arm.workspace.Some? ==> TcpOf(arm, q) == arm.workspace.value.fk(q[..arm.armDof])
    ensures arm.bodies.None? ==> Snapshot(arm, q) == Some([])
    ensures arm.bodies.Some? ==>
              var raw, seen := arm.bodies.value(q[..arm.armDof]), Snapshot(arm, q);
              && (raw.None? ==> seen.None?)
              && (seen.Some? ==>
                    && |seen.value| == |raw.value|
                    && (forall i :: 0 <= i < |raw.value| ==>
                          && seen.value[i].ball == raw.value[i].ball
                          && seen.value[i].name ==
                               (if arm.part == "" || '/' in raw.value[i].name then raw.value[i].name
                                else arm.part + "/" + raw.value[i].name))
                    && forall i, j :: 0 <= i < j < |seen.value| ==> seen.value[i].name != seen.value[j].name)
              && (raw.Some? && seen.None? ==>
                    exists i, j :: 0 <= i < j < |raw.value|
                      && BodyName(arm.part, raw.value[i].name) == BodyName(arm.part, raw.value[j].name))
  {}

  /** What a hand does, beyond the arm's own joints, has no bearing on any geometric rule. */
  lemma HandIrrelevant(arm: Arm, q: seq<Scalar>, r: seq<Scalar>)
    requires arm.Valid() && |q| >= arm.armDof && |r| >= arm.armDof && q[..arm.armDof] == r[..arm.armDof]
    ensures BodiesClear(arm, q) <==> BodiesClear(arm, r)
    ensures arm.workspace.Some? ==> (Inside(arm, q) <==> Inside(arm, r))
  {
    assert Snapshot(arm, q) == Snapshot(arm, r);
  }

  /** Inside, by points: the tool point and every point of every body lie between the box's corners. */
  lemma InsideIff(arm: Arm, q: seq<Scalar>)
    requires arm.Valid() && arm.workspace.Some? && |q| >= arm.armDof
    ensures Inside(arm, q) <==>
              var tcp, box := arm.workspace.value.fk(q[..arm.armDof]), arm.workspace.value.box;
              && tcp.TcpAt?
              && box.lo.x <= tcp.p.x <= box.hi.x && box.lo.y <= tcp.p.y <= box.hi.y && box.lo.z <= tcp.p.z <= box.hi.z
              && (arm.bodies.Some? ==>
                    && Snapshot(arm, q).Some? && Snapshot(arm, q).value != []
                    && forall i, p :: 0 <= i < |Snapshot(arm, q).value| && InBall(p, Snapshot(arm, q).value[i].ball) ==>
                         && box.lo.x <= p.x <= box.hi.x && box.lo.y <= p.y <= box.hi.y && box.lo.z <= p.z <= box.hi.z)
  {
    GeometryMeans(arm, q);
    if Described(arm, q) {
      InsideMeaning(arm, q);
      var box, bodies := arm.workspace.value.box, Snapshot(arm, q).value;
      assert forall p :: InBox(p, box) <==>
          box.lo.x <= p.x <= box.hi.x && box.lo.y <= p.y <= box.hi.y && box.lo.z <= p.z <= box.hi.z;
    }
  }

  /** Clear, by points: a part with neither keep-outs nor self-collision checks is bound by nothing; any other
  keeps every keep-out's margin and, if it checks itself, its own margin between bodies not ignored. */
  lemma ClearIff(arm: Arm, q: seq<Scalar>)
    requires arm.Valid() && ValidKeepouts(arm)
    ensures BodiesClear(arm, q) <==>
              || (arm.keepouts == [] && !arm.selfCollision)
              || (&& Snapshot(arm, q).Some? && Snapshot(arm, q).value != []
                  && var bodies := Snapshot(arm, q).value;
                     && (forall i, k :: 0 <= i < |bodies| && 0 <= k < |arm.keepouts| ==>
                           forall p, x :: InBall(p, bodies[i].ball) && InKeepout(x, arm.keepouts[k]) ==>
                             !Within(p, x, arm.keepouts[k].margin))
                     && (arm.selfCollision ==>
                           forall i, j :: 0 <= i < j < |bodies| ==>
                             multiset{bodies[i].name, bodies[j].name} !in arm.ignored ==>
                               forall p, x :: InBall(p, bodies[i].ball) && InBall(x, bodies[j].ball) ==>
                                 !Within(p, x, arm.margin)))
  {
    ClearMeaning(arm, q);
  }

  /** What a recovery may do, face by face, for a part that has a name: every face of the tool point and of
  every body, matched by name, at most 1e-9 further out than measured, and some face at least that much
  further in. */
  predicate FaceByFace(now: seq<real>, was: seq<real>) {
    |now| == 6 && |was| == 6 && forall f :: 0 <= f < 6 ==> now[f] <= was[f] + 0.000000001
  }

  predicate SomeFaceIn(now: seq<real>, was: seq<real>) {
    |now| == 6 && |was| == 6 && exists f :: 0 <= f < 6 && now[f] < was[f] - 0.000000001
  }

  /** The same bodies by name, each as large as before. */
  predicate SameBuild(now: seq<Sphere>, was: seq<Sphere>) {
    && (set i | 0 <= i < |was| :: was[i].name) == (set i | 0 <= i < |now| :: now[i].name)
    && forall i, j :: 0 <= i < |was| && 0 <= j < |now| && was[i].name == now[j].name ==>
         was[i].ball.radius == now[j].ball.radius
  }

  lemma SameBuildMeans(now: seq<Sphere>, was: seq<Sphere>)
    ensures SameBuild(now, was) <==> SameBodies(was, now) && SameRadii(was, now)
  {}

  lemma NoTcpBody(arm: Arm, q: seq<Scalar>)
    requires arm.part != "" && Snapshot(arm, q).Some?
    ensures "tcp" !in Names(Snapshot(arm, q).value)
  {}

  /** Tool point against tool point and body against body of one name, in the box. */
  predicate Returns(box: Box, p: Vec3, now: seq<Sphere>, o: Vec3, was: seq<Sphere>) {
    && FaceByFace(Excess(Ball(p, 0.0), box), Excess(Ball(o, 0.0), box))
    && (forall i, j :: 0 <= i < |now| && 0 <= j < |was| && now[i].name == was[j].name ==>
          FaceByFace(Excess(now[i].ball, box), Excess(was[j].ball, box)))
    && (SomeFaceIn(Excess(Ball(p, 0.0), box), Excess(Ball(o, 0.0), box))
        || exists i, j :: 0 <= i < |now| && 0 <= j < |was| && now[i].name == was[j].name
             && SomeFaceIn(Excess(now[i].ball, box), Excess(was[j].ball, box)))
  }

  lemma RecoversIff(arm: Arm, q: seq<Scalar>, measured: seq<Scalar>)
    requires arm.Valid() && arm.workspace.Some? && arm.part != "" && Described(arm, q)
    ensures Recovers(arm, q, measured) <==>
              && TcpOf(arm, measured).TcpAt?
              && var (now, seen, box) := (Snapshot(arm, q).value, Snapshot(arm, measured), arm.workspace.value.box);
                 var p, o := TcpOf(arm, q).p, TcpOf(arm, measured).p;
                 if now == [] then Returns(box, p, [], o, [])
                 else seen.Some? && SameBuild(now, seen.value) && Returns(box, p, now, o, seen.value)
  {
    var now := Snapshot(arm, q).value;
    if Snapshot(arm, measured).Some? {
      SameBuildMeans(now, Snapshot(arm, measured).value);
    }
    if Comparable(arm, now, measured) {
      var was, box := Earlier(arm, now, measured), arm.workspace.value.box;
      var p, o := TcpOf(arm, q).p, TcpOf(arm, measured).p;
      NoTcpBody(arm, q);
      SameNamed(arm, now, measured);
      ReturnsIff(box, p, now, o, was);
    }
  }

  lemma ReturnsIff(box: Box, p: Vec3, now: seq<Sphere>, o: Vec3, was: seq<Sphere>)
    requires DistinctNames(now) && DistinctNames(was) && Names(now) == Names(was) && "tcp" !in Names(now)
    ensures var after, before := Excesses(p, now, box), Excesses(o, was, box);
            && before.Keys == after.Keys
            && (Returns(box, p, now, o, was) <==>
                  && (forall name :: name in before ==> !Worse(after[name], before[name]))
                  && (exists name :: name in before && Better(after[name], before[name])))
  {
    Entries(p, now, box);
    Entries(o, was, box);
    NoneWorse(Excesses(p, now, box), Excesses(o, was, box), now, was, Ball(p, 0.0), Ball(o, 0.0), box);
    SomeBetter(Excesses(p, now, box), Excesses(o, was, box), now, was, Ball(p, 0.0), Ball(o, 0.0), box);
  }

  lemma SameNamed(arm: Arm, now: seq<Sphere>, measured: seq<Scalar>)
    requires arm.workspace.Some? && Comparable(arm, now, measured)
    ensures Names(Earlier(arm, now, measured)) == Names(now) && DistinctNames(Earlier(arm, now, measured))
  {}

  lemma Faces(now: seq<real>, was: seq<real>)
    requires |now| == 6 && |was| == 6
    ensures !Worse(now, was) <==> FaceByFace(now, was)
    ensures Better(now, was) <==> SomeFaceIn(now, was)
  {}

  /** The dictionaries of excesses have an entry for the tool point and one for each body. */
  lemma Entries(p: Vec3, bodies: seq<Sphere>, box: Box)
    requires DistinctNames(bodies) && "tcp" !in Names(bodies)
    ensures Lists(Excesses(p, bodies, box), Ball(p, 0.0), bodies, box)
  {
    ExcessesKeys(p, bodies, box);
    ExcessesTcp(p, bodies, box);
    forall i | 0 <= i < |bodies|
      ensures bodies[i].name in Excesses(p, bodies, box)
      ensures Excesses(p, bodies, box)[bodies[i].name] == Excess(bodies[i].ball, box)
    {
      ExcessesAt(p, bodies, box, i);
    }
  }

  lemma Matched(now: seq<Sphere>, was: seq<Sphere>, name: string)
    requires Names(now) == Names(was) && name in Names(now)
    ensures exists i, j :: 0 <= i < |now| && 0 <= j < |was| && now[i].name == name == was[j].name
  {
    assert name in Names(was);
  }

  /** A table with these entries. */
  predicate Lists(e: map<string, seq<real>>, tool: Ball, bodies: seq<Sphere>, box: Box) {
    && e.Keys == {"tcp"} + Names(bodies) && e["tcp"] == Excess(tool, box)
    && forall i :: 0 <= i < |bodies| ==> bodies[i].name in e && e[bodies[i].name] == Excess(bodies[i].ball, box)
  }

  lemma NoneWorse(after: map<string, seq<real>>, before: map<string, seq<real>>, now: seq<Sphere>, was: seq<Sphere>,
                  p: Ball, o: Ball, box: Box)
    requires Lists(after, p, now, box) && Lists(before, o, was, box) && Names(now) == Names(was)
    ensures (forall name :: name in before ==> !Worse(after[name], before[name])) <==>
              && FaceByFace(Excess(p, box), Excess(o, box))
              && forall i, j :: 0 <= i < |now| && 0 <= j < |was| && now[i].name == was[j].name ==>
                   FaceByFace(Excess(now[i].ball, box), Excess(was[j].ball, box))
  {
    Faces(Excess(p, box), Excess(o, box));
    forall i, j | 0 <= i < |now| && 0 <= j < |was| && now[i].name == was[j].name
      ensures Worse(after[now[i].name], before[now[i].name]) <==>
                !FaceByFace(Excess(now[i].ball, box), Excess(was[j].ball, box))
    {
      Faces(Excess(now[i].ball, box), Excess(was[j].ball, box));
    }
    forall name | name in before && name != "tcp"
      ensures exists i, j :: 0 <= i < |now| && 0 <= j < |was| && now[i].name == name == was[j].name
    {
      Matched(now, was, name);
    }
  }

  lemma SomeBetter(after: map<string, seq<real>>, before: map<string, seq<real>>, now: seq<Sphere>, was: seq<Sphere>,
                   p: Ball, o: Ball, box: Box)
    requires Lists(after, p, now, box) && Lists(before, o, was, box) && Names(now) == Names(was)
    ensures (exists name :: name in before && Better(after[name], before[name])) <==>
              || SomeFaceIn(Excess(p, box), Excess(o, box))
              || exists i, j :: 0 <= i < |now| && 0 <= j < |was| && now[i].name == was[j].name
                   && SomeFaceIn(Excess(now[i].ball, box), Excess(was[j].ball, box))
  {
    Faces(Excess(p, box), Excess(o, box));
    forall i, j | 0 <= i < |now| && 0 <= j < |was| && now[i].name == was[j].name
      ensures Better(after[now[i].name], before[now[i].name]) <==>
                SomeFaceIn(Excess(now[i].ball, box), Excess(was[j].ball, box))
    {
      Faces(Excess(now[i].ball, box), Excess(was[j].ball, box));
    }
    forall name | name in before && name != "tcp"
      ensures exists i, j :: 0 <= i < |now| && 0 <= j < |was| && now[i].name == name == was[j].name
    {
      Matched(now, was, name);
    }
  }
}
