/** What the envelope's geometric tests mean for the points of the robot, and how far a run of
accepted commands can ever be outside the declared workspace. */
module Recovery {
  import opened Wrappers
  import opened Rotation
  import opened Solids
  import opened Envelope

  // ----- admitted rows, point by point

  predicate ValidKeepout(k: Keepout) {
    match k
    case SphereKeepout(ball, margin) => ball.radius > 0.0 && margin >= 0.0
    case BoxKeepout(box, margin) => ValidBox(box) && margin >= 0.0
  }

  predicate InKeepout(p: Vec3, k: Keepout) {
    match k
    case SphereKeepout(ball, _) => InBall(p, ball)
    case BoxKeepout(box, _) => InBox(p, box)
  }

  /** Every point of every body, and the tool point, lies in the declared box. */
  ghost predicate SolidInside(arm: Arm, q: seq<Scalar>)
    requires arm.workspace.Some? && Described(arm, q)
  {
    var box, bodies := arm.workspace.value.box, Snapshot(arm, q).value;
    && InBox(TcpOf(arm, q).p, box)
    && forall i, p :: 0 <= i < |bodies| && InBall(p, bodies[i].ball) ==> InBox(p, box)
  }

  lemma InsideMeaning(arm: Arm, q: seq<Scalar>)
    requires arm.workspace.Some? && Described(arm, q)
    ensures InsideWorkspace(arm, q) <==> SolidInside(arm, q)
  {
    var box, bodies, tcp := arm.workspace.value.box, Snapshot(arm, q).value, TcpOf(arm, q).p;
    NoExcessMeaning(Ball(tcp, 0.0), box);
    PointBall(tcp);
    forall i | 0 <= i < |bodies|
      ensures NoExcess(Excess(bodies[i].ball, box)) <==> forall p :: InBall(p, bodies[i].ball) ==> InBox(p, box)
    {
      NoExcessMeaning(bodies[i].ball, box);
    }
  }

  lemma PointBall(c: Vec3)
    ensures forall p :: InBall(p, Ball(c, 0.0)) <==> p == c
  {
    forall p
      ensures InBall(p, Ball(c, 0.0)) <==> p == c
    {
      if InBall(p, Ball(c, 0.0)) {
        ZeroWithin(p, c);
      }
    }
  }

  /** No point of a body comes within the margin of any point of a keep-out. */
  ghost predicate KeptOut(s: Sphere, k: Keepout) {
    forall p, x :: InBall(p, s.ball) && InKeepout(x, k) ==> !Within(p, x, k.margin)
  }

  lemma KeepoutMeaning(s: Sphere, k: Keepout)
    requires ValidKeepout(k)
    ensures !HitsKeepout(s, k) <==> KeptOut(s, k)
  {
    match k
    case SphereKeepout(ball, margin) => OverlapMeaning(s.ball, ball, margin);
    case BoxKeepout(box, margin) => HitsBoxMeaning(s.ball, box, margin);
  }

  ghost predicate Apart(a: Ball, b: Ball, margin: real) {
    forall p, q :: InBall(p, a) && InBall(q, b) ==> !Within(p, q, margin)
  }

  lemma ApartMeaning(a: Sphere, b: Sphere, margin: real)
    requires margin >= 0.0
    ensures !Overlap(a.ball, b.ball, margin) <==> Apart(a.ball, b.ball, margin)
  {
    OverlapMeaning(a.ball, b.ball, margin);
  }

  /** Every body keeps every keep-out's margin, and every two bodies that are not declared to be
  ignored keep the part's own. */
  ghost predicate SolidClear(arm: Arm, q: seq<Scalar>) {
    arm.RulesActive() ==>
      && Snapshot(arm, q).Some?
      && var bodies := Snapshot(arm, q).value;
         && bodies != []
         && (forall i, k :: 0 <= i < |bodies| && 0 <= k < |arm.keepouts| ==> KeptOut(bodies[i], arm.keepouts[k]))
         && (arm.selfCollision ==> forall i, j :: 0 <= i < j < |bodies| ==>
               multiset{bodies[i].name, bodies[j].name} in arm.ignored
                   || Apart(bodies[i].ball, bodies[j].ball, arm.margin))
  }

  predicate ValidKeepouts(arm: Arm) { forall k :: 0 <= k < |arm.keepouts| ==> ValidKeepout(arm.keepouts[k]) }

  lemma ClearMeaning(arm: Arm, q: seq<Scalar>)
    requires arm.Valid() && ValidKeepouts(arm)
    ensures BodiesClear(arm, q) <==> SolidClear(arm, q)
  {
    if arm.RulesActive() && Snapshot(arm, q).Some? {
      var bodies := Snapshot(arm, q).value;
      forall i, k | 0 <= i < |bodies| && 0 <= k < |arm.keepouts|
        ensures !HitsKeepout(bodies[i], arm.keepouts[k]) <==> KeptOut(bodies[i], arm.keepouts[k])
      {
        KeepoutMeaning(bodies[i], arm.keepouts[k]);
      }
      forall i, j | 0 <= i < j < |bodies|
        ensures !Overlap(bodies[i].ball, bodies[j].ball, arm.margin) <==>
                  Apart(bodies[i].ball, bodies[j].ball, arm.margin)
      {
        ApartMeaning(bodies[i], bodies[j], arm.margin);
      }
    }
  }

  // ----- runs of accepted commands

  /** The excess table of a row, where the row has one. */
  predicate Placed(arm: Arm, q: seq<Scalar>) {
    arm.workspace.Some? && TcpOf(arm, q).TcpAt? && Snapshot(arm, q).Some?
  }

  function Table(arm: Arm, q: seq<Scalar>): map<string, seq<real>>
    requires Placed(arm, q)
  {
    Excesses(TcpOf(arm, q).p, Snapshot(arm, q).value, arm.workspace.value.box)
  }

  predicate Mild(arm: Arm, q: seq<Scalar>) {
    Placed(arm, q) ==>
      forall name, f :: name in Table(arm, q) && 0 <= f < |Table(arm, q)[name]| ==> Table(arm, q)[name][f] <= TOLERANCE
  }

  predicate Inside(arm: Arm, q: seq<Scalar>) {
    arm.workspace.Some? && Described(arm, q) && InsideWorkspace(arm, q)
  }

  /** Each row was admitted when the row before it was what the driver measured. */
  predicate Accepted(arm: Arm, rows: seq<seq<Scalar>>)
    requires arm.Valid()
  {
    forall k :: 0 <= k < |rows| - 1 ==> Admissible(arm, rows[k + 1], rows[k])
  }

  lemma {:induction false} TableNonNegative(tcp: Vec3, bodies: seq<Sphere>, box: Box)
    ensures forall name, f :: name in Excesses(tcp, bodies, box) && 0 <= f < |Excesses(tcp, bodies, box)[name]| ==>
              Excesses(tcp, bodies, box)[name][f] >= 0.0
  {
    if bodies != [] {
      TableNonNegative(tcp, bodies[..|bodies| - 1], box);
    }
  }

  lemma {:induction false} TableZero(tcp: Vec3, bodies: seq<Sphere>, box: Box)
    requires NoExcess(PointExcess(tcp, box)) && forall i :: 0 <= i < |bodies| ==> NoExcess(Excess(bodies[i].ball, box))
    ensures forall name :: name in Excesses(tcp, bodies, box) ==> NoExcess(Excesses(tcp, bodies, box)[name])
  {
    if bodies != [] {
      TableZero(tcp, bodies[..|bodies| - 1], box);
    }
  }

  lemma InsideMild(arm: Arm, q: seq<Scalar>)
    requires Inside(arm, q)
    ensures Mild(arm, q)
    ensures forall name :: name in Table(arm, q) ==> NoExcess(Table(arm, q)[name])
  {
    TableZero(TcpOf(arm, q).p, Snapshot(arm, q).value, arm.workspace.value.box);
  }

  /** The table a recovery is compared with is the measured row's own. */
  lemma EarlierIsTable(arm: Arm, q: seq<Scalar>, measured: seq<Scalar>)
    requires arm.workspace.Some? && Described(arm, q) && Recovers(arm, q, measured)
    ensures Placed(arm, measured)
    ensures Table(arm, measured).Keys == Table(arm, q).Keys
    ensures forall name :: name in Table(arm, q) ==>
              && |Table(arm, q)[name]| == |Table(arm, measured)[name]| == 6
              && !Worse(Table(arm, q)[name], Table(arm, measured)[name])
    ensures exists name :: name in Table(arm, q) && Better(Table(arm, q)[name], Table(arm, measured)[name])
  {
    var box, now := arm.workspace.value.box, Snapshot(arm, q).value;
    if now == [] {
      assert Snapshot(arm, measured) == Some([]);
    }
    ExcessesKeys(TcpOf(arm, measured).p, Earlier(arm, now, measured), box);
    ExcessesKeys(TcpOf(arm, q).p, now, box);
  }

  /** From a pose that is outside by no more than the tolerance, only inside targets are accepted. */
  lemma MildAdmitsInside(arm: Arm, q: seq<Scalar>, measured: seq<Scalar>)
    requires arm.Valid() && arm.workspace.Some?
    requires Mild(arm, measured) && Admissible(arm, q, measured)
    ensures Inside(arm, q)
  {
    if !InsideWorkspace(arm, q) {
      EarlierIsTable(arm, q, measured);
      TableNonNegative(TcpOf(arm, q).p, Snapshot(arm, q).value, arm.workspace.value.box);
    }
  }

  /** If the first measurement is outside by no more than the tolerance, every accepted target is
  fully inside the box. */
  lemma {:induction false} RunStaysInside(arm: Arm, rows: seq<seq<Scalar>>, k: nat)
    requires arm.Valid() && arm.workspace.Some? && Accepted(arm, rows)
    requires 0 < k < |rows| && Mild(arm, rows[0])
    ensures Inside(arm, rows[k])
  {
    if k > 1 {
      RunStaysInside(arm, rows, k - 1);
      InsideMild(arm, rows[k - 1]);
    }
    assert Admissible(arm, rows[k - 1 + 1], rows[k - 1]);
    MildAdmitsInside(arm, rows[k], rows[k - 1]);
  }

  /** Whatever the start, after `k` accepted commands no face is exceeded by more than at the start
  plus `k` tolerances. */
  lemma {:induction false} RunExcessBound(arm: Arm, rows: seq<seq<Scalar>>, k: nat, name: string, f: nat)
    requires arm.Valid() && arm.workspace.Some? && Accepted(arm, rows)
    requires 0 < k < |rows| && Placed(arm, rows[0]) && Placed(arm, rows[k])
    requires name in Table(arm, rows[0]) && f < |Table(arm, rows[0])[name]|
    requires name in Table(arm, rows[k]) && f < |Table(arm, rows[k])[name]|
    ensures Table(arm, rows[k])[name][f] <= Table(arm, rows[0])[name][f] + k as real * TOLERANCE
  {
    if Inside(arm, rows[k]) {
      InsideMild(arm, rows[k]);
      TableNonNegative(TcpOf(arm, rows[0]).p, Snapshot(arm, rows[0]).value, arm.workspace.value.box);
    } else {
      assert Admissible(arm, rows[k - 1 + 1], rows[k - 1]);
      OutsideStep(arm, rows[k], rows[k - 1], name, f);
      if k > 1 {
        RunExcessBound(arm, rows, k - 1, name, f);
      }
    }
  }

  /** One accepted command that does not end inside: the same table of faces, each no worse than
  the tolerance allows. */
  lemma OutsideStep(arm: Arm, q: seq<Scalar>, measured: seq<Scalar>, name: string, f: nat)
    requires arm.Valid() && arm.workspace.Some?
    requires Admissible(arm, q, measured) && !Inside(arm, q)
    requires Placed(arm, q) && name in Table(arm, q) && f < |Table(arm, q)[name]|
    ensures Placed(arm, measured) && name in Table(arm, measured) && f < |Table(arm, measured)[name]|
    ensures Table(arm, q)[name][f] <= Table(arm, measured)[name][f] + TOLERANCE
  {
    EarlierIsTable(arm, q, measured);
    assert !Worse(Table(arm, q)[name], Table(arm, measured)[name]);
  }

  /** Once inside, a run of accepted commands never leaves. */
  lemma {:induction false} RunNeverLeaves(arm: Arm, rows: seq<seq<Scalar>>, j: nat, k: nat)
    requires arm.Valid() && arm.workspace.Some? && Accepted(arm, rows)
    requires j <= k < |rows| && Inside(arm, rows[j])
    ensures Inside(arm, rows[k])
  {
    if j < k {
      RunNeverLeaves(arm, rows, j, k - 1);
      InsideMild(arm, rows[k - 1]);
      assert Admissible(arm, rows[k - 1 + 1], rows[k - 1]);
      MildAdmitsInside(arm, rows[k], rows[k - 1]);
    }
  }
}
