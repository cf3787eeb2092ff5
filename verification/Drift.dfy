/** The tolerance of the recovery rule is granted anew at each command, and a run can use all of it. */
module Drift {
  import opened Wrappers
  import opened Rotation
  import opened Solids
  import opened Envelope
  import opened Recovery

  /** A part whose two joints are the tool point's first two coordinates, in a unit box. */
  function Plotter(n: nat): (arm: Arm)
    ensures arm.Valid() && arm.workspace.Some?
  {
    var reach := n as real + 3.0;
    var box := Box(Vec3(0.0, 0.0, 0.0), Vec3(1.0, 1.0, 1.0));
    var fk := (q: seq<Scalar>) => if |q| == 2 && AllFinite(q) then TcpAt(Vec3(q[0].v, q[1].v, 0.0)) else Raises;
    Arm("plotter", [(-reach, reach), (-reach, reach)], [Finite(1.0), Finite(1.0)], None, 2,
        Some(Workspace(box, fk)), None, "", [], false, 0.0, {})
  }

  /** Row `k` of a run that comes back along one axis and drifts out along the other. */
  function Row(n: nat, k: nat): (q: seq<Scalar>)
    requires k <= n
    ensures |q| == 2 && AllFinite(q)
  {
    Commanded([(n - k) as real + 2.0, 2.0 + k as real * TOLERANCE])
  }

  function Rows(n: nat): (rows: seq<seq<Scalar>>)
    ensures |rows| == n + 1 && forall k :: 0 <= k <= n ==> rows[k] == Row(n, k)
  {
    seq(n + 1, k requires 0 <= k < n + 1 => Row(n, k))
  }

  lemma RowTable(n: nat, k: nat)
    requires k <= n
    ensures Placed(Plotter(n), Row(n, k)) && Described(Plotter(n), Row(n, k))
              && Snapshot(Plotter(n), Row(n, k)).value == []
    ensures Table(Plotter(n), Row(n, k))
              == map["tcp" := [0.0, 0.0, 0.0, (n - k) as real + 1.0, 1.0 + k as real * TOLERANCE, 0.0]]
  {
    var arm, q := Plotter(n), Row(n, k);
    assert Prefix(q, 2) == q;
    assert Snapshot(arm, q) == Some([]);
    assert TcpOf(arm, q) == TcpAt(Vec3(q[0].v, q[1].v, 0.0));
  }

  lemma StepRecovers(n: nat, k: nat)
    requires k < n
    ensures Recovers(Plotter(n), Row(n, k + 1), Row(n, k))
  {
    var arm, q, m := Plotter(n), Row(n, k + 1), Row(n, k);
    RowTable(n, k);
    RowTable(n, k + 1);
    assert Earlier(arm, [], m) == [];
    var before, after := Table(arm, m), Table(arm, q);
    assert after["tcp"][3] < before["tcp"][3] - TOLERANCE;
    assert Better(after["tcp"], before["tcp"]);
    assert !Worse(after["tcp"], before["tcp"]);
  }

  lemma StepAdmitted(n: nat, k: nat)
    requires k < n
    ensures Admissible(Plotter(n), Row(n, k + 1), Row(n, k))
  {
    StepRecovers(n, k);
    RowTable(n, k + 1);
  }

  /** The bound on a run's excess is attained: for every length there is a part and a run of accepted
  commands along which one face gets worse by one tolerance at each of them. */
  lemma DriftAttained(n: nat)
    ensures Accepted(Plotter(n), Rows(n))
    ensures forall k :: 0 <= k <= n ==> Placed(Plotter(n), Rows(n)[k]) && "tcp" in Table(Plotter(n), Rows(n)[k])
    ensures var first, last := Table(Plotter(n), Rows(n)[0])["tcp"], Table(Plotter(n), Rows(n)[n])["tcp"];
            last[4] == first[4] + n as real * TOLERANCE
  {
    forall k | 0 <= k < n
      ensures Admissible(Plotter(n), Rows(n)[k + 1], Rows(n)[k])
    {
      StepAdmitted(n, k);
    }
    forall k | 0 <= k <= n
      ensures Placed(Plotter(n), Rows(n)[k]) && "tcp" in Table(Plotter(n), Rows(n)[k])
    {
      RowTable(n, k);
    }
    RowTable(n, 0);
    RowTable(n, n);
  }

  // ----- from which starts a face can get worse at all

  /** The row's largest excess, over all bodies and faces, is `e`. */
  ghost predicate Largest(arm: Arm, q: seq<Scalar>, e: real) {
    && Placed(arm, q)
    && (forall name, f :: name in Table(arm, q) && 0 <= f < |Table(arm, q)[name]| ==> Table(arm, q)[name][f] <= e)
    && (exists name, f :: name in Table(arm, q) && 0 <= f < |Table(arm, q)[name]| && Table(arm, q)[name][f] == e)
  }

  /** Some face is exceeded further than it was measured. */
  ghost predicate Further(arm: Arm, q: seq<Scalar>, measured: seq<Scalar>) {
    && Placed(arm, q) && Placed(arm, measured)
    && exists name, f :: name in Table(arm, q) && name in Table(arm, measured)
         && 0 <= f < |Table(arm, q)[name]| && f < |Table(arm, measured)[name]|
         && Table(arm, q)[name][f] > Table(arm, measured)[name][f]
  }

  /** A command admitted from a start of largest excess `e` that makes some face worse. */
  ghost predicate Drifts(arm: Arm, q: seq<Scalar>, measured: seq<Scalar>, e: real) {
    && arm.Valid() && arm.workspace.Some? && Largest(arm, measured, e)
    && Admissible(arm, q, measured) && Further(arm, q, measured)
  }

  /** The plotter again, with limits and caps that leave room for one long step. */
  function Bench(e: real): (arm: Arm)
    requires e > 0.0
    ensures arm.Valid() && arm.workspace.Some?
  {
    var box := Box(Vec3(0.0, 0.0, 0.0), Vec3(1.0, 1.0, 1.0));
    var fk := (q: seq<Scalar>) => if |q| == 2 && AllFinite(q) then TcpAt(Vec3(q[0].v, q[1].v, 0.0)) else Raises;
    Arm("plotter", [(-e, e + 3.0), (-e, e + 3.0)], [Finite(e + 2.0), Finite(e + 2.0)], None, 2,
        Some(Workspace(box, fk)), None, "", [], false, 0.0, {})
  }

  lemma BenchTable(e: real, x: real, y: real)
    requires e > 0.0 && x >= 1.0 && y >= 1.0
    ensures var q := Commanded([x, y]);
            Placed(Bench(e), q) && Described(Bench(e), q) && Snapshot(Bench(e), q).value == []
    ensures Table(Bench(e), Commanded([x, y])) == map["tcp" := [0.0, 0.0, 0.0, x - 1.0, y - 1.0, 0.0]]
  {
    var arm, q := Bench(e), Commanded([x, y]);
    assert Prefix(q, 2) == q;
    assert Snapshot(arm, q) == Some([]);
    assert TcpOf(arm, q) == TcpAt(Vec3(x, y, 0.0));
  }

  /** From an excess beyond the tolerance on one face, one command comes back there and opens another. */
  lemma BenchDrifts(e: real)
    requires e > TOLERANCE
    ensures Drifts(Bench(e), Commanded([1.0, 1.0 + TOLERANCE]), Commanded([1.0 + e, 1.0]), e)
  {
    var arm, q, m := Bench(e), Commanded([1.0, 1.0 + TOLERANCE]), Commanded([1.0 + e, 1.0]);
    BenchTable(e, 1.0, 1.0 + TOLERANCE);
    BenchTable(e, 1.0 + e, 1.0);
    assert Earlier(arm, [], m) == [];
    var before, after := Table(arm, m), Table(arm, q);
    assert before["tcp"][3] == e && after["tcp"][3] < before["tcp"][3] - TOLERANCE;
    assert Better(after["tcp"], before["tcp"]) && !Worse(after["tcp"], before["tcp"]);
    assert after["tcp"][4] > before["tcp"][4];
    assert Recovers(arm, q, m);
  }

  lemma MildNeverDrifts(arm: Arm, q: seq<Scalar>, measured: seq<Scalar>, e: real)
    requires e <= TOLERANCE
    ensures !Drifts(arm, q, measured, e)
  {
    if arm.Valid() && arm.workspace.Some? && Largest(arm, measured, e) && Admissible(arm, q, measured) {
      MildAdmitsInside(arm, q, measured);
      InsideMild(arm, q);
      TableNonNegative(TcpOf(arm, measured).p, Snapshot(arm, measured).value, arm.workspace.value.box);
    }
  }

  /** The rule does what it is meant to, that is no accepted command makes any face worse, exactly from
  starts whose largest excess is at most the tolerance. */
  lemma DriftsIff(e: real)
    ensures (exists arm, q, measured :: Drifts(arm, q, measured, e)) <==> e > TOLERANCE
  {
    if e > TOLERANCE {
      BenchDrifts(e);
    } else {
      forall arm, q, measured
        ensures !Drifts(arm, q, measured, e)
      {
        MildNeverDrifts(arm, q, measured, e);
      }
    }
  }
}
