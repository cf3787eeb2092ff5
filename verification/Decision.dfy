/** Applying one gate decision to several parts at once.

Drivers, threads and operators are one arbitrary environment: it answers each driver call, or
raises, as any function of everything that has happened so far. */
module Decision {
  import opened Wrappers
  import opened Envelope
  import opened Recovery
  import opened CrossPart

  /** What a driver offers beyond positions: a force mode with its limits, and velocity feedforward. */
  datatype Extensions = Extensions(force: Option<(real, real)>, velocity: bool)

  datatype Part = Part(arm: Arm, extensions: Extensions)

  /** The declared parts by name. */
  type Parts = map<string, Part>

  /** One addressed part and the row it is given; an empty row addresses it without motion. */
  datatype Row = Row(part: string, target: seq<Scalar>)

  /** `Report` and `Notify` reach no driver: the line that tells of a refusal, and the caller's own
  `on_refusal`. */
  datatype Call =
    | ReadLatch
    | ReadState
    | Report
    | HoldStill
    | Notify
    | WritePosition(q: seq<real>)
    | WriteVelocity(q: seq<real>, v: seq<real>)
    | WriteForce(q: seq<real>, force: real, feed: Option<seq<real>>)

  datatype Event = Event(part: string, call: Call)

  /** The answers to the last call of a history. `interrupts`: what it raises, if it raises, is no ordinary
  exception, so that handlers of those let it through. */
  datatype Env = Env(raises: seq<Event> -> bool, interrupts: seq<Event> -> bool, latched: seq<Event> -> bool,
                     position: seq<Event> -> seq<Scalar>)

  datatype Exit =
    | Applied         // every non-empty row was written
    | Refused         // the whole decision was refused and every addressed part held
    | RaisedEarly     // an exception before any driver was told anything
    | RaisedReporting // refused and counted, but the report of it raised, and no part was held
    | RaisedHolding   // refused, and some hold raised
    | RaisedNotifying // refused and held, and the caller's own callback raised
    | RaisedWriting   // admitted, and some write raised

  predicate Turned(x: Exit) { x.Refused? || x.RaisedReporting? || x.RaisedHolding? || x.RaisedNotifying? }

  predicate IsWrite(c: Call) { c.WritePosition? || c.WriteVelocity? || c.WriteForce? }

  /** Nothing but reads. */
  predicate Quiet(es: seq<Event>) { forall i :: 0 <= i < |es| ==> es[i].call.ReadLatch? || es[i].call.ReadState? }

  predicate DistinctRows(rows: seq<Row>) { forall i, j :: 0 <= i < j < |rows| ==> rows[i].part != rows[j].part }

  /** Every declaration is one `Arm` accepts. */
  ghost predicate ValidParts(parts: Parts) { forall name :: name in parts ==> parts[name].arm.Valid() }

  /** The declaration order lists every declared part. */
  ghost predicate Declares(parts: Parts, order: seq<string>) { forall name :: name in parts ==> name in order }

  /** One of the first `i` rows names this part. */
  predicate Addressed(rows: seq<Row>, i: nat, name: string)
    requires i <= |rows|
  {
    exists k :: 0 <= k < i && rows[k].part == name
  }

  // ----- what the contract speaks of

  /** The row was measured after `from`, by a state read that answered `q`. */
  ghost predicate Measured(env: Env, trace: seq<Event>, from: nat, part: string, q: seq<Scalar>) {
    exists k :: from <= k < |trace| && trace[k] == Event(part, ReadState)
                && !env.raises(trace[..k + 1]) && env.position(trace[..k + 1]) == q
  }

  /** The latch was read after `from`, and was clear. */
  ghost predicate Unlatched(env: Env, trace: seq<Event>, from: nat, part: string) {
    exists k :: from <= k < |trace| && trace[k] == Event(part, ReadLatch)
                && !env.raises(trace[..k + 1]) && !env.latched(trace[..k + 1])
  }

  lemma StillMeasured(env: Env, trace: seq<Event>, more: seq<Event>, from: nat, part: string, q: seq<Scalar>)
    requires Measured(env, trace, from, part, q)
    ensures Measured(env, trace + more, from, part, q)
  {
    var k :| from <= k < |trace| && trace[k] == Event(part, ReadState)
             && !env.raises(trace[..k + 1]) && env.position(trace[..k + 1]) == q;
    assert (trace + more)[..k + 1] == trace[..k + 1];
  }

  lemma StillUnlatched(env: Env, trace: seq<Event>, more: seq<Event>, from: nat, part: string)
    requires Unlatched(env, trace, from, part)
    ensures Unlatched(env, trace + more, from, part)
  {
    var k :| from <= k < |trace| && trace[k] == Event(part, ReadLatch)
             && !env.raises(trace[..k + 1]) && !env.latched(trace[..k + 1]);
    assert (trace + more)[..k + 1] == trace[..k + 1];
  }

  /** A row that passed preflight: empty, or unlatched and admissible at its own fresh measurement. */
  ghost predicate Passed(parts: Parts, env: Env, trace: seq<Event>, from: nat, row: Row,
                         measured: map<string, seq<Scalar>>) {
    && row.part in parts
    && (row.target != [] ==>
          && row.part in measured
          && Unlatched(env, trace, from, row.part)
          && Measured(env, trace, from, row.part, measured[row.part])
          && parts[row.part].arm.Valid()
          && Admissible(parts[row.part].arm, row.target, measured[row.part]))
  }

  lemma StillPassed(parts: Parts, env: Env, trace: seq<Event>, more: seq<Event>, from: nat, row: Row,
                    measured: map<string, seq<Scalar>>, after: map<string, seq<Scalar>>)
    requires Passed(parts, env, trace, from, row, measured)
    requires row.part in measured ==> row.part in after && after[row.part] == measured[row.part]
    ensures Passed(parts, env, trace + more, from, row, after)
  {
    if row.target != [] {
      StillUnlatched(env, trace, more, from, row.part);
      StillMeasured(env, trace, more, from, row.part, measured[row.part]);
    }
  }

  /** Where a row puts its part, for the checks across parts. */
  function PlacementOf(parts: Parts, row: Row): Placement
    requires row.part in parts
  {
    Placement(parts[row.part].arm, row.target)
  }

  function Placements(parts: Parts, rows: seq<Row>): seq<Placement>
    requires forall i :: 0 <= i < |rows| ==> rows[i].part in parts
  {
    seq(|rows|, i requires 0 <= i < |rows| => PlacementOf(parts, rows[i]))
  }

  function Holds(rows: seq<Row>): seq<Event> {
    seq(|rows|, i requires 0 <= i < |rows| => Event(rows[i].part, HoldStill))
  }

  /** The one call a non-empty admitted row makes, always with the row itself. */
  function WriteCall(p: Part, target: seq<Scalar>, velocity: Option<seq<Scalar>>, force: Option<Scalar>): (c: Call)
    requires AllFinite(target)
    ensures IsWrite(c) && c.q == Values(target)
  {
    var q := Values(target);
    var feed := if velocity.Some? && AllFinite(velocity.value) then Some(Values(velocity.value)) else None;
    if force.Some? && force.value.Finite? && p.extensions.force.Some? then WriteForce(q, force.value.v, feed)
    else if feed.Some? && p.extensions.velocity then WriteVelocity(q, feed.value)
    else WritePosition(q)
  }

  function Get<T>(m: map<string, T>, k: string): Option<T> { if k in m then Some(m[k]) else None }

  predicate Writable(parts: Parts, rows: seq<Row>) {
    forall i :: 0 <= i < |rows| ==> rows[i].part in parts && AllFinite(rows[i].target)
  }

  function WriteEvents(parts: Parts, rows: seq<Row>, velocity: map<string, seq<Scalar>>,
                       force: map<string, Scalar>): seq<Event>
    requires Writable(parts, rows)
  {
    if rows == [] then []
    else
      var init, row := WriteEvents(parts, rows[..|rows| - 1], velocity, force), rows[|rows| - 1];
      if row.target == [] then init
      else
        var call := WriteCall(parts[row.part], row.target, Get(velocity, row.part), Get(force, row.part));
        init + [Event(row.part, call)]
  }

  predicate Moves(rows: seq<Row>, name: string) {
    exists i :: 0 <= i < |rows| && rows[i].part == name && rows[i].target != []
  }

  /** One more accepted command for every part with a non-empty row. */
  function Bumped(counts: map<string, nat>, rows: seq<Row>): map<string, nat> {
    map name | name in counts :: counts[name] + (if Moves(rows, name) then 1 else 0)
  }

  /** This part's count went up by one, and no other changed. */
  predicate OneMore(before: map<string, nat>, after: map<string, nat>, name: string) {
    name in before && after == before[name := before[name] + 1]
  }

  // ----- the force and velocity modifiers

  predicate ForceAllowed(p: Part, force: Scalar) {
    match p.extensions.force
    case None => force == Finite(0.0)
    case Some((lo, hi)) => force.Finite? && (force.v == 0.0 || lo <= force.v <= hi)
  }

  predicate ModifiersAllowed(parts: Parts, rows: seq<Row>, velocity: map<string, seq<Scalar>>,
                             force: map<string, Scalar>) {
    && (forall name :: name in force ==>
          Addressed(rows, |rows|, name) && name in parts && ForceAllowed(parts[name], force[name]))
    && (forall name :: name in velocity ==> Addressed(rows, |rows|, name))
  }

  /** The rule for modifiers, over names and numbers: forces and velocities name addressed parts only; a force is
  a number that is zero or within the part's force limits, and zero where the part has none. */
  lemma ModifiersIff(parts: Parts, rows: seq<Row>, velocity: map<string, seq<Scalar>>, force: map<string, Scalar>)
    ensures ModifiersAllowed(parts, rows, velocity, force) <==>
              && (forall name :: name in force ==>
                    && (exists i :: 0 <= i < |rows| && rows[i].part == name) && name in parts
                    && force[name].Finite?
                    && (force[name].v == 0.0
                        || (parts[name].extensions.force.Some?
                            && parts[name].extensions.force.value.0 <= force[name].v
                                 <= parts[name].extensions.force.value.1)))
              && (forall name :: name in velocity ==> exists i :: 0 <= i < |rows| && rows[i].part == name)
    ensures forall row: Row :: VelocityFits(row, velocity) <==>
              (row.part in velocity ==>
                 && |velocity[row.part]| == |row.target|
                 && forall j :: 0 <= j < |row.target| ==> velocity[row.part][j].Finite?)
  {}

  predicate VelocityFits(row: Row, velocity: map<string, seq<Scalar>>) {
    row.part in velocity ==> |velocity[row.part]| == |row.target| && AllFinite(velocity[row.part])
  }

  /** A part no row addresses, at the pose its driver measured. */
  datatype Neighbour = Neighbour(name: string, row: seq<Scalar>)

  /** What was read before anything was told: addressed parts, then neighbours. */
  datatype Findings = Findings(measured: map<string, seq<Scalar>>, neighbours: seq<Neighbour>)

  predicate IsNeighbour(parts: Parts, rows: seq<Row>, name: string) {
    name in parts && !Addressed(rows, |rows|, name) && parts[name].arm.selfCollision
  }

  /** Every unaddressed part that takes part in cross-part checks, and no other, among the first
  `i` declared ones. */
  ghost predicate Surrounds(ns: seq<Neighbour>, parts: Parts, order: seq<string>, i: nat, rows: seq<Row>)
    requires i <= |order|
  {
    && (forall k :: 0 <= k < |ns| ==> IsNeighbour(parts, rows, ns[k].name))
    && (forall k :: 0 <= k < i && IsNeighbour(parts, rows, order[k]) ==>
        exists l :: 0 <= l < |ns| && ns[l].name == order[k])
  }

  function NeighbourPlacements(parts: Parts, ns: seq<Neighbour>): seq<Placement>
    requires forall k :: 0 <= k < |ns| ==> ns[k].name in parts
  {
    seq(|ns|, i requires 0 <= i < |ns| => Placement(parts[ns[i].name].arm, ns[i].row))
  }

  /** Whether a decision looks at the parts it does not address. */
  predicate LooksAround(parts: Parts, rows: seq<Row>, checkNeighbours: bool)
    requires forall i :: 0 <= i < |rows| ==> rows[i].part in parts
  {
    checkNeighbours && exists i :: 0 <= i < |rows| && parts[rows[i].part].arm.selfCollision
  }

  /** The parts a session commands, their counters, and every driver call made so far. */
  class Rig {
    const parts: Parts
    const order: seq<string>
    const env: Env
    var trace: seq<Event>
    var accepted: map<string, nat>
    var rejected: map<string, nat>

    ghost predicate Valid()
      reads this
    {
      && ValidParts(parts) && Declares(parts, order)
      && accepted.Keys == parts.Keys
      && rejected.Keys == parts.Keys
    }

    constructor (parts: Parts, order: seq<string>, env: Env)
      requires ValidParts(parts) && Declares(parts, order)
      ensures Valid() && this.parts == parts && this.order == order && this.env == env && trace == []
    {
      this.parts, this.order, this.env, trace := parts, order, env, [];
      accepted := map name | name in parts :: 0;
      rejected := map name | name in parts :: 0;
    }

    /** The first `i` rows each passed. */
    ghost predicate AllPassed(t: seq<Event>, from: nat, rows: seq<Row>, i: nat, measured: map<string, seq<Scalar>>)
      requires i <= |rows|
    {
      forall k :: 0 <= k < i ==> Passed(parts, env, t, from, rows[k], measured)
    }

    /** Only parts among the first `i` rows were measured. */
    ghost predicate Known(rows: seq<Row>, i: nat, measured: map<string, seq<Scalar>>)
      requires i <= |rows|
    {
      forall name :: name in measured ==> Addressed(rows, i, name)
    }

    lemma KnownGrows(rows: seq<Row>, i: nat, known: map<string, seq<Scalar>>, q: seq<Scalar>)
      requires i < |rows| && Known(rows, i, known)
      ensures Known(rows, i + 1, known) && Known(rows, i + 1, known[rows[i].part := q])
    {
      var after := known[rows[i].part := q];
      forall name | name in after
        ensures Addressed(rows, i + 1, name)
      {
        if name != rows[i].part {
          assert Addressed(rows, i, name);
        }
      }
      assert forall name :: name in known ==> Addressed(rows, i, name);
    }

    lemma PassedGrows(t: seq<Event>, from: nat, rows: seq<Row>, i: nat, measured: map<string, seq<Scalar>>)
      requires i < |rows| && AllPassed(t, from, rows, i, measured) && Passed(parts, env, t, from, rows[i], measured)
      ensures AllPassed(t, from, rows, i + 1, measured)
    {}

    /** Call number `k` raised. */
    predicate Threw(t: seq<Event>, k: nat) { k < |t| && env.raises(t[..k + 1]) }

    /** Every read from position `from` on returned. */
    ghost predicate Returned(t: seq<Event>, from: nat) { forall k :: from <= k < |t| ==> !Threw(t, k) }

    /** The part's kinematics raise on this row, where it was measured. */
    predicate RowRaises(row: Row, measured: map<string, seq<Scalar>>) {
      && row.part in parts && row.target != [] && row.part in measured && parts[row.part].arm.Valid()
      && KinematicsRaise(parts[row.part].arm, row.target, measured[row.part])
    }

    /** Why a decision ends before any driver is told anything, its modifiers apart: a part that is not
    declared, velocities that do not fit, a read that raised, or a part's own kinematics. */
    ghost predicate Broken(t: seq<Event>, from: nat, rows: seq<Row>, velocity: map<string, seq<Scalar>>,
                           measured: map<string, seq<Scalar>>) {
      || (exists i :: 0 <= i < |rows| && (rows[i].part !in parts || !VelocityFits(rows[i], velocity)))
      || (exists k :: from <= k < |t| && Threw(t, k))
      || (exists i ::
            && 0 <= i < |rows| && RowRaises(rows[i], measured)
            && Measured(env, t, from, rows[i].part, measured[rows[i].part]))
    }

    /** The first `i` rows gave no such reason. */
    ghost predicate Sound(t: seq<Event>, from: nat, rows: seq<Row>, i: nat, velocity: map<string, seq<Scalar>>,
                          measured: map<string, seq<Scalar>>)
      requires i <= |rows|
    {
      Returned(t, from)
      && forall k :: 0 <= k < i ==>
          rows[k].part in parts && VelocityFits(rows[k], velocity) && !RowRaises(rows[k], measured)
    }

    lemma SoundNotBroken(t: seq<Event>, from: nat, rows: seq<Row>, velocity: map<string, seq<Scalar>>,
                         measured: map<string, seq<Scalar>>)
      requires Sound(t, from, rows, |rows|, velocity, measured)
      ensures !Broken(t, from, rows, velocity, measured)
    {}

    lemma ReturnedJoin(before: seq<Event>, more: seq<Event>, from: nat)
      requires from <= |before| && Returned(before, from) && Returned(before + more, |before|)
      ensures Returned(before + more, from)
    {
      forall k | from <= k < |before|
        ensures !Threw(before + more, k)
      {
        assert (before + more)[..k + 1] == before[..k + 1];
        assert !Threw(before, k);
      }
    }

    /** Whom the calls from position `from` on were made to: addressed parts and, only when neighbours are to be
    checked and some addressed part takes part in cross-part checks, others that do. */
    ghost predicate Looked(t: seq<Event>, from: nat, rows: seq<Row>, checkNeighbours: bool) {
      forall k :: from <= k < |t| ==> Named(rows, t[k].part) || MayLook(rows, t[k].part, checkNeighbours)
    }

    ghost predicate Named(rows: seq<Row>, name: string) { exists i :: 0 <= i < |rows| && rows[i].part == name }

    ghost predicate MayLook(rows: seq<Row>, name: string, checkNeighbours: bool) {
      && checkNeighbours && name in parts && parts[name].arm.selfCollision
      && exists i :: 0 <= i < |rows| && rows[i].part in parts && parts[rows[i].part].arm.selfCollision
    }

    lemma LookedJoin(before: seq<Event>, more: seq<Event>, from: nat, rows: seq<Row>, checkNeighbours: bool)
      requires from <= |before| && Looked(before, from, rows, checkNeighbours)
      requires Looked(before + more, |before|, rows, checkNeighbours)
      ensures Looked(before + more, from, rows, checkNeighbours)
    {
      forall k | from <= k < |before + more|
        ensures Named(rows, (before + more)[k].part) || MayLook(rows, (before + more)[k].part, checkNeighbours)
      {
        if k < |before| {
          assert (before + more)[k] == before[k];
        }
      }
    }

    lemma LookedOwn(before: seq<Event>, more: seq<Event>, rows: seq<Row>, i: nat)
      requires i < |rows| && forall k :: 0 <= k < |more| ==> more[k].part == rows[i].part
      ensures Looked(before + more, |before|, rows, false)
    {
      forall k | |before| <= k < |before + more|
        ensures Named(rows, (before + more)[k].part)
      {
        assert (before + more)[k] == more[k - |before|];
        assert rows[i].part == (before + more)[k].part;
      }
    }

    lemma NeighboursLooked(t: seq<Event>, from: nat, rows: seq<Row>)
      requires NeighboursOnly(t, from, rows) && forall i :: 0 <= i < |rows| ==> rows[i].part in parts
      requires exists i :: 0 <= i < |rows| && parts[rows[i].part].arm.selfCollision
      ensures Looked(t, from, rows, true)
    {}

    lemma LookedMore(t: seq<Event>, from: nat, rows: seq<Row>, checkNeighbours: bool)
      requires Looked(t, from, rows, false)
      ensures Looked(t, from, rows, checkNeighbours)
    {}

    /** What is known once the first `i` rows have been asked about, from position `from` on. */
    ghost predicate Progress(t: seq<Event>, from: nat, rows: seq<Row>, i: nat, refusal: Option<string>,
                             measured: map<string, seq<Scalar>>)
    {
      && from <= |t| && Quiet(t[from..]) && i <= |rows|
      && Known(rows, i, measured)
      && (forall k :: 0 <= k < i ==> rows[k].part in parts)
      && (refusal.None? ==> AllPassed(t, from, rows, i, measured))
      && (refusal.Some? ==> FirstObjection(t, from, rows, i, measured, refusal.value))
    }

    /** Ask every addressed part whether its row may be applied; nothing is written. */
    method Preflight(rows: seq<Row>, velocity: map<string, seq<Scalar>>)
      returns (raised: bool, refusal: Option<string>, measured: map<string, seq<Scalar>>)
      requires Valid() && DistinctRows(rows)
      modifies this`trace
      ensures old(trace) <= trace && Quiet(trace[|old(trace)|..]) && Looked(trace, |old(trace)|, rows, false)
      ensures raised ==> Broken(trace, |old(trace)|, rows, velocity, measured)
      ensures !raised ==> Sound(trace, |old(trace)|, rows, |rows|, velocity, measured)
      ensures !raised ==> Progress(trace, |old(trace)|, rows, |rows|, refusal, measured)
    {
      raised, refusal, measured := false, None, map[];
      var i := 0;
      while i < |rows|
        invariant 0 <= i <= |rows| && !raised
        invariant old(trace) <= trace && Sound(trace, |old(trace)|, rows, i, velocity, measured)
        invariant Looked(trace, |old(trace)|, rows, false)
        invariant Progress(trace, |old(trace)|, rows, i, refusal, measured)
      {
        raised, refusal, measured := AskRow(rows, i, velocity, refusal, measured, |old(trace)|);
        if raised {
          return;
        }
        i := i + 1;
      }
    }

    method AskRow(rows: seq<Row>, i: nat, velocity: map<string, seq<Scalar>>, refusal: Option<string>,
                  known: map<string, seq<Scalar>>, ghost from: nat)
      returns (raised: bool, refusal': Option<string>, measured: map<string, seq<Scalar>>)
      requires Valid() && DistinctRows(rows) && i < |rows| && Progress(trace, from, rows, i, refusal, known)
      requires Sound(trace, from, rows, i, velocity, known) && Looked(trace, from, rows, false)
      modifies this`trace
      ensures old(trace) <= trace && from <= |trace| && Quiet(trace[from..]) && Looked(trace, from, rows, false)
      ensures raised ==> Broken(trace, from, rows, velocity, measured)
      ensures !raised ==> Sound(trace, from, rows, i + 1, velocity, measured)
      ensures !raised ==> Progress(trace, from, rows, i + 1, refusal', measured)
    {
      var row := rows[i];
      raised, refusal', measured := false, refusal, known;
      if row.part !in parts || !VelocityFits(row, velocity) {
        return true, refusal, known;
      }
      if row.target == [] {
        SkipRow(trace, from, rows, i, refusal, known);
        SoundSkip(trace, from, rows, i, velocity, known);
        return;
      }
      ghost var before := trace;
      var v, q := Probe(row);
      ghost var more := trace[|before|..];
      assert trace == before + more;
      QuietJoin(before, more, from);
      LookedOwn(before, more, rows, i);
      LookedJoin(before, more, from, rows, false);
      if q.Some? {
        measured := known[row.part := q.value];
      }
      if v.Raise? {
        BrokenRow(before, more, from, rows, i, velocity, measured, q);
        return true, refusal, measured;
      }
      SoundRow(before, more, from, rows, i, velocity, known, measured, v, q);
      ProbedRow(before, more, from, rows, i, refusal, known, measured, v, q);
      if !v.Admit? && refusal.None? {
        refusal' := Some(row.part);
      }
    }

    lemma SoundSkip(t: seq<Event>, from: nat, rows: seq<Row>, i: nat, velocity: map<string, seq<Scalar>>,
                    measured: map<string, seq<Scalar>>)
      requires i < |rows| && Sound(t, from, rows, i, velocity, measured) && rows[i].part in parts
                && VelocityFits(rows[i], velocity)
      requires rows[i].target == []
      ensures Sound(t, from, rows, i + 1, velocity, measured)
    {}

    /** A probe that raised did so in a read, or in the kinematics. */
    ghost predicate RaisedBy(t: seq<Event>, from: nat, row: Row, q: Option<seq<Scalar>>) {
      if q.None? then |t| > from && env.raises(t)
      else Measured(env, t, from, row.part, q.value) && RowRaises(row, map[row.part := q.value])
    }

    lemma BrokenRow(before: seq<Event>, more: seq<Event>, from: nat, rows: seq<Row>, i: nat,
                    velocity: map<string, seq<Scalar>>,
                    measured: map<string, seq<Scalar>>, q: Option<seq<Scalar>>)
      requires i < |rows| && from <= |before| && RaisedBy(before + more, |before|, rows[i], q)
      requires q.Some? ==> rows[i].part in measured && measured[rows[i].part] == q.value
      ensures Broken(before + more, from, rows, velocity, measured)
    {
      var t := before + more;
      if q.None? {
        assert t[..|t| - 1 + 1] == t;
        assert Threw(t, |t| - 1);
      } else {
        assert RowRaises(rows[i], measured) && Measured(env, t, from, rows[i].part, measured[rows[i].part]);
      }
    }

    lemma NotYetKnown(rows: seq<Row>, i: nat, known: map<string, seq<Scalar>>)
      requires i < |rows| && DistinctRows(rows) && Known(rows, i, known)
      ensures rows[i].part !in known
    {}

    lemma SoundRow(before: seq<Event>, more: seq<Event>, from: nat, rows: seq<Row>, i: nat,
                   velocity: map<string, seq<Scalar>>,
                   known: map<string, seq<Scalar>>, measured: map<string, seq<Scalar>>, v: Verdict,
                   q: Option<seq<Scalar>>)
      requires i < |rows| && DistinctRows(rows) && from <= |before| && Sound(before, from, rows, i, velocity, known)
                && Known(rows, i, known)
      requires rows[i].part in parts && VelocityFits(rows[i], velocity)
      requires Returned(before + more, |before|)
      requires q.Some? ==> !RowRaises(rows[i], map[rows[i].part := q.value])
      requires measured == if q.Some? then known[rows[i].part := q.value] else known
      ensures Sound(before + more, from, rows, i + 1, velocity, measured)
    {
      ReturnedJoin(before, more, from);
      NotYetKnown(rows, i, known);
    }

    lemma QuietJoin(before: seq<Event>, more: seq<Event>, from: nat)
      requires from <= |before| && Quiet(before[from..]) && Quiet(more)
      ensures Quiet((before + more)[from..])
    {
      assert (before + more)[from..] == before[from..] + more;
    }

    lemma SkipRow(t: seq<Event>, from: nat, rows: seq<Row>, i: nat, refusal: Option<string>,
                  measured: map<string, seq<Scalar>>)
      requires i < |rows| && Progress(t, from, rows, i, refusal, measured)
      requires rows[i].part in parts && rows[i].target == []
      ensures Progress(t, from, rows, i + 1, refusal, measured)
    {
    }

    /** The probe of one row, as an answer about it. */
    ghost predicate Answered(t: seq<Event>, from: nat, row: Row, v: Verdict, q: Option<seq<Scalar>>) {
      && row.part in parts
      && (v.Admit? ==>
            && q.Some? && Unlatched(env, t, from, row.part) && Measured(env, t, from, row.part, q.value)
            && parts[row.part].arm.Valid() && Admissible(parts[row.part].arm, row.target, q.value))
      && (v.Refuse? ==>
            || Latched(t, from, row.part)
            || (q.Some? && Measured(env, t, from, row.part, q.value)
                && parts[row.part].arm.Valid() && !Admissible(parts[row.part].arm, row.target, q.value)))
    }

    lemma ProbedRow(before: seq<Event>, more: seq<Event>, from: nat, rows: seq<Row>, i: nat, refusal: Option<string>,
                    known: map<string, seq<Scalar>>, measured: map<string, seq<Scalar>>, v: Verdict,
                    q: Option<seq<Scalar>>)
      requires i < |rows| && DistinctRows(rows) && Progress(before, from, rows, i, refusal, known)
      requires Quiet(more) && rows[i].target != [] && !v.Raise? && Answered(before + more, |before|, rows[i], v, q)
      requires measured == if q.Some? then known[rows[i].part := q.value] else known
      ensures var refusal' := if !v.Admit? && refusal.None? then Some(rows[i].part) else refusal;
              Progress(before + more, from, rows, i + 1, refusal', measured)
    {
      QuietJoin(before, more, from);
      KnownGrows(rows, i, known, if q.Some? then q.value else []);
      if refusal.None? {
        ProbedFirst(before, more, from, rows, i, known, measured, v, q);
      } else {
        Carry(before, more, from, rows, i, known, measured, refusal);
        ObjectionStays(before + more, from, rows, i, measured, refusal.value);
      }
    }

    lemma ProbedFirst(before: seq<Event>, more: seq<Event>, from: nat, rows: seq<Row>, i: nat,
                      known: map<string, seq<Scalar>>, measured: map<string, seq<Scalar>>, v: Verdict,
                      q: Option<seq<Scalar>>)
      requires i < |rows| && DistinctRows(rows) && from <= |before| && Known(rows, i, known)
      requires AllPassed(before, from, rows, i, known)
      requires rows[i].target != [] && !v.Raise? && Answered(before + more, |before|, rows[i], v, q)
      requires measured == if q.Some? then known[rows[i].part := q.value] else known
      ensures if v.Admit? then AllPassed(before + more, from, rows, i + 1, measured)
              else FirstObjection(before + more, from, rows, i + 1, measured, rows[i].part)
    {
      Carry(before, more, from, rows, i, known, measured, None);
      AnsweredEarlier(before + more, from, |before|, rows[i], v, q);
      JudgedFirst(before + more, from, rows, i, measured, v, q);
    }

    /** The rows before it passed: with this one either all pass, or it is the first that objects. */
    lemma JudgedFirst(t: seq<Event>, from: nat, rows: seq<Row>, i: nat, measured: map<string, seq<Scalar>>, v: Verdict,
                      q: Option<seq<Scalar>>)
      requires i < |rows| && rows[i].target != [] && !v.Raise? && Answered(t, from, rows[i], v, q)
      requires q.Some? ==> rows[i].part in measured && measured[rows[i].part] == q.value
      requires AllPassed(t, from, rows, i, measured)
      ensures if v.Admit? then AllPassed(t, from, rows, i + 1, measured)
              else FirstObjection(t, from, rows, i + 1, measured, rows[i].part)
    {
      JudgedRow(t, from, rows, i, measured, v, q);
      if v.Admit? {
        PassedGrows(t, from, rows, i, measured);
      } else {
        ObjectedFirst(t, from, rows, i, measured);
      }
    }

    lemma ObjectedFirst(t: seq<Event>, from: nat, rows: seq<Row>, i: nat, measured: map<string, seq<Scalar>>)
      requires i < |rows| && ObjectedRow(t, from, rows[i], measured) && AllPassed(t, from, rows, i, measured)
      ensures FirstObjection(t, from, rows, i + 1, measured, rows[i].part)
    {}

    lemma ObjectionStays(t: seq<Event>, from: nat, rows: seq<Row>, i: nat, measured: map<string, seq<Scalar>>,
                         name: string)
      requires i < |rows| && FirstObjection(t, from, rows, i, measured, name)
      ensures FirstObjection(t, from, rows, i + 1, measured, name)
    {}

    /** What a probe's answer says about its row. */
    lemma JudgedRow(t: seq<Event>, from: nat, rows: seq<Row>, i: nat, measured: map<string, seq<Scalar>>, v: Verdict,
                    q: Option<seq<Scalar>>)
      requires i < |rows| && rows[i].target != [] && !v.Raise? && Answered(t, from, rows[i], v, q)
      requires q.Some? ==> rows[i].part in measured && measured[rows[i].part] == q.value
      ensures v.Admit? ==> Passed(parts, env, t, from, rows[i], measured)
      ensures v.Refuse? ==> ObjectedRow(t, from, rows[i], measured)
    {}

    lemma AnsweredEarlier(t: seq<Event>, from: nat, later: nat, row: Row, v: Verdict, q: Option<seq<Scalar>>)
      requires from <= later && Answered(t, later, row, v, q)
      ensures Answered(t, from, row, v, q)
    {}

    /** A non-empty row whose part was latched, or that is not admissible where it was measured. */
    ghost predicate ObjectedRow(t: seq<Event>, from: nat, row: Row, measured: map<string, seq<Scalar>>) {
      && row.target != [] && row.part in parts
      && (Latched(t, from, row.part)
          || (row.part in measured && Measured(env, t, from, row.part, measured[row.part])
              && parts[row.part].arm.Valid()
              && !Admissible(parts[row.part].arm, row.target, measured[row.part])))
    }

    /** The first of these rows that objects is that of `name`. */
    ghost predicate FirstObjection(t: seq<Event>, from: nat, rows: seq<Row>, i: nat, measured: map<string, seq<Scalar>>,
                                   name: string)
      requires i <= |rows|
    {
      exists j :: 0 <= j < i && rows[j].part == name && ObjectedRow(t, from, rows[j], measured)
          && AllPassed(t, from, rows, j, measured)
    }

    ghost predicate Latched(t: seq<Event>, from: nat, name: string) {
      exists k :: from <= k < |t| && t[k] == Event(name, ReadLatch) && !env.raises(t[..k + 1])
          && env.latched(t[..k + 1])
    }

    /** Read one part's latch. */
    method AskLatch(name: string) returns (raised: bool, latched: bool)
      modifies this`trace
      ensures trace == old(trace) + [Event(name, ReadLatch)]
      ensures if raised then env.raises(trace) else Returned(trace, |old(trace)|)
      ensures !raised ==> if latched then Latched(trace, |old(trace)|, name)
                          else Unlatched(env, trace, |old(trace)|, name)
    {
      var n := |trace|;
      trace := trace + [Event(name, ReadLatch)];
      assert trace[..n + 1] == trace && trace[n] == Event(name, ReadLatch);
      raised, latched := env.raises(trace), env.latched(trace);
    }

    /** Read one part's state. */
    method AskState(name: string) returns (q: Option<seq<Scalar>>)
      modifies this`trace
      ensures trace == old(trace) + [Event(name, ReadState)]
      ensures if q.None? then env.raises(trace) else Returned(trace, |old(trace)|)
      ensures q.Some? ==> Measured(env, trace, |old(trace)|, name, q.value)
    {
      var n := |trace|;
      trace := trace + [Event(name, ReadState)];
      assert trace[..n + 1] == trace && trace[n] == Event(name, ReadState);
      q := if env.raises(trace) then None else Some(env.position(trace));
    }

    /** Read the latch, then the state, and check the row against it. */
    method Probe(row: Row) returns (v: Verdict, q: Option<seq<Scalar>>)
      requires Valid() && row.part in parts
      modifies this`trace
      ensures old(trace) <= trace && Quiet(trace[|old(trace)|..])
      ensures forall k :: 0 <= k < |trace[|old(trace)|..]| ==> trace[|old(trace)|..][k].part == row.part
      ensures Answered(trace, |old(trace)|, row, v, q)
      ensures v.Raise? && row.target != [] ==> RaisedBy(trace, |old(trace)|, row, q)
      ensures !v.Raise? ==> Returned(trace, |old(trace)|) && (q.Some? ==> !RowRaises(row, map[row.part := q.value]))
    {
      ghost var n := |trace|;
      var raised, latched := AskLatch(row.part);
      if raised {
        return Raise, None;
      }
      if latched {
        return Refuse(EStopped), None;
      }
      ghost var t := trace;
      q := AskState(row.part);
      StillUnlatched(env, t, [Event(row.part, ReadState)], n, row.part);
      if q.None? {
        return Raise, None;
      }
      ReturnedJoin(t, [Event(row.part, ReadState)], n);
      assert parts[row.part].arm.Valid();
      v := Check(parts[row.part].arm, row.target, q.value);
    }

    /** Earlier findings stay true as the history grows and another part is measured. */
    lemma Carry(before: seq<Event>, more: seq<Event>, from: nat, rows: seq<Row>, i: nat,
                known: map<string, seq<Scalar>>, measured: map<string, seq<Scalar>>, refusal: Option<string>)
      requires i < |rows| && DistinctRows(rows) && Known(rows, i, known)
      requires forall name :: name in known && name != rows[i].part ==>
                name in measured && measured[name] == known[name]
      ensures refusal.None? && AllPassed(before, from, rows, i, known) ==>
                AllPassed(before + more, from, rows, i, measured)
      ensures refusal.Some? && FirstObjection(before, from, rows, i, known, refusal.value) ==>
                FirstObjection(before + more, from, rows, i, measured, refusal.value)
    {
      if refusal.None? && AllPassed(before, from, rows, i, known) {
        CarryPassed(before, more, from, rows, i, i, known, measured);
      }
      if refusal.Some? && FirstObjection(before, from, rows, i, known, refusal.value) {
        var j :| 0 <= j < i && rows[j].part == refusal.value && ObjectedRow(before, from, rows[j], known)
                 && AllPassed(before, from, rows, j, known);
        CarryPassed(before, more, from, rows, i, j, known, measured);
        CarryObjected(before, more, from, rows[j], known, measured);
      }
    }

    lemma CarryPassed(before: seq<Event>, more: seq<Event>, from: nat, rows: seq<Row>, i: nat, j: nat,
                      known: map<string, seq<Scalar>>, measured: map<string, seq<Scalar>>)
      requires j <= i < |rows| && DistinctRows(rows) && AllPassed(before, from, rows, j, known)
      requires forall name :: name in known && name != rows[i].part ==>
                name in measured && measured[name] == known[name]
      ensures AllPassed(before + more, from, rows, j, measured)
    {
      forall k | 0 <= k < j
        ensures Passed(parts, env, before + more, from, rows[k], measured)
      {
        StillPassed(parts, env, before, more, from, rows[k], known, measured);
      }
    }

    lemma CarryObjected(before: seq<Event>, more: seq<Event>, from: nat, row: Row,
                        known: map<string, seq<Scalar>>, measured: map<string, seq<Scalar>>)
      requires ObjectedRow(before, from, row, known)
      requires row.part in known ==> row.part in measured && measured[row.part] == known[row.part]
      ensures ObjectedRow(before + more, from, row, measured)
    {
      if Latched(before, from, row.part) {
        var m :| from <= m < |before| && before[m] == Event(row.part, ReadLatch) && !env.raises(before[..m + 1])
            && env.latched(before[..m + 1]);
        assert (before + more)[..m + 1] == before[..m + 1];
        assert Latched(before + more, from, row.part);
      } else {
        StillMeasured(env, before, more, from, row.part, known[row.part]);
      }
    }

    /** Each neighbour was measured after `from`. */
    ghost predicate Observed(t: seq<Event>, from: nat, ns: seq<Neighbour>) {
      forall k :: 0 <= k < |ns| ==> Measured(env, t, from, ns[k].name, ns[k].row)
    }

    method ReadNeighbours(rows: seq<Row>, ghost from: nat) returns (raised: bool, ns: seq<Neighbour>)
      requires Valid() && from <= |trace|
      modifies this`trace
      ensures old(trace) <= trace && Quiet(trace[|old(trace)|..]) && NeighboursOnly(trace, |old(trace)|, rows)
      ensures if raised then |trace| > |old(trace)| && env.raises(trace) else Returned(trace, |old(trace)|)
      ensures !raised ==> Observed(trace, from, ns) && Surrounds(ns, parts, order, |order|, rows)
    {
      raised, ns := false, [];
      for i := 0 to |order|
        invariant old(trace) <= trace && Quiet(trace[|old(trace)|..]) && Returned(trace, |old(trace)|)
        invariant NeighboursOnly(trace, |old(trace)|, rows)
        invariant Observed(trace, from, ns) && Surrounds(ns, parts, order, i, rows)
      {
        if IsNeighbour(parts, rows, order[i]) {
          ghost var before := trace;
          var q := AskState(order[i]);
          ReadsGrow(before, order[i], |old(trace)|, from, rows, ns);
          if q.None? {
            return true, ns;
          }
          ReturnedJoin(before, [Event(order[i], ReadState)], |old(trace)|);
          SurroundsGrows(ns, rows, i, q.value);
          ns := ns + [Neighbour(order[i], q.value)];
        }
      }
    }

    /** Calls from here on were made to neighbours. */
    ghost predicate NeighboursOnly(t: seq<Event>, from: nat, rows: seq<Row>) {
      forall k :: from <= k < |t| ==> IsNeighbour(parts, rows, t[k].part)
    }

    /** One more read of a neighbour. */
    lemma ReadsGrow(t: seq<Event>, name: string, start: nat, from: nat, rows: seq<Row>, ns: seq<Neighbour>)
      requires start <= |t| && Quiet(t[start..]) && NeighboursOnly(t, start, rows) && IsNeighbour(parts, rows, name)
      requires Observed(t, from, ns)
      ensures var t' := t + [Event(name, ReadState)];
              Quiet(t'[start..]) && NeighboursOnly(t', start, rows) && Observed(t', from, ns)
    {
      QuietJoin(t, [Event(name, ReadState)], start);
      ObservedGrows(t, [Event(name, ReadState)], from, ns);
    }

    lemma SurroundsGrows(ns: seq<Neighbour>, rows: seq<Row>, i: nat, q: seq<Scalar>)
      requires i < |order| && Surrounds(ns, parts, order, i, rows) && IsNeighbour(parts, rows, order[i])
      ensures Surrounds(ns + [Neighbour(order[i], q)], parts, order, i + 1, rows)
    {
      var more := ns + [Neighbour(order[i], q)];
      forall k | 0 <= k < i + 1 && IsNeighbour(parts, rows, order[k])
        ensures exists l :: 0 <= l < |more| && more[l].name == order[k]
      {
        if k < i {
          var l :| 0 <= l < |ns| && ns[l].name == order[k];
          assert more[l] == ns[l];
        } else {
          assert more[|ns|].name == order[k];
        }
      }
    }

    lemma ObservedGrows(t: seq<Event>, more: seq<Event>, from: nat, ns: seq<Neighbour>)
      requires Observed(t, from, ns)
      ensures Observed(t + more, from, ns)
    {
      forall k | 0 <= k < |ns|
        ensures Measured(env, t + more, from, ns[k].name, ns[k].row)
      {
        StillMeasured(env, t, more, from, ns[k].name, ns[k].row);
      }
    }

    ghost predicate HoldReturned(base: seq<Event>, rows: seq<Row>, k: nat)
      requires k < |rows|
    {
      !env.raises(base + Holds(rows[..k + 1]))
    }

    /** The hold of row `k` was interrupted. */
    ghost predicate HoldCut(base: seq<Event>, rows: seq<Row>, k: nat)
      requires k < |rows|
    {
      env.raises(base + Holds(rows[..k + 1])) && env.interrupts(base + Holds(rows[..k + 1]))
    }

    /** The first `k` rows were held, the others only spared because the last of those was interrupted. */
    ghost predicate HeldUpTo(base: seq<Event>, rows: seq<Row>, k: nat) {
      && k <= |rows| && (k < |rows| ==> k > 0 && HoldCut(base, rows, k - 1))
      && forall j :: 0 <= j < k - 1 ==> !HoldCut(base, rows, j)
    }

    /** Every row of a refused decision is asked to hold: its report returned, and no hold but the last was
    interrupted. */
    ghost predicate AllAsked(said: seq<Event>, rows: seq<Row>) {
      !env.raises(said) && forall i :: 0 <= i < |rows| - 1 ==> !HoldCut(said, rows, i)
    }

    ghost predicate AllHeld(said: seq<Event>, rows: seq<Row>) {
      forall i :: 0 <= i < |rows| ==> HoldReturned(said, rows, i)
    }

    /** How a decision refused on account of `name` ends, and with what calls, once everything was read. */
    ghost predicate Refusing(reading: seq<Event>, t: seq<Event>, rows: seq<Row>, name: string, notify: bool, x: Exit,
                             k: nat) {
      var said, note := reading + [Event(name, Report)], [Event(name, Notify)];
      if env.raises(said) then x.RaisedReporting? && k == 0 && t == said
      else
        && HeldUpTo(said, rows, k) && (k == |rows| <==> AllAsked(said, rows))
        && (if !AllHeld(said, rows) then x.RaisedHolding? && t == said + Holds(rows[..k])
            else if !notify then x.Refused? && k == |rows| && t == said + Holds(rows)
            else k == |rows| && t == said + Holds(rows) + note && (if env.raises(t) then x.RaisedNotifying?
                                                                      else x.Refused?))
    }

    /** One hold for every addressed part, even past one that raises; an interrupt ends it. */
    method HoldAll(rows: seq<Row>) returns (ok: bool, k: nat)
      modifies this`trace
      ensures HeldUpTo(old(trace), rows, k) && trace == old(trace) + Holds(rows[..k])
      ensures ok <==> forall j :: 0 <= j < |rows| ==> HoldReturned(old(trace), rows, j)
      ensures ok ==> k == |rows|
    {
      ok, k := true, 0;
      while k < |rows|
        invariant k <= |rows| && trace == old(trace) + Holds(rows[..k])
        invariant forall j :: 0 <= j < k ==> !HoldCut(old(trace), rows, j)
        invariant ok <==> forall j :: 0 <= j < k ==> HoldReturned(old(trace), rows, j)
      {
        assert Holds(rows[..k + 1]) == Holds(rows[..k]) + [Event(rows[k].part, HoldStill)];
        trace := trace + [Event(rows[k].part, HoldStill)];
        assert trace == old(trace) + Holds(rows[..k + 1]);
        k := k + 1;
        if env.raises(trace) {
          ok := false;
          assert !HoldReturned(old(trace), rows, k - 1);
          if env.interrupts(trace) {
            return;
          }
        }
      }
    }

    /** One write for every non-empty row, until one raises; `k` rows were dealt with. */
    method WriteAll(rows: seq<Row>, velocity: map<string, seq<Scalar>>, force: map<string, Scalar>)
      returns (ok: bool, k: nat)
      requires accepted.Keys == parts.Keys && DistinctRows(rows) && Writable(parts, rows)
      modifies this`trace, this`accepted
      ensures k <= |rows| && trace == old(trace) + WriteEvents(parts, rows[..k], velocity, force)
      ensures accepted.Keys == old(accepted).Keys
      ensures ok ==> k == |rows| && accepted == Bumped(old(accepted), rows)
      ensures !ok ==>
                k > 0 && rows[k - 1].target != [] && env.raises(trace)
                    && accepted == Bumped(old(accepted), rows[..k - 1])
    {
      BumpNone(accepted);
      k := 0;
      while k < |rows|
        invariant k <= |rows|
        invariant trace == old(trace) + WriteEvents(parts, rows[..k], velocity, force)
        invariant accepted == Bumped(old(accepted), rows[..k])
      {
        ok := WriteRow(rows, k, velocity, force, old(trace), old(accepted));
        k := k + 1;
        if !ok {
          return;
        }
      }
      assert rows[..|rows|] == rows;
      ok := true;
    }

    method WriteRow(rows: seq<Row>, i: nat, velocity: map<string, seq<Scalar>>, force: map<string, Scalar>,
                    ghost base: seq<Event>, ghost counts: map<string, nat>)
      returns (ok: bool)
      requires DistinctRows(rows) && Writable(parts, rows) && i < |rows| && counts.Keys == parts.Keys
      requires trace == base + WriteEvents(parts, rows[..i], velocity, force) && accepted == Bumped(counts, rows[..i])
      modifies this`trace, this`accepted
      ensures trace == base + WriteEvents(parts, rows[..i + 1], velocity, force)
      ensures ok ==> accepted == Bumped(counts, rows[..i + 1])
      ensures !ok ==> accepted == Bumped(counts, rows[..i]) && rows[i].target != [] && env.raises(trace)
    {
      var row := rows[i];
      BumpOne(counts, rows, i);
      WritesGrow(rows, i, velocity, force);
      if row.target == [] {
        return true;
      }
      trace := trace
          + [Event(row.part, WriteCall(parts[row.part], row.target, Get(velocity, row.part), Get(force, row.part)))];
      if env.raises(trace) {
        return false;
      }
      accepted := accepted[row.part := accepted[row.part] + 1];
      return true;
    }

    lemma WritesGrow(rows: seq<Row>, i: nat, velocity: map<string, seq<Scalar>>, force: map<string, Scalar>)
      requires Writable(parts, rows) && i < |rows|
      ensures WriteEvents(parts, rows[..i + 1], velocity, force) == WriteEvents(parts, rows[..i], velocity, force) +
                if rows[i].target == [] then []
                else [Event(rows[i].part, WriteCall(parts[rows[i].part], rows[i].target,
                                                    Get(velocity, rows[i].part), Get(force, rows[i].part)))]
    {
      assert rows[..i + 1][..i] == rows[..i];
    }

    lemma BumpNone(counts: map<string, nat>)
      ensures Bumped(counts, []) == counts
    {}

    lemma BumpOne(counts: map<string, nat>, rows: seq<Row>, i: nat)
      requires i < |rows| && DistinctRows(rows)
      ensures rows[i].target == [] ==> Bumped(counts, rows[..i + 1]) == Bumped(counts, rows[..i])
      ensures rows[i].target != [] && rows[i].part in counts ==>
                var was := Bumped(counts, rows[..i]);
                Bumped(counts, rows[..i + 1]) == was[rows[i].part := was[rows[i].part] + 1]
    {
      var row, init := rows[i], rows[..i];
      assert rows[..i + 1] == init + [row];
      forall name
        ensures Moves(init + [row], name) <==> Moves(init, name) || (name == row.part && row.target != [])
      {
        if Moves(init, name) {
          var k :| 0 <= k < |init| && init[k].part == name && init[k].target != [];
          assert (init + [row])[k] == init[k];
        }
        if name == row.part && row.target != [] {
          assert (init + [row])[i] == row;
        }
      }
      assert !Moves(init, row.part);
    }

    /** Everything the source decides before it tells any driver anything: the whole decision passes. */
    ghost predicate Admitted(t: seq<Event>, from: nat, rows: seq<Row>, f: Findings, checkNeighbours: bool) {
      match f
      case Findings(measured, ns) =>
        && AllPassed(t, from, rows, |rows|, measured)
        && Around(t, from, rows, ns, checkNeighbours)
        && CrossClear(Placements(parts, rows) + NeighbourPlacements(parts, ns))
    }

    /** The decision is refused on account of `name`: the first row that objects is that part's, or every
    row passes and that part is the first at fault among all placements. */
    ghost predicate Rejected(t: seq<Event>, from: nat, rows: seq<Row>, f: Findings, checkNeighbours: bool,
                             name: string) {
      match f
      case Findings(measured, ns) =>
        && (forall i :: 0 <= i < |rows| ==> rows[i].part in parts)
        && (FirstObjection(t, from, rows, |rows|, measured, name)
            || (AllPassed(t, from, rows, |rows|, measured) && Around(t, from, rows, ns, checkNeighbours)
                && exists i :: FaultNamed(rows, ns, i, name)))
    }

    ghost predicate FaultNamed(rows: seq<Row>, ns: seq<Neighbour>, i: nat, name: string)
      requires forall i :: 0 <= i < |rows| ==> rows[i].part in parts
    {
      && (forall k :: 0 <= k < |ns| ==> ns[k].name in parts) && i < |rows| + |ns| && name == NameAt(rows, ns, i)
      && FirstAtFault(Placements(parts, rows) + NeighbourPlacements(parts, ns), i)
    }

    /** The neighbours are all there, freshly measured, when the decision looks around at all. */
    ghost predicate Around(t: seq<Event>, from: nat, rows: seq<Row>, ns: seq<Neighbour>, checkNeighbours: bool)
      requires forall i :: 0 <= i < |rows| ==> rows[i].part in parts
    {
      if LooksAround(parts, rows, checkNeighbours) then Observed(t, from, ns)
          && Surrounds(ns, parts, order, |order|, rows)
      else ns == []
    }

    /** What reading alone decides: the decision is broken, admitted, or rejected on account of one part. */
    ghost predicate Judged(t: seq<Event>, from: nat, rows: seq<Row>, velocity: map<string, seq<Scalar>>,
                           checkNeighbours: bool, raised: bool, refusal: Option<string>, f: Findings) {
      && (raised <==> Broken(t, from, rows, velocity, f.measured))
      && (!raised && refusal.None? ==> Admitted(t, from, rows, f, checkNeighbours) && Writable(parts, rows))
      && (!raised && refusal.Some? ==>
            refusal.value in parts && Rejected(t, from, rows, f, checkNeighbours, refusal.value))
    }

    /** Preflight and cross-part checks: reads only. */
    method Judge(rows: seq<Row>, velocity: map<string, seq<Scalar>>, checkNeighbours: bool)
      returns (raised: bool, refusal: Option<string>, f: Findings)
      requires Valid() && DistinctRows(rows)
      modifies this`trace
      ensures old(trace) <= trace && Quiet(trace[|old(trace)|..])
      ensures Looked(trace, |old(trace)|, rows, checkNeighbours)
      ensures Judged(trace, |old(trace)|, rows, velocity, checkNeighbours, raised, refusal, f)
    {
      var measured;
      raised, refusal, measured := Preflight(rows, velocity);
      f := Findings(measured, []);
      LookedMore(trace, |old(trace)|, rows, checkNeighbours);
      if raised {
        return;
      }
      SoundNotBroken(trace, |old(trace)|, rows, velocity, measured);
      if refusal.Some? {
        return;
      }
      var ns;
      raised, ns := LookAround(rows, measured, checkNeighbours, |old(trace)|, velocity);
      f := Findings(measured, ns);
      if raised {
        return;
      }
      SoundNotBroken(trace, |old(trace)|, rows, velocity, measured);
      var found := CrossArmRefusal(Placements(parts, rows) + NeighbourPlacements(parts, ns));
      if found.Some? {
        refusal := Some(NameAt(rows, ns, found.value.index));
        assert FaultNamed(rows, ns, found.value.index, refusal.value);
      } else {
        AdmittedWritable(trace, |old(trace)|, rows, f, checkNeighbours);
      }
    }

    /** The neighbours' measured poses, when the decision looks around at all. */
    method LookAround(rows: seq<Row>, ghost measured: map<string, seq<Scalar>>, checkNeighbours: bool, ghost from: nat,
                      ghost velocity: map<string, seq<Scalar>>)
      returns (raised: bool, ns: seq<Neighbour>)
      requires Valid() && from <= |trace| && Quiet(trace[from..]) && AllPassed(trace, from, rows, |rows|, measured)
      requires Sound(trace, from, rows, |rows|, velocity, measured) && Looked(trace, from, rows, false)
      modifies this`trace
      ensures old(trace) <= trace && Quiet(trace[from..]) && Looked(trace, from, rows, checkNeighbours)
      ensures raised ==> Broken(trace, from, rows, velocity, measured)
      ensures !raised ==> Sound(trace, from, rows, |rows|, velocity, measured)
      ensures !raised ==>
                AllPassed(trace, from, rows, |rows|, measured) && Around(trace, from, rows, ns, checkNeighbours)
    {
      raised, ns := false, [];
      LookedMore(trace, from, rows, checkNeighbours);
      if LooksAround(parts, rows, checkNeighbours) {
        raised, ns := ReadNeighbours(rows, from);
        ghost var more := trace[|old(trace)|..];
        assert trace == old(trace) + more;
        NeighboursLooked(trace, |old(trace)|, rows);
        LookedJoin(old(trace), more, from, rows, checkNeighbours);
        QuietJoin(old(trace), more, from);
        AllStillPassed(old(trace), more, from, rows, measured);
        if raised {
          assert trace[..|trace| - 1 + 1] == trace;
          assert Threw(trace, |trace| - 1);
        } else {
          ReturnedJoin(old(trace), more, from);
        }
      }
    }

    lemma AllStillPassed(t: seq<Event>, more: seq<Event>, from: nat, rows: seq<Row>, measured: map<string, seq<Scalar>>)
      requires forall i :: 0 <= i < |rows| ==> Passed(parts, env, t, from, rows[i], measured)
      ensures forall i :: 0 <= i < |rows| ==> Passed(parts, env, t + more, from, rows[i], measured)
    {
      forall i | 0 <= i < |rows|
        ensures Passed(parts, env, t + more, from, rows[i], measured)
      {
        StillPassed(parts, env, t, more, from, rows[i], measured, measured);
      }
    }

    /** The part a position of the joint list of placements belongs to. */
    function NameAt(rows: seq<Row>, ns: seq<Neighbour>, i: nat): string
      requires i < |rows| + |ns|
    {
      if i < |rows| then rows[i].part else ns[i - |rows|].name
    }

    /** How an admitted decision ends: one write of each non-empty row in order, until one raises. */
    ghost predicate Writing(reading: seq<Event>, t: seq<Event>, rows: seq<Row>, velocity: map<string, seq<Scalar>>,
                            force: map<string, Scalar>, x: Exit, k: nat, was: map<string, nat>, now: map<string, nat>) {
      && Writable(parts, rows) && k <= |rows| && t == reading + WriteEvents(parts, rows[..k], velocity, force)
      && (if x.Applied? then k == |rows| && now == Bumped(was, rows)
          else x.RaisedWriting? && k > 0 && rows[k - 1].target != [] && env.raises(t)
               && now == Bumped(was, rows[..k - 1]))
    }

    /** Count one refusal against the part that caused it, say so, hold every addressed part, and tell the
    caller who asked for it. */
    method RefuseWhole(rows: seq<Row>, name: string, notify: bool) returns (x: Exit, k: nat)
      requires Valid() && name in parts
      modifies this`trace, this`rejected
      ensures Valid() && OneMore(old(rejected), rejected, name) && Turned(x)
      ensures Refusing(old(trace), trace, rows, name, notify, x, k)
    {
      rejected := rejected[name := rejected[name] + 1];
      trace := trace + [Event(name, Report)];
      ghost var said := trace;
      if env.raises(trace) {
        return RaisedReporting, 0;
      }
      var ok;
      ok, k := HoldAll(rows);
      AskedMeans(said, rows, k);
      if !ok {
        return RaisedHolding, k;
      }
      assert rows[..k] == rows;
      if notify {
        trace := trace + [Event(name, Notify)];
        if env.raises(trace) {
          return RaisedNotifying, k;
        }
      }
      x := Refused;
    }

    lemma AskedMeans(said: seq<Event>, rows: seq<Row>, k: nat)
      requires !env.raises(said) && HeldUpTo(said, rows, k)
      ensures k == |rows| <==> AllAsked(said, rows)
    {
      if k < |rows| {
        assert HoldCut(said, rows, k - 1);
      }
    }

    method WriteWhole(rows: seq<Row>, velocity: map<string, seq<Scalar>>, force: map<string, Scalar>)
      returns (x: Exit, k: nat)
      requires Valid() && DistinctRows(rows) && Writable(parts, rows)
      modifies this`trace, this`accepted
      ensures Valid() && Writing(old(trace), trace, rows, velocity, force, x, k, old(accepted), accepted)
    {
      var ok;
      ok, k := WriteAll(rows, velocity, force);
      x := if ok then Applied else RaisedWriting;
    }

    /** `apply_decision`. `reading` is the history when reading ended and telling began; `k` rows were
    dealt with: held after a refusal, or written until one raised; `objector` is the part a refusal is
    counted against; `notify` says that the caller gave an `on_refusal`. */
    method ApplyDecision(rows: seq<Row>, velocity: map<string, seq<Scalar>>, force: map<string, Scalar>,
                         checkNeighbours: bool, notify: bool)
      returns (x: Exit, f: Findings, k: nat, ghost reading: seq<Event>, ghost objector: string)
      requires Valid() && DistinctRows(rows)
      modifies this
      ensures Valid()
      ensures old(trace) <= reading && Quiet(reading[|old(trace)|..])
      ensures Looked(reading, |old(trace)|, rows, checkNeighbours)
      ensures x.RaisedEarly? <==>
                !ModifiersAllowed(parts, rows, velocity, force)
                    || Broken(reading, |old(trace)|, rows, velocity, f.measured)
      ensures x.RaisedEarly? ==> trace == reading && accepted == old(accepted) && rejected == old(rejected)
      ensures Turned(x) ==>
                && Rejected(reading, |old(trace)|, rows, f, checkNeighbours, objector)
                && Refusing(reading, trace, rows, objector, notify, x, k)
                && accepted == old(accepted)
                && OneMore(old(rejected), rejected, objector)
      ensures Turned(x) ==> SaidAndHeld(reading, trace, rows, objector, x, k)
      ensures x.Applied? || x.RaisedWriting? ==>
                && RowsApart(rows) && (checkNeighbours ==> NeighboursApart(reading, |old(trace)|, rows))
                && Commands(reading, trace, rows, velocity, force)
      ensures x.Applied? ==> Counted(rows, old(accepted), accepted) && EachWritten(reading, trace, rows)
      ensures x.Applied? || x.RaisedWriting? ==>
                && Admitted(reading, |old(trace)|, rows, f, checkNeighbours)
                && Writing(reading, trace, rows, velocity, force, x, k, old(accepted), accepted)
                && rejected == old(rejected)
    {
      if !ModifiersAllowed(parts, rows, velocity, force) {
        return RaisedEarly, Findings(map[], []), 0, trace, "";
      }
      x, f, k, reading, objector := Decide(rows, velocity, force, checkNeighbours, notify);
      if Turned(x) {
        RefusingMeans(reading, trace, rows, objector, notify, x, k);
      } else if x.Applied? || x.RaisedWriting? {
        AdmittedApart(reading, |old(trace)|, rows, f, checkNeighbours);
        WritingMeans(reading, trace, |old(trace)|, rows, f, checkNeighbours, velocity, force, x, k, old(accepted),
                     accepted);
      }
    }

    /** First the report, then, unless it raised, a hold of each of the first `k` rows in order. */
    ghost predicate SaidAndHeld(reading: seq<Event>, t: seq<Event>, rows: seq<Row>, objector: string, x: Exit, k: nat) {
      && |t| > |reading| && t[|reading|] == Event(objector, Report) && k <= |rows|
      && (x.RaisedReporting? ==> |t| == |reading| + 1)
      && (!x.RaisedReporting? ==> HoldsFollow(t, |reading| + 1, rows, k))
    }

    ghost predicate HoldsFollow(t: seq<Event>, from: nat, rows: seq<Row>, k: nat) {
      && k <= |rows| && |t| >= from + k
      && forall i :: 0 <= i < k ==> t[from + i] == Event(rows[i].part, HoldStill)
    }

    lemma RefusingMeans(reading: seq<Event>, t: seq<Event>, rows: seq<Row>, objector: string, notify: bool, x: Exit,
                        k: nat)
      requires Refusing(reading, t, rows, objector, notify, x, k)
      ensures SaidAndHeld(reading, t, rows, objector, x, k)
    {
      var said := reading + [Event(objector, Report)];
      assert said[|reading|] == Event(objector, Report) && rows[..|rows|] == rows;
      if !env.raises(said) {
        assert said + Holds(rows[..k]) <= t;
        forall i | 0 <= i < k
          ensures t[|reading| + 1 + i] == Event(rows[i].part, HoldStill)
        {
          assert (said + Holds(rows[..k]))[|said| + i] == Holds(rows[..k])[i];
        }
      }
    }

    lemma WritingMeans(reading: seq<Event>, t: seq<Event>, from: nat, rows: seq<Row>, f: Findings,
                       checkNeighbours: bool, velocity: map<string, seq<Scalar>>, force: map<string, Scalar>, x: Exit,
                       k: nat, was: map<string, nat>, now: map<string, nat>)
      requires Admitted(reading, from, rows, f, checkNeighbours) && !Broken(reading, from, rows, velocity, f.measured)
      requires ModifiersAllowed(parts, rows, velocity, force)
      requires Writing(reading, t, rows, velocity, force, x, k, was, now)
      ensures Commands(reading, t, rows, velocity, force)
      ensures x.Applied? ==> Counted(rows, was, now) && EachWritten(reading, t, rows)
    {
      AdmittedRows(reading, from, rows, f, checkNeighbours, velocity);
      WritesCommand(reading, rows, k, velocity, force);
      if x.Applied? {
        assert rows[..k] == rows;
        WrittenUpTo(reading, rows, |rows|, velocity, force);
      }
    }

    // ----- what an applied decision means, over parts, rows, calls and bodies alone

    /** Two parts, at these rows, are in one frame, and no two points of two of their bodies that neither of
    them ignores come within the larger of their margins. */
    ghost predicate BodiesApart(a: Arm, q: seq<Scalar>, b: Arm, r: seq<Scalar>) {
      && a.frame == b.frame && Snapshot(a, q).Some? && Snapshot(b, r).Some?
      && forall i, j :: 0 <= i < |Snapshot(a, q).value| && 0 <= j < |Snapshot(b, r).value| ==>
           var s, t := Snapshot(a, q).value[i], Snapshot(b, r).value[j];
           multiset{s.name, t.name} !in a.ignored && multiset{s.name, t.name} !in b.ignored ==>
             Apart(s.ball, t.ball, if a.margin >= b.margin then a.margin else b.margin)
    }

    /** Any two addressed parts that check collisions and are told to move are apart where they are told to be. */
    ghost predicate RowsApart(rows: seq<Row>) {
      forall i, j :: 0 <= i < |rows| && 0 <= j < |rows| && i != j && Checked(rows[i]) && Checked(rows[j]) ==>
        BodiesApart(parts[rows[i].part].arm, rows[i].target, parts[rows[j].part].arm, rows[j].target)
    }

    /** Told to move, and part of the checks across parts. */
    ghost predicate Checked(row: Row) {
      row.target != [] && row.part in parts && parts[row.part].arm.selfCollision
    }

    /** A state read of this call measured the other part, and where it was measured it is apart from the row. */
    ghost predicate ReadApart(t: seq<Event>, from: nat, row: Row, name: string)
      requires row.part in parts && name in parts
    {
      exists k :: from <= k < |t| && t[k] == Event(name, ReadState) && !env.raises(t[..k + 1])
        && (env.position(t[..k + 1]) != [] ==>
              BodiesApart(parts[row.part].arm, row.target, parts[name].arm, env.position(t[..k + 1])))
    }

    /** Every declared part that checks collisions and is not addressed was measured, and is apart from every
    addressed one that does and is told to move. */
    ghost predicate NeighboursApart(t: seq<Event>, from: nat, rows: seq<Row>) {
      forall i, name :: 0 <= i < |rows| && Checked(rows[i]) && Unaddressed(rows, name) ==>
        ReadApart(t, from, rows[i], name)
    }

    /** Declared, part of the checks across parts, and named by no row. */
    ghost predicate Unaddressed(rows: seq<Row>, name: string) {
      name in parts && parts[name].arm.selfCollision && !Named(rows, name)
    }

    lemma PlacementsApart(ps: seq<Placement>, i: nat, j: nat)
      requires CrossClear(ps) && i < |ps| && j < |ps| && i != j
      requires ps[i].row != [] && ps[i].arm.selfCollision && ps[j].row != [] && ps[j].arm.selfCollision
      requires ps[i].arm.Valid()
      ensures BodiesApart(ps[i].arm, ps[i].row, ps[j].arm, ps[j].row)
    {
      assert Shaped(ps[i]) && Shaped(ps[j]);
      var ss, ts := Snapshot(ps[i].arm, ps[i].row).value, Snapshot(ps[j].arm, ps[j].row).value;
      CrossClearMeaning(ps, i, j, 0, 0);
      forall x, y | 0 <= x < |ss| && 0 <= y < |ts|
          && multiset{ss[x].name, ts[y].name} !in ps[i].arm.ignored
          && multiset{ss[x].name, ts[y].name} !in ps[j].arm.ignored
        ensures Apart(ss[x].ball, ts[y].ball,
                      if ps[i].arm.margin >= ps[j].arm.margin then ps[i].arm.margin else ps[j].arm.margin)
      {
        CrossClearMeaning(ps, i, j, x, y);
      }
    }

    lemma AdmittedApart(t: seq<Event>, from: nat, rows: seq<Row>, f: Findings, checkNeighbours: bool)
      requires ValidParts(parts) && Declares(parts, order) && Admitted(t, from, rows, f, checkNeighbours)
      ensures RowsApart(rows) && (checkNeighbours ==> NeighboursApart(t, from, rows))
    {
      var ps := Placements(parts, rows) + NeighbourPlacements(parts, f.neighbours);
      forall i, j | 0 <= i < |rows| && 0 <= j < |rows| && i != j && Checked(rows[i]) && Checked(rows[j])
        ensures BodiesApart(parts[rows[i].part].arm, rows[i].target, parts[rows[j].part].arm, rows[j].target)
      {
        assert ps[i] == PlacementOf(parts, rows[i]) && ps[j] == PlacementOf(parts, rows[j]);
        PlacementsApart(ps, i, j);
      }
      if checkNeighbours {
        forall i, name | 0 <= i < |rows| && Checked(rows[i]) && Unaddressed(rows, name)
          ensures ReadApart(t, from, rows[i], name)
        {
          NeighbourApart(t, from, rows, f, i, name);
        }
      }
    }

    lemma NeighbourApart(t: seq<Event>, from: nat, rows: seq<Row>, f: Findings, i: nat, name: string)
      requires ValidParts(parts) && Declares(parts, order) && Admitted(t, from, rows, f, true)
      requires i < |rows| && Checked(rows[i]) && Unaddressed(rows, name)
      ensures ReadApart(t, from, rows[i], name)
    {
      var ns := f.neighbours;
      var l := NeighbourFound(t, from, rows, ns, i, name);
      assert Measured(env, t, from, name, ns[l].row);
      var k :| from <= k < |t| && t[k] == Event(name, ReadState)
               && !env.raises(t[..k + 1]) && env.position(t[..k + 1]) == ns[l].row;
      if ns[l].row != [] {
        FoundApart(rows, ns, i, l);
      }
    }

    lemma NeighbourFound(t: seq<Event>, from: nat, rows: seq<Row>, ns: seq<Neighbour>, i: nat, name: string)
      returns (l: nat)
      requires Declares(parts, order) && forall j :: 0 <= j < |rows| ==> rows[j].part in parts
      requires Around(t, from, rows, ns, true) && i < |rows| && Checked(rows[i]) && Unaddressed(rows, name)
      ensures l < |ns| && ns[l].name == name && Observed(t, from, ns)
    {
      assert LooksAround(parts, rows, true) && IsNeighbour(parts, rows, name);
      var o :| 0 <= o < |order| && order[o] == name;
      l :| 0 <= l < |ns| && ns[l].name == order[o];
    }

    lemma FoundApart(rows: seq<Row>, ns: seq<Neighbour>, i: nat, l: nat)
      requires ValidParts(parts) && i < |rows| && l < |ns| && Checked(rows[i]) && ns[l].row != []
      requires forall j :: 0 <= j < |rows| ==> rows[j].part in parts
      requires forall j :: 0 <= j < |ns| ==> ns[j].name in parts
      requires parts[ns[l].name].arm.selfCollision
      requires CrossClear(Placements(parts, rows) + NeighbourPlacements(parts, ns))
      ensures BodiesApart(parts[rows[i].part].arm, rows[i].target, parts[ns[l].name].arm, ns[l].row)
    {
      var ps := Placements(parts, rows) + NeighbourPlacements(parts, ns);
      assert ps[i] == PlacementOf(parts, rows[i]) && ps[|rows| + l] == Placement(parts[ns[l].name].arm, ns[l].row);
      PlacementsApart(ps, i, |rows| + l);
    }

    /** Every call made is the write of one addressed row that is told to move, with the numbers of that row, all
    within the part's limits: with its force, within the part's force limits, where the part offers one and one
    was given; else with its velocities, where the part offers that and they were given; else plain. */
    ghost predicate Commands(reading: seq<Event>, t: seq<Event>, rows: seq<Row>, velocity: map<string, seq<Scalar>>,
                             force: map<string, Scalar>) {
      reading <= t && forall k :: |reading| <= k < |t| ==> Commanded(t[k], rows, velocity, force)
    }

    ghost predicate Commanded(e: Event, rows: seq<Row>, velocity: map<string, seq<Scalar>>,
                              force: map<string, Scalar>) {
      exists i :: 0 <= i < |rows| && e.part == rows[i].part && Command(e.call, rows[i], velocity, force)
    }

    ghost predicate SameNumbers(q: seq<real>, given: seq<Scalar>) {
      |q| == |given| && forall j :: 0 <= j < |q| ==> given[j] == Finite(q[j])
    }

    ghost predicate Command(c: Call, row: Row, velocity: map<string, seq<Scalar>>, force: map<string, Scalar>) {
      && row.target != [] && row.part in parts
      && var p := parts[row.part];
         && IsWrite(c) && |c.q| == |row.target| == |p.arm.limits|
         && (forall j :: 0 <= j < |c.q| ==>
               row.target[j] == Finite(c.q[j]) && p.arm.limits[j].0 <= c.q[j] <= p.arm.limits[j].1)
         && (if row.part in force && p.extensions.force.Some? then
               && c.WriteForce? && force[row.part] == Finite(c.force)
               && (if row.part in velocity then c.feed.Some? && SameNumbers(c.feed.value, velocity[row.part])
                   else c.feed.None?)
               && (c.force == 0.0 || p.extensions.force.value.0 <= c.force <= p.extensions.force.value.1)
             else if row.part in velocity && p.extensions.velocity then
               c.WriteVelocity? && |c.v| == |c.q| && SameNumbers(c.v, velocity[row.part])
             else c.WritePosition?)
    }

    /** Each row that moves was written, and nothing else was called. */
    ghost predicate EachWritten(reading: seq<Event>, t: seq<Event>, rows: seq<Row>) {
      && |t| == |reading| + |Moving(rows)|
      && forall i :: 0 <= i < |rows| && rows[i].target != [] ==> CalledAfter(t, |reading|, rows[i].part)
    }

    function Moving(rows: seq<Row>): set<int> { set i | 0 <= i < |rows| && rows[i].target != [] }

    ghost predicate CalledAfter(t: seq<Event>, from: nat, name: string) {
      exists k :: from <= k < |t| && t[k].part == name
    }

    /** One more accepted command for each part told to move, and for no other. */
    ghost predicate Counted(rows: seq<Row>, was: map<string, nat>, now: map<string, nat>) {
      && now.Keys == was.Keys
      && forall name :: name in was ==>
           now[name] == was[name]
             + if exists i :: 0 <= i < |rows| && rows[i].part == name && rows[i].target != [] then 1 else 0
    }

    /** What a row needs for its write to be such a command. */
    ghost predicate Fit(row: Row, velocity: map<string, seq<Scalar>>) {
      && row.part in parts
      && (row.target != [] ==>
            && AllFinite(row.target) && InLimits(parts[row.part].arm, Values(row.target))
            && VelocityFits(row, velocity))
    }

    lemma AdmittedRows(t: seq<Event>, from: nat, rows: seq<Row>, f: Findings, checkNeighbours: bool,
                       velocity: map<string, seq<Scalar>>)
      requires Admitted(t, from, rows, f, checkNeighbours) && !Broken(t, from, rows, velocity, f.measured)
      ensures forall i :: 0 <= i < |rows| ==> Fit(rows[i], velocity)
    {
      forall i | 0 <= i < |rows|
        ensures Fit(rows[i], velocity)
      {
        assert Passed(parts, env, t, from, rows[i], f.measured);
      }
    }

    lemma CommandOne(row: Row, velocity: map<string, seq<Scalar>>, force: map<string, Scalar>)
      requires Fit(row, velocity) && row.target != []
      requires row.part in force ==> ForceAllowed(parts[row.part], force[row.part])
      ensures Command(WriteCall(parts[row.part], row.target, Get(velocity, row.part), Get(force, row.part)), row,
                      velocity, force)
    {}

    lemma {:induction false} WritesCommand(reading: seq<Event>, rows: seq<Row>, n: nat,
                                           velocity: map<string, seq<Scalar>>, force: map<string, Scalar>)
      requires n <= |rows| && Writable(parts, rows) && forall i :: 0 <= i < |rows| ==> Fit(rows[i], velocity)
      requires forall name :: name in force && name in parts ==> ForceAllowed(parts[name], force[name])
      ensures Commands(reading, reading + WriteEvents(parts, rows[..n], velocity, force), rows, velocity, force)
      decreases n
    {
      if n > 0 {
        WritesCommand(reading, rows, n - 1, velocity, force);
        WritesGrow(rows, n - 1, velocity, force);
        var before := reading + WriteEvents(parts, rows[..n - 1], velocity, force);
        if rows[n - 1].target != [] {
          CommandOne(rows[n - 1], velocity, force);
          var e := Event(rows[n - 1].part, WriteCall(parts[rows[n - 1].part], rows[n - 1].target,
                                                     Get(velocity, rows[n - 1].part), Get(force, rows[n - 1].part)));
          assert reading + WriteEvents(parts, rows[..n], velocity, force) == before + [e];
          CommandsGrow(reading, before, e, rows, n - 1, velocity, force);
        } else {
          assert reading + WriteEvents(parts, rows[..n], velocity, force) == before;
        }
      }
    }

    lemma CommandsGrow(reading: seq<Event>, t: seq<Event>, e: Event, rows: seq<Row>, i: nat,
                       velocity: map<string, seq<Scalar>>, force: map<string, Scalar>)
      requires Commands(reading, t, rows, velocity, force) && i < |rows|
      requires e.part == rows[i].part && Command(e.call, rows[i], velocity, force)
      ensures Commands(reading, t + [e], rows, velocity, force)
    {
      forall k | |reading| <= k < |t + [e]|
        ensures Commanded((t + [e])[k], rows, velocity, force)
      {
        assert k < |t| ==> (t + [e])[k] == t[k];
      }
    }

    lemma {:induction false} WrittenUpTo(reading: seq<Event>, rows: seq<Row>, n: nat,
                                         velocity: map<string, seq<Scalar>>, force: map<string, Scalar>)
      requires n <= |rows| && Writable(parts, rows)
      ensures EachWritten(reading, reading + WriteEvents(parts, rows[..n], velocity, force), rows[..n])
      decreases n
    {
      if n > 0 {
        var init, row := rows[..n - 1], rows[n - 1];
        var t := reading + WriteEvents(parts, init, velocity, force);
        WrittenUpTo(reading, rows, n - 1, velocity, force);
        WritesGrow(rows, n - 1, velocity, force);
        assert rows[..n] == init + [row];
        if row.target == [] {
          WrittenGrows(reading, t, [], init, row);
          assert t + [] == t;
        } else {
          var e := Event(row.part, WriteCall(parts[row.part], row.target, Get(velocity, row.part),
                                             Get(force, row.part)));
          WrittenGrows(reading, t, [e], init, row);
          assert reading + WriteEvents(parts, rows[..n], velocity, force) == t + [e];
        }
      } else {
        assert Moving(rows[..0]) == {};
      }
    }

    lemma WrittenGrows(reading: seq<Event>, t: seq<Event>, more: seq<Event>, rows: seq<Row>, row: Row)
      requires EachWritten(reading, t, rows) && reading <= t
      requires if row.target == [] then more == [] else |more| == 1 && more[0].part == row.part
      ensures EachWritten(reading, t + more, rows + [row])
    {
      MovingGrows(rows, row);
      forall i | 0 <= i < |rows + [row]| && (rows + [row])[i].target != []
        ensures CalledAfter(t + more, |reading|, (rows + [row])[i].part)
      {
        if i < |rows| {
          assert CalledAfter(t, |reading|, rows[i].part);
          var k :| |reading| <= k < |t| && t[k].part == rows[i].part;
          assert (t + more)[k] == t[k];
        } else {
          assert (t + more)[|t|] == more[0];
        }
      }
    }

    lemma MovingGrows(rows: seq<Row>, row: Row)
      ensures |Moving(rows + [row])| == |Moving(rows)| + if row.target != [] then 1 else 0
    {
      var more := rows + [row];
      var a, b := Moving(rows), Moving(more);
      assert forall i :: 0 <= i < |rows| ==> more[i] == rows[i];
      assert more[|rows|] == row;
      assert b == if row.target != [] then a + {|rows|} else a;
    }

    /** The decision, once its modifiers are allowed. */
    method Decide(rows: seq<Row>, velocity: map<string, seq<Scalar>>, force: map<string, Scalar>,
                  checkNeighbours: bool, notify: bool)
      returns (x: Exit, f: Findings, k: nat, ghost reading: seq<Event>, ghost objector: string)
      requires Valid() && DistinctRows(rows)
      modifies this
      ensures Valid()
      ensures old(trace) <= reading && Quiet(reading[|old(trace)|..])
      ensures Looked(reading, |old(trace)|, rows, checkNeighbours)
      ensures var refusal := if Turned(x) then Some(objector) else None;
              Judged(reading, |old(trace)|, rows, velocity, checkNeighbours, x.RaisedEarly?, refusal, f)
      ensures x.RaisedEarly? ==> trace == reading && accepted == old(accepted) && rejected == old(rejected)
      ensures Turned(x) ==>
                && Refusing(reading, trace, rows, objector, notify, x, k)
                && accepted == old(accepted)
                && OneMore(old(rejected), rejected, objector)
      ensures x.Applied? || x.RaisedWriting? ==>
                && Writing(reading, trace, rows, velocity, force, x, k, old(accepted), accepted)
                && rejected == old(rejected)
    {
      var raised, refusal;
      raised, refusal, f := Judge(rows, velocity, checkNeighbours);
      reading, objector := trace, if refusal.Some? then refusal.value else "";
      if raised {
        assert Judged(reading, |old(trace)|, rows, velocity, checkNeighbours, true, None, f);
        return RaisedEarly, f, 0, reading, objector;
      }
      if refusal.Some? {
        x, k := RefuseWhole(rows, refusal.value, notify);
      } else {
        x, k := WriteWhole(rows, velocity, force);
      }
    }

    lemma AdmittedWritable(t: seq<Event>, from: nat, rows: seq<Row>, f: Findings, checkNeighbours: bool)
      requires Admitted(t, from, rows, f, checkNeighbours)
      ensures Writable(parts, rows)
    {
      forall i | 0 <= i < |rows|
        ensures rows[i].part in parts && AllFinite(rows[i].target)
      {
        assert Passed(parts, env, t, from, rows[i], f.measured);
      }
    }
  }
}
