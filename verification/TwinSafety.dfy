/** Whole-run safety of a twin driven through the owner envelope. */
module TwinSafety {
  import opened Envelope
  import opened Recovery
  import opened Solids
  import opened Twin

  /** The intended wiring of a twin and its envelope: shared limits, caps and rate, and a home the
  envelope itself would call safe. */
  predicate Wired(arm: Arm, c: Config, home: seq<real>) {
    && arm.Valid()
    && c.Valid() && c.Width() == arm.Width() && c.rate > 0.0
    && (forall i :: 0 <= i < c.Width() ==> c.lower[i] == arm.limits[i].0 && c.upper[i] == arm.limits[i].1)
    && arm.Caps() == Commanded(c.caps)
    && (forall i :: 0 <= i < c.Width() ==> c.caps[i] >= 0.0)
    && RowSafe(arm, home)
  }

  /** A row at which the part may stand. */
  predicate RowSafe(arm: Arm, q: seq<real>) {
    && InLimits(arm, q)
    && (arm.workspace.Some? ==> Inside(arm, Commanded(q)))
    && BodiesClear(arm, Commanded(q))
  }

  /** Position and target are both safe rows, and the target is within one command's travel. */
  predicate Safe(arm: Arm, c: Config, s: State)
    requires arm.Valid()
  {
    && Sized(c, s)
    && RowSafe(arm, s.q)
    && RowSafe(arm, s.target)
    && WithinCaps(arm, s.target, Commanded(s.q))
  }

  /** The calls the envelope lets through when measuring and writing are one step: admitted writes,
  the declared home, full control periods, and every hold, stop and resume. */
  predicate Legal(arm: Arm, c: Config, home: seq<real>, s: State, e: Event)
    requires arm.Valid()
  {
    match e
    case Write(v) => v == [] || (s.estopped && |v| == c.Width()) || Admissible(arm, Commanded(v), Commanded(s.q))
    case Home(v) => v == home
    case Step(dt) => dt * c.rate == 1.0
    case _ => true
  }

  predicate LegalRun(arm: Arm, c: Config, home: seq<real>, s: State, es: seq<Event>)
    requires arm.Valid()
    decreases es
  {
    es != [] ==>
      Sized(c, s) && Fits(c, es[0]) && Legal(arm, c, home, s, es[0])
          && LegalRun(arm, c, home, After(c, s, es[0]), es[1..])
  }

  lemma {:induction false} LegalFits(arm: Arm, c: Config, home: seq<real>, s: State, es: seq<Event>)
    requires arm.Valid() && LegalRun(arm, c, home, s, es)
    ensures AllFit(c, es)
    decreases es
  {
    if es != [] {
      LegalFits(arm, c, home, After(c, s, es[0]), es[1..]);
    }
  }

  lemma StillWithinCaps(arm: Arm, c: Config, home: seq<real>, q: seq<real>)
    requires Wired(arm, c, home) && |q| == c.Width()
    ensures WithinCaps(arm, q, Commanded(q))
  {}

  /** An admitted row is inside the limits, so the driver's own clip leaves it alone. */
  lemma ClipIsNoOp(arm: Arm, c: Config, home: seq<real>, v: seq<real>)
    requires Wired(arm, c, home) && InLimits(arm, v)
    ensures ClipRow(v, c.lower, c.upper) == v
  {
    assert forall i :: 0 <= i < |v| ==> ClipRow(v, c.lower, c.upper)[i] == v[i];
  }

  /** One full period brings the twin exactly to any target within its caps. */
  lemma PeriodReachesTarget(arm: Arm, c: Config, home: seq<real>, s: State, dt: real)
    requires Wired(arm, c, home) && Safe(arm, c, s) && !s.estopped && dt * c.rate == 1.0
    ensures After(c, s, Step(dt)).q == s.target
    ensures After(c, s, Step(dt)).target == s.target
  {
    var r := After(c, s, Step(dt));
    forall i: nat | i < c.Width()
      ensures r.q[i] == s.target[i]
    {
      StepJoint(c, s, dt, i);
      FullPeriod(c.caps[i], dt, c.rate);
      TargetInReach(arm, c, home, s, i);
      JointReaches(s.q[i], s.target[i], c.caps[i], c.lower[i], c.upper[i]);
    }
    assert r.q == s.target;
  }

  /** One joint across one period. */
  lemma StepJoint(c: Config, s: State, dt: real, i: nat)
    requires Sized(c, s) && !s.estopped && i < c.Width()
    ensures var travel := Travel(c.caps[i], dt, c.rate);
            After(c, s, Step(dt)).q[i] == Clip(s.q[i] + Clip(s.target[i] - s.q[i], -travel, travel), c.lower[i],
                                               c.upper[i])
  {}

  lemma TargetInReach(arm: Arm, c: Config, home: seq<real>, s: State, i: nat)
    requires Wired(arm, c, home) && Safe(arm, c, s) && i < c.Width()
    ensures Abs(s.target[i] - s.q[i]) <= c.caps[i] && c.lower[i] <= s.target[i] <= c.upper[i]
  {}

  lemma JointReaches(q: real, t: real, cap: real, lo: real, hi: real)
    requires Abs(t - q) <= cap && lo <= t <= hi
    ensures Clip(q + Clip(t - q, -cap, cap), lo, hi) == t
  {}

  lemma FullPeriod(cap: real, dt: real, rate: real)
    requires dt * rate == 1.0
    ensures Travel(cap, dt, rate) == cap
  {}

  lemma WriteKeepsSafe(arm: Arm, c: Config, home: seq<real>, s: State, v: seq<real>)
    requires Wired(arm, c, home) && Safe(arm, c, s) && !s.estopped && v != []
    requires Admissible(arm, Commanded(v), Commanded(s.q))
    ensures After(c, s, Write(v)).target == v
    ensures Safe(arm, c, After(c, s, Write(v)))
  {
    ClipIsNoOp(arm, c, home, v);
    if arm.workspace.Some? {
      InsideMild(arm, Commanded(s.q));
      MildAdmitsInside(arm, Commanded(v), Commanded(s.q));
    }
  }

  lemma EventKeepsSafe(arm: Arm, c: Config, home: seq<real>, s: State, e: Event)
    requires Wired(arm, c, home) && Safe(arm, c, s) && Fits(c, e) && Legal(arm, c, home, s, e)
    ensures Safe(arm, c, After(c, s, e))
  {
    StillWithinCaps(arm, c, home, s.q);
    StillWithinCaps(arm, c, home, s.target);
    StillWithinCaps(arm, c, home, home);
    match e
    case Write(v) =>
      if !s.estopped && v != [] {
        WriteKeepsSafe(arm, c, home, s, v);
      }
    case Step(dt) =>
      if !s.estopped {
        PeriodReachesTarget(arm, c, home, s, dt);
      }
    case _ =>
  }

  /** The inductive invariant over every run of commands, periods, holds, resets, stops and resumes. */
  lemma {:induction false} RunKeepsSafe(arm: Arm, c: Config, home: seq<real>, s: State, es: seq<Event>)
    requires Wired(arm, c, home) && Safe(arm, c, s) && LegalRun(arm, c, home, s, es)
    ensures AllFit(c, es) && Safe(arm, c, Run(c, s, es))
    decreases es
  {
    LegalFits(arm, c, home, s, es);
    if es != [] {
      EventKeepsSafe(arm, c, home, s, es[0]);
      RunKeepsSafe(arm, c, home, After(c, s, es[0]), es[1..]);
    }
  }

  function Start(c: Config, home: seq<real>): State
    requires c.Valid()
  {
    State(home, Zeros(c.Width()), home, false)
  }

  /** From the declared home, every reachable position and target is inside the joint limits; every
  point of every body is inside the workspace box and clear of keep-outs and other bodies. */
  lemma ReachableSafe(arm: Arm, c: Config, home: seq<real>, es: seq<Event>)
    requires Wired(arm, c, home) && ValidKeepouts(arm) && LegalRun(arm, c, home, Start(c, home), es)
    ensures AllFit(c, es)
    ensures var s := Run(c, Start(c, home), es);
            && InLimits(arm, s.q) && InLimits(arm, s.target) && WithinCaps(arm, s.target, Commanded(s.q))
            && SolidClear(arm, Commanded(s.q)) && SolidClear(arm, Commanded(s.target))
            && (arm.workspace.Some? ==>
                  && Described(arm, Commanded(s.q)) && SolidInside(arm, Commanded(s.q))
                  && Described(arm, Commanded(s.target)) && SolidInside(arm, Commanded(s.target)))
  {
    StillWithinCaps(arm, c, home, home);
    RunKeepsSafe(arm, c, home, Start(c, home), es);
    var s := Run(c, Start(c, home), es);
    ClearMeaning(arm, Commanded(s.q));
    ClearMeaning(arm, Commanded(s.target));
    if arm.workspace.Some? {
      InsideMeaning(arm, Commanded(s.q));
      InsideMeaning(arm, Commanded(s.target));
    }
  }

  /** In every reachable state an accepted target is reached by the very next full period. */
  lemma AcceptedIsReached(arm: Arm, c: Config, home: seq<real>, es: seq<Event>, v: seq<real>, dt: real)
    requires Wired(arm, c, home) && LegalRun(arm, c, home, Start(c, home), es)
    requires AllFit(c, es) && !Run(c, Start(c, home), es).estopped
    requires v != [] && Admissible(arm, Commanded(v), Commanded(Run(c, Start(c, home), es).q)) && dt * c.rate == 1.0
    ensures After(c, After(c, Run(c, Start(c, home), es), Write(v)), Step(dt)).q == v
  {
    StillWithinCaps(arm, c, home, home);
    RunKeepsSafe(arm, c, home, Start(c, home), es);
    var s := Run(c, Start(c, home), es);
    WriteKeepsSafe(arm, c, home, s, v);
    PeriodReachesTarget(arm, c, home, After(c, s, Write(v)), dt);
  }
}
