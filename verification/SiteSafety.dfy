/** The theorems about a site's whole life: every release of the lock, every close that does not release
it, and the exact conditions of both, for every pattern of failures and interrupts. */
module SiteSafety {
  import opened Wrappers
  import opened Calls
  import opened Lifecycle
  import opened Releases

  // ----- closing

  /** The lock is free; nothing is live unless something was torn, and then something is. */
  predicate Free(s: seq<Call>) {
    && Orderly(s) && !Fold(s).held && Fold(s).worlds == [] && (Fold(s).live == {} <==> Fold(s).torn == {})
    && Fold(s).owed == Fold(s).spared
  }

  /** The lock is kept. `all`: what had no close tried is exactly what was spared. */
  predicate Retained(s: seq<Call>, all: bool) {
    Orderly(s) && Fold(s).held && (all ==> Fold(s).owed == Fold(s).spared)
  }

  lemma LeaveRunKeep(env: Env, s: seq<Call>, site: Site, rest: set<Item>, worlds: seq<Item>, doubt: bool)
    requires Keeps(s, rest, worlds, doubt)
    ensures Keeps(LeaveRun(env, s, site), rest, worlds, doubt)
  {
    if site.active {
      AskGrows(env, s, Other(ExitRun));
    }
  }

  lemma JoinKeep(env: Env, s: seq<Call>, service: Thread, rest: set<Item>, worlds: seq<Item>, doubt: bool)
    requires Keeps(s, (if service.Running? then {Service} else {}) + rest, worlds, doubt) && Service !in rest
    ensures var j := Join(env, s, service);
            if j.out then Keeps(j.calls, rest, worlds, doubt) else Retained(j.calls, false)
  {
    if service.Running? {
      CloseOne(Fold(s), Service, false, env.outcome(s, Close(Service)), rest, doubt);
      AskGrows(env, s, Close(Service));
      assert Pop(Fold(s).worlds, Service) == Fold(s).worlds;
    } else {
      assert {} + rest == rest;
    }
  }

  lemma WorldsDown(env: Env, s: seq<Call>, n: nat, doubt: bool)
    requires Keeps(s, Elements(Worlds(n)), Worlds(n), doubt)
    ensures var w := Closings(env, s, Down(n), false, Full);
            Retained(w.calls, true) && (w.out.how.Full? ==> Keeps(w.calls, {}, [], doubt))
  {
    var w := Closings(env, s, Down(n), false, Full);
    DownReady(s, n, doubt);
    ClosingsKeep(env, s, Down(n), false, Full, true, {}, doubt);
    DownLeft(n, w.out.tried);
    if w.out.how.Short? {
      assert forall x <- Elements(Worlds(n - w.out.tried)) :: x.World?;
      assert Unspared(Close(Down(n)[w.out.tried - 1]), Elements(Worlds(n - w.out.tried))) == {};
    } else {
      assert Worlds(0) == [] && Elements([]) == {};
    }
  }

  lemma CloseOwnedKeep(env: Env, s: seq<Call>, site: Site, interrupted: bool, doubt: bool)
    requires site.rig.Some? ==> WellFormed(site.rig.value)
    requires Keeps(s, Held(site.(service := Absent)) + Elements(Worlds(site.worlds)), Worlds(site.worlds), doubt)
    ensures var c := CloseOwned(env, s, site, interrupted);
            && Retained(c.calls, true)
            && (c.out.ending.Released? ==> Keeps(c.calls, {}, [], doubt) && Confirmed(site))
  {
    var have := Elements(Worlds(site.worlds));
    assert Held(site.(service := Absent)) + have == (if site.rig.None? then {} else Handles(site.rig.value)) + have;
    if site.rig.None? {
      assert {} + have == have;
      WorldsDown(env, s, site.worlds, doubt);
    } else {
      var r := CloseRig(env, s, site.rig.value, interrupted);
      CloseRigKeep(env, s, site.rig.value, interrupted, have, Worlds(site.worlds), doubt);
      WorldsDown(env, r.calls, site.worlds, doubt || !r.out.rig.confirmed);
    }
  }

  /** The lock given up with nothing answered for and nothing in doubt, or kept. */
  predicate Settled(r: Ran<Closed>) {
    if r.out.ending.Released? then r.out.site == FREE && Free(r.calls)
    else
      && r.out.site.failed && r.out.site.owned && !r.out.ending.Nothing?
      && Retained(r.calls, r.out.ending.Unconfirmed?)
  }

  lemma ConcludeKeep(env: Env, s: seq<Call>, site: Site, left: bool, exc: Option<Failure>, interrupted: bool)
    requires Owner(site)
    requires Keeps(s, Held(site.(service := Absent)) + Elements(Worlds(site.worlds)), Worlds(site.worlds),
                   exc == Some(CloseUnknown) || !Confirmed(site))
    ensures Settled(Conclude(env, s, site, left, exc, interrupted))
  {
    var c := CloseOwned(env, s, site, interrupted);
    CloseOwnedKeep(env, s, site, interrupted, exc == Some(CloseUnknown) || !Confirmed(site));
    if c.out.ending.Released? && left && exc != Some(CloseUnknown) {
      OrderlyGrows(c.calls, Call(DropLock, Done));
    }
  }

  /** The run and the service thread come first. */
  lemma JoinedKeep(env: Env, s: seq<Call>, site: Site, exc: Option<Failure>)
    requires Answering(s, site, exc)
    ensures var j := Join(env, LeaveRun(env, s, site), site.service);
            if j.out then
              Keeps(j.calls, Held(site.(service := Absent)) + Elements(Worlds(site.worlds)), Worlds(site.worlds),
                    exc == Some(CloseUnknown) || !Confirmed(site))
            else Retained(j.calls, false)
  {
    var others, worlds := Held(site.(service := Absent)) + Elements(Worlds(site.worlds)), Worlds(site.worlds);
    var doubt := exc == Some(CloseUnknown) || !Confirmed(site);
    LeaveRunKeep(env, s, site, Covered(site), worlds, doubt);
    assert Covered(site) == (if site.service.Running? then {Service} else {}) + others;
    JoinKeep(env, LeaveRun(env, s, site), site.service, others, worlds, doubt);
  }

  /** What a close leaves. */
  lemma ShutKeep(env: Env, s: seq<Call>, site: Site, exc: Option<Failure>, interrupted: bool)
    requires Answering(s, site, exc)
    ensures Settled(Shut(env, s, site, exc, interrupted))
  {
    var j := Join(env, LeaveRun(env, s, site), site.service);
    JoinedKeep(env, s, site, exc);
    if j.out {
      var site' := site.(active := false);
      assert Held(site'.(service := Absent)) == Held(site.(service := Absent));
      ConcludeKeep(env, j.calls, site', RunLeft(env, s, site), exc, interrupted);
    }
  }

  // ----- a whole life

  /** What every operation leaves as it should be for the next one. */
  predicate Steady(st: State) {
    if st.site.failed then st.site.owned && Orderly(st.calls) && Fold(st.calls).held
    else if st.site.owned then Up(st.calls, st.site)
    else st.site == FREE && Free(st.calls)
  }

  lemma TakeLockFresh(env: Env, s: seq<Call>)
    requires Free(s)
    ensures var t := Ask(env, s, TakeLock);
            if env.outcome(s, TakeLock).Done? then Fresh(t, {}, []) else Free(t)
  {
    AskGrows(env, s, TakeLock);
  }

  lemma ActSteady(env: Env, sizes: Sizes, st: State, op: Op)
    requires Steady(st)
    ensures Steady(Act(env, sizes, st, op).state)
  {
    match op
    case Enter(interrupted) =>
      if !st.site.owned && !st.site.failed {
        var s := Ask(env, st.calls, TakeLock);
        TakeLockFresh(env, st.calls);
        if env.outcome(st.calls, TakeLock).Done? {
          var r := OpenAll(env, s, sizes);
          OpenAllKeep(env, s, sizes);
          if r.out.failure.Some? {
            ShutKeep(env, r.calls, r.out.site, r.out.failure, interrupted);
          }
        }
      }
    case StartRun =>
      if st.site.owned && !st.site.failed {
        assert Covered(st.site.(active := true)) == Covered(st.site);
      }
    case Leave(exc, interrupted) =>
      if st.site.owned && !st.site.failed {
        UpAnswers(st.calls, st.site, exc);
        ShutKeep(env, st.calls, st.site, exc, interrupted);
      }
  }

  lemma {:induction false} RunSteady(env: Env, sizes: Sizes, ops: seq<Op>)
    ensures Steady(Run(env, sizes, ops))
    decreases |ops|
  {
    if ops != [] {
      RunSteady(env, sizes, ops[..|ops| - 1]);
      ActSteady(env, sizes, Run(env, sizes, ops[..|ops| - 1]), ops[|ops| - 1]);
    }
  }

  /** For every session, every sequence of operations and every pattern of failures and interrupts: at
  each release, everything opened since the lock was taken had a close that returned, exactly when the
  session heard of all that a failed build could not close. The lock is held exactly while owned. */
  lemma ReleasesSafeIff(env: Env, sizes: Sizes, ops: seq<Op>, h: nat, j: nat)
    requires var calls := Run(env, sizes, ops).calls;
             j < |calls| && calls[j].step == DropLock && Under(calls[..j], h)
    ensures var before := Run(env, sizes, ops).calls[..j];
            AllClosed(before, h) <==> Heard(before, h)
    ensures var st := Run(env, sizes, ops);
            Orderly(st.calls) && (st.site.owned <==> Fold(st.calls).held)
  {
    RunSteady(env, sizes, ops);
    ReleaseSafeIff(Run(env, sizes, ops).calls, h, j);
  }

  /** After one unconfirmed teardown every later operation fails, and makes no call at all. */
  lemma {:induction false} LostForever(env: Env, sizes: Sizes, ops: seq<Op>, more: seq<Op>)
    requires Run(env, sizes, ops).site.failed
    ensures Run(env, sizes, ops + more) == Run(env, sizes, ops)
    ensures forall op :: Act(env, sizes, Run(env, sizes, ops + more), op).reply in {Busy, NotOpen, Left(Unconfirmed)}
    decreases |more|
  {
    if more == [] {
      assert ops + more == ops;
    } else {
      LostForever(env, sizes, ops, more[..|more| - 1]);
      assert (ops + more)[..|ops + more| - 1] == ops + more[..|more| - 1];
    }
  }

  /** How a teardown ended, where an operation made one. */
  function EndingOf(reply: Reply): Ending { if reply.OpenFailed? || reply.Left? then reply.ending else Nothing }

  /** A teardown that did not confirm keeps the lock for good. */
  lemma TeardownKeeps(env: Env, sizes: Sizes, ops: seq<Op>, op: Op)
    requires !Run(env, sizes, ops).site.failed
    ensures var a := Act(env, sizes, Run(env, sizes, ops), op);
            && (EndingOf(a.reply).Released? ==> a.state.site == FREE && Free(a.state.calls))
            && (EndingOf(a.reply).Unconfirmed? || EndingOf(a.reply).ServiceStuck? ==>
                  a.state.site.failed && Retained(a.state.calls, EndingOf(a.reply).Unconfirmed?))
  {
    var st := Run(env, sizes, ops);
    RunSteady(env, sizes, ops);
    match op
    case Enter(interrupted) =>
      var s := Ask(env, st.calls, TakeLock);
      if !st.site.owned && env.outcome(st.calls, TakeLock).Done? {
        TakeLockFresh(env, st.calls);
        OpenAllKeep(env, s, sizes);
        var r := OpenAll(env, s, sizes);
        if r.out.failure.Some? {
          ShutKeep(env, r.calls, r.out.site, r.out.failure, interrupted);
        }
      }
    case StartRun =>
    case Leave(exc, interrupted) =>
      if st.site.owned {
        UpAnswers(st.calls, st.site, exc);
        ShutKeep(env, st.calls, st.site, exc, interrupted);
      }
  }

  /** After a teardown that got past the service thread, a unit opened under the lock had no close tried if
  and only if some stretch of closings was cut short while it still had that unit to close. */
  lemma UntriedIff(env: Env, sizes: Sizes, ops: seq<Op>, op: Op, h: nat, x: Item)
    requires !Run(env, sizes, ops).site.failed
    requires var a := Act(env, sizes, Run(env, sizes, ops), op);
             (EndingOf(a.reply).Released? || EndingOf(a.reply).Unconfirmed?) && Under(a.state.calls, h)
    ensures var calls := Act(env, sizes, Run(env, sizes, ops), op).state.calls;
            Untried(calls, h, x) <==> exists k: nat :: CutShort(calls, h, k, x)
  {
    TeardownKeeps(env, sizes, ops, op);
    var calls := Act(env, sizes, Run(env, sizes, ops), op).state.calls;
    OwedMeans(calls, h, x);
    SparedMeans(calls, h, x);
  }

  // ----- a service that does not stop

  lemma FoldAsk(env: Env, s: seq<Call>, step: Step)
    ensures Fold(Ask(env, s, step)) == Next(Fold(s), Call(step, env.outcome(s, step)))
  {
    assert Ask(env, s, step)[..|s|] == s;
  }

  /** Joining the service thread touches nothing else. */
  lemma JoinFold(env: Env, s: seq<Call>, service: Thread)
    ensures var j := Join(env, s, service);
            && (j.out <==> !service.Unstarted? && (service.Running? ==> env.outcome(s, Close(Service)).Done?))
            && Fold(j.calls).owed >= Fold(s).owed - {Service} && (!j.out ==> Fold(j.calls).live == Fold(s).live)
  {
    if service.Running? {
      FoldAsk(env, s, Close(Service));
      assert forall x :: !Spares(Close(Service), x);
    }
  }

  lemma LeaveRunFold(env: Env, s: seq<Call>, site: Site)
    ensures Fold(LeaveRun(env, s, site)) == Fold(s)
  {
    if site.active {
      FoldAsk(env, s, Other(ExitRun));
    }
  }

  lemma ConcludeUnstuck(env: Env, s: seq<Call>, site: Site, left: bool, exc: Option<Failure>, interrupted: bool)
    ensures !Conclude(env, s, site, left, exc, interrupted).out.ending.ServiceStuck?
  {}

  /** A close is stuck exactly when the service thread was made and never ran, or runs and cannot be
  joined. Then it has tried to close nothing but that thread: all that was owed is owed still. */
  lemma StuckIff(env: Env, s: seq<Call>, site: Site, exc: Option<Failure>, interrupted: bool)
    ensures var c := Shut(env, s, site, exc, interrupted);
            && (c.out.ending.ServiceStuck? <==>
                  site.service.Unstarted? || (site.service.Running?
                      && !env.outcome(LeaveRun(env, s, site), Close(Service)).Done?))
            && (c.out.ending.ServiceStuck? ==>
                  Fold(c.calls).owed >= Fold(s).owed - {Service} && Fold(c.calls).live == Fold(s).live)
  {
    var l := LeaveRun(env, s, site);
    LeaveRunFold(env, s, site);
    JoinFold(env, l, site.service);
    ConcludeUnstuck(env, Join(env, l, site.service).calls, site.(active := false), RunLeft(env, s, site), exc,
                    interrupted);
  }

  /** All but these steps always return, and every factory hands back one arm. */
  ghost predicate Willing(env: Env, but: set<Step>) {
    (forall s, step :: step !in but ==> env.outcome(s, step).Done?) && forall s :: env.arms(s) == 1
  }

  predicate Avoids(steps: seq<Step>, but: set<Step>) { forall i :: 0 <= i < |steps| ==> steps[i] !in but }

  const THREAD: set<Step> := {Open(Service), Close(Service)}

  lemma {:induction false} UntilWilling(env: Env, s: seq<Call>, steps: seq<Step>, but: set<Step>)
    requires Willing(env, but) && Avoids(steps, but)
    ensures Until(env, s, steps).out == |steps|
    decreases |steps|
  {
    if steps != [] {
      assert steps[0] !in but;
      UntilWilling(env, Ask(env, s, steps[0]), steps[1..], but);
    }
  }

  /** Only closes, and reports of them, may fail; opening the service thread may, too. */
  predicate Harmless(but: set<Step>) {
    forall step <- but :: step.Close? || (step.Report? && !step.undo) || step == Open(Service)
  }

  lemma {:induction false} TakePartsWilling(env: Env, s: seq<Call>, i: nat, n: nat, but: set<Step>)
    requires Willing(env, but) && Harmless(but)
    ensures TakeParts(env, s, i, n).out.failure.None?
    decreases n - i
  {
    if i < n {
      assert TakePart(env, s, i).out.failure.None?;
      TakePartsWilling(env, TakePart(env, s, i).calls, i + 1, n, but);
    }
  }

  lemma OpenRigWilling(env: Env, s: seq<Call>, cameras: nat, parts: nat, but: set<Step>)
    requires Willing(env, but) && Harmless(but)
    ensures var r := OpenRig(env, s, cameras, parts);
            r.out.failure.None? && r.out.rig.captures == r.out.rig.cameras == cameras
  {
    var c := BuildCameras(env, s, cameras);
    UntilWilling(env, s, Opens(Cameras(cameras)), but);
    TakePartsWilling(env, c.calls, 0, parts, but);
    UntilWilling(env, BuildArms(env, c.calls, parts).calls, StartSteps(cameras), but);
  }

  /** Any site of willing devices gets as far as its service thread. */
  lemma OpenAllWilling(env: Env, s: seq<Call>, sizes: Sizes, but: set<Step>)
    requires Willing(env, but) && Harmless(but)
    ensures var r := OpenAll(env, s, sizes);
            && r.out.site.rig.Some? && r.out.site.rig.value.captures == sizes.cameras
            && (if r.out.failure.None? then r.out.site.service.Running?
                else r.out.site.service.Unstarted? && r.out.failure == Some(Ordinary))
    ensures (forall t :: env.outcome(t, Open(Service)).Done?) ==> OpenAll(env, s, sizes).out.failure.None?
    ensures (forall t :: !env.outcome(t, Open(Service)).Done?) ==> OpenAll(env, s, sizes).out.failure.Some?
  {
    var p := Begin(env, s, sizes);
    assert p.out;
    var w := OpenWorlds(env, p.calls, sizes.worlds);
    UntilWilling(env, p.calls, Opens(Worlds(sizes.worlds)), but);
    var r := OpenRig(env, w.calls, sizes.cameras, sizes.parts);
    OpenRigWilling(env, w.calls, sizes.cameras, sizes.parts, but);
    var steps := if sizes.administered then [Other(BindAdministration)] else [];
    var b := Until(env, r.calls, steps);
    UntilWilling(env, r.calls, steps, but);
    var t := Ask(env, b.calls, Open(Service));
    assert [Open(Service), Other(Announce)][1..] == [Other(Announce)];
    UntilWilling(env, t, [Other(Announce)], but);
  }

  lemma CoreCovered(s: seq<Call>, site: Site)
    requires AllOwed(s, site)
    ensures Core in Fold(s).owed
  {
    assert Core in Elements(Maybe(true, Core));
  }

  /** First input: a thread that cannot be started. On every site whose devices all answer, the opening
  fails, the close that follows is stuck, and the core among others is never closed. */
  lemma Unstartable(env: Env, sizes: Sizes, interrupted: bool)
    requires Willing(env, THREAD) && forall s :: !env.outcome(s, Open(Service)).Done?
    ensures var a := Act(env, sizes, Run(env, sizes, []), Enter(interrupted));
            a.reply == OpenFailed(ServiceStuck) && Core in Fold(a.state.calls).owed
  {
    var s := Ask(env, [], TakeLock);
    TakeLockFresh(env, []);
    OpenAllWilling(env, s, sizes, THREAD);
    OpenAllKeep(env, s, sizes);
    var r := OpenAll(env, s, sizes);
    CoreCovered(r.calls, r.out.site);
    StuckIff(env, r.calls, r.out.site, r.out.failure, interrupted);
  }

  lemma RunOne(env: Env, sizes: Sizes, op: Op)
    ensures Run(env, sizes, [op]) == Act(env, sizes, State([], FREE), op).state
  {
    assert [op][..0] == [];
  }

  lemma EnterWilling(env: Env, sizes: Sizes, interrupted: bool, but: set<Step>)
    requires Willing(env, but) && Harmless(but) && forall s :: env.outcome(s, Open(Service)).Done?
    ensures var a := Act(env, sizes, State([], FREE), Enter(interrupted));
            && a.reply == Entered && Up(a.state.calls, a.state.site) && !a.state.site.active && !a.state.site.failed
            && a.state.site.rig.value.captures == sizes.cameras
  {
    var s := Ask(env, [], TakeLock);
    TakeLockFresh(env, []);
    OpenAllWilling(env, s, sizes, but);
    OpenAllKeep(env, s, sizes);
  }

  lemma LeaveStuck(env: Env, sizes: Sizes, st: State, exc: Option<Failure>, interrupted: bool)
    requires Up(st.calls, st.site) && forall s :: !env.outcome(s, Close(Service)).Done?
    ensures var a := Act(env, sizes, st, Leave(exc, interrupted));
            a.reply == Left(ServiceStuck) && Core in Fold(a.state.calls).owed
  {
    CoreCovered(st.calls, st.site);
    StuckIff(env, st.calls, st.site, exc, interrupted);
  }

  /** Second input: a thread that ran and cannot be joined. */
  lemma Unjoinable(env: Env, sizes: Sizes, exc: Option<Failure>, interrupted: bool)
    requires Willing(env, THREAD)
    requires forall s :: env.outcome(s, Open(Service)).Done? && !env.outcome(s, Close(Service)).Done?
    ensures var st := Run(env, sizes, [Enter(interrupted)]);
            var a := Act(env, sizes, st, Leave(exc, interrupted));
            st.site.owned && !st.site.failed && a.reply == Left(ServiceStuck) && Core in Fold(a.state.calls).owed
  {
    EnterWilling(env, sizes, interrupted, THREAD);
    RunOne(env, sizes, Enter(interrupted));
    LeaveStuck(env, sizes, Run(env, sizes, [Enter(interrupted)]), exc, interrupted);
  }
}
