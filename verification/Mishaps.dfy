/** Inputs on which a site's teardown falls short of what it is meant to do, each on otherwise willing devices. */
module Mishaps {
  import opened Wrappers
  import opened Calls
  import opened Lifecycle
  import opened Releases
  import opened SiteSafety

  // ----- a failed build of which the session does not hear

  /** The second part's factory raises. Closing the first part's arm ends with `closed`; the report of that
  returns if `said`, and the announcement of the failed start if `announced`. All else returns. */
  function Unlucky(closed: Outcome, said: bool, announced: bool): Env {
    Env((s: seq<Call>, step: Step) =>
          if step == Other(BuildPart(1)) then Raised
          else if step == Undo(Arm(0, 0)) then closed
          else if step == Report(true, Arm(0, 0)) then if said then Done else Raised
          else if step == Other(ReportFailure) then if announced then Done else Raised
          else Done,
        (s: seq<Call>) => 1)
  }

  const TWO_PARTS := Sizes(0, 0, 2, false, false)

  lemma FirstArm(env: Env, s: seq<Call>)
    requires Fresh(s, {}, []) && env.outcome(s, Other(BuildPart(0))).Done? && forall t :: env.arms(t) == 1
    requires forall t :: env.outcome(t, Other(CheckPart(0))).Done?
    ensures var r := TakePart(env, s, 0);
            r.out == Built(None, 1) && Arm(0, 0) in Fold(r.calls).live
  {
    TakePartKeep(env, s, 0, {}, []);
  }

  lemma SecondPart(env: Env, s: seq<Call>)
    requires env.outcome(s, Other(BuildPart(1))).Raised?
    ensures var r := TakeParts(env, s, 1, 2);
            r.out == Built(Some(Ordinary), 1) && Fold(r.calls) == Fold(s)
  {
    FoldAsk(env, s, Other(BuildPart(1)));
    assert TakePart(env, s, 1) == Ran(Ask(env, s, Other(BuildPart(1))), Built(Some(Ordinary), 0));
  }

  lemma UndoArm(env: Env, s: seq<Call>, closed: Outcome, said: bool)
    requires forall t :: env.outcome(t, Undo(Arm(0, 0))) == closed
    requires forall t :: env.outcome(t, Report(true, Arm(0, 0))).Done? == said
    ensures var u := Closings(env, s, Arms(1), true, Full);
            && u.out.how == (if closed.Done? then Full else if closed.Raised? && said then Doubted else Short)
            && (Arm(0, 0) in Fold(s).live ==> (Arm(0, 0) in Fold(u.calls).live <==> !closed.Done?))
  {
    var t := Ask(env, s, Undo(Arm(0, 0)));
    FoldAsk(env, s, Undo(Arm(0, 0)));
    FoldAsk(env, t, Report(true, Arm(0, 0)));
    assert Arms(1) == [Arm(0, 0)] && [Arm(0, 0)][1..] == [];
  }

  /** What `Unlucky` says of the arms. */
  ghost predicate Luck(env: Env, closed: Outcome, said: bool) {
    && (forall t :: env.outcome(t, Other(BuildPart(0))).Done? && env.outcome(t, Other(BuildPart(1))).Raised?)
    && (forall t :: env.outcome(t, Other(CheckPart(0))).Done? && env.arms(t) == 1)
    && (forall t :: env.outcome(t, Undo(Arm(0, 0))) == closed)
    && (forall t :: env.outcome(t, Report(true, Arm(0, 0))).Done? == said)
  }

  /** The first part's arm is built, and then given its rollback. */
  lemma UnluckyArms(env: Env, closed: Outcome, said: bool, s: seq<Call>)
    requires Fresh(s, {}, []) && Luck(env, closed, said)
    ensures var r := BuildArms(env, s, 2);
            && r.out == Built(Some(if closed.Raised? && said then CloseUnknown else Ordinary), 0)
            && (Arm(0, 0) in Fold(r.calls).live <==> !closed.Done?)
  {
    var one := TakePart(env, s, 0);
    FirstArm(env, s);
    var two := TakeParts(env, one.calls, 1, 2);
    SecondPart(env, one.calls);
    assert TakeParts(env, s, 0, 2) == two;
    UndoArm(env, two.calls, closed, said);
  }

  lemma NoCameras(env: Env, s: seq<Call>)
    ensures BuildCameras(env, s, 0) == Ran(s, Built(None, 0))
  {
    assert Opens(Cameras(0)) == [];
  }

  lemma StartFails(env: Env, s: seq<Call>)
    requires BuildArms(env, s, 2).out.failure.Some?
    ensures var a := BuildArms(env, s, 2);
            Start(env, s, 0, 2) == Ran(a.calls, Started(a.out.failure, NO_RIG))
  {
    NoCameras(env, s);
  }

  lemma NothingFinished(env: Env, s: seq<Call>)
    ensures Finish(env, s, NO_RIG) == Ran(s, Finished(false, Spent(true)))
  {
    assert Passive(NO_RIG) == [] && Arms(0) == [];
  }

  lemma OpenRigFails(env: Env, s: seq<Call>)
    requires BuildArms(env, s, 2).out.failure.Some?
    ensures var a := BuildArms(env, s, 2);
            var announced := env.outcome(a.calls, Other(ReportFailure)).Done?;
            OpenRig(env, s, 0, 2) == Ran(Ask(env, a.calls, Other(ReportFailure)),
                                         Started(if announced then a.out.failure else Some(Ordinary),
                                                 if announced then Spent(true) else NO_RIG))
  {
    StartFails(env, s);
    NothingFinished(env, Ask(env, BuildArms(env, s, 2).calls, Other(ReportFailure)));
  }

  lemma UnluckyRig(env: Env, s: seq<Call>, why: Failure)
    requires BuildArms(env, s, 2).out == Built(Some(why), 0)
    ensures var a, r := BuildArms(env, s, 2), OpenRig(env, s, 0, 2);
            var announced := env.outcome(a.calls, Other(ReportFailure)).Done?;
            && r.out == Started(Some(if announced then why else Ordinary), if announced then Spent(true) else NO_RIG)
            && Fold(r.calls).live == Fold(a.calls).live
  {
    OpenRigFails(env, s);
    FoldAsk(env, BuildArms(env, s, 2).calls, Other(ReportFailure));
  }

  lemma UnluckyOpening(env: Env, closed: Outcome, said: bool, announced: bool, s: seq<Call>)
    requires Fresh(s, {}, []) && Luck(env, closed, said)
    requires forall t :: env.outcome(t, Other(ReportFailure)).Done? == announced
    requires forall t :: env.outcome(t, Other(Assemble)).Done? && env.outcome(t, Other(NewRig)).Done?
    ensures var r := OpenAll(env, s, TWO_PARTS);
            && r.out == Entering(Some(if closed.Raised? && said && announced then CloseUnknown else Ordinary),
                                 FREE.(owned := true, rig := Some(if announced then Spent(true) else NO_RIG)))
            && (Arm(0, 0) in Fold(r.calls).live <==> !closed.Done?)
  {
    var p := Begin(env, s, TWO_PARTS);
    BeginKeep(env, s, TWO_PARTS);
    assert p.out;
    assert Opens(Worlds(0)) == [] && OpenWorlds(env, p.calls, 0) == Ran(p.calls, Built(None, 0));
    UnluckyArms(env, closed, said, p.calls);
    UnluckyRig(env, p.calls, if closed.Raised? && said then CloseUnknown else Ordinary);
  }

  lemma EmptyRig(env: Env, s: seq<Call>, rig: Rig, interrupted: bool)
    requires rig == Spent(true) || rig == NO_RIG
    requires env.outcome(s, Other(WaitParked)).Done?
    ensures var f := CloseRig(env, s, rig, interrupted);
            Fold(f.calls) == Fold(s) && f.out == Finished(false, Spent(true))
  {
    FoldAsk(env, s, Other(WaitParked));
    NothingFinished(env, s);
    NothingFinished(env, Ask(env, s, Other(WaitParked)));
  }

  lemma EmptyOwned(env: Env, s: seq<Call>, site: Site, interrupted: bool)
    requires site.worlds == 0
    requires site.rig.None? || site.rig == Some(Spent(true)) || site.rig == Some(NO_RIG)
    requires env.outcome(s, Other(WaitParked)).Done?
    ensures var c := CloseOwned(env, s, site, interrupted);
            Fold(c.calls) == Fold(s) && c.out.ending.Released?
  {
    assert Down(0) == [];
    if site.rig.Some? {
      EmptyRig(env, s, site.rig.value, interrupted);
    }
  }

  lemma Dropped(calls: seq<Call>)
    ensures Fold(calls + [Call(DropLock, Done)]) == Fold(calls).(held := false)
  {
    assert (calls + [Call(DropLock, Done)])[..|calls|] == calls;
  }

  lemma ShutAtOnce(env: Env, s: seq<Call>, site: Site, exc: Option<Failure>, interrupted: bool)
    requires site.service.Absent? && !site.active
    ensures Shut(env, s, site, exc, interrupted) == Conclude(env, s, site, true, exc, interrupted)
  {
    assert site.(active := false) == site;
  }

  /** A session that holds nothing makes no call on its teardown but the wait and the release. */
  lemma NothingToClose(env: Env, s: seq<Call>, site: Site, exc: Option<Failure>, interrupted: bool)
    requires site.service.Absent? && site.worlds == 0 && !site.active
    requires site.rig.None? || site.rig == Some(Spent(true)) || site.rig == Some(NO_RIG)
    requires env.outcome(s, Other(WaitParked)).Done?
    ensures var c := Shut(env, s, site, exc, interrupted);
            && Fold(c.calls).live == Fold(s).live
            && c.out.ending == (if exc == Some(CloseUnknown) then Unconfirmed else Released)
            && (c.out.ending.Released? ==> !Fold(c.calls).held)
  {
    ShutAtOnce(env, s, site, exc, interrupted);
    EmptyOwned(env, s, site, interrupted);
    Dropped(CloseOwned(env, s, site, interrupted).calls);
  }

  lemma UnluckyEnter(env: Env, closed: Outcome, said: bool, announced: bool, interrupted: bool)
    requires Luck(env, closed, said)
    requires forall t :: env.outcome(t, Other(ReportFailure)).Done? == announced
    requires forall t :: env.outcome(t, Other(Assemble)).Done? && env.outcome(t, Other(NewRig)).Done?
    requires forall t :: env.outcome(t, TakeLock).Done? && env.outcome(t, Other(WaitParked)).Done?
    ensures var a := Act(env, TWO_PARTS, State([], FREE), Enter(interrupted));
            var known := closed.Raised? && said && announced;
            && a.reply == OpenFailed(if known then Unconfirmed else Released)
            && (!known ==> !Fold(a.state.calls).held)
            && (Arm(0, 0) in Fold(a.state.calls).live <==> !closed.Done?)
  {
    var s := Ask(env, [], TakeLock);
    TakeLockFresh(env, []);
    UnluckyOpening(env, closed, said, announced, s);
    var r := OpenAll(env, s, TWO_PARTS);
    NothingToClose(env, r.calls, r.out.site, r.out.failure, interrupted);
  }

  /** The lock is given up with that arm live exactly when the close was interrupted, or raised and the report
  or the announcement failed. No other call of the opening fails. */
  lemma LostArmIff(closed: Outcome, said: bool, announced: bool, interrupted: bool)
    ensures var env := Unlucky(closed, said, announced);
            var a := Act(env, TWO_PARTS, Run(env, TWO_PARTS, []), Enter(interrupted));
            && a.reply.OpenFailed?
            && (a.reply == OpenFailed(Released) && !Fold(a.state.calls).held && Arm(0, 0) in Fold(a.state.calls).live
                <==> closed.Interrupted? || (closed.Raised? && !(said && announced)))
  {
    UnluckyEnter(Unlucky(closed, said, announced), closed, said, announced, interrupted);
  }

  lemma ProbeLeft(env: Env, s: seq<Call>, sizes: Sizes)
    requires sizes.authorized && Willing(env, {Undo(Probe)}) && forall t :: env.outcome(t, Undo(Probe)).Raised?
    ensures var p := Begin(env, s, sizes);
            !p.out && Probe in Fold(p.calls).live
  {
    var b := Ask(env, s, Other(Assemble));
    var t := Ask(env, b, Open(Probe));
    var u := Ask(env, t, Other(Authorize));
    FoldAsk(env, b, Open(Probe));
    FoldAsk(env, t, Other(Authorize));
    FoldAsk(env, u, Undo(Probe));
    assert env.outcome(s, Other(Assemble)).Done? && env.outcome(b, Open(Probe)).Done?;
  }

  /** The authorization probe does not shut down: the opening fails, and the lock is given up over it. */
  lemma LostProbe(env: Env, sizes: Sizes, interrupted: bool)
    requires sizes.authorized && Willing(env, {Undo(Probe)}) && forall s :: env.outcome(s, Undo(Probe)).Raised?
    ensures var a := Act(env, sizes, Run(env, sizes, []), Enter(interrupted));
            a.reply == OpenFailed(Released) && !Fold(a.state.calls).held && Probe in Fold(a.state.calls).live
  {
    var s := Ask(env, [], TakeLock);
    ProbeLeft(env, s, sizes);
    var r := OpenAll(env, s, sizes);
    assert r.out == Entering(Some(Ordinary), FREE.(owned := true));
    NothingToClose(env, r.calls, r.out.site, r.out.failure, interrupted);
  }

  // ----- a teardown that a report cuts short

  /** The first camera's close raises and its report fails; nothing is interrupted. */
  predicate Muted(env: Env, s: seq<Call>) {
    env.outcome(s, Close(Camera(0))).Raised? && !env.outcome(s, Report(false, Camera(0))).Done?
  }

  lemma PassiveMuted(env: Env, s: seq<Call>, rig: Rig)
    requires WellFormed(rig) && rig.captures > 0 && forall t :: Muted(env, t)
    ensures var p := Closings(env, s, Passive(rig), false, Full);
            p.out == Swept(Short, 1) && Fold(p.calls).owed == Fold(s).owed - {Camera(0)}
  {
    assert Passive(rig)[0] == Camera(0);
    var t := Ask(env, s, Close(Camera(0)));
    assert Muted(env, s) && Muted(env, t);
    FoldAsk(env, s, Close(Camera(0)));
    FoldAsk(env, t, Report(false, Camera(0)));
  }

  lemma CloseRigMuted(env: Env, s: seq<Call>, rig: Rig, interrupted: bool)
    requires WellFormed(rig) && rig.captures > 0 && !rig.finished && forall t :: Muted(env, t)
    ensures var f := CloseRig(env, s, rig, interrupted);
            f.out.raised && Fold(f.calls).owed == Fold(s).owed - {Camera(0)}
  {
    var t := if interrupted then s else Ask(env, s, Other(WaitParked));
    FoldAsk(env, s, Other(WaitParked));
    PassiveMuted(env, t, rig);
  }

  lemma OwnedMuted(env: Env, s: seq<Call>, site: Site, interrupted: bool)
    requires Owner(site) && site.rig.Some? && site.rig.value.captures > 0 && !site.rig.value.finished
    requires Keeps(s, Handles(site.rig.value) + Elements(Worlds(site.worlds)), Worlds(site.worlds), false)
    requires forall t :: Muted(env, t)
    ensures var c := CloseOwned(env, s, site, interrupted);
            c.out.ending.Unconfirmed? && (Core in Fold(s).owed ==> Core in Fold(c.calls).owed)
  {
    var have := Elements(Worlds(site.worlds));
    var r := CloseRig(env, s, site.rig.value, interrupted);
    CloseRigMuted(env, s, site.rig.value, interrupted);
    CloseRigKeep(env, s, site.rig.value, interrupted, have, Worlds(site.worlds), false);
    DownReady(r.calls, site.worlds, !r.out.rig.confirmed);
    ClosingsKeep(env, r.calls, Down(site.worlds), false, Full, true, {}, !r.out.rig.confirmed);
    WorldElements(site.worlds);
    var w := Closings(env, r.calls, Down(site.worlds), false, Full);
    assert Core !in Elements(Down(site.worlds)[..w.out.tried]);
  }

  lemma LeaveIs(env: Env, sizes: Sizes, st: State, exc: Option<Failure>, interrupted: bool)
    requires st.site.owned && !st.site.failed && !st.site.active && Join(env, st.calls, st.site.service).out
    ensures var a := Act(env, sizes, st, Leave(exc, interrupted));
            var c := Conclude(env, Join(env, st.calls, st.site.service).calls, st.site, true, exc, interrupted);
            a == Acted(State(c.calls, c.out.site), Left(c.out.ending))
  {
    assert st.site.(active := false) == st.site;
  }

  lemma JoinMuted(env: Env, s: seq<Call>, site: Site)
    requires Up(s, site) && env.outcome(s, Close(Service)).Done?
    ensures var j := Join(env, s, site.service);
            && j.out && Core in Fold(j.calls).owed
            && Keeps(j.calls, Handles(site.rig.value) + Elements(Worlds(site.worlds)), Worlds(site.worlds), false)
  {
    var rest := Handles(site.rig.value) + Elements(Worlds(site.worlds));
    CoreCovered(s, site);
    JoinFold(env, s, site.service);
    assert Covered(site) == {Service} + rest;
    JoinKeep(env, s, site.service, rest, Worlds(site.worlds), false);
  }

  lemma LeaveMuted(env: Env, sizes: Sizes, st: State, exc: Option<Failure>, interrupted: bool)
    requires Up(st.calls, st.site) && st.site.rig.value.captures > 0 && !st.site.active
    requires (forall s :: Muted(env, s)) && forall s :: env.outcome(s, Close(Service)).Done?
    ensures var a := Act(env, sizes, st, Leave(exc, interrupted));
            a.reply == Left(Unconfirmed) && Core in Fold(a.state.calls).owed
  {
    JoinMuted(env, st.calls, st.site);
    LeaveIs(env, sizes, st, exc, interrupted);
    OwnedMuted(env, Join(env, st.calls, st.site.service).calls, st.site, interrupted);
  }

  /** Without any interrupt the core and the arms have no close tried: a report cut the teardown at a camera. */
  lemma CutAtCamera(env: Env, sizes: Sizes, exc: Option<Failure>, interrupted: bool)
    requires Willing(env, {Close(Camera(0)), Report(false, Camera(0))}) && (forall s :: Muted(env, s))
              && sizes.cameras > 0
    ensures var st := Run(env, sizes, [Enter(interrupted)]);
            var a := Act(env, sizes, st, Leave(exc, interrupted));
            st.site.owned && !st.site.failed && a.reply == Left(Unconfirmed) && Core in Fold(a.state.calls).owed
  {
    EnterWilling(env, sizes, interrupted, {Close(Camera(0)), Report(false, Camera(0))});
    RunOne(env, sizes, Enter(interrupted));
    LeaveMuted(env, sizes, Run(env, sizes, [Enter(interrupted)]), exc, interrupted);
  }
}
