/** Exactly when a site opens, and exactly when it is released: what the session answers is decided by
whether every call it made returned. */
module Outcomes {
  import opened Wrappers
  import opened Calls
  import opened Lifecycle
  import opened Releases

  /** A stretch from `s` that went through smoothly exactly when `good`. */
  predicate Stretch(s: seq<Call>, after: seq<Call>, good: bool) { s <= after && (good <==> Smooth(after, |s|)) }

  lemma Joined(a: seq<Call>, b: seq<Call>, c: seq<Call>, first: bool, second: bool)
    requires Stretch(a, b, first) && Stretch(b, c, second)
    ensures Stretch(a, c, first && second)
  {
    SmoothJoin(a, b, c);
  }

  lemma Asked(env: Env, s: seq<Call>, step: Step)
    ensures Stretch(s, Ask(env, s, step), env.outcome(s, step).Done?)
  {
    AskSmooth(env, s, step);
  }

  lemma Tried(env: Env, s: seq<Call>, steps: seq<Step>)
    ensures var r := Until(env, s, steps);
            r.out <= |steps| && Stretch(s, r.calls, r.out == |steps|)
  {
    UntilSmooth(env, s, steps);
  }

  lemma ClosedAll(env: Env, s: seq<Call>, units: seq<Item>, undo: bool)
    ensures var r := Closings(env, s, units, undo, Full);
            Stretch(s, r.calls, r.out.how.Full?)
  {
    ClosingsSmooth(env, s, units, undo, Full);
  }

  // ----- opening

  lemma OpenWorldsIff(env: Env, s: seq<Call>, n: nat)
    ensures var r := OpenWorlds(env, s, n);
            Stretch(s, r.calls, r.out.failure.None?)
  {
    var u := Until(env, s, Opens(Worlds(n)));
    Tried(env, s, Opens(Worlds(n)));
    if u.out < n {
      ClosedAll(env, u.calls, Down(u.out + 1), true);
      var c := Closings(env, u.calls, Down(u.out + 1), true, Full);
      Joined(s, u.calls, c.calls, false, c.out.how.Full?);
    }
  }

  lemma BuildCamerasIff(env: Env, s: seq<Call>, n: nat)
    ensures var r := BuildCameras(env, s, n);
            Stretch(s, r.calls, r.out.failure.None?)
  {
    var u := Until(env, s, Opens(Cameras(n)));
    Tried(env, s, Opens(Cameras(n)));
    if u.out < n {
      ClosedAll(env, u.calls, Cameras(u.out), true);
      var c := Closings(env, u.calls, Cameras(u.out), true, Full);
      Joined(s, u.calls, c.calls, false, c.out.how.Full?);
    }
  }

  lemma CountedIff(s: seq<Call>, part: nat, count: nat)
    ensures Stretch(s, Counted(Handed(s, part, count), part, count), count == 1)
  {
    var h, c := Handed(s, part, count), Counted(Handed(s, part, count), part, count);
    assert c[|s| + count] == Call(Other(CountArms(part)), if count == 1 then Done else Raised);
    assert forall k :: |s| <= k < |s| + count ==> c[k].outcome.Done?;
  }

  lemma TakePartIff(env: Env, s: seq<Call>, part: nat)
    ensures var r := TakePart(env, s, part);
            Stretch(s, r.calls, r.out.failure.None?)
  {
    var t := Ask(env, s, Other(BuildPart(part)));
    Asked(env, s, Other(BuildPart(part)));
    if env.outcome(s, Other(BuildPart(part))).Done? {
      var count := env.arms(t);
      var c := Counted(Handed(t, part, count), part, count);
      CountedIff(t, part, count);
      Joined(s, t, c, true, count == 1);
      if count == 1 {
        Asked(env, c, Other(CheckPart(part)));
        Joined(s, c, Ask(env, c, Other(CheckPart(part))), true, env.outcome(c, Other(CheckPart(part))).Done?);
      } else {
        var u := Closings(env, c, ArmsOf(part, count), true, Full);
        ClosedAll(env, c, ArmsOf(part, count), true);
        Joined(s, c, u.calls, false, u.out.how.Full?);
      }
    }
  }

  lemma {:induction false} TakePartsIff(env: Env, s: seq<Call>, i: nat, n: nat)
    ensures var r := TakeParts(env, s, i, n);
            Stretch(s, r.calls, r.out.failure.None?)
    decreases n - i
  {
    if i >= n {
      Asked(env, s, Other(CheckParts));
    } else {
      var r := TakePart(env, s, i);
      TakePartIff(env, s, i);
      if r.out.failure.None? {
        TakePartsIff(env, r.calls, i + 1, n);
        var m := TakeParts(env, r.calls, i + 1, n);
        Joined(s, r.calls, m.calls, true, m.out.failure.None?);
      }
    }
  }

  lemma BuildArmsIff(env: Env, s: seq<Call>, n: nat)
    ensures var r := BuildArms(env, s, n);
            Stretch(s, r.calls, r.out.failure.None?)
  {
    var r := TakeParts(env, s, 0, n);
    TakePartsIff(env, s, 0, n);
    if r.out.failure.Some? {
      var u := Closings(env, r.calls, Arms(r.out.count), true, Full);
      ClosedAll(env, r.calls, Arms(r.out.count), true);
      Joined(s, r.calls, u.calls, false, u.out.how.Full?);
    }
  }

  lemma StartIff(env: Env, s: seq<Call>, cameras: nat, parts: nat)
    ensures var r := Start(env, s, cameras, parts);
            Stretch(s, r.calls, r.out.failure.None?)
  {
    var c := BuildCameras(env, s, cameras);
    BuildCamerasIff(env, s, cameras);
    if c.out.failure.None? {
      var a := BuildArms(env, c.calls, parts);
      BuildArmsIff(env, c.calls, parts);
      Joined(s, c.calls, a.calls, true, a.out.failure.None?);
      if a.out.failure.None? {
        var l := Until(env, a.calls, StartSteps(cameras));
        Tried(env, a.calls, StartSteps(cameras));
        Joined(s, a.calls, l.calls, true, l.out == 6 + cameras);
      }
    }
  }

  lemma OpenRigIff(env: Env, s: seq<Call>, cameras: nat, parts: nat)
    ensures var r := OpenRig(env, s, cameras, parts);
            Stretch(s, r.calls, r.out.failure.None?)
  {
    var r := Start(env, s, cameras, parts);
    StartIff(env, s, cameras, parts);
    if r.out.failure.Some? {
      var said := env.outcome(r.calls, Other(ReportFailure)).Done?;
      var t := Ask(env, r.calls, Other(ReportFailure));
      Asked(env, r.calls, Other(ReportFailure));
      Joined(s, r.calls, t, false, said);
      if said {
        var f := Finish(env, t, r.out.rig);
        FinishIff(env, t, r.out.rig);
        Joined(s, t, f.calls, false, Smooth(f.calls, |t|));
      }
    }
  }

  lemma StartServiceIff(env: Env, s: seq<Call>, sizes: Sizes, site: Site)
    ensures var r := StartService(env, s, sizes, site);
            Stretch(s, r.calls, r.out.failure.None?)
  {
    var steps := if sizes.administered then [Other(BindAdministration)] else [];
    var b := Until(env, s, steps);
    Tried(env, s, steps);
    if b.out == |steps| {
      var t := Until(env, b.calls, [Open(Service), Other(Announce)]);
      Tried(env, b.calls, [Open(Service), Other(Announce)]);
      Joined(s, b.calls, t.calls, true, t.out == 2);
    }
  }

  lemma PermitIff(env: Env, s: seq<Call>, sizes: Sizes)
    ensures var p := Permit(env, s, sizes);
            Stretch(s, p.calls, p.out)
  {
    if sizes.authorized {
      var t := Ask(env, s, Open(Probe));
      Asked(env, s, Open(Probe));
      if env.outcome(s, Open(Probe)).Done? {
        var said := env.outcome(t, Other(Authorize)).Done?;
        var u := Ask(env, t, Other(Authorize));
        var c := CloseUnit(env, u, Probe, true);
        Asked(env, t, Other(Authorize));
        Joined(s, t, u, true, said);
        UnitSmooth(env, u, Probe, true);
        Joined(s, u, c.calls, said, c.out.Full?);
      }
    }
  }

  lemma BeginIff(env: Env, s: seq<Call>, sizes: Sizes)
    ensures var p := Begin(env, s, sizes);
            Stretch(s, p.calls, p.out)
  {
    var a := Ask(env, s, Other(Assemble));
    Asked(env, s, Other(Assemble));
    if env.outcome(s, Other(Assemble)).Done? {
      var p := Permit(env, a, sizes);
      PermitIff(env, a, sizes);
      Joined(s, a, p.calls, true, p.out);
      if p.out {
        Asked(env, p.calls, Other(NewRig));
        Joined(s, p.calls, Ask(env, p.calls, Other(NewRig)), true, env.outcome(p.calls, Other(NewRig)).Done?);
      }
    }
  }

  lemma OpenAllIff(env: Env, s: seq<Call>, sizes: Sizes)
    ensures var r := OpenAll(env, s, sizes);
            Stretch(s, r.calls, r.out.failure.None?)
  {
    var p := Begin(env, s, sizes);
    BeginIff(env, s, sizes);
    if p.out {
      var w := OpenWorlds(env, p.calls, sizes.worlds);
      OpenWorldsIff(env, p.calls, sizes.worlds);
      Joined(s, p.calls, w.calls, true, w.out.failure.None?);
      if w.out.failure.None? {
        OpenRestIff(env, s, w.calls, sizes, FREE.(owned := true, worlds := sizes.worlds));
      }
    }
  }

  lemma OpenRestIff(env: Env, before: seq<Call>, s: seq<Call>, sizes: Sizes, site: Site)
    requires Stretch(before, s, true)
    ensures var r := OpenRest(env, s, sizes, site);
            Stretch(before, r.calls, r.out.failure.None?)
  {
    var r := OpenRig(env, s, sizes.cameras, sizes.parts);
    OpenRigIff(env, s, sizes.cameras, sizes.parts);
    Joined(before, s, r.calls, true, r.out.failure.None?);
    if r.out.failure.None? {
      var owner := site.(rig := Some(r.out.rig));
      StartServiceIff(env, r.calls, sizes, owner);
      var t := StartService(env, r.calls, sizes, owner);
      Joined(before, r.calls, t.calls, true, t.out.failure.None?);
    }
  }

  // ----- closing

  lemma FinishIff(env: Env, s: seq<Call>, rig: Rig)
    ensures var f := Finish(env, s, rig);
            && Stretch(s, f.calls, Smooth(f.calls, |s|))
            && (!f.out.raised && f.out.rig.confirmed <==> rig.confirmed && Smooth(f.calls, |s|))
  {
    if !rig.finished {
      var p := Closings(env, s, Passive(rig), false, Full);
      ClosedAll(env, s, Passive(rig), false);
      if !p.out.how.Short? {
        var c := Closings(env, p.calls, Maybe(rig.core, Core), false, Full);
        var a := Closings(env, c.calls, Arms(rig.arms), false, Full);
        ClosedAll(env, p.calls, Maybe(rig.core, Core), false);
        ClosedAll(env, c.calls, Arms(rig.arms), false);
        Joined(s, p.calls, c.calls, p.out.how.Full?, c.out.how.Full?);
        Joined(s, c.calls, a.calls, p.out.how.Full? && c.out.how.Full?, a.out.how.Full?);
      }
    }
  }

  lemma CloseRigIff(env: Env, s: seq<Call>, rig: Rig, interrupted: bool)
    ensures var f := CloseRig(env, s, rig, interrupted);
            && Stretch(s, f.calls, Smooth(f.calls, |s|))
            && (!f.out.raised && f.out.rig.confirmed <==> rig.confirmed && Smooth(f.calls, |s|))
  {
    if interrupted {
      FinishIff(env, s, rig);
    } else if !rig.finished {
      var t := Ask(env, s, Other(WaitParked));
      var f := Finish(env, t, rig);
      Asked(env, s, Other(WaitParked));
      FinishIff(env, t, rig);
      Joined(s, t, f.calls, env.outcome(s, Other(WaitParked)).Done?, Smooth(f.calls, |t|));
    }
  }

  lemma CloseOwnedIff(env: Env, s: seq<Call>, site: Site, interrupted: bool)
    ensures var c := CloseOwned(env, s, site, interrupted);
            && Stretch(s, c.calls, Smooth(c.calls, |s|))
            && (c.out.ending.Released? <==> Confirmed(site) && Smooth(c.calls, |s|))
  {
    var t := s;
    if site.rig.Some? {
      CloseRigIff(env, s, site.rig.value, interrupted);
      t := CloseRig(env, s, site.rig.value, interrupted).calls;
    }
    var w := Closings(env, t, Down(site.worlds), false, Full);
    ClosedAll(env, t, Down(site.worlds), false);
    Joined(s, t, w.calls, Smooth(t, |s|), w.out.how.Full?);
  }

  lemma JoinIff(env: Env, s: seq<Call>, service: Thread)
    ensures var j := Join(env, s, service);
            Stretch(s, j.calls, j.out || service.Unstarted?) && (service.Unstarted? ==> !j.out)
  {
    if service.Running? {
      Asked(env, s, Close(Service));
    }
  }

  /** A close releases the site exactly when every call it makes returns, there is no thread that was
  made and never ran, the exception it closes on does not say that a close is unconfirmed, and the rig
  did not already fail to confirm one. */
  lemma ReleasedIff(env: Env, s: seq<Call>, site: Site, exc: Option<Failure>, interrupted: bool)
    ensures var c := Shut(env, s, site, exc, interrupted);
            && s <= c.calls
            && (c.out.ending.Released? <==>
                  Smooth(c.calls, |s|) && !site.service.Unstarted? && exc != Some(CloseUnknown) && Confirmed(site))
  {
    var l := LeaveRun(env, s, site);
    var j := Join(env, l, site.service);
    var left := RunLeft(env, s, site);
    if site.active {
      Asked(env, s, Other(ExitRun));
    }
    JoinIff(env, l, site.service);
    Joined(s, l, j.calls, left, j.out || site.service.Unstarted?);
    if j.out {
      var c := CloseOwned(env, j.calls, site.(active := false), interrupted);
      CloseOwnedIff(env, j.calls, site.(active := false), interrupted);
      Joined(s, j.calls, c.calls, left, Smooth(c.calls, |j.calls|));
      DropSmooth(s, c.calls);
    }
  }

  lemma DropSmooth(s: seq<Call>, calls: seq<Call>)
    requires s <= calls
    ensures s <= calls + [Call(DropLock, Done)] && (Smooth(calls + [Call(DropLock, Done)], |s|) <==> Smooth(calls, |s|))
  {
    var after := calls + [Call(DropLock, Done)];
    assert forall k :: 0 <= k < |calls| ==> after[k] == calls[k];
  }

  /** A site is entered exactly when it was free and every call made for it returned, the check that
  each part's factory opened exactly one arm among them. */
  lemma EnteredIff(env: Env, sizes: Sizes, st: State, interrupted: bool)
    ensures var a := Act(env, sizes, st, Enter(interrupted));
            && st.calls <= a.state.calls
            && (a.reply == Entered <==> !st.site.owned && !st.site.failed && Smooth(a.state.calls, |st.calls|))
  {
    var s := Ask(env, st.calls, TakeLock);
    Asked(env, st.calls, TakeLock);
    if env.outcome(st.calls, TakeLock).Done? {
      var r := OpenAll(env, s, sizes);
      OpenAllIff(env, s, sizes);
      Joined(st.calls, s, r.calls, true, r.out.failure.None?);
      if r.out.failure.Some? {
        ReleasedIff(env, r.calls, r.out.site, r.out.failure, interrupted);
        var c := Shut(env, r.calls, r.out.site, r.out.failure, interrupted);
        SmoothJoin(st.calls, r.calls, c.calls);
      }
    }
  }
}
