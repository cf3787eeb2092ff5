/** In which order a site is opened and closed, call by call. */
module Order {
  import opened Wrappers
  import opened Calls
  import opened Lifecycle
  import opened Releases
  import opened Outcomes

  // ----- closing, whatever fails

  /** The stages of a teardown: the run, the service thread, the wait until the machine is parked; then
  cameras, capture threads and the robot's loop; the core; the arms; the worlds; the lock. */
  function Stage(step: Step): nat {
    match step
    case Other(ExitRun) => 0
    case Other(WaitParked) => 2
    case Close(x) => ItemStage(x)
    case Report(undo, x) => if undo then 8 else ItemStage(x)
    case DropLock => 7
    case _ => 8
  }

  function ItemStage(x: Item): nat {
    match x
    case Service => 1
    case Camera(_) => 3
    case Capture(_) => 3
    case Pump => 3
    case Core => 4
    case Arm(_, _) => 5
    case World(_) => 6
    case Probe => 8
  }

  /** The calls from number `from` on go through these stages, never back to an earlier one. */
  predicate InOrder(calls: seq<Call>, from: nat, lo: nat, hi: nat) {
    && (forall k :: from <= k < |calls| ==> lo <= Stage(calls[k].step) <= hi)
    && forall j, k :: from <= j <= k < |calls| ==> Stage(calls[j].step) <= Stage(calls[k].step)
  }

  /** A stretch of calls that does so. */
  predicate Leg(a: seq<Call>, b: seq<Call>, lo: nat, hi: nat) { a <= b && InOrder(b, |a|, lo, hi) }

  lemma LegStay(a: seq<Call>)
    ensures forall lo, hi :: Leg(a, a, lo, hi)
  {}

  lemma LegAsk(env: Env, s: seq<Call>, step: Step)
    ensures Leg(s, Ask(env, s, step), Stage(step), Stage(step))
  {}

  lemma LegWider(a: seq<Call>, b: seq<Call>, lo: nat, hi: nat, lo': nat, hi': nat)
    requires Leg(a, b, lo, hi) && lo' <= lo && hi <= hi'
    ensures Leg(a, b, lo', hi')
  {}

  lemma LegJoin(a: seq<Call>, b: seq<Call>, c: seq<Call>, lo: nat, mid: nat, mid': nat, hi: nat)
    requires Leg(a, b, lo, mid) && Leg(b, c, mid', hi) && lo <= mid <= mid' <= hi
    ensures Leg(a, c, lo, hi)
  {
    assert forall k :: 0 <= k < |b| ==> c[k] == b[k];
  }

  lemma LegUnit(env: Env, s: seq<Call>, x: Item)
    ensures Leg(s, CloseUnit(env, s, x, false).calls, ItemStage(x), ItemStage(x))
  {
    var t := Ask(env, s, Close(x));
    LegAsk(env, s, Close(x));
    LegAsk(env, t, Report(false, x));
    LegJoin(s, t, Ask(env, t, Report(false, x)), ItemStage(x), ItemStage(x), ItemStage(x), ItemStage(x));
  }

  lemma {:induction false} LegClosings(env: Env, s: seq<Call>, units: seq<Item>, sofar: Sweep, stage: nat)
    requires forall i :: 0 <= i < |units| ==> ItemStage(units[i]) == stage
    ensures Leg(s, Closings(env, s, units, false, sofar).calls, stage, stage)
    decreases |units|
  {
    if units == [] {
      LegStay(s);
    } else {
      var c := CloseUnit(env, s, units[0], false);
      LegUnit(env, s, units[0]);
      ClosingsIs(env, s, units, false, sofar);
      if !c.out.Short? {
        var sofar' := if c.out.Doubted? then Doubted else sofar;
        LegClosings(env, c.calls, units[1..], sofar', stage);
        LegJoin(s, c.calls, Closings(env, c.calls, units[1..], false, sofar').calls, stage, stage, stage, stage);
      }
    }
  }

  lemma PassiveStage(rig: Rig)
    ensures forall i :: 0 <= i < |Passive(rig)| ==> ItemStage(Passive(rig)[i]) == 3
  {}

  lemma LegFinish(env: Env, s: seq<Call>, rig: Rig)
    requires !rig.finished
    ensures Leg(s, Finish(env, s, rig).calls, 3, 5)
  {
    var p := Closings(env, s, Passive(rig), false, Full);
    PassiveStage(rig);
    LegClosings(env, s, Passive(rig), Full, 3);
    FinishIs(env, s, rig);
    if p.out.how.Short? {
      LegWider(s, p.calls, 3, 3, 3, 5);
    } else {
      var c := Closings(env, p.calls, Maybe(rig.core, Core), false, Full);
      var a := Closings(env, c.calls, Arms(rig.arms), false, Full);
      LegClosings(env, p.calls, Maybe(rig.core, Core), Full, 4);
      LegClosings(env, c.calls, Arms(rig.arms), Full, 5);
      LegJoin(s, p.calls, c.calls, 3, 3, 4, 4);
      LegJoin(s, c.calls, a.calls, 3, 4, 5, 5);
    }
  }

  /** This very call was made from number `from` on. */
  predicate Made(calls: seq<Call>, from: nat, step: Step) {
    exists k :: from <= k < |calls| && calls[k].step == step
  }

  lemma MadeLeg(a: seq<Call>, b: seq<Call>, from: nat, lo: nat, hi: nat, step: Step)
    requires from <= |a| && Leg(a, b, lo, hi) && !(lo <= Stage(step) <= hi)
    ensures Made(b, from, step) <==> Made(a, from, step)
  {
    if k :| from <= k < |b| && b[k].step == step {
      assert k < |a|;
      assert a[k] == b[k];
    }
    if k :| from <= k < |a| && a[k].step == step {
      assert b[k] == a[k];
    }
  }

  /** The wait, and then the rig: a rig that is not finished is waited for exactly unless interrupted. */
  lemma LegRig(env: Env, s: seq<Call>, rig: Rig, interrupted: bool)
    ensures var c := CloseRig(env, s, rig, interrupted).calls;
            && Leg(s, c, 2, 5) && (Made(c, |s|, Other(WaitParked)) <==> !rig.finished && !interrupted)
  {
    LegStay(s);
    if !rig.finished {
      if interrupted {
        LegFinish(env, s, rig);
        LegWider(s, Finish(env, s, rig).calls, 3, 5, 2, 5);
        MadeLeg(s, Finish(env, s, rig).calls, |s|, 3, 5, Other(WaitParked));
      } else {
        var t := Ask(env, s, Other(WaitParked));
        LegAsk(env, s, Other(WaitParked));
        LegFinish(env, t, rig);
        LegJoin(s, t, Finish(env, t, rig).calls, 2, 2, 3, 5);
        MadeLeg(t, Finish(env, t, rig).calls, |s|, 3, 5, Other(WaitParked));
        assert t[|s|].step == Other(WaitParked);
      }
    }
  }

  lemma DownStage(n: nat)
    ensures forall i :: 0 <= i < n ==> ItemStage(Down(n)[i]) == 6
  {}

  lemma LegOwned(env: Env, s: seq<Call>, site: Site, interrupted: bool)
    ensures var c := CloseOwned(env, s, site, interrupted).calls;
            && Leg(s, c, 2, 6)
            && (Made(c, |s|, Other(WaitParked)) <==> site.rig.Some? && !site.rig.value.finished && !interrupted)
  {
    var t := s;
    LegStay(s);
    if site.rig.Some? {
      LegRig(env, s, site.rig.value, interrupted);
      t := CloseRig(env, s, site.rig.value, interrupted).calls;
    }
    DownStage(site.worlds);
    LegClosings(env, t, Down(site.worlds), Full, 6);
    var w := Closings(env, t, Down(site.worlds), false, Full).calls;
    LegJoin(s, t, w, 2, 5, 6, 6);
    MadeLeg(t, w, |s|, 6, 6, Other(WaitParked));
  }

  lemma LegConclude(env: Env, s: seq<Call>, site: Site, left: bool, exc: Option<Failure>, interrupted: bool)
    ensures var c := Conclude(env, s, site, left, exc, interrupted).calls;
            && Leg(s, c, 2, 7)
            && (Made(c, |s|, Other(WaitParked)) <==> site.rig.Some? && !site.rig.value.finished && !interrupted)
  {
    var t := CloseOwned(env, s, site, interrupted).calls;
    LegOwned(env, s, site, interrupted);
    var dropped := t + [Call(DropLock, Done)];
    assert Leg(t, dropped, 7, 7);
    LegJoin(s, t, dropped, 2, 6, 7, 7);
    LegWider(s, t, 2, 6, 2, 7);
    MadeLeg(t, dropped, |s|, 7, 7, Other(WaitParked));
  }

  lemma LegJoinThread(env: Env, s: seq<Call>, site: Site)
    ensures var l := LeaveRun(env, s, site);
            var j := Join(env, l, site.service).calls;
            && Leg(s, j, 0, 1)
            && (Made(j, |s|, Other(ExitRun)) <==> site.active)
            && (Made(j, |s|, Close(Service)) <==> site.service.Running?)
  {
    var l := LeaveRun(env, s, site);
    var j := Join(env, l, site.service).calls;
    LegStay(s);
    LegStay(l);
    if site.active {
      LegAsk(env, s, Other(ExitRun));
      assert l[|s|].step == Other(ExitRun);
    }
    if site.service.Running? {
      LegAsk(env, l, Close(Service));
      assert j[|l|].step == Close(Service);
    }
    LegJoin(s, l, j, 0, 0, 1, 1);
    MadeLeg(l, j, |s|, 1, 1, Other(ExitRun));
    MadeLeg(s, l, |s|, 0, 0, Close(Service));
  }

  /** Every teardown, whatever fails in it, goes through its stages in order: an active run is left and no other,
  a running service thread is joined, and unless that got stuck a rig that is not finished is waited for until
  it is parked exactly when the close is not an interrupted one, before any of it is closed. */
  lemma TeardownInOrder(env: Env, s: seq<Call>, site: Site, exc: Option<Failure>, interrupted: bool)
    ensures var c := Shut(env, s, site, exc, interrupted);
            && s <= c.calls && InOrder(c.calls, |s|, 0, 7)
            && (Made(c.calls, |s|, Other(ExitRun)) <==> site.active)
            && (Made(c.calls, |s|, Close(Service)) <==> site.service.Running?)
            && (Made(c.calls, |s|, Other(WaitParked)) <==>
                  && !c.out.ending.ServiceStuck?
                  && site.rig.Some? && !site.rig.value.finished && !interrupted)
  {
    var j := Join(env, LeaveRun(env, s, site), site.service);
    LegJoinThread(env, s, site);
    MadeLeg(s, j.calls, |s|, 0, 1, Other(WaitParked));
    if j.out {
      LegRest(env, s, j.calls, site, RunLeft(env, s, site), exc, interrupted);
    } else {
      LegWider(s, j.calls, 0, 1, 0, 7);
    }
  }

  lemma LegRest(env: Env, s: seq<Call>, t: seq<Call>, site: Site, left: bool, exc: Option<Failure>, interrupted: bool)
    requires Leg(s, t, 0, 1) && !Made(t, |s|, Other(WaitParked))
    ensures var c := Conclude(env, t, site.(active := false), left, exc, interrupted);
            && Leg(s, c.calls, 0, 7) && !c.out.ending.ServiceStuck?
            && (Made(c.calls, |s|, Other(ExitRun)) <==> Made(t, |s|, Other(ExitRun)))
            && (Made(c.calls, |s|, Close(Service)) <==> Made(t, |s|, Close(Service)))
            && (Made(c.calls, |s|, Other(WaitParked)) <==>
                  site.rig.Some? && !site.rig.value.finished && !interrupted)
  {
    var site' := site.(active := false);
    var c := Conclude(env, t, site', left, exc, interrupted);
    LegConclude(env, t, site', left, exc, interrupted);
    LegJoin(s, t, c.calls, 0, 1, 2, 7);
    MadeLeg(t, c.calls, |s|, 2, 7, Other(ExitRun));
    MadeLeg(t, c.calls, |s|, 2, 7, Close(Service));
    MadeLater(s, t, c.calls, Other(WaitParked));
  }

  lemma MadeLater(s: seq<Call>, t: seq<Call>, c: seq<Call>, step: Step)
    requires s <= t <= c && !Made(t, |s|, step)
    ensures Made(c, |s|, step) <==> Made(c, |t|, step)
  {
    if k :| |s| <= k < |c| && c[k].step == step {
      if k < |t| {
        assert t[k] == c[k];
      }
    }
  }

  /** What the stages mean for an arm: whenever the machine is waited for, that call comes before every close of
  a camera, a capture thread, the robot's loop, the core, an arm or a world. */
  lemma ParkedFirst(env: Env, s: seq<Call>, site: Site, exc: Option<Failure>, interrupted: bool, j: nat, k: nat)
    requires var calls := Shut(env, s, site, exc, interrupted).calls;
             && |s| <= j < |calls| && |s| <= k < |calls| && calls[j].step == Other(WaitParked)
             && calls[k].step.Close? && !calls[k].step.item.Service?
    ensures j < k
  {
    TeardownInOrder(env, s, site, exc, interrupted);
  }

  // ----- a release, call by call

  function Returned(steps: seq<Step>): seq<Call> { seq(|steps|, i requires 0 <= i < |steps| => Call(steps[i], Done)) }

  lemma ReturnedJoin(a: seq<Step>, b: seq<Step>)
    ensures Returned(a + b) == Returned(a) + Returned(b)
  {}

  function Closes(units: seq<Item>): seq<Step> { seq(|units|, i requires 0 <= i < |units| => Close(units[i])) }

  /** The closings before the core, by position: each capture thread's camera and then the thread, the robot's
  loop, the cameras that had no thread. */
  lemma PassiveMeans(rig: Rig, i: nat)
    requires rig.captures <= rig.cameras
    ensures var p, loop := Passive(rig), if rig.pump then 1 else 0;
            && |p| == rig.captures + loop + rig.cameras
            && (i < rig.captures ==> p[2 * i] == Camera(i) && p[2 * i + 1] == Capture(i))
            && (rig.pump ==> p[2 * rig.captures] == Pump)
            && (rig.captures <= i < rig.cameras ==> p[rig.captures + loop + i] == Camera(i))
  {
    var a, b, c := Pairs(rig.captures), Maybe(rig.pump, Pump), LaterCameras(rig.captures, rig.cameras);
    if i < rig.captures {
      assert (a + b + c)[2 * i] == a[2 * i] && (a + b + c)[2 * i + 1] == a[2 * i + 1];
    } else if i < rig.cameras {
      assert (a + b + c)[|a| + |b| + (i - rig.captures)] == c[i - rig.captures];
    }
  }

  lemma {:induction false} ClosingsReturned(env: Env, s: seq<Call>, units: seq<Item>)
    requires Closings(env, s, units, false, Full).out.how.Full?
    ensures Closings(env, s, units, false, Full).calls == s + Returned(Closes(units))
    decreases |units|
  {
    if units != [] {
      var c := CloseUnit(env, s, units[0], false);
      ClosingsIs(env, s, units, false, Full);
      if !c.out.Short? {
        ClosingsSmooth(env, c.calls, units[1..], false, if c.out.Doubted? then Doubted else Full);
      }
      ClosingsReturned(env, c.calls, units[1..]);
      assert Closes(units) == [Close(units[0])] + Closes(units[1..]);
      ReturnedJoin([Close(units[0])], Closes(units[1..]));
    }
  }

  /** What a release takes: nothing left out, nothing done twice, in this order. */
  function ClosePlan(site: Site, interrupted: bool): seq<Step> {
    (if site.active then [Other(ExitRun)] else [])
    + (if site.service.Running? then [Close(Service)] else [])
    + (if site.rig.None? then [] else RigPlan(site.rig.value, interrupted))
    + Closes(Down(site.worlds))
    + [DropLock]
  }

  function RigPlan(rig: Rig, interrupted: bool): seq<Step> {
    if rig.finished then []
    else
      (if interrupted then [] else [Other(WaitParked)])
      + Closes(Passive(rig)) + (if rig.core then [Close(Core)] else []) + Closes(Arms(rig.arms))
  }

  /** From `a` to `b` exactly these calls were made, and each returned. */
  predicate Went(a: seq<Call>, b: seq<Call>, steps: seq<Step>) { b == a + Returned(steps) }

  lemma WentOn(a: seq<Call>, b: seq<Call>, c: seq<Call>, first: seq<Step>, rest: seq<Step>)
    requires Went(a, b, first) && Went(b, c, rest)
    ensures Went(a, c, first + rest)
  {
    ReturnedJoin(first, rest);
  }

  lemma FinishReturned(env: Env, s: seq<Call>, rig: Rig)
    requires !rig.finished && !Finish(env, s, rig).out.raised && Finish(env, s, rig).out.rig.confirmed
    ensures Went(s, Finish(env, s, rig).calls,
                 Closes(Passive(rig)) + (if rig.core then [Close(Core)] else []) + Closes(Arms(rig.arms)))
  {
    var p := Closings(env, s, Passive(rig), false, Full);
    var c := Closings(env, p.calls, Maybe(rig.core, Core), false, Full);
    var a := Closings(env, c.calls, Arms(rig.arms), false, Full);
    FinishFull(env, s, rig);
    ClosingsReturned(env, s, Passive(rig));
    ClosingsReturned(env, p.calls, Maybe(rig.core, Core));
    ClosingsReturned(env, c.calls, Arms(rig.arms));
    assert Closes(Maybe(rig.core, Core)) == if rig.core then [Close(Core)] else [];
    WentOn(s, p.calls, c.calls, Closes(Passive(rig)), Closes(Maybe(rig.core, Core)));
    WentOn(s, c.calls, a.calls, Closes(Passive(rig)) + Closes(Maybe(rig.core, Core)), Closes(Arms(rig.arms)));
  }

  /** A teardown that confirmed was full at each stage. */
  lemma FinishFull(env: Env, s: seq<Call>, rig: Rig)
    requires !rig.finished && !Finish(env, s, rig).out.raised && Finish(env, s, rig).out.rig.confirmed
    ensures var p := Closings(env, s, Passive(rig), false, Full);
            var c := Closings(env, p.calls, Maybe(rig.core, Core), false, Full);
            var a := Closings(env, c.calls, Arms(rig.arms), false, Full);
            && p.out.how.Full? && c.out.how.Full? && a.out.how.Full? && Finish(env, s, rig).calls == a.calls
  {}

  lemma RigReturned(env: Env, s: seq<Call>, rig: Rig, interrupted: bool)
    requires var f := CloseRig(env, s, rig, interrupted); !f.out.raised && f.out.rig.confirmed
    ensures CloseRig(env, s, rig, interrupted).calls == s + Returned(RigPlan(rig, interrupted))
  {
    if !rig.finished {
      var rest := Closes(Passive(rig)) + (if rig.core then [Close(Core)] else []) + Closes(Arms(rig.arms));
      if interrupted {
        FinishReturned(env, s, rig);
        assert RigPlan(rig, true) == rest;
      } else {
        FinishReturned(env, Ask(env, s, Other(WaitParked)), rig);
        ReturnedJoin([Other(WaitParked)], rest);
        assert RigPlan(rig, false) == [Other(WaitParked)] + rest;
      }
    }
  }

  lemma OwnedReturned(env: Env, s: seq<Call>, site: Site, interrupted: bool)
    requires CloseOwned(env, s, site, interrupted).out.ending.Released?
    ensures var rig := if site.rig.None? then [] else RigPlan(site.rig.value, interrupted);
            Went(s, CloseOwned(env, s, site, interrupted).calls, rig + Closes(Down(site.worlds)))
  {
    var t := s;
    var plan: seq<Step> := [];
    if site.rig.Some? {
      RigReturned(env, s, site.rig.value, interrupted);
      t := CloseRig(env, s, site.rig.value, interrupted).calls;
      plan := RigPlan(site.rig.value, interrupted);
    }
    ClosingsReturned(env, t, Down(site.worlds));
    ReturnedJoin(plan, Closes(Down(site.worlds)));
  }

  /** A close that releases got through all its parts. */
  lemma ShutParts(env: Env, s: seq<Call>, site: Site, exc: Option<Failure>, interrupted: bool)
    requires Shut(env, s, site, exc, interrupted).out.ending.Released?
    ensures var j := Join(env, LeaveRun(env, s, site), site.service);
            var o := CloseOwned(env, j.calls, site.(active := false), interrupted);
            && j.out && RunLeft(env, s, site) && o.out.ending.Released?
            && Shut(env, s, site, exc, interrupted).calls == o.calls + [Call(DropLock, Done)]
  {}

  lemma JoinReturned(env: Env, s: seq<Call>, site: Site)
    requires RunLeft(env, s, site) && Join(env, LeaveRun(env, s, site), site.service).out
    ensures Went(s, Join(env, LeaveRun(env, s, site), site.service).calls,
                 (if site.active then [Other(ExitRun)] else [])
                 + (if site.service.Running? then [Close(Service)] else []))
  {}

  /** A close that releases makes exactly these calls, and each of them returns. */
  lemma ReleasedCalls(env: Env, s: seq<Call>, site: Site, exc: Option<Failure>, interrupted: bool)
    requires Shut(env, s, site, exc, interrupted).out.ending.Released?
    ensures Shut(env, s, site, exc, interrupted).calls == s + Returned(ClosePlan(site, interrupted))
  {
    var j := Join(env, LeaveRun(env, s, site), site.service);
    var site' := site.(active := false);
    var o := CloseOwned(env, j.calls, site', interrupted);
    ShutParts(env, s, site, exc, interrupted);
    JoinReturned(env, s, site);
    OwnedReturned(env, j.calls, site', interrupted);
    PlansJoin(s, j.calls, o.calls, site, interrupted);
  }

  lemma PlansJoin(s: seq<Call>, j: seq<Call>, o: seq<Call>, site: Site, interrupted: bool)
    requires Went(s, j, (if site.active then [Other(ExitRun)] else [])
                        + (if site.service.Running? then [Close(Service)] else []))
    requires Went(j, o, (if site.rig.None? then [] else RigPlan(site.rig.value, interrupted))
                        + Closes(Down(site.worlds)))
    ensures Went(s, o + [Call(DropLock, Done)], ClosePlan(site, interrupted))
  {
    var run := if site.active then [Other(ExitRun)] else [];
    var thread := if site.service.Running? then [Close(Service)] else [];
    var rig := if site.rig.None? then [] else RigPlan(site.rig.value, interrupted);
    var worlds := Closes(Down(site.worlds));
    WentOn(s, j, o, run + thread, rig + worlds);
    WentOn(s, o, o + [Call(DropLock, Done)], run + thread + (rig + worlds), [DropLock]);
    assert run + thread + (rig + worlds) + [DropLock] == ClosePlan(site, interrupted);
  }

  // ----- an entry, call by call

  lemma {:induction false} UntilReturned(env: Env, s: seq<Call>, steps: seq<Step>)
    requires Until(env, s, steps).out >= |steps|
    ensures Until(env, s, steps).calls == s + Returned(steps)
    decreases |steps|
  {
    if steps != [] {
      UntilFirst(env, s, steps);
      UntilReturned(env, Ask(env, s, steps[0]), steps[1..]);
      ReturnedJoin([steps[0]], steps[1..]);
      assert steps == [steps[0]] + steps[1..];
    }
  }

  /** What an entry takes: the host's authorization before anything is opened, worlds, then passive sensors
  before energized arms, then the core session and the loops, and the calibration service last. */
  function OpenPlan(sizes: Sizes): seq<Step> {
    BeginPlan(sizes) + Opens(Worlds(sizes.worlds)) + OpenRigPlan(sizes.cameras, sizes.parts) + ServicePlan(sizes)
  }

  function BeginPlan(sizes: Sizes): seq<Step> {
    [TakeLock, Other(Assemble)]
    + (if sizes.authorized then [Open(Probe), Other(Authorize), Undo(Probe)] else [])
    + [Other(NewRig)]
  }

  function OpenRigPlan(cameras: nat, parts: nat): seq<Step> {
    Opens(Cameras(cameras)) + PartsPlan(parts)
    + [Other(CheckParts), Other(Prepare), Open(Core), Other(StartConsole), Other(MakePump), Open(Pump),
       Other(MakeCapturePumps)]
    + Opens(Captures(cameras))
  }

  /** One arm a part, counted and checked before the next part is built. */
  function PartsPlan(parts: nat): seq<Step> {
    if parts == 0 then []
    else
      var i := parts - 1;
      PartsPlan(i) + [Other(BuildPart(i)), Open(Arm(i, 0)), Other(CountArms(i)), Other(CheckPart(i))]
  }

  function ServicePlan(sizes: Sizes): seq<Step> {
    (if sizes.administered then [Other(BindAdministration)] else []) + [Open(Service), Other(Announce)]
  }

  lemma BeginReturned(env: Env, s: seq<Call>, sizes: Sizes)
    requires Begin(env, s, sizes).out
    ensures Begin(env, s, sizes).calls == s + Returned(BeginPlan(sizes)[1..])
  {}

  lemma PartReturned(env: Env, s: seq<Call>, i: nat)
    requires TakePart(env, s, i).out.failure.None?
    ensures TakePart(env, s, i).calls
              == s + Returned([Other(BuildPart(i)), Open(Arm(i, 0)), Other(CountArms(i)), Other(CheckPart(i))])
  {
    var t := Ask(env, s, Other(BuildPart(i)));
    assert Handed(t, i, 1) == t + [Call(Open(Arm(i, 0)), Done)];
  }

  lemma {:induction false} PartsReturned(env: Env, s0: seq<Call>, s: seq<Call>, i: nat, n: nat)
    requires i <= n && s == s0 + Returned(PartsPlan(i)) && TakeParts(env, s, i, n).out.failure.None?
    ensures TakeParts(env, s, i, n).calls == s0 + Returned(PartsPlan(n) + [Other(CheckParts)])
    decreases n - i
  {
    if i == n {
      ReturnedJoin(PartsPlan(n), [Other(CheckParts)]);
    } else {
      var r := TakePart(env, s, i);
      PartReturned(env, s, i);
      ReturnedJoin(PartsPlan(i), [Other(BuildPart(i)), Open(Arm(i, 0)), Other(CountArms(i)), Other(CheckPart(i))]);
      PartsReturned(env, s0, r.calls, i + 1, n);
    }
  }

  /** A start in which nothing failed. */
  lemma StartParts(env: Env, s: seq<Call>, cameras: nat, parts: nat)
    requires OpenRig(env, s, cameras, parts).out.failure.None?
    ensures var c := BuildCameras(env, s, cameras);
            var a := BuildArms(env, c.calls, parts);
            var l := Until(env, a.calls, StartSteps(cameras));
            && c.out.failure.None? && TakeParts(env, c.calls, 0, parts) == a && a.out.failure.None?
            && l.out >= |StartSteps(cameras)| && OpenRig(env, s, cameras, parts).calls == l.calls
  {}

  lemma CamerasReturned(env: Env, s: seq<Call>, n: nat)
    requires BuildCameras(env, s, n).out.failure.None?
    ensures Went(s, BuildCameras(env, s, n).calls, Opens(Cameras(n)))
  {
    BuildCamerasIs(env, s, n);
    UntilReturned(env, s, Opens(Cameras(n)));
  }

  lemma RigOpened(env: Env, s: seq<Call>, cameras: nat, parts: nat)
    requires OpenRig(env, s, cameras, parts).out.failure.None?
    ensures Went(s, OpenRig(env, s, cameras, parts).calls, OpenRigPlan(cameras, parts))
  {
    var c := BuildCameras(env, s, cameras);
    var a := BuildArms(env, c.calls, parts);
    var l := Until(env, a.calls, StartSteps(cameras));
    StartParts(env, s, cameras, parts);
    CamerasReturned(env, s, cameras);
    assert Returned(PartsPlan(0)) == [];
    PartsReturned(env, c.calls, c.calls, 0, parts);
    UntilReturned(env, a.calls, StartSteps(cameras));
    WentOn(s, c.calls, a.calls, Opens(Cameras(cameras)), PartsPlan(parts) + [Other(CheckParts)]);
    WentOn(s, a.calls, l.calls, Opens(Cameras(cameras)) + (PartsPlan(parts) + [Other(CheckParts)]),
           StartSteps(cameras));
    assert OpenRigPlan(cameras, parts)
        == Opens(Cameras(cameras)) + (PartsPlan(parts) + [Other(CheckParts)]) + StartSteps(cameras);
  }

  lemma ServiceOpened(env: Env, s: seq<Call>, sizes: Sizes, site: Site)
    requires StartService(env, s, sizes, site).out.failure.None?
    ensures StartService(env, s, sizes, site).calls == s + Returned(ServicePlan(sizes))
  {
    var bind := if sizes.administered then [Other(BindAdministration)] else [];
    var b := Until(env, s, bind);
    UntilReturned(env, s, bind);
    UntilReturned(env, b.calls, [Open(Service), Other(Announce)]);
    ReturnedJoin(bind, [Open(Service), Other(Announce)]);
  }

  /** An entry got through all its parts. */
  lemma EnterParts(env: Env, sizes: Sizes, st: State, interrupted: bool)
    requires Act(env, sizes, st, Enter(interrupted)).reply == Entered
    ensures var p := Begin(env, Ask(env, st.calls, TakeLock), sizes);
            var w := OpenWorlds(env, p.calls, sizes.worlds);
            var r := OpenRig(env, w.calls, sizes.cameras, sizes.parts);
            var site := FREE.(owned := true, worlds := sizes.worlds, rig := Some(r.out.rig));
            var t := StartService(env, r.calls, sizes, site);
            && env.outcome(st.calls, TakeLock).Done? && p.out && w.out.failure.None? && r.out.failure.None?
            && t.out.failure.None? && Act(env, sizes, st, Enter(interrupted)).state.calls == t.calls
  {}

  lemma WorldsReturned(env: Env, s: seq<Call>, n: nat)
    requires OpenWorlds(env, s, n).out.failure.None?
    ensures Went(s, OpenWorlds(env, s, n).calls, Opens(Worlds(n)))
  {
    OpenWorldsIs(env, s, n);
    UntilReturned(env, s, Opens(Worlds(n)));
  }

  lemma LockAndBegin(env: Env, s: seq<Call>, sizes: Sizes)
    requires env.outcome(s, TakeLock).Done? && Begin(env, Ask(env, s, TakeLock), sizes).out
    ensures Went(s, Begin(env, Ask(env, s, TakeLock), sizes).calls, BeginPlan(sizes))
  {
    var t := Ask(env, s, TakeLock);
    BeginReturned(env, t, sizes);
    WentOn(s, t, Begin(env, t, sizes).calls, [TakeLock], BeginPlan(sizes)[1..]);
    assert [TakeLock] + BeginPlan(sizes)[1..] == BeginPlan(sizes);
  }

  /** An entry makes exactly these calls, and each of them returns. */
  lemma EnteredCalls(env: Env, sizes: Sizes, st: State, interrupted: bool)
    requires Act(env, sizes, st, Enter(interrupted)).reply == Entered
    ensures Act(env, sizes, st, Enter(interrupted)).state.calls == st.calls + Returned(OpenPlan(sizes))
  {
    var p := Begin(env, Ask(env, st.calls, TakeLock), sizes);
    var w := OpenWorlds(env, p.calls, sizes.worlds);
    var r := OpenRig(env, w.calls, sizes.cameras, sizes.parts);
    var site := FREE.(owned := true, worlds := sizes.worlds, rig := Some(r.out.rig));
    var t := StartService(env, r.calls, sizes, site);
    var (a, b, c, d) := (BeginPlan(sizes), Opens(Worlds(sizes.worlds)), OpenRigPlan(sizes.cameras, sizes.parts),
                         ServicePlan(sizes));
    EnterParts(env, sizes, st, interrupted);
    LockAndBegin(env, st.calls, sizes);
    WorldsReturned(env, p.calls, sizes.worlds);
    RigOpened(env, w.calls, sizes.cameras, sizes.parts);
    ServiceOpened(env, r.calls, sizes, site);
    WentOn(st.calls, p.calls, w.calls, a, b);
    WentOn(st.calls, w.calls, r.calls, a + b, c);
    WentOn(st.calls, r.calls, t.calls, a + b + c, d);
  }
}
