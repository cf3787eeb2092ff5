/** The life of a site as functions of what its calls do: which calls are made, in which order, and what
the session answers for afterwards. The classes of `Ownership` are proved to take exactly these steps. */
module Lifecycle {
  import opened Wrappers
  import opened Calls

  // ----- stretches of calls

  /** The history after a stretch of calls, and what the stretch comes to. */
  datatype Ran<+T> = Ran(calls: seq<Call>, out: T)

  function Ask(env: Env, s: seq<Call>, step: Step): seq<Call> { s + [Call(step, env.outcome(s, step))] }

  /** Call after call until one does not return; `out` is how many did. */
  function Until(env: Env, s: seq<Call>, steps: seq<Step>): Ran<nat>
    decreases |steps|
  {
    if steps == [] then Ran(s, 0)
    else if !env.outcome(s, steps[0]).Done? then Ran(Ask(env, s, steps[0]), 0)
    else var r := Until(env, Ask(env, s, steps[0]), steps[1..]); Ran(r.calls, r.out + 1)
  }

  function Closing(undo: bool, x: Item): Step { if undo then Undo(x) else Close(x) }

  /** How a stretch of closings ended: every close returned; each unit had its close and some raised; or it
  was cut short. */
  datatype Sweep = Full | Doubted | Short

  /** One close, and the report of one that raised. */
  function CloseUnit(env: Env, s: seq<Call>, x: Item, undo: bool): Ran<Sweep> {
    var step := Closing(undo, x);
    var t := Ask(env, s, step);
    match env.outcome(s, step)
    case Done => Ran(t, Full)
    case Interrupted => Ran(t, Short)
    case Raised =>
      if !Reported(x) then Ran(t, Doubted)
      else
        var said := env.outcome(t, Report(undo, x)).Done?;
        Ran(Ask(env, t, Report(undo, x)), if said then Doubted else Short)
  }

  /** `tried`: the units reached, the one at which it was cut among them. */
  datatype Swept = Swept(how: Sweep, tried: nat)

  /** Every unit gets its close, also after one has raised; an interrupt ends it, and a report that fails. */
  function Closings(env: Env, s: seq<Call>, units: seq<Item>, undo: bool, sofar: Sweep): (r: Ran<Swept>)
    ensures r.out.tried <= |units|
    decreases |units|
  {
    if units == [] then Ran(s, Swept(sofar, 0))
    else
      var c := CloseUnit(env, s, units[0], undo);
      if c.out.Short? then Ran(c.calls, Swept(Short, 1))
      else
        var r := Closings(env, c.calls, units[1..], undo, if c.out.Doubted? then Doubted else sofar);
        Ran(r.calls, Swept(r.out.how, r.out.tried + 1))
  }

  // ----- what is opened

  function Worlds(n: nat): seq<Item> { seq(n, i requires 0 <= i < n => World(i)) }

  /** Newest first. */
  function Down(n: nat): seq<Item> { seq(n, i requires 0 <= i < n => World(n - 1 - i)) }

  function Cameras(n: nat): seq<Item> { seq(n, i requires 0 <= i < n => Camera(i)) }

  /** The cameras from number `from` up to `to`. */
  function LaterCameras(from: nat, to: nat): seq<Item> {
    if from <= to then seq(to - from, i requires 0 <= i < to - from => Camera(from + i)) else []
  }

  function Captures(n: nat): seq<Item> { seq(n, i requires 0 <= i < n => Capture(i)) }

  /** The one arm of each of the first `n` parts. */
  function Arms(n: nat): seq<Item> { seq(n, i requires 0 <= i < n => Arm(i, 0)) }

  /** Everything one part's factory returned. */
  function ArmsOf(part: nat, count: nat): seq<Item> { seq(count, k requires 0 <= k < count => Arm(part, k)) }

  function Opens(items: seq<Item>): seq<Step> { seq(|items|, i requires 0 <= i < |items| => Open(items[i])) }

  function Maybe(present: bool, x: Item): seq<Item> { if present then [x] else [] }

  function Elements(items: seq<Item>): set<Item> { set x | x in items }

  /** `authorized`: the host is asked before anything is opened. */
  datatype Sizes = Sizes(worlds: nat, cameras: nat, parts: nat, administered: bool, authorized: bool)

  /** `CloseUnknown`: the error that tells the site a close is unconfirmed. */
  datatype Failure = Ordinary | CloseUnknown

  function Verdict(how: Sweep): Failure { if how.Doubted? then CloseUnknown else Ordinary }

  // ----- the worlds

  /** What an opening came to: how it failed, and how many units it leaves to its owner. */
  datatype Built = Built(failure: Option<Failure>, count: nat)

  /** `_SiteAssembly.open`; the count is the height of the stack. */
  function OpenWorlds(env: Env, s: seq<Call>, n: nat): Ran<Built> {
    var r := Until(env, s, Opens(Worlds(n)));
    if r.out >= n then Ran(r.calls, Built(None, n))
    else
      var u := Closings(env, r.calls, Down(r.out + 1), true, Full);
      Ran(u.calls, Built(Some(Verdict(u.out.how)), r.out + 1 - u.out.tried))
  }

  // ----- the rig

  /** `build_cameras` */
  function BuildCameras(env: Env, s: seq<Call>, n: nat): Ran<Built> {
    var r := Until(env, s, Opens(Cameras(n)));
    if r.out >= n then Ran(r.calls, Built(None, n))
    else
      var u := Closings(env, r.calls, Cameras(r.out), true, Full);
      Ran(u.calls, Built(Some(Verdict(u.out.how)), 0))
  }

  function Handed(s: seq<Call>, part: nat, count: nat): seq<Call> {
    s + seq(count, k requires 0 <= k < count => Call(Open(Arm(part, k)), Done))
  }

  function Counted(s: seq<Call>, part: nat, count: nat): seq<Call> {
    s + [Call(Other(CountArms(part)), if count == 1 then Done else Raised)]
  }

  /** One part's arm: a factory must hand back exactly one, and it must fit the site. */
  function TakePart(env: Env, s: seq<Call>, part: nat): Ran<Built> {
    var t := Ask(env, s, Other(BuildPart(part)));
    if !env.outcome(s, Other(BuildPart(part))).Done? then Ran(t, Built(Some(Ordinary), 0))
    else
      var count := env.arms(t);
      var c := Counted(Handed(t, part, count), part, count);
      if count != 1 then
        var u := Closings(env, c, ArmsOf(part, count), true, Full);
        Ran(u.calls, Built(Some(Verdict(u.out.how)), 0))
      else
        Ran(Ask(env, c, Other(CheckPart(part))),
            Built(if env.outcome(c, Other(CheckPart(part))).Done? then None else Some(Ordinary), 1))
  }

  /** `build_arms` from part `i` on, without its rollback. */
  function TakeParts(env: Env, s: seq<Call>, i: nat, n: nat): (r: Ran<Built>)
    ensures i <= n && r.out.failure.None? ==> r.out.count == n
    decreases n - i
  {
    if i >= n then
      var failure := if env.outcome(s, Other(CheckParts)).Done? then None else Some(Ordinary);
      Ran(Ask(env, s, Other(CheckParts)), Built(failure, i))
    else
      var r := TakePart(env, s, i);
      if r.out.failure.Some? then Ran(r.calls, Built(r.out.failure, i + r.out.count))
      else TakeParts(env, r.calls, i + 1, n)
  }

  /** `build_arms`: a close that raised replaces the reason of the failure, and so does being cut short. */
  function BuildArms(env: Env, s: seq<Call>, n: nat): Ran<Built> {
    var r := TakeParts(env, s, 0, n);
    if r.out.failure.None? then r
    else
      var u := Closings(env, r.calls, Arms(r.out.count), true, Full);
      Ran(u.calls, Built(if u.out.how.Full? then r.out.failure else Some(Verdict(u.out.how)), 0))
  }

  datatype Rig = Rig(cameras: nat, arms: nat, captures: nat, core: bool, pump: bool, finished: bool, confirmed: bool)

  const NO_RIG := Rig(0, 0, 0, false, false, false, true)

  /** A rig whose teardown was run answers for nothing. */
  function Spent(confirmed: bool): Rig { NO_RIG.(finished := true, confirmed := confirmed) }

  function Handles(rig: Rig): set<Item> {
    if rig.finished then {}
    else Elements(Cameras(rig.cameras)) + Elements(Arms(rig.arms)) + Elements(Captures(rig.captures))
         + Elements(Maybe(rig.core, Core)) + Elements(Maybe(rig.pump, Pump))
  }

  /** From the calibrations to the last capture thread. */
  function StartSteps(cameras: nat): seq<Step> {
    [Other(Prepare), Open(Core), Other(StartConsole), Other(MakePump), Open(Pump), Other(MakeCapturePumps)]
    + Opens(Captures(cameras))
  }

  datatype Started = Started(failure: Option<Failure>, rig: Rig)

  /** Everything of `RigSession._open` that may fail. */
  function Start(env: Env, s: seq<Call>, cameras: nat, parts: nat): Ran<Started> {
    var c := BuildCameras(env, s, cameras);
    if c.out.failure.Some? then Ran(c.calls, Started(c.out.failure, NO_RIG))
    else
      var a := BuildArms(env, c.calls, parts);
      if a.out.failure.Some? then Ran(a.calls, Started(a.out.failure, NO_RIG.(cameras := cameras)))
      else StartLoops(env, a.calls, NO_RIG.(cameras := cameras, arms := parts))
  }

  function StartLoops(env: Env, s: seq<Call>, rig: Rig): Ran<Started> {
    var r := Until(env, s, StartSteps(rig.cameras));
    var failure := if r.out >= 6 + rig.cameras then None else Some(Ordinary);
    var captures := if r.out >= 6 then r.out - 6 else 0;
    Ran(r.calls, Started(failure, rig.(core := r.out >= 2, pump := r.out >= 5, captures := captures)))
  }

  /** Stopping a capture thread closes its camera and joins the thread. */
  function Pairs(n: nat): seq<Item> {
    seq(2 * n, i requires 0 <= i < 2 * n => if i % 2 == 0 then Camera(i / 2) else Capture(i / 2))
  }

  /** What is closed before the core. */
  function Passive(rig: Rig): seq<Item> {
    Pairs(rig.captures) + Maybe(rig.pump, Pump) + LaterCameras(rig.captures, rig.cameras)
  }

  datatype Finished = Finished(raised: bool, rig: Rig)

  /** `_finish`: the arms get their close also when the core did not shut down. */
  function Finish(env: Env, s: seq<Call>, rig: Rig): Ran<Finished> {
    if rig.finished then Ran(s, Finished(false, rig))
    else
      var p := Closings(env, s, Passive(rig), false, Full);
      if p.out.how.Short? then Ran(p.calls, Finished(true, Spent(false)))
      else
        var c := Closings(env, p.calls, Maybe(rig.core, Core), false, Full);
        var a := Closings(env, c.calls, Arms(rig.arms), false, Full);
        var confirmed := p.out.how.Full? && c.out.how.Full? && a.out.how.Full?;
        Ran(a.calls, Finished(!c.out.how.Full? || a.out.how.Short?, Spent(rig.confirmed && confirmed)))
  }

  /** `RigSession._open`: a start that fails is announced, and followed by the whole teardown; if the
  announcement fails, the teardown is left to the rig's owner. */
  function OpenRig(env: Env, s: seq<Call>, cameras: nat, parts: nat): Ran<Started> {
    var r := Start(env, s, cameras, parts);
    if r.out.failure.None? then r
    else
      var t := Ask(env, r.calls, Other(ReportFailure));
      if !env.outcome(r.calls, Other(ReportFailure)).Done? then Ran(t, Started(Some(Ordinary), r.out.rig))
      else
        var f := Finish(env, t, r.out.rig);
        Ran(f.calls, Started(if f.out.raised then Some(Ordinary) else r.out.failure, f.out.rig))
  }

  /** `RigSession.close` */
  function CloseRig(env: Env, s: seq<Call>, rig: Rig, interrupted: bool): Ran<Finished> {
    if rig.finished then Ran(s, Finished(false, rig))
    else if interrupted then Finish(env, s, rig)
    else
      var f := Finish(env, Ask(env, s, Other(WaitParked)), rig);
      f.(out := f.out.(raised := f.out.raised || !env.outcome(s, Other(WaitParked)).Done?))
  }

  // ----- the site

  /** The calibration service: never made, made and not running, or running. */
  datatype Thread = Absent | Unstarted | Running

  /** What a session holds: `owned` and `failed` are its two flags, `worlds` the height of the stack. */
  datatype Site = Site(owned: bool, failed: bool, active: bool, service: Thread, worlds: nat, rig: Option<Rig>)

  const FREE := Site(false, false, false, Absent, 0, None)

  /** How a close ended. Every ending but the first two raises. */
  datatype Ending = Nothing | Released | ServiceStuck | Unconfirmed

  datatype Closed = Closed(ending: Ending, site: Site)

  function Confirmed(site: Site): bool { site.rig.None? || site.rig.value.confirmed }

  /** The run is left before the service is joined. */
  function LeaveRun(env: Env, s: seq<Call>, site: Site): seq<Call> {
    if site.active then Ask(env, s, Other(ExitRun)) else s
  }

  function RunLeft(env: Env, s: seq<Call>, site: Site): bool { site.active ==> env.outcome(s, Other(ExitRun)).Done? }

  /** A thread that was made and never ran cannot be joined. */
  function Join(env: Env, s: seq<Call>, service: Thread): Ran<bool> {
    match service
    case Absent => Ran(s, true)
    case Unstarted => Ran(s, false)
    case Running => Ran(Ask(env, s, Close(Service)), env.outcome(s, Close(Service)).Done?)
  }

  /** The rig, then the worlds, also when the rig raised. */
  function CloseOwned(env: Env, s: seq<Call>, site: Site, interrupted: bool): Ran<Closed> {
    var r := if site.rig.None? then Ran(s, Finished(false, NO_RIG)) else CloseRig(env, s, site.rig.value, interrupted);
    var w := Closings(env, r.calls, Down(site.worlds), false, Full);
    var after := site.(active := false, rig := if site.rig.None? then None else Some(r.out.rig),
                       worlds := site.worlds - w.out.tried);
    Ran(w.calls, Closed(if !r.out.raised && w.out.how.Full? && Confirmed(after) then Released else Unconfirmed, after))
  }

  /** `_close` on a session that holds the lock; `exc` is the exception it closes on. */
  function Shut(env: Env, s: seq<Call>, site: Site, exc: Option<Failure>, interrupted: bool): Ran<Closed> {
    var j := Join(env, LeaveRun(env, s, site), site.service);
    if !j.out then Ran(j.calls, Closed(ServiceStuck, site.(active := false, failed := true)))
    else Conclude(env, j.calls, site.(active := false), RunLeft(env, s, site), exc, interrupted)
  }

  /** Everything owned is closed; then the lock is dropped, or kept for good. `left`: the run was left. */
  function Conclude(env: Env, s: seq<Call>, site: Site, left: bool, exc: Option<Failure>,
                    interrupted: bool): Ran<Closed> {
    var c := CloseOwned(env, s, site, interrupted);
    if c.out.ending.Released? && left && exc != Some(CloseUnknown) then
      Ran(c.calls + [Call(DropLock, Done)], Closed(Released, FREE))
    else Ran(c.calls, Closed(Unconfirmed, c.out.site.(failed := true)))
  }

  datatype Entering = Entering(failure: Option<Failure>, site: Site)

  /** `_authorize_connector`: the host is asked through a core session of its own, shut down in any case. */
  function Permit(env: Env, s: seq<Call>, sizes: Sizes): Ran<bool> {
    if !sizes.authorized then Ran(s, true)
    else if !env.outcome(s, Open(Probe)).Done? then Ran(Ask(env, s, Open(Probe)), false)
    else
      var t := Ask(env, s, Open(Probe));
      var c := CloseUnit(env, Ask(env, t, Other(Authorize)), Probe, true);
      Ran(c.calls, env.outcome(t, Other(Authorize)).Done? && c.out.Full?)
  }

  /** The assembly, the host's authorization and the rig's declaration, before anything is opened for good. */
  function Begin(env: Env, s: seq<Call>, sizes: Sizes): Ran<bool> {
    var a := Ask(env, s, Other(Assemble));
    if !env.outcome(s, Other(Assemble)).Done? then Ran(a, false)
    else
      var p := Permit(env, a, sizes);
      if !p.out then p else Ran(Ask(env, p.calls, Other(NewRig)), env.outcome(p.calls, Other(NewRig)).Done?)
  }

  /** `_open` */
  function OpenAll(env: Env, s: seq<Call>, sizes: Sizes): Ran<Entering> {
    var owner := FREE.(owned := true);
    var p := Begin(env, s, sizes);
    if !p.out then Ran(p.calls, Entering(Some(Ordinary), owner))
    else
      var w := OpenWorlds(env, p.calls, sizes.worlds);
      if w.out.failure.Some? then Ran(w.calls, Entering(w.out.failure, owner.(worlds := w.out.count)))
      else OpenRest(env, w.calls, sizes, owner.(worlds := sizes.worlds))
  }

  function OpenRest(env: Env, s: seq<Call>, sizes: Sizes, site: Site): Ran<Entering> {
    var r := OpenRig(env, s, sizes.cameras, sizes.parts);
    var owner := site.(rig := Some(r.out.rig));
    if r.out.failure.Some? then Ran(r.calls, Entering(r.out.failure, owner))
    else StartService(env, r.calls, sizes, owner)
  }

  /** The administration, then the calibration service, then the event that says so. */
  function StartService(env: Env, s: seq<Call>, sizes: Sizes, site: Site): Ran<Entering> {
    var b := Until(env, s, if sizes.administered then [Other(BindAdministration)] else []);
    if sizes.administered && b.out == 0 then Ran(b.calls, Entering(Some(Ordinary), site))
    else
      var t := Until(env, b.calls, [Open(Service), Other(Announce)]);
      Ran(t.calls, Entering(if t.out == 2 then None else Some(Ordinary),
                            site.(service := if t.out == 0 then Unstarted else Running)))
  }

  // ----- a whole life

  datatype Op = Enter(interrupted: bool) | StartRun | Leave(exc: Option<Failure>, interrupted: bool)

  /** A failed opening and a close report how the teardown ended. */
  datatype Reply = Entered | Busy | LockTaken | OpenFailed(ending: Ending) | Begun | NotOpen | Left(ending: Ending)

  datatype State = State(calls: seq<Call>, site: Site)

  datatype Acted = Acted(state: State, reply: Reply)

  function Act(env: Env, sizes: Sizes, st: State, op: Op): Acted {
    match op
    case Enter(interrupted) =>
      if st.site.owned || st.site.failed then Acted(st, Busy) else Opening(env, sizes, st, interrupted)
    case StartRun =>
      if st.site.failed || !st.site.owned then Acted(st, NotOpen)
      else Acted(st.(site := st.site.(active := true)), Begun)
    case Leave(exc, interrupted) =>
      if st.site.failed then Acted(st, Left(Unconfirmed))
      else if !st.site.owned then Acted(st, Left(Nothing))
      else
        var c := Shut(env, st.calls, st.site, exc, interrupted);
        Acted(State(c.calls, c.out.site), Left(c.out.ending))
  }

  /** `__enter__`: a failed opening goes through the same teardown as a close. */
  function Opening(env: Env, sizes: Sizes, st: State, interrupted: bool): Acted {
    var s := Ask(env, st.calls, TakeLock);
    if !env.outcome(st.calls, TakeLock).Done? then Acted(st.(calls := s), LockTaken)
    else
      var r := OpenAll(env, s, sizes);
      if r.out.failure.None? then Acted(State(r.calls, r.out.site), Entered)
      else
        var c := Shut(env, r.calls, r.out.site, r.out.failure, interrupted);
        Acted(State(c.calls, c.out.site), OpenFailed(c.out.ending))
  }

  /** A fresh session put through any operations. */
  function Run(env: Env, sizes: Sizes, ops: seq<Op>): State {
    if ops == [] then State([], FREE) else Act(env, sizes, Run(env, sizes, ops[..|ops| - 1]), ops[|ops| - 1]).state
  }
}
