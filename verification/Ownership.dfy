/** Who owns a site: the classes that open and close everything behind one exclusive lock, each proved to
make exactly the calls, and to end in exactly the state, that `Lifecycle` describes. */
module Ownership {
  import opened Wrappers
  import opened Calls
  import opened Lifecycle

  /** Everything that happened. */
  class Ledger {
    const env: Env
    var calls: seq<Call>

    constructor (env: Env)
      ensures calls == [] && this.env == env
    {
      this.env, calls := env, [];
    }

    method Ask(step: Step) returns (o: Outcome)
      modifies this
      ensures calls == Lifecycle.Ask(env, old(calls), step) && o == env.outcome(old(calls), step)
    {
      o := env.outcome(calls, step);
      calls := calls + [Call(step, o)];
    }

    /** What is entered without asking anyone. */
    method Note(c: Call)
      modifies this
      ensures calls == old(calls) + [c]
    {
      calls := calls + [c];
    }

    /** One call after the other, up to the first that does not return. */
    method AskEach(steps: seq<Step>) returns (done: nat)
      modifies this
      ensures Ran(calls, done) == Until(env, old(calls), steps)
    {
      done := 0;
      while done < |steps|
        invariant done <= |steps|
        invariant var r := Until(env, calls, steps[done..]); Until(env, old(calls), steps) == Ran(r.calls, r.out + done)
      {
        assert steps[done..][1..] == steps[done + 1..];
        var o := Ask(steps[done]);
        if !o.Done? {
          return;
        }
        done := done + 1;
      }
    }

    /** One close, and the report of one that raised. */
    method CloseUnit(x: Item, undo: bool) returns (how: Sweep)
      modifies this
      ensures Ran(calls, how) == Lifecycle.CloseUnit(env, old(calls), x, undo)
    {
      var o := Ask(Closing(undo, x));
      if o.Done? {
        return Full;
      }
      if o.Interrupted? {
        return Short;
      }
      if Reported(x) {
        o := Ask(Report(undo, x));
        return if o.Done? then Doubted else Short;
      }
      return Doubted;
    }

    /** `close_all`: every unit gets its close, also after one has raised; an interrupt escapes, and so does
    a report that fails. */
    method CloseAll(units: seq<Item>, undo: bool) returns (how: Sweep, tried: nat)
      modifies this
      ensures Ran(calls, Swept(how, tried)) == Closings(env, old(calls), units, undo, Full)
    {
      how, tried := Full, 0;
      while tried < |units|
        invariant tried <= |units| && !how.Short?
        invariant var r := Closings(env, calls, units[tried..], undo, how);
                  Closings(env, old(calls), units, undo, Full) == Ran(r.calls, Swept(r.out.how, r.out.tried + tried))
      {
        assert units[tried..][1..] == units[tried + 1..];
        var one := CloseUnit(units[tried], undo);
        tried := tried + 1;
        if one.Short? {
          return Short, tried;
        }
        how := if one.Doubted? then Doubted else how;
      }
    }
  }

  // ----- the worlds

  class Assembly {
    const ledger: Ledger
    const worlds: nat
    var stack: seq<Item>

    ghost predicate Valid()
      reads this
    {
      stack == Worlds(|stack|)
    }

    constructor (ledger: Ledger, worlds: nat)
      ensures Valid() && this.ledger == ledger && this.worlds == worlds && stack == []
    {
      this.ledger, this.worlds, stack := ledger, worlds, [];
    }

    /** `open`: on a failure, what was begun is closed before the failure is passed on. */
    method Open() returns (failure: Option<Failure>)
      requires Valid() && stack == []
      modifies this, ledger
      ensures Valid() && Ran(ledger.calls, Built(failure, |stack|)) == OpenWorlds(ledger.env, old(ledger.calls), worlds)
    {
      ghost var steps := Opens(Worlds(worlds));
      for i := 0 to worlds
        invariant Valid() && |stack| == i
        invariant var r := Until(ledger.env, ledger.calls, steps[i..]);
                  Until(ledger.env, old(ledger.calls), steps) == Ran(r.calls, r.out + i)
      {
        assert steps[i..][1..] == steps[i + 1..];
        stack := stack + [World(i)];
        assert stack == Worlds(i + 1);
        var o := ledger.Ask(Step.Open(World(i)));
        if !o.Done? {
          var closed := Close(true);
          return Some(Verdict(closed));
        }
      }
      return None;
    }

    /** `close`: every world whose open began, newest first, also after one has raised; when it is cut
    short the older ones stay on the stack. */
    method Close(undo: bool) returns (how: Sweep)
      requires Valid()
      modifies this, ledger
      ensures Valid()
      ensures |stack| <= |old(stack)| && Ran(ledger.calls, Swept(how, |old(stack)| - |stack|))
                == Closings(ledger.env, old(ledger.calls), Down(|old(stack)|), undo, Full)
    {
      how := Full;
      while stack != []
        invariant Valid() && |stack| <= |old(stack)| && !how.Short?
        invariant var r := Closings(ledger.env, ledger.calls, Down(|stack|), undo, how);
                  Closings(ledger.env, old(ledger.calls), Down(|old(stack)|), undo, Full)
                    == Ran(r.calls, Swept(r.out.how, r.out.tried + |old(stack)| - |stack|))
      {
        var n := |stack| - 1;
        var x := stack[n];
        stack := stack[..n];
        assert stack == Worlds(n) && Down(n + 1)[1..] == Down(n) && Down(n + 1)[0] == x;
        var one := ledger.CloseUnit(x, undo);
        if one.Short? {
          return Short;
        }
        how := if one.Doubted? then Doubted else how;
      }
    }
  }

  // ----- the rig

  class RigSession {
    const ledger: Ledger
    const cameraCount: nat
    const parts: nat
    var cameras: seq<Item>
    var arms: seq<Item>
    var captures: seq<Item>
    var core: bool
    var pump: bool
    var finished: bool
    var closing: bool
    var confirmed: bool

    ghost predicate Valid()
      reads this
    {
      && (closing ==> finished)
      && cameras == Cameras(|cameras|) && arms == Arms(|arms|) && captures == Captures(|captures|)
    }

    /** What this session answers for. */
    function View(): Rig
      reads this
    {
      if finished then Spent(confirmed) else Rig(|cameras|, |arms|, |captures|, core, pump, false, confirmed)
    }

    constructor (ledger: Ledger, cameraCount: nat, parts: nat)
      ensures Valid() && this.ledger == ledger && this.cameraCount == cameraCount && this.parts == parts
      ensures View() == NO_RIG
    {
      this.ledger, this.cameraCount, this.parts := ledger, cameraCount, parts;
      cameras, arms, captures, core, pump := [], [], [], false, false;
      finished, closing, confirmed := false, false, true;
    }

    /** `build_cameras` */
    method BuildCameras() returns (failure: Option<Failure>, built: seq<Item>)
      modifies ledger
      ensures Ran(ledger.calls, Built(failure, |built|))
                == Lifecycle.BuildCameras(ledger.env, old(ledger.calls), cameraCount)
      ensures built == Cameras(|built|)
    {
      built := [];
      ghost var steps := Opens(Cameras(cameraCount));
      for i := 0 to cameraCount
        invariant built == Cameras(i)
        invariant var r := Until(ledger.env, ledger.calls, steps[i..]);
                  Until(ledger.env, old(ledger.calls), steps) == Ran(r.calls, r.out + i)
      {
        assert steps[i..][1..] == steps[i + 1..];
        var o := ledger.Ask(Step.Open(Camera(i)));
        if !o.Done? {
          var closed, _ := ledger.CloseAll(built, true);
          return Some(Verdict(closed)), [];
        }
        built := built + [Camera(i)];
      }
      return None, built;
    }

    /** What one part's own factory opens and hands back. */
    method Receive(part: nat) returns (handed: seq<Item>)
      modifies ledger
      ensures var count := ledger.env.arms(old(ledger.calls));
              ledger.calls == Handed(old(ledger.calls), part, count) && handed == ArmsOf(part, count)
    {
      var count := ledger.env.arms(ledger.calls);
      handed := [];
      for k := 0 to count
        invariant ledger.calls == Handed(old(ledger.calls), part, k) && handed == ArmsOf(part, k)
      {
        ledger.Note(Call(Step.Open(Arm(part, k)), Done));
        handed := handed + [Arm(part, k)];
      }
    }

    /** One part's arm: a factory must hand back exactly one, and it must fit the site. Whatever the
    factory opened is either handed on in `taken` or was given its close. */
    method TakePart(part: nat) returns (failure: Option<Failure>, taken: seq<Item>)
      modifies ledger
      ensures Ran(ledger.calls, Built(failure, |taken|)) == Lifecycle.TakePart(ledger.env, old(ledger.calls), part)
      ensures taken == [] || taken == [Arm(part, 0)]
    {
      var o := ledger.Ask(Other(BuildPart(part)));
      if !o.Done? {
        return Some(Ordinary), [];
      }
      var handed := Receive(part);
      ledger.Note(Call(Other(CountArms(part)), if |handed| == 1 then Done else Raised));
      if |handed| != 1 {
        var closed, _ := ledger.CloseAll(handed, true);
        return Some(Verdict(closed)), [];
      }
      o := ledger.Ask(Other(CheckPart(part)));
      return if o.Done? then None else Some(Ordinary), handed;
    }

    /** `build_arms`, without its rollback. */
    method TakeParts() returns (why: Option<Failure>, built: seq<Item>)
      modifies ledger
      ensures Ran(ledger.calls, Built(why, |built|)) == Lifecycle.TakeParts(ledger.env, old(ledger.calls), 0, parts)
      ensures built == Arms(|built|)
    {
      built := [];
      for i := 0 to parts
        invariant built == Arms(i)
        invariant Lifecycle.TakeParts(ledger.env, old(ledger.calls), 0, parts)
               == Lifecycle.TakeParts(ledger.env, ledger.calls, i, parts)
      {
        var taken;
        why, taken := TakePart(i);
        built := built + taken;
        if why.Some? {
          return;
        }
      }
      var o := ledger.Ask(Other(CheckParts));
      why := if o.Done? then None else Some(Ordinary);
    }

    /** `build_arms`: what it built is closed when it fails, and a close that raised wins. */
    method BuildArms() returns (failure: Option<Failure>, built: seq<Item>)
      modifies ledger
      ensures Ran(ledger.calls, Built(failure, |built|)) == Lifecycle.BuildArms(ledger.env, old(ledger.calls), parts)
      ensures built == Arms(|built|)
    {
      failure, built := TakeParts();
      if failure.Some? {
        var closed, _ := ledger.CloseAll(built, true);
        failure, built := if closed.Full? then failure else Some(Verdict(closed)), [];
      }
    }

    /** Everything of `_open` that may fail; on a failure what was opened so far is in the fields. */
    method Start() returns (failure: Option<Failure>)
      requires Valid() && View() == NO_RIG
      modifies this, ledger
      ensures Valid() && !finished
      ensures Ran(ledger.calls, Started(failure, View()))
                == Lifecycle.Start(ledger.env, old(ledger.calls), cameraCount, parts)
    {
      failure, cameras := BuildCameras();
      if failure.Some? {
        return;
      }
      failure, arms := BuildArms();
      if failure.Some? {
        return;
      }
      assert View() == NO_RIG.(cameras := cameraCount, arms := parts);
      failure := StartLoops();
    }

    /** The core session and the console, the robot's loop, then one capture thread a camera. */
    method StartLoops() returns (failure: Option<Failure>)
      requires Valid() && !finished && !core && !pump && captures == [] && confirmed
      modifies this`core, this`pump, this`captures, ledger
      ensures Valid()
      ensures Ran(ledger.calls, Started(failure, View()))
                == Lifecycle.StartLoops(ledger.env, old(ledger.calls), old(View()))
    {
      var first := [Other(Prepare), Step.Open(Core), Other(StartConsole), Other(MakePump), Step.Open(Pump),
                    Other(MakeCapturePumps)];
      UntilParts(ledger.env, ledger.calls, first, Opens(Captures(|cameras|)));
      var n := ledger.AskEach(first);
      core, pump := n >= 2, n >= 5;
      if n < 6 {
        return Some(Ordinary);
      }
      failure := StartCaptures();
    }

    method StartCaptures() returns (failure: Option<Failure>)
      requires captures == []
      modifies this`captures, ledger
      ensures captures == Captures(|captures|) && (failure.None? <==> |captures| >= |cameras|)
      ensures failure.None? || failure == Some(Ordinary)
      ensures Ran(ledger.calls, |captures|) == Until(ledger.env, old(ledger.calls), Opens(Captures(|cameras|)))
    {
      ghost var threads := Opens(Captures(|cameras|));
      for i := 0 to |cameras|
        invariant captures == Captures(i)
        invariant var r := Until(ledger.env, ledger.calls, threads[i..]);
                  Until(ledger.env, old(ledger.calls), threads) == Ran(r.calls, r.out + i)
      {
        assert threads[i..][1..] == threads[i + 1..];
        var o := ledger.Ask(Step.Open(Capture(i)));
        if !o.Done? {
          return Some(Ordinary);
        }
        captures := captures + [Capture(i)];
      }
      return None;
    }

    /** `_open`: a start that fails is announced and followed by the whole teardown, unless the
    announcement fails. */
    method Open() returns (failure: Option<Failure>)
      requires Valid() && View() == NO_RIG
      modifies this, ledger
      ensures Valid()
      ensures Ran(ledger.calls, Started(failure, View())) == OpenRig(ledger.env, old(ledger.calls), cameraCount, parts)
    {
      failure := Start();
      if failure.Some? {
        var o := ledger.Ask(Other(ReportFailure));
        if !o.Done? {
          return Some(Ordinary);
        }
        var raised := Finish();
        if raised {
          failure := Some(Ordinary);
        }
      }
    }

    /** `_finish`: every handle gets its close, also when the core did not shut down, unless it is cut short. */
    method Finish() returns (raised: bool)
      requires Valid()
      modifies this, ledger
      ensures Valid() && finished
      ensures Ran(ledger.calls, Finished(raised, View()))
                == Lifecycle.Finish(ledger.env, old(ledger.calls), old(View()))
    {
      if finished {
        return false;
      }
      finished, closing := true, true;
      var stopped := ClosePassive();
      if stopped.Short? {
        confirmed := false;
        return true;
      }
      var shut, _ := ledger.CloseAll(Maybe(core, Core), false);
      var dropped, _ := ledger.CloseAll(arms, false);
      confirmed := confirmed && stopped.Full? && shut.Full? && dropped.Full?;
      captures, pump, core := [], false, false;
      raised := !shut.Full? || dropped.Short?;
    }

    /** Every capture thread with its camera, the robot's loop, and the cameras that had no thread. */
    method ClosePassive() returns (how: Sweep)
      requires Valid()
      modifies ledger
      ensures var rig := Rig(|cameras|, |arms|, |captures|, core, pump, false, confirmed);
              var r := Closings(ledger.env, old(ledger.calls), Passive(rig), false, Full);
              ledger.calls == r.calls && how == r.out.how
    {
      var pairs: seq<Item> := [];
      for i := 0 to |captures|
        invariant pairs == Pairs(i)
      {
        pairs := pairs + [Camera(i), Capture(i)];
      }
      var tried;
      how, tried := ledger.CloseAll(pairs + Maybe(pump, Pump) + LaterCameras(|captures|, |cameras|), false);
    }

    /** `close` */
    method Close(interrupted: bool) returns (raised: bool)
      requires Valid()
      modifies this, ledger
      ensures Valid()
      ensures Ran(ledger.calls, Finished(raised, View()))
                == CloseRig(ledger.env, old(ledger.calls), old(View()), interrupted)
    {
      if finished || closing {
        return false;
      }
      var waited := Done;
      if !interrupted {
        waited := ledger.Ask(Other(WaitParked));
      }
      raised := Finish();
      raised := raised || !waited.Done?;
    }
  }

  lemma {:induction false} UntilParts(env: Env, s: seq<Call>, a: seq<Step>, b: seq<Step>)
    ensures var r := Until(env, s, a);
            && r.out <= |a|
            && Until(env, s, a + b) ==
                 if r.out < |a| then r else var m := Until(env, r.calls, b); Ran(m.calls, |a| + m.out)
    decreases |a|
  {
    if a == [] {
      assert a + b == b;
    } else {
      assert (a + b)[1..] == a[1..] + b;
      UntilParts(env, Lifecycle.Ask(env, s, a[0]), a[1..], b);
    }
  }

  // ----- the site

  class SiteSession {
    const ledger: Ledger
    const sizes: Sizes
    var ownership: bool
    var failed: bool
    var closing: bool
    var active: bool
    var service: Thread
    var managed: RigSession?
    var assembly: Assembly?

    /** What this session holds. */
    ghost function View(): Site
      reads this, managed, assembly
    {
      Site(ownership, failed, active, service, if assembly == null then 0 else |assembly.stack|,
           if managed == null then None else Some(managed.View()))
    }

    ghost function Now(): State
      reads this, ledger, managed, assembly
    {
      State(ledger.calls, View())
    }

    ghost predicate Linked()
      reads this, managed, assembly
    {
      && (managed != null ==> managed.ledger == ledger && managed.Valid())
      && (assembly != null ==> assembly.ledger == ledger && assembly.Valid())
    }

    ghost predicate Valid()
      reads this, managed, assembly
    {
      Linked() && (!ownership && !failed ==> managed == null && assembly == null && service == Absent && !active)
    }

    constructor (ledger: Ledger, sizes: Sizes)
      ensures Valid() && View() == FREE && this.ledger == ledger && this.sizes == sizes && managed == null
                && assembly == null
    {
      this.ledger, this.sizes := ledger, sizes;
      ownership, failed, closing, active, service, managed, assembly := false, false, false, false, Absent, null, null;
    }

    /** The run, then the service thread, joined for as long as a close allows. */
    method StopService() returns (exited: bool, stopped: bool)
      requires Linked()
      modifies this`active, ledger
      ensures Linked() && !active && exited == RunLeft(ledger.env, old(ledger.calls), old(View()))
      ensures Ran(ledger.calls, stopped)
                == Join(ledger.env, LeaveRun(ledger.env, old(ledger.calls), old(View())), service)
    {
      exited := true;
      if active {
        var o := ledger.Ask(Other(ExitRun));
        active, exited := false, o.Done?;
      }
      stopped := service != Unstarted;
      if service == Thread.Running {
        var o := ledger.Ask(Step.Close(Service));
        stopped := o.Done?;
      }
    }

    /** The rig, then the worlds, also when the rig raised. */
    method CloseOwned(interrupted: bool) returns (confirmed: bool)
      requires Linked() && !active
      modifies ledger, managed, assembly
      ensures Linked()
      ensures Ran(ledger.calls, Closed(if confirmed then Released else Unconfirmed, View()))
           == Lifecycle.CloseOwned(ledger.env, old(ledger.calls), old(View()), interrupted)
    {
      var raised := false;
      if managed != null {
        raised := managed.Close(interrupted);
      }
      var closed := Full;
      if assembly != null {
        closed := assembly.Close(false);
      }
      confirmed := !raised && closed.Full? && (managed == null || managed.confirmed);
    }

    /** `_close` on a session that holds the lock. */
    method Shut(exc: Option<Failure>, interrupted: bool) returns (r: Ending)
      requires Linked() && ownership && !failed
      modifies this, ledger, managed, assembly
      ensures Valid() && (managed == old(managed) || managed == null) && (assembly == old(assembly) || assembly == null)
      ensures Ran(ledger.calls, Closed(r, View()))
                == Lifecycle.Shut(ledger.env, old(ledger.calls), old(View()), exc, interrupted)
    {
      closing := true;
      var exited, stopped := StopService();
      if !stopped {
        failed := true;
        return ServiceStuck;
      }
      r := Conclude(exited, exc, interrupted);
    }

    method Conclude(left: bool, exc: Option<Failure>, interrupted: bool) returns (r: Ending)
      requires Linked() && ownership && !failed && !active
      modifies this, ledger, managed, assembly
      ensures Valid() && (managed == old(managed) || managed == null) && (assembly == old(assembly) || assembly == null)
      ensures Ran(ledger.calls, Closed(r, View()))
                == Lifecycle.Conclude(ledger.env, old(ledger.calls), old(View()), left, exc, interrupted)
    {
      var confirmed := CloseOwned(interrupted);
      if !confirmed || !left || exc == Some(CloseUnknown) {
        failed := true;
        return Unconfirmed;
      }
      Release();
      return Released;
    }

    method Release()
      requires !failed && !active
      modifies this, ledger
      ensures Valid() && View() == FREE && managed == null && assembly == null
                && ledger.calls == old(ledger.calls) + [Call(DropLock, Done)]
    {
      managed, assembly, service := null, null, Absent;
      ownership := false;
      ledger.Note(Call(DropLock, Done));
    }

    /** `_authorize_connector`: the probe is shut down in any case. */
    method Permit() returns (granted: bool)
      modifies ledger
      ensures Ran(ledger.calls, granted) == Lifecycle.Permit(ledger.env, old(ledger.calls), sizes)
    {
      if !sizes.authorized {
        return true;
      }
      var o := ledger.Ask(Step.Open(Probe));
      if !o.Done? {
        return false;
      }
      o := ledger.Ask(Other(Authorize));
      var how := ledger.CloseUnit(Probe, true);
      granted := o.Done? && how.Full?;
    }

    /** Everything before the first world. */
    method Begin() returns (ready: bool)
      modifies ledger
      ensures Ran(ledger.calls, ready) == Lifecycle.Begin(ledger.env, old(ledger.calls), sizes)
    {
      var o := ledger.Ask(Other(Assemble));
      if !o.Done? {
        return false;
      }
      ready := Permit();
      if ready {
        o := ledger.Ask(Other(NewRig));
        ready := o.Done?;
      }
    }

    /** `_open` */
    method OpenAll() returns (failure: Option<Failure>)
      requires View() == FREE.(owned := true) && managed == null && assembly == null
      modifies this`managed, this`assembly, this`service, ledger
      ensures Linked() && (managed == null || fresh(managed)) && (assembly == null || fresh(assembly))
      ensures Ran(ledger.calls, Entering(failure, View())) == Lifecycle.OpenAll(ledger.env, old(ledger.calls), sizes)
    {
      var ready := Begin();
      if !ready {
        return Some(Ordinary);
      }
      var worlds := new Assembly(ledger, sizes.worlds);
      assembly := worlds;
      failure := worlds.Open();
      if failure.None? {
        failure := OpenRest();
      }
    }

    method OpenRest() returns (failure: Option<Failure>)
      requires Linked() && managed == null && assembly != null && View() == FREE.(owned := true, worlds := sizes.worlds)
      modifies this`managed, this`service, ledger
      ensures Linked() && managed != null && fresh(managed)
      ensures Ran(ledger.calls, Entering(failure, View()))
                == Lifecycle.OpenRest(ledger.env, old(ledger.calls), sizes, old(View()))
    {
      var rig := new RigSession(ledger, sizes.cameras, sizes.parts);
      managed := rig;
      failure := rig.Open();
      if failure.None? {
        failure := StartService();
      }
    }

    /** The administration, then the calibration service, then the event that says so. */
    method StartService() returns (failure: Option<Failure>)
      requires Linked()
      modifies this`service, ledger
      ensures Linked()
      ensures Ran(ledger.calls, Entering(failure, View()))
                == Lifecycle.StartService(ledger.env, old(ledger.calls), sizes, old(View()))
    {
      if sizes.administered {
        var bound := ledger.AskEach([Other(BindAdministration)]);
        if bound == 0 {
          return Some(Ordinary);
        }
      }
      service := Unstarted;
      var done := ledger.AskEach([Step.Open(Service), Other(Announce)]);
      if done > 0 {
        service := Thread.Running;
      }
      return if done == 2 then None else Some(Ordinary);
    }

    /** `__enter__`: a failed opening goes through the same teardown as a close. */
    method Enter(interrupted: bool) returns (r: Reply)
      requires Valid()
      modifies this, ledger
      ensures Valid() && Acted(Now(), r) == Act(ledger.env, sizes, old(Now()), Op.Enter(interrupted))
      ensures managed == old(managed) || managed == null || fresh(managed)
      ensures assembly == old(assembly) || assembly == null || fresh(assembly)
    {
      if ownership || failed {
        return Busy;
      }
      var locked := ledger.Ask(TakeLock);
      if !locked.Done? {
        return LockTaken;
      }
      ownership, closing := true, false;
      var failure := OpenAll();
      if failure.None? {
        return Entered;
      }
      var ending := Shut(failure, interrupted);
      return OpenFailed(ending);
    }

    /** `close` and `__exit__` */
    method Leave(exc: Option<Failure>, interrupted: bool) returns (r: Reply)
      requires Valid()
      modifies this, ledger, managed, assembly
      ensures Valid() && Acted(Now(), r) == Act(ledger.env, sizes, old(Now()), Op.Leave(exc, interrupted))
      ensures (managed == old(managed) || managed == null) && (assembly == old(assembly) || assembly == null)
    {
      if failed {
        return Left(Unconfirmed);
      }
      if managed == null && assembly == null && !ownership {
        return Left(Nothing);
      }
      var ending := Shut(exc, interrupted);
      return Left(ending);
    }

    /** A run begun on this session; the next close ends it. */
    method StartRun() returns (r: Reply)
      requires Valid()
      modifies this`active
      ensures Valid() && Acted(Now(), r) == Act(ledger.env, sizes, old(Now()), Op.StartRun)
    {
      if failed || !ownership {
        return NotOpen;
      }
      active := true;
      return Begun;
    }
  }

  // ----- a whole life

  lemma RunStep(env: Env, sizes: Sizes, ops: seq<Op>, i: nat)
    requires i < |ops|
    ensures Run(env, sizes, ops[..i + 1]) == Act(env, sizes, Run(env, sizes, ops[..i]), ops[i]).state
  {
    assert ops[..i + 1][..i] == ops[..i];
  }

  /** A fresh session put through any operations takes exactly the described life. */
  method Lifetime(env: Env, sizes: Sizes, ops: seq<Op>) returns (replies: seq<Reply>, calls: seq<Call>)
    ensures calls == Run(env, sizes, ops).calls && |replies| == |ops|
    ensures forall i :: 0 <= i < |ops| ==> replies[i] == Act(env, sizes, Run(env, sizes, ops[..i]), ops[i]).reply
  {
    var ledger := new Ledger(env);
    var site := new SiteSession(ledger, sizes);
    replies := [];
    for i := 0 to |ops|
      invariant site.ledger == ledger && ledger.env == env && site.sizes == sizes && site.Valid()
      invariant (site.managed == null || fresh(site.managed)) && (site.assembly == null || fresh(site.assembly))
      invariant |replies| == i && site.Now() == Run(env, sizes, ops[..i])
      invariant forall k :: 0 <= k < i ==> replies[k] == Act(env, sizes, Run(env, sizes, ops[..k]), ops[k]).reply
    {
      RunStep(env, sizes, ops, i);
      var r := Perform(site, ops[i]);
      replies := replies + [r];
    }
    assert ops[..|ops|] == ops;
    calls := ledger.calls;
  }

  method Perform(site: SiteSession, op: Op) returns (r: Reply)
    requires site.Valid()
    modifies site, site.ledger, site.managed, site.assembly
    ensures site.Valid() && Acted(site.Now(), r) == Act(site.ledger.env, site.sizes, old(site.Now()), op)
    ensures site.managed == old(site.managed) || site.managed == null || fresh(site.managed)
    ensures site.assembly == old(site.assembly) || site.assembly == null || fresh(site.assembly)
  {
    match op {
      case Enter(interrupted) => r := site.Enter(interrupted);
      case StartRun => r := site.StartRun();
      case Leave(exc, interrupted) => r := site.Leave(exc, interrupted);
    }
  }
}
