/** Every call made while a site is opened and closed, and what a history of them has left behind. */
module Calls {

  /** What is opened and must be closed again. An arm is known by its part and its place in what the
  part's factory returned; `Capture` and `Service` are threads, `Pump` the robot's own loop, `Probe` the
  core session that asks the host for its authorization. */
  datatype Item =
    | World(n: nat) | Camera(n: nat) | Arm(part: nat, k: nat) | Core | Pump | Capture(n: nat) | Service | Probe

  /** Every call that can fail. `Undo` is the close a failed build gives to something it has not handed
  over yet; `Close` is any other. `Report` tells the operator that a close raised. `Other` calls open and
  close nothing. */
  datatype Step =
    | TakeLock | DropLock
    | Open(item: Item) | Close(item: Item) | Undo(item: Item) | Report(undo: bool, item: Item)
    | Other(what: Work)

  datatype Work =
    | Assemble | Authorize | NewRig | BuildPart(n: nat) | CountArms(n: nat) | CheckPart(n: nat) | CheckParts | Prepare
    | StartConsole | MakePump | MakeCapturePumps | ReportFailure | BindAdministration | Announce | ExitRun | WaitParked

  /** `Raised`: an ordinary exception. `Interrupted`: one that handlers of ordinary exceptions let
  through, as the keyboard's interrupt is. */
  datatype Outcome = Done | Raised | Interrupted

  datatype Call = Call(step: Step, outcome: Outcome)

  /** How a call ends, and how many arms a factory returns, may depend on all that happened. */
  datatype Env = Env(outcome: (seq<Call>, Step) -> Outcome, arms: seq<Call> -> nat)

  /** A close of one of these that raises is reported; that of any other is not. */
  predicate Reported(x: Item) { x.World? || x.Camera? || x.Arm? || x.Capture? }

  // ----- what a history has left behind

  /** The account of one ownership, from the moment the lock was taken. `live`: opened and not confirmed
  closed. `owed`: opened with no close tried since. `worlds`: the worlds whose open began, oldest first,
  less those whose close was tried. `unsure`: units whose close by a failed build raised. `torn`: those of
  which the session never heard. `spared`: what a stretch of closings that was cut short left out. */
  datatype Tally = Tally(live: set<Item>, owed: set<Item>, worlds: seq<Item>, held: bool, unsure: set<Item>,
                         torn: set<Item>, spared: set<Item>)

  const NOTHING: Tally := Tally({}, {}, [], false, {}, {}, {})

  /** A world counts as opened as soon as its open is called. */
  predicate Begins(c: Call, x: Item) { c.step == Open(x) && (x.World? || c.outcome.Done?) }

  predicate Tries(c: Call, x: Item) { c.step == Close(x) || c.step == Undo(x) }

  predicate Ends(c: Call, x: Item) { Tries(c, x) && c.outcome.Done? }

  /** An unconfirmed close by a failed build that reaches nobody: it was interrupted, or it raised and
  its report failed, or it raised and is of a kind that is not reported. */
  predicate Tears(c: Call) {
    match c.step
    case Undo(x) => c.outcome.Interrupted? || (c.outcome.Raised? && !Reported(x))
    case Report(undo, _) => undo && !c.outcome.Done?
    case _ => false
  }

  /** A stretch of closings ends here: a close was interrupted, or the report of one failed. */
  predicate Cuts(c: Call) {
    match c.step
    case Close(_) => c.outcome.Interrupted?
    case Undo(_) => c.outcome.Interrupted?
    case Report(_, _) => !c.outcome.Done?
    case _ => false
  }

  /** What nobody will close any more when a stretch is cut at this step. A failed build forgets the other
  cameras, or the arms of this part and later ones; its worlds stay with the assembly. A teardown cut
  before the core leaves out all but the worlds, and one cut later the rest of its kind. The core is
  followed by the arms whatever happens to it. */
  predicate LeavesOut(undo: bool, y: Item, x: Item) {
    if undo then if y.Camera? then x.Camera? else y.Arm? && x.Arm? && x.part >= y.part
    else if y.Camera? || y.Capture? || y.Pump? then !x.World?
    else (y.Arm? && x.Arm?) || (y.World? && x.World?)
  }

  predicate Spares(step: Step, x: Item) {
    match step
    case Undo(y) => LeavesOut(true, y, x)
    case Close(y) => LeavesOut(false, y, x)
    case Report(undo, y) => LeavesOut(undo, y, x)
    case _ => false
  }

  function Pop(worlds: seq<Item>, x: Item): seq<Item> {
    if x.World? && worlds != [] then worlds[..|worlds| - 1] else worlds
  }

  /** The account once this close, or its report, is over. */
  function Cut(t: Tally, c: Call): Tally {
    if Cuts(c) then t.(spared := t.spared + set x | x in t.owed && Spares(c.step, x)) else t
  }

  function Tried(t: Tally, x: Item, done: bool): Tally {
    t.(live := if done then t.live - {x} else t.live, owed := t.owed - {x}, worlds := Pop(t.worlds, x))
  }

  function Torn(t: Tally, c: Call, x: Item): Tally { if Tears(c) then t.(torn := t.torn + {x}) else t }

  function Next(t: Tally, c: Call): Tally {
    match c.step
    case TakeLock => if c.outcome.Done? then NOTHING.(held := true) else t
    case DropLock => t.(held := false)
    case Open(x) =>
      if !Begins(c, x) then t
      else t.(live := t.live + {x}, owed := t.owed + {x}, worlds := if x.World? then t.worlds + [x] else t.worlds)
    case Close(x) => Cut(Tried(t, x, c.outcome.Done?), c)
    case Undo(x) =>
      var t' := Torn(Cut(Tried(t, x, c.outcome.Done?), c), c, x);
      if c.outcome.Raised? then t'.(unsure := t'.unsure + {x}) else t'
    case Report(_, x) => Torn(Cut(t, c), c, x)
    case Other(what) => if what.ReportFailure? && !c.outcome.Done? then t.(torn := t.torn + t.unsure) else t
  }

  function Fold(calls: seq<Call>): Tally {
    if calls == [] then NOTHING else Next(Fold(calls[..|calls| - 1]), calls[|calls| - 1])
  }

  predicate TopWorld(worlds: seq<Item>, x: Item) { x.World? ==> worlds != [] && worlds[|worlds| - 1] == x }

  predicate Over(t: Tally, x: Item) { x in t.torn || x in t.unsure || x in t.spared }

  /** Everything happens under the lock. It is dropped with nothing live unless something was torn, and
  then with something live; and what had no close tried was spared. A world is closed only when every
  world whose open began later has had its close tried. What is over is never closed again. */
  predicate Allowed(t: Tally, step: Step) {
    match step
    case TakeLock => !t.held
    case DropLock => t.held && t.worlds == [] && (t.live == {} <==> t.torn == {}) && t.owed == t.spared
    case Close(x) => t.held && !Over(t, x) && TopWorld(t.worlds, x)
    case Undo(x) => t.held && x in t.live && !Over(t, x) && TopWorld(t.worlds, x)
    case Report(undo, x) => t.held && (undo ==> x in t.live)
    case _ => t.held
  }

  /** Every call was allowed by what the calls before it had left behind. */
  predicate Orderly(calls: seq<Call>) {
    calls == [] || (Orderly(calls[..|calls| - 1]) && Allowed(Fold(calls[..|calls| - 1]), calls[|calls| - 1].step))
  }

  lemma OrderlyGrows(calls: seq<Call>, c: Call)
    requires Orderly(calls) && Allowed(Fold(calls), c.step)
    ensures Orderly(calls + [c]) && Fold(calls + [c]) == Next(Fold(calls), c)
  {
    assert (calls + [c])[..|calls|] == calls;
  }

  lemma {:induction false} AllowedAt(calls: seq<Call>, j: nat)
    requires Orderly(calls) && j < |calls|
    ensures Allowed(Fold(calls[..j]), calls[j].step)
  {
    var n := |calls| - 1;
    if j < n {
      AllowedAt(calls[..n], j);
      assert calls[..n][..j] == calls[..j];
    }
  }

  // ----- what a release means

  /** Calls `h + 1` up to the end were made under the lock taken by call `h`. */
  predicate Under(calls: seq<Call>, h: nat) {
    h < |calls| && calls[h] == Call(TakeLock, Done) && forall k :: h < k < |calls| ==> !calls[k].step.TakeLock?
  }

  /** Opened under this lock by call `i`, with no close since that returned. */
  predicate Remains(calls: seq<Call>, h: nat, i: nat, x: Item) {
    h < i < |calls| && Begins(calls[i], x) && forall k :: i < k < |calls| ==> !Ends(calls[k], x)
  }

  /** Opened under this lock by call `i`, with no close tried since. */
  predicate Waits(calls: seq<Call>, h: nat, i: nat, x: Item) {
    h < i < |calls| && Begins(calls[i], x) && forall k :: i < k < |calls| ==> !Tries(calls[k], x)
  }

  /** Opened under this lock, with no close tried since. */
  ghost predicate Untried(calls: seq<Call>, h: nat, x: Item) { exists i: nat :: Waits(calls, h, i, x) }

  /** One more call: what remained and is not ended by it remains, and so does what it begins. */
  lemma RemainsGrows(calls: seq<Call>, h: nat, x: Item)
    requires calls != [] && h < |calls| - 1
    ensures var n := |calls| - 1;
            (exists i: nat :: Remains(calls, h, i, x)) <==>
              Begins(calls[n], x) || (!Ends(calls[n], x) && exists i: nat :: Remains(calls[..n], h, i, x))
  {
    var n := |calls| - 1;
    var before := calls[..n];
    if i: nat :| Remains(before, h, i, x) && !Ends(calls[n], x) {
      assert Remains(calls, h, i, x);
    }
    if i: nat :| Remains(calls, h, i, x) && i < n {
      assert forall k :: i < k < n ==> before[k] == calls[k];
      assert Remains(before, h, i, x);
    }
    if Begins(calls[n], x) {
      assert Remains(calls, h, n, x);
    }
  }

  lemma WaitsGrows(calls: seq<Call>, h: nat, x: Item)
    requires calls != [] && h < |calls| - 1
    ensures var n := |calls| - 1;
            Untried(calls, h, x) <==> Begins(calls[n], x) || (!Tries(calls[n], x) && Untried(calls[..n], h, x))
  {
    var n := |calls| - 1;
    var before := calls[..n];
    if i: nat :| Waits(before, h, i, x) && !Tries(calls[n], x) {
      assert Waits(calls, h, i, x);
    }
    if i: nat :| Waits(calls, h, i, x) && i < n {
      assert forall k :: i < k < n ==> before[k] == calls[k];
      assert Waits(before, h, i, x);
    }
    if Begins(calls[n], x) {
      assert Waits(calls, h, n, x);
    }
  }

  lemma {:induction false} LiveMeans(calls: seq<Call>, h: nat, x: Item)
    requires Under(calls, h)
    ensures x in Fold(calls).live <==> exists i: nat :: Remains(calls, h, i, x)
    decreases |calls|
  {
    var n := |calls| - 1;
    if h < n {
      LiveMeans(calls[..n], h, x);
      RemainsGrows(calls, h, x);
    }
  }

  lemma {:induction false} OwedMeans(calls: seq<Call>, h: nat, x: Item)
    requires Under(calls, h)
    ensures x in Fold(calls).owed <==> Untried(calls, h, x)
    decreases |calls|
  {
    var n := |calls| - 1;
    if h < n {
      OwedMeans(calls[..n], h, x);
      WaitsGrows(calls, h, x);
    }
  }

  /** Call `k` cut a stretch of closings short that still had `x` to close. */
  ghost predicate CutShort(calls: seq<Call>, h: nat, k: nat, x: Item) {
    h < k < |calls| && Cuts(calls[k]) && Spares(calls[k].step, x) && Untried(calls[..k + 1], h, x)
  }

  lemma {:induction false} SparedMeans(calls: seq<Call>, h: nat, x: Item)
    requires Under(calls, h)
    ensures x in Fold(calls).spared <==> exists k: nat :: CutShort(calls, h, k, x)
    decreases |calls|
  {
    var n := |calls| - 1;
    if h < n {
      var before := calls[..n];
      SparedMeans(before, h, x);
      OwedMeans(calls, h, x);
      assert calls[..n + 1] == calls;
      if k: nat :| CutShort(before, h, k, x) {
        assert before[..k + 1] == calls[..k + 1];
        assert CutShort(calls, h, k, x);
      }
      if k: nat :| CutShort(calls, h, k, x) && k < n {
        assert before[..k + 1] == calls[..k + 1];
        assert CutShort(before, h, k, x);
      }
      if CutShort(calls, h, n, x) {
        assert x in Fold(calls).spared;
      }
      if x in Fold(calls).spared && x !in Fold(before).spared {
        assert CutShort(calls, h, n, x);
      }
    }
  }

  /** Some failed build's close raised under this lock, before call `k`. */
  predicate Doubts(calls: seq<Call>, h: nat, k: nat) {
    exists m :: h < m < k && m < |calls| && calls[m].step.Undo? && calls[m].outcome.Raised?
  }

  /** Call `k` kept the session from hearing of a failed build's close that is not confirmed: that close was
  torn, or the failure that says so was lost because its own announcement failed. */
  predicate Loses(calls: seq<Call>, h: nat, k: nat) {
    && h < k < |calls|
    && (Tears(calls[k]) || (calls[k].step == Other(ReportFailure) && !calls[k].outcome.Done? && Doubts(calls, h, k)))
  }

  /** Whatever a failed build could not close under this lock, the session heard of it. */
  predicate Heard(calls: seq<Call>, h: nat) { forall k: nat :: h < k < |calls| ==> !Loses(calls, h, k) }

  lemma LosesEarlier(calls: seq<Call>, h: nat, k: nat)
    requires calls != [] && k < |calls| - 1
    ensures Loses(calls[..|calls| - 1], h, k) == Loses(calls, h, k)
  {
    var before := calls[..|calls| - 1];
    assert before[k] == calls[k];
    if m :| h < m < k && m < |calls| && calls[m].step.Undo? && calls[m].outcome.Raised? {
      assert before[m] == calls[m];
    }
    assert Doubts(before, h, k) == Doubts(calls, h, k);
  }

  lemma {:induction false} UnsureMeans(calls: seq<Call>, h: nat)
    requires Under(calls, h)
    ensures Fold(calls).unsure != {} <==> Doubts(calls, h, |calls|)
    decreases |calls|
  {
    var n := |calls| - 1;
    if h < n {
      var before := calls[..n];
      UnsureMeans(before, h);
      if m :| h < m < n && calls[m].step.Undo? && calls[m].outcome.Raised? {
        assert before[m] == calls[m];
      }
      if m :| h < m < n && before[m].step.Undo? && before[m].outcome.Raised? {
        assert before[m] == calls[m];
      }
      if calls[n].step.Undo? && calls[n].outcome.Raised? {
        assert Doubts(calls, h, n + 1);
        assert calls[n].step.item in Fold(calls).unsure;
      }
    }
  }

  lemma {:induction false} TornMeans(calls: seq<Call>, h: nat)
    requires Under(calls, h)
    ensures Fold(calls).torn == {} <==> Heard(calls, h)
    decreases |calls|
  {
    var n := |calls| - 1;
    if h < n {
      var before := calls[..n];
      TornMeans(before, h);
      UnsureMeans(before, h);
      assert Doubts(before, h, n) == Doubts(calls, h, n) by {
        assert forall m :: 0 <= m < n ==> before[m] == calls[m];
      }
      forall k: nat | h < k < n
        ensures Loses(before, h, k) == Loses(calls, h, k)
      {
        LosesEarlier(calls, h, k);
      }
      if Tears(calls[n]) {
        assert calls[n].step.item in Fold(calls).torn;
      }
      assert Fold(calls).torn == {} <==> Fold(before).torn == {} && !Loses(calls, h, n);
    }
  }

  /** What was torn stays live. */
  lemma {:induction false} TornLive(calls: seq<Call>)
    requires Orderly(calls)
    ensures Fold(calls).torn <= Fold(calls).live && Fold(calls).unsure <= Fold(calls).live
  {
    if calls != [] {
      TornLive(calls[..|calls| - 1]);
    }
  }

  /** Everything opened under the lock taken by call `h` has since had a close that returned. */
  ghost predicate AllClosed(calls: seq<Call>, h: nat) {
    forall i, x :: h < i < |calls| && Begins(calls[i], x) ==> exists k :: i < k < |calls| && Ends(calls[k], x)
  }

  lemma NoneLive(calls: seq<Call>, h: nat)
    requires Under(calls, h)
    ensures AllClosed(calls, h) <==> Fold(calls).live == {}
  {
    if Fold(calls).live != {} {
      var x :| x in Fold(calls).live;
      LiveMeans(calls, h, x);
      var i: nat :| Remains(calls, h, i, x);
      assert Begins(calls[i], x) && !exists k :: i < k < |calls| && Ends(calls[k], x);
    } else {
      forall i, x | h < i < |calls| && Begins(calls[i], x)
        ensures exists k :: i < k < |calls| && Ends(calls[k], x)
      {
        LiveMeans(calls, h, x);
        assert !Remains(calls, h, i, x);
      }
    }
  }

  /** The release theorem, with its exact condition: at a release everything opened since the lock was
  taken is closed, if and only if the session heard of all that a failed build could not close. */
  lemma ReleaseSafeIff(calls: seq<Call>, h: nat, j: nat)
    requires Orderly(calls) && j < |calls| && calls[j].step == DropLock && Under(calls[..j], h)
    ensures AllClosed(calls[..j], h) <==> Heard(calls[..j], h)
  {
    AllowedAt(calls, j);
    NoneLive(calls[..j], h);
    TornMeans(calls[..j], h);
  }

  // ----- stretches of a history

  /** Every call from number `n` on returned. */
  predicate Smooth(calls: seq<Call>, n: nat) { forall k :: n <= k < |calls| ==> calls[k].outcome.Done? }
}
