/** Trusted reset of a simulated site: one administration object over the life of many bindings. */
module Administration {
  import opened Wrappers

  /** What one privileged call was, with the options it carried. */
  datatype Call = ResetWorld(world: string, options: Options) | ReadWorld(world: string)

  datatype Options = Options(seed: int, variation: Option<string>, preserve: seq<string>, retire: seq<string>)

  /** `Interrupted`: ended by an exception that handlers of ordinary exceptions let through. */
  datatype Answer = Accepted | Refused | Raised | Interrupted

  /** What a read comes to; `CutShort` is a read that was interrupted. */
  datatype Glimpse = Document(text: string) | Unreadable | CutShort

  /** The worlds: each call may answer anything, depending on every call before it. */
  datatype Env = Env(reset: seq<Call> -> Answer, read: seq<Call> -> Glimpse)

  /** One backend of a site: its name, and whether it offers trusted administration at all. */
  datatype World = World(name: string, administrable: bool)

  datatype Binding = Binding(worlds: seq<string>, owner: nat)

  datatype Snapshot = Snapshot(revision: nat, worlds: seq<(string, string)>)

  datatype Op =
    | Bind(worlds: seq<World>, owner: nat, fullySimulated: bool)
    | Unbind(owner: nat)
    | Read
    | Reset(options: Options)

  /** `Invalid`: refused on its arguments. `Unconfirmed`: a reset that began and failed. `Halted`: ended
  by an interrupt; `counted` says whether a reset had raised the revision by then. */
  datatype Reply =
    | Done | Returned(snapshot: Snapshot) | Invalid | Denied | ReadFailed | Unconfirmed | Halted(counted: bool)

  datatype Entry = Entry(op: Op, reply: Reply)

  const MAX_SEED := 0x7FFF_FFFF_FFFF_FFFF

  predicate Names(names: seq<string>) {
    "" !in names && forall i, j :: 0 <= i < j < |names| ==> names[i] != names[j]
  }

  predicate ValidOptions(o: Options) {
    && 0 <= o.seed <= MAX_SEED && Names(o.preserve) && Names(o.retire)
    && forall name <- o.preserve :: name !in o.retire
  }

  function NamesOf(worlds: seq<World>): seq<string> { seq(|worlds|, i requires 0 <= i < |worlds| => worlds[i].name) }

  predicate Bindable(op: Op) {
    op.Bind? && op.fullySimulated && op.worlds != [] && forall w <- op.worlds :: w.administrable
  }

  // ----- what a history of replies says

  function NextBound(before: Option<Binding>, e: Entry): Option<Binding> {
    match e.op
    case Bind(worlds, owner, _) => if e.reply == Done then Some(Binding(NamesOf(worlds), owner)) else before
    case Unbind(owner) => if before.Some? && before.value.owner == owner then None else before
    case _ => before
  }

  function NextResets(before: nat, e: Entry): nat {
    match e.op
    case Bind(_, _, _) => if e.reply == Done then 0 else before
    case Reset(_) => if e.reply.Returned? then before + 1 else before
    case _ => before
  }

  function NextStrays(before: nat, e: Entry): nat {
    match e.op
    case Bind(_, _, _) => if e.reply == Done then 0 else before
    case Reset(_) => if e.reply == Halted(true) then before + 1 else before
    case _ => before
  }

  /** Who the history leaves the object bound to. */
  function Bound(log: seq<Entry>): Option<Binding> {
    if log == [] then None else NextBound(Bound(log[..|log| - 1]), log[|log| - 1])
  }

  /** How many resets returned since the last bind. */
  function Resets(log: seq<Entry>): nat {
    if log == [] then 0 else NextResets(Resets(log[..|log| - 1]), log[|log| - 1])
  }

  /** How many resets since the last bind were interrupted after they had raised the revision. */
  function Strays(log: seq<Entry>): nat {
    if log == [] then 0 else NextStrays(Strays(log[..|log| - 1]), log[|log| - 1])
  }

  /** Some reset began and failed. */
  predicate Uncertain(log: seq<Entry>) { exists i :: 0 <= i < |log| && log[i].reply == Unconfirmed }

  /** The reply fits the history before it. */
  predicate Fits(log: seq<Entry>, e: Entry) {
    var bound, broken := Bound(log), Uncertain(log);
    match e.op
    case Bind(_, _, _) => e.reply == if bound.None? && !broken && Bindable(e.op) then Done else Denied
    case Unbind(_) => e.reply == Done
    case Read =>
      if bound.None? || broken then e.reply == Denied
      else e.reply == ReadFailed || e.reply == Halted(false) || Fitting(e.reply, Resets(log) + Strays(log), bound.value)
    case Reset(options) =>
      if !ValidOptions(options) then e.reply == Invalid
      else if bound.None? || broken then e.reply == Denied
      else e.reply == Unconfirmed || e.reply.Halted? || Fitting(e.reply, Resets(log) + Strays(log) + 1, bound.value)
  }

  predicate Fitting(reply: Reply, revision: nat, b: Binding) {
    reply.Returned? && reply.snapshot.revision == revision && Covers(reply.snapshot, b)
  }

  /** A snapshot holds one document for each bound world, in order. */
  predicate Covers(s: Snapshot, b: Binding) {
    |s.worlds| == |b.worlds| && forall i :: 0 <= i < |b.worlds| ==> s.worlds[i].0 == b.worlds[i]
  }

  /** Every reply fits the history before it. */
  predicate Lawful(log: seq<Entry>) {
    log == [] || (Lawful(log[..|log| - 1]) && Fits(log[..|log| - 1], log[|log| - 1]))
  }

  lemma {:induction false} LawfulAt(log: seq<Entry>, i: nat)
    requires Lawful(log) && i < |log|
    ensures Fits(log[..i], log[i])
  {
    var n := |log| - 1;
    if i < n {
      LawfulAt(log[..n], i);
      assert log[..n][..i] == log[..i];
    }
  }

  // ----- the same, by position

  /** The successful binds end at or before entry `k`. */
  ghost predicate SinceBind(log: seq<Entry>, k: nat) {
    forall m :: k <= m < |log| ==> !(log[m].op.Bind? && log[m].reply == Done)
  }

  ghost function ReturnedResets(log: seq<Entry>): set<int> {
    set k: int | 0 <= k < |log| && log[k].op.Reset? && log[k].reply.Returned? && SinceBind(log, k)
  }

  ghost function StrayResets(log: seq<Entry>): set<int> {
    set k: int | 0 <= k < |log| && log[k].op.Reset? && log[k].reply == Halted(true) && SinceBind(log, k)
  }

  lemma SinceBindGrows(log: seq<Entry>, e: Entry, k: nat)
    requires k < |log|
    ensures SinceBind(log + [e], k) <==> SinceBind(log, k) && !(e.op.Bind? && e.reply == Done)
  {
    var more := log + [e];
    if SinceBind(more, k) {
      assert forall m :: k <= m < |log| ==> more[m] == log[m];
      assert more[|log|] == e;
    }
  }

  lemma SincesGrow(log: seq<Entry>, e: Entry)
    ensures var bound := e.op.Bind? && e.reply == Done;
            && ReturnedResets(log + [e]) == (if bound then {} else ReturnedResets(log))
                                            + (if e.op.Reset? && e.reply.Returned? then {|log|} else {})
            && StrayResets(log + [e]) == (if bound then {} else StrayResets(log))
                                         + (if e.op.Reset? && e.reply == Halted(true) then {|log|} else {})
  {
    var more := log + [e];
    assert more[|log|] == e && forall k :: 0 <= k < |log| ==> more[k] == log[k];
    forall k: nat | k < |log|
      ensures SinceBind(more, k) <==> SinceBind(log, k) && !(e.op.Bind? && e.reply == Done)
    {
      SinceBindGrows(log, e, k);
    }
    assert SinceBind(more, |log|) <==> !(e.op.Bind? && e.reply == Done);
  }

  lemma SizeGrows(s: set<int>, n: nat, bound: bool, one: bool)
    requires forall k :: k in s ==> k < n
    ensures |(if bound then {} else s) + (if one then {n} else {})|
         == (if bound then 0 else |s|) + (if one then 1 else 0)
  {
    var kept := if bound then {} else s;
    assert one ==> kept !! {n};
  }

  /** The counts are numbers of entries. */
  lemma {:induction false} CountsAreSizes(log: seq<Entry>)
    ensures Resets(log) == |ReturnedResets(log)| && Strays(log) == |StrayResets(log)|
  {
    if log == [] {
      assert ReturnedResets(log) == {} && StrayResets(log) == {};
    } else {
      var n := |log| - 1;
      var before, e := log[..n], log[n];
      CountsAreSizes(before);
      assert log == before + [e];
      SincesGrow(before, e);
      var bound := e.op.Bind? && e.reply == Done;
      SizeGrows(ReturnedResets(before), n, bound, e.op.Reset? && e.reply.Returned?);
      SizeGrows(StrayResets(before), n, bound, e.op.Reset? && e.reply == Halted(true));
    }
  }

  /** Entry `k` bound these worlds for this owner, and nothing since has bound again or been the owner's unbind. */
  ghost predicate BoundBy(log: seq<Entry>, k: nat, b: Binding) {
    && k < |log| && log[k].op.Bind? && log[k].reply == Done && log[k].op.owner == b.owner
    && |log[k].op.worlds| == |b.worlds|
    && (forall i :: 0 <= i < |b.worlds| ==> log[k].op.worlds[i].name == b.worlds[i])
    && forall m :: k < m < |log| ==>
         !(log[m].op.Bind? && log[m].reply == Done) && !(log[m].op.Unbind? && log[m].op.owner == b.owner)
  }

  lemma {:induction false} BoundIff(log: seq<Entry>, b: Binding)
    ensures Bound(log) == Some(b) <==> exists k: nat :: BoundBy(log, k, b)
  {
    if log != [] {
      var n := |log| - 1;
      var before, e := log[..n], log[n];
      BoundIff(before, b);
      assert log == before + [e];
      var kept := !(e.op.Bind? && e.reply == Done) && !(e.op.Unbind? && e.op.owner == b.owner);
      if k: nat :| BoundBy(before, k, b) && kept {
        assert BoundBy(log, k, b);
      }
      if k: nat :| BoundBy(log, k, b) {
        if k < n {
          assert before[k] == log[k] && BoundBy(before, k, b);
          assert log[n] == e;
        } else {
          assert NamesOf(e.op.worlds) == b.worlds;
        }
      }
      if e.op.Bind? && e.reply == Done && Binding(NamesOf(e.op.worlds), e.op.owner) == b {
        assert BoundBy(log, n, b);
      }
    }
  }

  // ----- what every lawful history keeps

  /** A reset since the last bind was interrupted after it had raised the revision. */
  predicate Strayed(log: seq<Entry>) {
    exists k :: 0 <= k < |log| && log[k].op.Reset? && log[k].reply == Halted(true) && SameBind(log, k)
  }

  predicate SameBind(log: seq<Entry>, k: nat) {
    forall m :: k <= m < |log| ==> !(log[m].op.Bind? && log[m].reply == Done)
  }

  lemma {:induction false} StraysMeans(log: seq<Entry>)
    ensures Strays(log) > 0 <==> Strayed(log)
  {
    if log != [] {
      var n := |log| - 1;
      var before, last := log[..n], log[n];
      StraysMeans(before);
      if k: nat :| k < n && before[k].op.Reset? && before[k].reply == Halted(true) && SameBind(before, k)
                   && !(last.op.Bind? && last.reply == Done) {
        assert log[k] == before[k] && SameBind(log, k);
      }
      if k: nat :| k < n && log[k].op.Reset? && log[k].reply == Halted(true) && SameBind(log, k) {
        assert log[n] == last;
        assert forall m :: k <= m < n ==> before[m] == log[m];
        assert before[k] == log[k] && SameBind(before, k);
      }
      if last.op.Reset? && last.reply == Halted(true) {
        assert log[n] == last && SameBind(log, n);
      }
    }
  }

  /** A returned snapshot counts the resets that had returned since its bind, if and only if none since
  that bind was interrupted after it had raised the revision. */
  lemma RevisionCountsIff(log: seq<Entry>, i: nat)
    requires Lawful(log) && i < |log| && log[i].reply.Returned?
    ensures log[i].reply.snapshot.revision == Resets(log[..i + 1]) <==> !Strayed(log[..i])
    ensures log[i].reply.snapshot.revision == Resets(log[..i + 1]) + Strays(log[..i])
    ensures Bound(log[..i]).Some? && Covers(log[i].reply.snapshot, Bound(log[..i]).value)
  {
    assert log[..i + 1][..i] == log[..i];
    LawfulAt(log, i);
    StraysMeans(log[..i]);
  }

  /** After one reset that failed nothing succeeds again, whatever is unbound and rebound. */
  lemma FailStop(log: seq<Entry>, i: nat, j: nat)
    requires Lawful(log) && i < j < |log| && log[i].reply == Unconfirmed
    ensures log[j].reply.Denied? || log[j].reply.Invalid? || (log[j].op.Unbind? && log[j].reply == Done)
  {
    assert log[..j][i].reply == Unconfirmed;
    LawfulAt(log, j);
  }

  predicate Succeeds(e: Entry) { e.reply.Returned? || (e.op.Bind? && e.reply == Done) }

  /** Nothing that may follow this history succeeds. */
  ghost predicate Dead(log: seq<Entry>) { forall e :: Fits(log, e) ==> !Succeeds(e) }

  /** A reset that reached the worlds and did not return. */
  predicate Begun(e: Entry) { e.op.Reset? && (e.reply == Unconfirmed || e.reply.Halted?) }

  /** A reset that began and did not return stops everything, if and only if it was not interrupted. */
  lemma FailStopIff(log: seq<Entry>, i: nat)
    requires Lawful(log) && i < |log| && Begun(log[i])
    ensures Dead(log[..i + 1]) <==> !log[i].reply.Halted?
  {
    var before, after := log[..i], log[..i + 1];
    LawfulAt(log, i);
    assert after == before + [log[i]];
    Grow(before, log[i]);
    if log[i].reply.Halted? {
      var b := Bound(after).value;
      var documents := seq(|b.worlds|, k requires 0 <= k < |b.worlds| => (b.worlds[k], ""));
      var e := Entry(Read, Returned(Snapshot(Resets(after) + Strays(after), documents)));
      assert Fits(after, e) && Succeeds(e);
    }
  }

  predicate Uninterrupted(log: seq<Entry>) { forall e <- log :: e.op.Reset? ==> !e.reply.Halted? }

  /** Both over a whole history in which no reset was interrupted, and fail-stop over any. */
  lemma LawfulMeans(log: seq<Entry>)
    requires Lawful(log)
    ensures forall i, j :: 0 <= i < j < |log| && log[i].reply == Unconfirmed ==> !Succeeds(log[j])
    ensures Uninterrupted(log) ==> forall i {:trigger log[i]} :: 0 <= i < |log| && log[i].reply.Returned? ==>
              log[i].reply.snapshot.revision == Resets(log[..i + 1])
    ensures Uninterrupted(log) ==> forall i, j :: 0 <= i < j < |log| && Begun(log[i]) ==> !Succeeds(log[j])
  {
    forall i, j | 0 <= i < j < |log| && log[i].reply == Unconfirmed
      ensures !Succeeds(log[j])
    {
      FailStop(log, i, j);
    }
    if Uninterrupted(log) {
      forall i | 0 <= i < |log| && log[i].reply.Returned?
        ensures log[i].reply.snapshot.revision == Resets(log[..i + 1])
      {
        RevisionCountsIff(log, i);
        assert forall k :: 0 <= k < i ==> log[..i][k] == log[k] && log[k] in log;
      }
      assert forall i :: 0 <= i < |log| ==> log[i] in log;
    }
  }

  /** An unbind by anyone but the owner changes nothing any later reply can depend on. */
  lemma StrangersUnbindNothing(log: seq<Entry>, owner: nat)
    requires Bound(log).None? || Bound(log).value.owner != owner
    ensures var log' := log + [Entry(Unbind(owner), Done)];
            Bound(log') == Bound(log) && Resets(log') == Resets(log) && Strays(log') == Strays(log)
                && Uncertain(log') == Uncertain(log)
            && forall e :: Fits(log', e) <==> Fits(log, e)
  {
    Grow(log, Entry(Unbind(owner), Done));
    SameFits(log, log + [Entry(Unbind(owner), Done)]);
  }

  /** Replies depend on a history only through these four. */
  lemma SameFits(log: seq<Entry>, log': seq<Entry>)
    requires Bound(log') == Bound(log) && Resets(log') == Resets(log) && Strays(log') == Strays(log)
    requires Uncertain(log') == Uncertain(log)
    ensures forall e :: Fits(log', e) <==> Fits(log, e)
  {}

  lemma UncertainAppend(log: seq<Entry>, e: Entry)
    ensures Uncertain(log + [e]) <==> Uncertain(log) || e.reply == Unconfirmed
  {
    var log' := log + [e];
    if Uncertain(log) {
      var i :| 0 <= i < |log| && log[i].reply == Unconfirmed;
      assert log'[i].reply == Unconfirmed;
    }
    if e.reply == Unconfirmed {
      assert log'[|log|].reply == Unconfirmed;
    }
  }

  /** How one entry moves what a history says. */
  lemma Grow(log: seq<Entry>, e: Entry)
    ensures Bound(log + [e]) == NextBound(Bound(log), e) && Resets(log + [e]) == NextResets(Resets(log), e)
    ensures Strays(log + [e]) == NextStrays(Strays(log), e)
    ensures Uncertain(log + [e]) <==> Uncertain(log) || e.reply == Unconfirmed
  {
    assert (log + [e])[..|log|] == log;
    UncertainAppend(log, e);
  }

  lemma LawfulAppend(log: seq<Entry>, e: Entry)
    requires Lawful(log) && Fits(log, e)
    ensures Lawful(log + [e])
  {
    assert (log + [e])[..|log|] == log;
  }

  function Resetting(worlds: seq<string>, options: Options): seq<Call> {
    seq(|worlds|, i requires 0 <= i < |worlds| => ResetWorld(worlds[i], options))
  }

  function Reading(worlds: seq<string>): seq<Call> {
    seq(|worlds|, i requires 0 <= i < |worlds| => ReadWorld(worlds[i]))
  }

  /** Calls number `lo` to `hi` were resets their worlds accepted. */
  predicate AllAccepted(env: Env, calls: seq<Call>, lo: nat, hi: nat)
    requires lo <= hi <= |calls|
  {
    forall k :: lo <= k < hi ==> env.reset(calls[..k]) == Accepted
  }

  lemma AcceptedExtends(env: Env, calls: seq<Call>, more: seq<Call>, lo: nat, hi: nat)
    requires lo <= hi <= |calls| && AllAccepted(env, calls, lo, hi)
    ensures AllAccepted(env, calls + more, lo, hi)
  {
    forall k | lo <= k < hi
      ensures env.reset((calls + more)[..k]) == Accepted
    {
      assert (calls + more)[..k] == calls[..k];
    }
  }

  /** The documents are what the worlds answered, starting from call number `lo`. */
  predicate Answers(env: Env, calls: seq<Call>, lo: nat, documents: seq<(string, string)>)
    requires lo + |documents| <= |calls|
  {
    forall k :: 0 <= k < |documents| ==> env.read(calls[..lo + k]) == Document(documents[k].1)
  }

  lemma AnswersExtend(env: Env, calls: seq<Call>, more: seq<Call>, lo: nat, documents: seq<(string, string)>)
    requires lo + |documents| <= |calls| && Answers(env, calls, lo, documents)
    ensures Answers(env, calls + more, lo, documents)
  {
    forall k | 0 <= k < |documents|
      ensures env.read((calls + more)[..lo + k]) == Document(documents[k].1)
    {
      assert (calls + more)[..lo + k] == calls[..lo + k];
    }
  }

  /** How a stretch of calls ended. */
  datatype Ended = Finished | Failed | Cut

  /** What the last call came to. */
  function LastEnded(env: Env, calls: seq<Call>): Ended
    requires calls != []
  {
    var before := calls[..|calls| - 1];
    if calls[|calls| - 1].ReadWorld? then
      match env.read(before)
      case Document(_) => Finished
      case Unreadable => Failed
      case CutShort => Cut
    else
      match env.reset(before)
      case Accepted => Finished
      case Interrupted => Cut
      case _ => Failed
  }

  /** The last call is the one that went wrong, in this way. */
  predicate Wrong(env: Env, calls: seq<Call>, ended: Ended) {
    calls != [] && LastEnded(env, calls) == ended && !ended.Finished?
  }

  class Office {
    const env: Env
    var binding: Option<Binding>
    var revision: nat
    var failed: bool
    var calls: seq<Call>
    ghost var log: seq<Entry>

    ghost predicate Valid()
      reads this
    {
      Lawful(log) && binding == Bound(log) && failed == Uncertain(log)
          && (!failed && binding.Some? ==> revision == Resets(log) + Strays(log))
    }

    constructor (env: Env)
      ensures Valid() && log == [] && calls == [] && this.env == env
    {
      this.env := env;
      binding, revision, failed, calls, log := None, 0, false, [], [];
    }

    /** Enters one operation in the history, once the fields agree with it. */
    ghost method Note(op: Op, reply: Reply)
      requires Lawful(log) && Fits(log, Entry(op, reply))
      requires var e := Entry(op, reply);
               && binding == NextBound(Bound(log), e) && failed == (Uncertain(log) || reply == Unconfirmed)
               && (!failed && binding.Some? ==> revision == NextResets(Resets(log), e) + NextStrays(Strays(log), e))
      modifies this`log
      ensures Valid() && log == old(log) + [Entry(op, reply)]
    {
      Grow(log, Entry(op, reply));
      LawfulAppend(log, Entry(op, reply));
      log := log + [Entry(op, reply)];
    }

    /** `_bind` */
    method Bind(worlds: seq<World>, owner: nat, fullySimulated: bool) returns (reply: Reply)
      requires Valid()
      modifies this
      ensures Valid() && log == old(log) + [Entry(Op.Bind(worlds, owner, fullySimulated), reply)] && calls == old(calls)
      ensures reply == if old(binding).None? && !old(failed) && Bindable(Op.Bind(worlds, owner, fullySimulated))
                then Done else Denied
      ensures failed == old(failed)
      ensures reply == Done <==>
                old(binding).None? && !old(failed) && fullySimulated && worlds != []
                && forall w <- worlds :: w.administrable
      ensures if reply == Done then binding == Some(Binding(NamesOf(worlds), owner)) && revision == 0
              else binding == old(binding)
    {
      ghost var op := Op.Bind(worlds, owner, fullySimulated);
      if binding.Some? || failed {
        reply := Denied;
      } else if !fullySimulated || worlds == [] {
        reply := Denied;
      } else if exists w <- worlds :: !w.administrable {
        reply := Denied;
      } else {
        reply := Done;
        binding, revision := Some(Binding(NamesOf(worlds), owner)), 0;
      }
      Note(op, reply);
    }

    /** `_unbind` */
    method Unbind(owner: nat)
      requires Valid()
      modifies this
      ensures Valid() && log == old(log) + [Entry(Op.Unbind(owner), Done)] && calls == old(calls)
      ensures old(binding) != None && old(binding).value.owner != owner ==> binding == old(binding)
      ensures old(binding).Some? && old(binding).value.owner == owner ==> binding.None?
      ensures revision == old(revision) && failed == old(failed)
    {
      if binding.Some? && binding.value.owner == owner {
        binding := None;
      }
      Note(Op.Unbind(owner), Done);
    }

    /** One document from every bound world, stopping at the first that gives none. */
    method ReadWorlds(worlds: seq<string>) returns (ended: Ended, documents: seq<(string, string)>)
      modifies this`calls
      ensures ended.Finished? ==>
                calls == old(calls) + Reading(worlds) && Covers(Snapshot(0, documents), Binding(worlds, 0))
      ensures ended.Finished? ==> Answers(env, calls, |old(calls)|, documents)
      ensures !ended.Finished? ==> exists n :: 0 < n <= |worlds| && calls == old(calls) + Reading(worlds[..n])
      ensures !ended.Finished? ==> Wrong(env, calls, ended) && calls[|calls| - 1].ReadWorld?
    {
      documents := [];
      for i := 0 to |worlds|
        invariant |documents| == i && calls == old(calls) + Reading(worlds[..i])
        invariant forall k :: 0 <= k < i ==> documents[k].0 == worlds[k]
        invariant Answers(env, calls, |old(calls)|, documents)
      {
        var seen := env.read(calls);
        ghost var earlier := calls;
        calls := calls + [ReadWorld(worlds[i])];
        assert Reading(worlds[..i + 1]) == Reading(worlds[..i]) + [ReadWorld(worlds[i])];
        assert calls[..|earlier|] == earlier;
        match seen {
          case Unreadable => return Failed, [];
          case CutShort => return Cut, [];
          case Document(text) =>
            AnswersExtend(env, earlier, [ReadWorld(worlds[i])], |old(calls)|, documents);
            documents := documents + [(worlds[i], text)];
        }
      }
      assert worlds[..|worlds|] == worlds;
      ended := Finished;
    }

    /** Every bound world reset with the same options, stopping at the first that does not accept. */
    method ResetWorlds(worlds: seq<string>, options: Options) returns (ended: Ended)
      modifies this`calls
      ensures ended.Finished? ==> calls == old(calls) + Resetting(worlds, options)
      ensures ended.Finished? ==> AllAccepted(env, calls, |old(calls)|, |calls|)
      ensures !ended.Finished? ==>
                exists n :: 0 < n <= |worlds| && calls == old(calls) + Resetting(worlds[..n], options)
      ensures !ended.Finished? ==> Wrong(env, calls, ended) && calls[|calls| - 1].ResetWorld?
    {
      for i := 0 to |worlds|
        invariant calls == old(calls) + Resetting(worlds[..i], options)
        invariant AllAccepted(env, calls, |old(calls)|, |calls|)
      {
        var answer := env.reset(calls);
        ghost var earlier := calls;
        calls := calls + [ResetWorld(worlds[i], options)];
        assert Resetting(worlds[..i + 1], options) == Resetting(worlds[..i], options)
            + [ResetWorld(worlds[i], options)];
        assert calls[..|earlier|] == earlier;
        if answer != Accepted {
          return if answer.Interrupted? then Cut else Failed;
        }
        AcceptedExtends(env, earlier, [ResetWorld(worlds[i], options)], |old(calls)|, |earlier|);
      }
      assert worlds[..|worlds|] == worlds;
      return Finished;
    }

    /** `snapshot` */
    method Read() returns (reply: Reply)
      requires Valid()
      modifies this
      ensures Valid() && log == old(log) + [Entry(Op.Read, reply)]
      ensures reply.Returned? ==>
                && old(binding).Some?
                && calls == old(calls) + Reading(old(binding).value.worlds)
                && Answers(env, calls, |old(calls)|, reply.snapshot.worlds)
      ensures reply.ReadFailed? ==> Wrong(env, calls, Failed)
      ensures reply.Halted? ==> Wrong(env, calls, Cut)
      ensures reply.ReadFailed? || reply.Halted? ==> |calls| > |old(calls)| && calls[|calls| - 1].ReadWorld?
      ensures reply.Returned? || reply.ReadFailed? || reply.Halted? || reply.Denied?
      ensures reply.Denied? ==> calls == old(calls)
      ensures reply.Returned? ==> reply.snapshot.revision == revision
      ensures binding == old(binding) && failed == old(failed) && revision == old(revision)
      ensures reply.Denied? <==> old(binding).None? || old(failed)
    {
      if binding.None? || failed {
        reply := Denied;
      } else {
        var ended, documents := ReadWorlds(binding.value.worlds);
        match ended {
          case Finished => reply := Returned(Snapshot(revision, documents));
          case Failed => reply := ReadFailed;
          case Cut => reply := Halted(false);
        }
      }
      Note(Op.Read, reply);
    }

    /** The part of `reset` that reaches the worlds. */
    method ResetAndRead(worlds: seq<string>, options: Options) returns (ended: Ended, documents: seq<(string, string)>)
      modifies this`calls, this`revision
      ensures ended.Finished? ==>
                && revision == old(revision) + 1
                && calls == old(calls) + Resetting(worlds, options) + Reading(worlds)
                && AllAccepted(env, calls, |old(calls)|, |old(calls)| + |worlds|)
                && Covers(Snapshot(0, documents), Binding(worlds, 0))
                && Answers(env, calls, |old(calls)| + |worlds|, documents)
      ensures !ended.Finished? ==> Wrong(env, calls, ended)
      ensures !ended.Finished? ==> revision == old(revision) + if calls[|calls| - 1].ReadWorld? then 1 else 0
    {
      documents := [];
      ended := ResetWorlds(worlds, options);
      if !ended.Finished? {
        return;
      }
      revision := revision + 1;
      ghost var earlier := calls;
      ended, documents := ReadWorlds(worlds);
      if ended.Finished? {
        AcceptedExtends(env, earlier, Reading(worlds), |old(calls)|, |earlier|);
      }
    }

    /** `reset` on a bound object that never failed, short of the history. An interrupt passes the
    handler that records a failure. */
    method ResetBound(options: Options) returns (reply: Reply)
      requires binding.Some? && !failed
      modifies this`calls, this`revision, this`failed
      ensures reply.Returned? || reply.Unconfirmed? || reply.Halted?
      ensures failed <==> reply.Unconfirmed?
      ensures reply.Returned? ==>
                && revision == reply.snapshot.revision == old(revision) + 1
                && Covers(reply.snapshot, binding.value)
                && calls == old(calls) + Resetting(binding.value.worlds, options) + Reading(binding.value.worlds)
                && AllAccepted(env, calls, |old(calls)|, |old(calls)| + |binding.value.worlds|)
                && Answers(env, calls, |old(calls)| + |binding.value.worlds|, reply.snapshot.worlds)
      ensures reply.Unconfirmed? ==> Wrong(env, calls, Failed)
      ensures reply.Halted? ==> Wrong(env, calls, Cut) && reply.counted == calls[|calls| - 1].ReadWorld?
      ensures reply.Halted? ==> revision == old(revision) + if reply.counted then 1 else 0
    {
      var before := revision;
      var ended, documents := ResetAndRead(binding.value.worlds, options);
      match ended {
        case Finished => reply := Returned(Snapshot(revision, documents));
        case Failed => failed, reply := true, Unconfirmed;
        case Cut => reply := Halted(revision != before);
      }
    }

    /** `reset` */
    method Reset(options: Options) returns (reply: Reply)
      requires Valid()
      modifies this
      ensures Valid() && log == old(log) + [Entry(Op.Reset(options), reply)] && binding == old(binding)
      ensures reply.Returned? ==> old(binding).Some?
      ensures reply.Returned? ==>
                var worlds := old(binding).value.worlds;
                && Covers(reply.snapshot, old(binding).value)
                && calls == old(calls) + Resetting(worlds, options) + Reading(worlds)
                && AllAccepted(env, calls, |old(calls)|, |old(calls)| + |worlds|)
                && Answers(env, calls, |old(calls)| + |worlds|, reply.snapshot.worlds)
      ensures reply.Unconfirmed? ==> Wrong(env, calls, Failed)
      ensures reply.Halted? ==> Wrong(env, calls, Cut) && reply.counted == calls[|calls| - 1].ReadWorld?
      ensures reply.Halted? ==> revision == old(revision) + if reply.counted then 1 else 0
      ensures reply.Denied? || reply.Invalid? ==> calls == old(calls)
      ensures failed == (old(failed) || reply.Unconfirmed?)
      ensures reply.Invalid? <==> !ValidOptions(options)
      ensures !reply.Invalid? <==>
                && 0 <= options.seed < 0x8000_0000_0000_0000 && "" !in options.preserve && "" !in options.retire
                && (forall i, j :: 0 <= i < j < |options.preserve| ==> options.preserve[i] != options.preserve[j])
                && (forall i, j :: 0 <= i < j < |options.retire| ==> options.retire[i] != options.retire[j])
                && forall name :: name in options.preserve ==> name !in options.retire
      ensures reply.Denied? <==> ValidOptions(options) && (old(binding).None? || old(failed))
      ensures reply.Returned? || reply.Unconfirmed? || reply.Halted? || reply.Denied? || reply.Invalid?
    {
      if !ValidOptions(options) {
        reply := Invalid;
        Note(Op.Reset(options), reply);
      } else if binding.None? || failed {
        reply := Denied;
        Note(Op.Reset(options), reply);
      } else {
        reply := ResetBound(options);
        assert Fits(log, Entry(Op.Reset(options), reply));
        Note(Op.Reset(options), reply);
      }
    }

    /** Any one operation. */
    method Perform(op: Op) returns (reply: Reply)
      requires Valid()
      modifies this
      ensures Valid() && log == old(log) + [Entry(op, reply)]
    {
      match op {
        case Bind(worlds, owner, fullySimulated) => reply := Bind(worlds, owner, fullySimulated);
        case Unbind(owner) => Unbind(owner); reply := Done;
        case Read => reply := Read();
        case Reset(options) => reply := Reset(options);
      }
    }
  }

  predicate Performs(log: seq<Entry>, ops: seq<Op>) {
    |log| == |ops| && forall i :: 0 <= i < |ops| ==> log[i].op == ops[i]
  }

  /** A fresh object put through any operations, against worlds that may answer anything: one failed
  reset ends all success, and if no reset was interrupted, so does every reset that did not return, and
  every snapshot counts the resets since its bind. */
  method Lifetime(env: Env, ops: seq<Op>) returns (log: seq<Entry>)
    ensures Performs(log, ops) && Lawful(log)
    ensures forall i, j :: 0 <= i < j < |log| && log[i].reply == Unconfirmed ==> !Succeeds(log[j])
    ensures Uninterrupted(log) ==> forall i {:trigger log[i]} :: 0 <= i < |log| && log[i].reply.Returned? ==>
              log[i].reply.snapshot.revision == Resets(log[..i + 1])
    ensures Uninterrupted(log) ==> forall i, j :: 0 <= i < j < |log| && Begun(log[i]) ==> !Succeeds(log[j])
  {
    var office := new Office(env);
    log := [];
    for i := 0 to |ops|
      invariant office.Valid() && office.log == log && Performs(log, ops[..i])
    {
      var reply := office.Perform(ops[i]);
      log := log + [Entry(ops[i], reply)];
    }
    LawfulMeans(log);
  }

  // ----- the two inputs

  /** A fresh object, bound. */
  method BoundOffice(env: Env, worlds: seq<World>, owner: nat) returns (office: Office)
    requires Bindable(Op.Bind(worlds, owner, true))
    ensures fresh(office) && office.Valid() && office.env == env && office.calls == [] && !office.failed
              && office.revision == 0
    ensures office.binding == Some(Binding(NamesOf(worlds), owner))
    ensures office.log == [Entry(Op.Bind(worlds, owner, true), Done)]
  {
    office := new Office(env);
    var done := office.Bind(worlds, owner, true);
  }

  lemma TwoMore(log: seq<Entry>, bind: Entry, reset: Entry, read: Entry)
    requires log == [bind] + [reset] + [read] && bind.op.Bind? && bind.reply == Done && reset.op.Reset?
              && !reset.reply.Returned?
    requires read.op == Read
    ensures Resets(log) == 0
  {
    Grow([], bind);
    assert [] + [bind] == [bind];
    Grow([bind], reset);
    Grow([bind] + [reset], read);
  }

  /** The first call is interrupted and every other one answers. */
  function InterruptedReset(): Env {
    Env(calls => if calls == [] then Interrupted else Accepted, calls => Document(""))
  }

  /** A reset interrupted in its first world leaves the object as ready as before: the next snapshot is
  returned, of worlds of which some were reset. */
  method ResetThenSnapshot(worlds: seq<World>, owner: nat, options: Options)
    returns (halted: Reply, read: Reply, ghost log: seq<Entry>)
    requires Bindable(Op.Bind(worlds, owner, true)) && ValidOptions(options)
    ensures halted == Halted(false) && Begun(Entry(Op.Reset(options), halted)) && read.Returned?
    ensures Lawful(log)
    ensures log == [Entry(Op.Bind(worlds, owner, true), Done)] + [Entry(Op.Reset(options), halted)]
              + [Entry(Op.Read, read)]
  {
    var office := BoundOffice(InterruptedReset(), worlds, owner);
    halted := office.Reset(options);
    assert office.calls[..0] == [];
    read := office.Read();
    log := office.log;
  }

  /** Every reset is accepted, and the read that follows the first one is interrupted. */
  function InterruptedRead(n: nat): Env {
    Env(calls => Accepted, calls => if |calls| == n then CutShort else Document(""))
  }

  lemma NoAnswer(n: nat, calls: seq<Call>, documents: seq<(string, string)>)
    requires documents != [] && n + |documents| <= |calls|
    ensures !Answers(InterruptedRead(n), calls, n, documents)
  {
    var env := InterruptedRead(n);
    assert |calls[..n + 0]| == n && env.read(calls[..n + 0]) == CutShort;
    assert env.read(calls[..n + 0]) != Document(documents[0].1);
  }

  /** A reset interrupted in the reads after it raised the revision: the next snapshot is one ahead. */
  method CountThenSnapshot(worlds: seq<World>, owner: nat, options: Options)
    returns (halted: Reply, read: Reply, ghost log: seq<Entry>)
    requires Bindable(Op.Bind(worlds, owner, true)) && ValidOptions(options)
    ensures halted == Halted(true) && read.Returned? && read.snapshot.revision == 1
    ensures Lawful(log) && Resets(log) == 0
    ensures log == [Entry(Op.Bind(worlds, owner, true), Done)] + [Entry(Op.Reset(options), halted)]
              + [Entry(Op.Read, read)]
  {
    var n := |worlds|;
    var office := BoundOffice(InterruptedRead(n), worlds, owner);
    halted := office.Reset(options);
    if halted.Returned? {
      NoAnswer(n, office.calls, halted.snapshot.worlds);
    }
    read := office.Read();
    log := office.log;
    TwoMore(log, Entry(Op.Bind(worlds, owner, true), Done), Entry(Op.Reset(options), halted), Entry(Op.Read, read));
  }
}
