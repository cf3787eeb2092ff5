/** Which declared transforms the frames of an action space depend on. */
module Frames {
  import opened Wrappers

  /** One entry of the declared graph; an entry that is not a mapping is malformed. */
  datatype Transform = Malformed | Edge(child: Option<string>, parent: Option<string>, data: nat)

  /** The entry leads from `child` to a parent frame worth following. */
  predicate Leads(t: Transform, child: string, parent: string) {
    t.Edge? && t.child == Some(child) && t.parent == Some(parent) && parent != ""
  }

  /** A chain of child-to-parent steps that starts at an action frame. */
  ghost predicate IsChain(ts: seq<Transform>, action: set<string>, chain: seq<string>) {
    && |chain| > 0 && chain[0] in action
    && forall k :: 0 <= k < |chain| - 1 ==> Linked(ts, chain, k)
  }

  /** Some entry leads from position `k` of the chain to the next. */
  ghost predicate Linked(ts: seq<Transform>, chain: seq<string>, k: nat)
    requires k < |chain| - 1
  {
    exists t :: t in ts && Leads(t, chain[k], chain[k + 1])
  }

  ghost predicate Reachable(ts: seq<Transform>, action: set<string>, frame: string) {
    exists chain :: IsChain(ts, action, chain) && chain[|chain| - 1] == frame
  }

  /** The entry hangs below a reachable frame. */
  ghost predicate IsRelevant(ts: seq<Transform>, action: set<string>, t: Transform) {
    t.Edge? && t.child.Some? && Reachable(ts, action, t.child.value)
  }

  /** The relevant entries among `some`, in order, reachability being judged in the graph `ts`. */
  ghost function Relevant(some: seq<Transform>, ts: seq<Transform>, action: set<string>): seq<Transform> {
    if some == [] then []
    else Relevant(some[..|some| - 1], ts, action)
         + (if IsRelevant(ts, action, some[|some| - 1]) then [some[|some| - 1]] else [])
  }

  lemma ActionReachable(ts: seq<Transform>, action: set<string>, frame: string)
    requires frame in action
    ensures Reachable(ts, action, frame)
  {
    assert IsChain(ts, action, [frame]) && [frame][|[frame]| - 1] == frame;
  }

  lemma ParentReachable(ts: seq<Transform>, action: set<string>, t: Transform, child: string, parent: string)
    requires Reachable(ts, action, child) && t in ts && Leads(t, child, parent)
    ensures Reachable(ts, action, parent)
  {
    var chain :| IsChain(ts, action, chain) && chain[|chain| - 1] == child;
    var longer := chain + [parent];
    forall k | 0 <= k < |longer| - 1
      ensures Linked(ts, longer, k)
    {
      if k < |chain| - 1 {
        assert Linked(ts, chain, k);
        var u :| u in ts && Leads(u, chain[k], chain[k + 1]);
        assert Leads(u, longer[k], longer[k + 1]);
      } else {
        assert Leads(t, longer[k], longer[k + 1]);
      }
    }
    assert IsChain(ts, action, longer) && longer[|longer| - 1] == parent;
  }

  // ----- the worklist

  predicate HasChild(t: Transform, child: string) { t.Edge? && t.child == Some(child) }

  /** Every entry below `frame` has been taken. */
  ghost predicate Done(ts: seq<Transform>, taken: set<nat>, frame: string) {
    forall i :: 0 <= i < |ts| && HasChild(ts[i], frame) ==> i in taken
  }

  ghost predicate Sound(ts: seq<Transform>, action: set<string>, taken: set<nat>, frontier: set<string>) {
    && (forall i :: i in taken ==> i < |ts| && IsRelevant(ts, action, ts[i]))
    && (forall f :: f in frontier ==> Reachable(ts, action, f))
  }

  /** The parent an entry makes worth following. */
  function Upward(t: Transform): Option<string> {
    if t.Edge? && t.parent.Some? && t.parent.value != "" then t.parent else None
  }

  /** The frame is waiting, being worked on, or done. */
  ghost predicate Met(ts: seq<Transform>, taken: set<nat>, frontier: set<string>, busy: set<string>, frame: string) {
    frame in frontier || frame in busy || Done(ts, taken, frame)
  }

  /** Every action frame and every parent of a taken entry has been met. */
  ghost predicate Covered(ts: seq<Transform>, action: set<string>, taken: set<nat>, frontier: set<string>,
                          busy: set<string>) {
    && (forall f :: f in action ==> Met(ts, taken, frontier, busy, f))
    && (forall i :: i in taken && i < |ts| && Upward(ts[i]).Some? ==>
        Met(ts, taken, frontier, busy, Upward(ts[i]).value))
  }

  /** The state of the search between two turns of its loops. */
  ghost predicate Searching(ts: seq<Transform>, action: set<string>, taken: set<nat>, frontier: set<string>,
                            busy: set<string>) {
    Sound(ts, action, taken, frontier + busy) && Covered(ts, action, taken, frontier, busy)
  }

  lemma SearchStarts(ts: seq<Transform>, action: set<string>)
    ensures Searching(ts, action, {}, action, {})
  {
    forall f | f in action
      ensures Reachable(ts, action, f)
    {
      ActionReachable(ts, action, f);
    }
  }

  lemma SearchPops(ts: seq<Transform>, action: set<string>, taken: set<nat>, frontier: set<string>, child: string)
    requires Searching(ts, action, taken, frontier, {}) && child in frontier
    ensures Searching(ts, action, taken, frontier - {child}, {child})
  {
    assert frontier - {child} + {child} == frontier + {};
    assert forall f :: Met(ts, taken, frontier, {}, f) ==> Met(ts, taken, frontier - {child}, {child}, f);
  }

  lemma SearchTakes(ts: seq<Transform>, action: set<string>, taken: set<nat>, frontier: set<string>, child: string,
                    i: nat, frontier': set<string>)
    requires Searching(ts, action, taken, frontier, {child}) && i < |ts| && HasChild(ts[i], child)
    requires frontier' == if Upward(ts[i]).Some? then frontier + {Upward(ts[i]).value} else frontier
    ensures Searching(ts, action, taken + {i}, frontier', {child})
  {
    assert child in frontier + {child};
    if Upward(ts[i]).Some? {
      ParentReachable(ts, action, ts[i], child, Upward(ts[i]).value);
    }
    assert forall f :: Met(ts, taken, frontier, {child}, f) ==> Met(ts, taken + {i}, frontier', {child}, f);
  }

  lemma SearchCloses(ts: seq<Transform>, action: set<string>, taken: set<nat>, frontier: set<string>, child: string)
    requires Searching(ts, action, taken, frontier, {child}) && Done(ts, taken, child)
    ensures Searching(ts, action, taken, frontier, {})
  {
    assert forall f :: Met(ts, taken, frontier, {child}, f) ==> Met(ts, taken, frontier, {}, f);
    assert forall f :: f in frontier + {} ==> f in frontier + {child};
  }

  /** `_relevant_frames`, from the frames of the action space on: whatever order the set pops in,
  and whatever cycles the graph has, it ends with exactly the relevant entries in their order. */
  method RelevantFrames(ts: seq<Transform>, action: set<string>) returns (r: seq<Transform>)
    ensures r == Relevant(ts, ts, action)
  {
    var taken: set<nat> := {};
    var frontier := action;
    SearchStarts(ts, action);
    while frontier != {}
      invariant Searching(ts, action, taken, frontier, {}) && |taken| <= |ts|
      decreases |ts| - |taken|, |frontier|
    {
      var child :| child in frontier;
      SearchPops(ts, action, taken, frontier, child);
      taken, frontier := Scan(ts, action, taken, frontier - {child}, child);
    }
    TakenAreRelevant(ts, action, taken);
    r := Pick(ts, |ts|, taken);
    PickIsRelevant(ts, action, |ts|, taken);
    assert ts[..|ts|] == ts;
  }

  /** The inner loop: take every entry below `child`, and queue the parents. */
  method Scan(ts: seq<Transform>, ghost action: set<string>, taken0: set<nat>, frontier0: set<string>, child: string)
    returns (taken: set<nat>, frontier: set<string>)
    requires Searching(ts, action, taken0, frontier0, {child})
    ensures Searching(ts, action, taken, frontier, {})
    ensures |taken| <= |ts| && (|taken| > |taken0| || (taken == taken0 && frontier == frontier0))
  {
    taken, frontier := taken0, frontier0;
    for i := 0 to |ts|
      invariant Searching(ts, action, taken, frontier, {child})
      invariant |taken| > |taken0| || (taken == taken0 && frontier == frontier0)
      invariant forall k :: 0 <= k < i && HasChild(ts[k], child) ==> k in taken
    {
      if HasChild(ts[i], child) && i !in taken {
        taken, frontier := Take(ts, action, taken, frontier, child, i);
      }
    }
    SearchCloses(ts, action, taken, frontier, child);
    InRange(taken, |ts|);
  }

  /** One entry below `child`: it is taken, and its parent queued. */
  method Take(ts: seq<Transform>, ghost action: set<string>, taken0: set<nat>, frontier0: set<string>,
              ghost child: string, i: nat)
    returns (taken: set<nat>, frontier: set<string>)
    requires Searching(ts, action, taken0, frontier0, {child})
    requires i < |ts| && HasChild(ts[i], child) && i !in taken0
    ensures Searching(ts, action, taken, frontier, {child})
    ensures taken == taken0 + {i} && |taken| == |taken0| + 1
  {
    var parent := Upward(ts[i]);
    frontier := if parent.Some? then frontier0 + {parent.value} else frontier0;
    SearchTakes(ts, action, taken0, frontier0, child, i, frontier);
    taken := taken0 + {i};
  }

  /** The entries at the taken positions of `ts[..n]`, in order. */
  function Pick(ts: seq<Transform>, n: nat, taken: set<nat>): seq<Transform>
    requires n <= |ts|
  {
    if n == 0 then [] else Pick(ts, n - 1, taken) + (if n - 1 in taken then [ts[n - 1]] else [])
  }

  lemma TakenAreRelevant(ts: seq<Transform>, action: set<string>, taken: set<nat>)
    requires Searching(ts, action, taken, {}, {})
    ensures forall i :: 0 <= i < |ts| ==> (i in taken <==> IsRelevant(ts, action, ts[i]))
  {
    forall i | 0 <= i < |ts| && IsRelevant(ts, action, ts[i])
      ensures i in taken
    {
      var chain :| IsChain(ts, action, chain) && chain[|chain| - 1] == ts[i].child.value;
      ChainDone(ts, action, taken, chain, |chain| - 1);
    }
  }

  lemma {:induction false} ChainDone(ts: seq<Transform>, action: set<string>, taken: set<nat>, chain: seq<string>,
                                     k: nat)
    requires Covered(ts, action, taken, {}, {}) && IsChain(ts, action, chain) && k < |chain|
    ensures Done(ts, taken, chain[k])
  {
    if k > 0 {
      ChainDone(ts, action, taken, chain, k - 1);
      assert Linked(ts, chain, k - 1);
      var t :| t in ts && Leads(t, chain[k - 1], chain[k - 1 + 1]);
      var i :| 0 <= i < |ts| && ts[i] == t;
      assert HasChild(ts[i], chain[k - 1]);
      assert Met(ts, taken, {}, {}, Upward(ts[i]).value);
    } else {
      assert Met(ts, taken, {}, {}, chain[0]);
    }
  }

  lemma {:induction false} PickIsRelevant(ts: seq<Transform>, action: set<string>, n: nat, taken: set<nat>)
    requires n <= |ts| && forall i :: 0 <= i < |ts| ==> (i in taken <==> IsRelevant(ts, action, ts[i]))
    ensures Pick(ts, n, taken) == Relevant(ts[..n], ts, action)
  {
    if n > 0 {
      PickIsRelevant(ts, action, n - 1, taken);
      assert ts[..n][..n - 1] == ts[..n - 1];
    }
  }

  /** A set of positions below `n` has at most `n` members. */
  lemma {:induction false} InRange(taken: set<nat>, n: nat)
    requires forall i :: i in taken ==> i < n
    ensures |taken| <= n
  {
    if n > 0 {
      InRange(taken - {n - 1}, n - 1);
      assert taken <= taken - {n - 1} + {n - 1};
    } else {
      assert taken == {};
    }
  }

  // ----- what is reachable, and what is returned, in the entries' own fields

  predicate LeadsFrom(t: Transform, s: iset<string>) { t.Edge? && t.child.Some? && t.child.value in s }

  /** Entries lead from their child to their parent, unless that is the empty name. */
  ghost predicate Closed(ts: seq<Transform>, s: iset<string>) {
    forall t <- ts :: LeadsFrom(t, s) && t.parent.Some? && t.parent.value != "" ==> t.parent.value in s
  }

  /** The reachable frames are the least set that holds the action frames and is closed under the entries. */
  lemma ReachableLeast(ts: seq<Transform>, action: set<string>)
    ensures var all := iset f | Reachable(ts, action, f);
            (forall f :: f in action ==> f in all) && Closed(ts, all)
    ensures forall s: iset<string>, f: string ::
              Closed(ts, s) && Reachable(ts, action, f) && (forall a :: a in action ==> a in s) ==> f in s
  {
    forall f | f in action
      ensures Reachable(ts, action, f)
    {
      ActionReachable(ts, action, f);
    }
    forall t | t in ts && t.Edge? && t.child.Some? && Reachable(ts, action, t.child.value)
        && t.parent.Some? && t.parent.value != ""
      ensures Reachable(ts, action, t.parent.value)
    {
      ParentReachable(ts, action, t, t.child.value, t.parent.value);
    }
    forall s: iset<string>, f: string |
      Closed(ts, s) && Reachable(ts, action, f) && (forall a :: a in action ==> a in s)
      ensures f in s
    {
      var chain :| IsChain(ts, action, chain) && chain[|chain| - 1] == f;
      ChainWithin(ts, action, chain, |chain| - 1, s);
    }
  }

  lemma {:induction false} ChainWithin(ts: seq<Transform>, action: set<string>, chain: seq<string>, k: nat,
                                       s: iset<string>)
    requires (forall a :: a in action ==> a in s) && Closed(ts, s) && IsChain(ts, action, chain) && k < |chain|
    ensures chain[k] in s
  {
    if k > 0 {
      ChainWithin(ts, action, chain, k - 1, s);
      assert Linked(ts, chain, k - 1);
      var t :| t in ts && Leads(t, chain[k - 1], chain[k - 1 + 1]);
    }
  }

  /** The positions, in order, of the entries whose child is reachable. */
  ghost predicate Positions(some: seq<Transform>, ts: seq<Transform>, action: set<string>, at: seq<nat>) {
    && (forall k, l :: 0 <= k < l < |at| ==> at[k] < at[l])
    && (forall k :: 0 <= k < |at| ==> at[k] < |some|)
    && forall i: nat :: i < |some| ==> (i in at <==> Hangs(some[i], ts, action))
  }

  ghost predicate Hangs(t: Transform, ts: seq<Transform>, action: set<string>) {
    t.Edge? && t.child.Some? && Reachable(ts, action, t.child.value)
  }

  lemma PositionsGrow(some: seq<Transform>, last: Transform, ts: seq<Transform>, action: set<string>, at: seq<nat>)
    requires Positions(some, ts, action, at)
    ensures Positions(some + [last], ts, action, if Hangs(last, ts, action) then at + [|some|] else at)
  {
    var more := some + [last];
    forall i: nat | i < |more|
      ensures i in (if Hangs(last, ts, action) then at + [|some|] else at) <==> Hangs(more[i], ts, action)
    {
      if i < |some| {
        assert more[i] == some[i];
      }
    }
  }

  function At(some: seq<Transform>, at: seq<nat>): seq<Transform>
    requires forall k :: 0 <= k < |at| ==> at[k] < |some|
  {
    seq(|at|, k requires 0 <= k < |at| => some[at[k]])
  }

  lemma AtGrows(some: seq<Transform>, last: Transform, at: seq<nat>)
    requires forall k :: 0 <= k < |at| ==> at[k] < |some|
    ensures At(some + [last], at) == At(some, at) && At(some + [last], at + [|some|]) == At(some, at) + [last]
  {}

  lemma RelevantLast(some: seq<Transform>, last: Transform, ts: seq<Transform>, action: set<string>)
    ensures Relevant(some + [last], ts, action)
         == Relevant(some, ts, action) + if Hangs(last, ts, action) then [last] else []
  {
    assert (some + [last])[..|some|] == some;
  }

  /** The result is the entries at exactly those positions. */
  lemma {:induction false} RelevantPositions(some: seq<Transform>, ts: seq<Transform>, action: set<string>)
    returns (at: seq<nat>)
    ensures Positions(some, ts, action, at) && Relevant(some, ts, action) == At(some, at)
  {
    if some == [] {
      at := [];
    } else {
      var init, last := some[..|some| - 1], some[|some| - 1];
      var before := RelevantPositions(init, ts, action);
      assert some == init + [last];
      PositionsGrow(init, last, ts, action, before);
      RelevantLast(init, last, ts, action);
      AtGrows(init, last, before);
      at := if Hangs(last, ts, action) then before + [|init|] else before;
    }
  }

  // ----- an unrelated declaration changes nothing

  lemma {:induction false} RelevantAppend(a: seq<Transform>, b: seq<Transform>, ts: seq<Transform>, action: set<string>)
    ensures Relevant(a + b, ts, action) == Relevant(a, ts, action) + Relevant(b, ts, action)
  {
    if b == [] {
      assert a + b == a;
    } else {
      assert (a + b)[..|a + b| - 1] == a + b[..|b| - 1];
      RelevantAppend(a, b[..|b| - 1], ts, action);
    }
  }

  lemma {:induction false} RelevantSame(some: seq<Transform>, ts: seq<Transform>, ts': seq<Transform>,
                                        action: set<string>)
    requires forall f :: Reachable(ts, action, f) <==> Reachable(ts', action, f)
    ensures Relevant(some, ts, action) == Relevant(some, ts', action)
  {
    if some != [] {
      RelevantSame(some[..|some| - 1], ts, ts', action);
    }
  }

  lemma MoreIsReachable(ts: seq<Transform>, ts': seq<Transform>, action: set<string>, frame: string)
    requires (forall t :: t in ts ==> t in ts') && Reachable(ts, action, frame)
    ensures Reachable(ts', action, frame)
  {
    var chain :| IsChain(ts, action, chain) && chain[|chain| - 1] == frame;
    forall k | 0 <= k < |chain| - 1
      ensures Linked(ts', chain, k)
    {
      assert Linked(ts, chain, k);
      var t :| t in ts && Leads(t, chain[k], chain[k + 1]);
      assert t in ts';
    }
    assert IsChain(ts', action, chain);
  }

  /** With an entry added whose child is out of reach, every chain avoids it. */
  lemma {:induction false} ChainAvoids(ts: seq<Transform>, ts': seq<Transform>, extra: Transform, action: set<string>,
                                       chain: seq<string>, k: nat)
    requires forall t :: t in ts' ==> t in ts || t == extra
    requires !IsRelevant(ts, action, extra) && IsChain(ts', action, chain) && k < |chain|
    ensures Reachable(ts, action, chain[k])
  {
    if k == 0 {
      ActionReachable(ts, action, chain[0]);
    } else {
      ChainAvoids(ts, ts', extra, action, chain, k - 1);
      assert Linked(ts', chain, k - 1);
      var t :| t in ts' && Leads(t, chain[k - 1], chain[k - 1 + 1]);
      ParentReachable(ts, action, t, chain[k - 1], chain[k]);
    }
  }

  /** Inserting, anywhere, an entry whose child no action frame reaches leaves the result as it was. */
  lemma UnrelatedInsert(ts: seq<Transform>, k: nat, extra: Transform, action: set<string>)
    requires k <= |ts| && !IsRelevant(ts, action, extra)
    ensures var ts' := ts[..k] + [extra] + ts[k..];
            Relevant(ts', ts', action) == Relevant(ts, ts, action)
  {
    var ts' := ts[..k] + [extra] + ts[k..];
    assert ts == ts[..k] + ts[k..];
    assert forall t :: t in ts ==> t in ts';
    assert forall t :: t in ts' ==> t in ts || t == extra;
    forall f
      ensures Reachable(ts, action, f) <==> Reachable(ts', action, f)
    {
      if Reachable(ts, action, f) {
        MoreIsReachable(ts, ts', action, f);
      }
      if Reachable(ts', action, f) {
        var chain :| IsChain(ts', action, chain) && chain[|chain| - 1] == f;
        ChainAvoids(ts, ts', extra, action, chain, |chain| - 1);
      }
    }
    RelevantSame(ts', ts, ts', action);
    RelevantBetween(ts[..k], extra, ts[k..], ts, action);
  }

  lemma RelevantBetween(a: seq<Transform>, extra: Transform, b: seq<Transform>, ts: seq<Transform>,
                        action: set<string>)
    requires !IsRelevant(ts, action, extra)
    ensures Relevant(a + [extra] + b, ts, action) == Relevant(a + b, ts, action)
  {
    RelevantAppend(a + [extra], b, ts, action);
    RelevantLast(a, extra, ts, action);
    RelevantAppend(a, b, ts, action);
  }
}
