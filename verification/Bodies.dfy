/** The parent graph of a scene's bodies: what validation accepts, and that whatever it accepts
can be compiled parents first. */
module Bodies {
  import opened Wrappers

  /** Every body and the parent it names, if any. */
  type Graph = map<string, Option<string>>

  /** `n` steps up the parent chain of a body; `None` once the chain has passed a root. */
  function Up(g: Graph, body: Option<string>, n: nat): Option<string>
    decreases n
  {
    if n == 0 || body.None? then body
    else if body.value !in g then None
    else Up(g, g[body.value], n - 1)
  }

  /** The parent chain ends. */
  ghost predicate Rooted(g: Graph, body: string) { exists n: nat :: Up(g, Some(body), n).None? }

  predicate ParentsKnown(g: Graph) { forall b :: b in g && g[b].Some? ==> g[b].value in g }

  ghost predicate AllRooted(g: Graph) { forall b :: b in g ==> Rooted(g, b) }

  datatype Outcome = Accepted | UnknownParent(body: string) | Cycle(bodies: set<string>)

  /** A body without a parent, or whose parent is already there. */
  predicate Ready(g: Graph, there: set<string>, body: string)
    requires body in g
  {
    g[body].None? || g[body].value in there
  }

  lemma RootedUp(g: Graph, body: string)
    requires body in g
    ensures Rooted(g, body) <==> g[body].None? || Rooted(g, g[body].value)
  {
    if Rooted(g, body) && g[body].Some? {
      var n: nat :| Up(g, Some(body), n).None?;
      assert Up(g, g[body], n - 1).None?;
    }
    if g[body].None? {
      assert Up(g, Some(body), 1).None?;
    } else if Rooted(g, g[body].value) {
      var n: nat :| Up(g, Some(g[body].value), n).None?;
      assert Up(g, Some(body), n + 1).None?;
    }
  }

  /** A set of bodies none of which is ready contains no rooted body. */
  lemma {:induction false} StuckNeverRooted(g: Graph, stuck: set<string>, body: string, n: nat)
    requires forall b :: b in stuck ==> b in g && g[b].Some? && g[b].value in stuck
    requires body in stuck
    ensures Up(g, Some(body), n).Some?
    decreases n
  {
    if n > 0 {
      StuckNeverRooted(g, stuck, g[body].value, n - 1);
    }
  }

  /** The parent checks of `_validate_semantics`: accepts exactly the graphs whose every parent is
  known and whose every parent chain ends at a root; a cycle is reported with its bodies. */
  method Validate(g: Graph) returns (o: Outcome)
    ensures o.Accepted? <==> ParentsKnown(g) && AllRooted(g)
    ensures o.UnknownParent? ==> o.body in g && g[o.body].Some? && g[o.body].value !in g
    ensures o.Cycle? ==> ParentsKnown(g) && o.bodies != {} && o.bodies <= g.Keys && forall b :: b in o.bodies <==>
              b in g && !Rooted(g, b)
  {
    if !ParentsKnown(g) {
      var body :| body in g && g[body].Some? && g[body].value !in g;
      return UnknownParent(body);
    }
    var remaining, resolved := g.Keys, {};
    while remaining != {}
      invariant remaining + resolved == g.Keys && remaining !! resolved
      invariant forall b :: b in resolved ==> Rooted(g, b)
      decreases remaining
    {
      var ready := set b | b in remaining && Ready(g, resolved, b);
      if ready == {} {
        StuckUnrooted(g, remaining, resolved);
        return Cycle(remaining);
      }
      forall b | b in ready
        ensures Rooted(g, b)
      {
        RootedUp(g, b);
      }
      resolved, remaining := resolved + ready, remaining - ready;
    }
    return Accepted;
  }

  lemma StuckUnrooted(g: Graph, remaining: set<string>, resolved: set<string>)
    requires ParentsKnown(g) && remaining + resolved == g.Keys && remaining !! resolved
    requires forall b :: b in remaining ==> !Ready(g, resolved, b)
    ensures forall b :: b in remaining ==> !Rooted(g, b)
  {
    forall b | b in remaining
      ensures !Rooted(g, b)
    {
      forall n: nat
        ensures Up(g, Some(b), n).Some?
      {
        StuckNeverRooted(g, remaining, b, n);
      }
    }
  }

  // ----- compiling

  /** The bodies compiled so far, in order. */
  function Members(order: seq<string>): set<string> { set i | 0 <= i < |order| :: order[i] }

  predicate NoRepeats(names: seq<string>) { forall i, j :: 0 <= i < j < |names| ==> names[i] != names[j] }

  /** Each body comes after its parent. */
  predicate ParentsFirst(g: Graph, order: seq<string>) {
    forall i :: 0 <= i < |order| && order[i] in g && g[order[i]].Some? ==> g[order[i]].value in Members(order[..i])
  }

  /** Climbing from an unfinished body of a rooted graph meets an unfinished body that is ready. */
  lemma {:induction false} SomeReady(g: Graph, pending: set<string>, added: set<string>, body: string, n: nat)
    returns (ready: string)
    requires ParentsKnown(g) && pending + added == g.Keys && body in pending && Up(g, Some(body), n).None?
    ensures ready in pending && Ready(g, added, ready)
    decreases n
  {
    if Ready(g, added, body) {
      ready := body;
    } else {
      ready := SomeReady(g, pending, added, g[body].value, n - 1);
    }
  }

  function Naturals(n: nat): seq<nat> { seq(n, (i: nat) => i) }

  /** Between two turns of the loop. */
  ghost predicate Compiling(g: Graph, declared: seq<string>, pending: seq<string>, order: seq<string>, at: seq<nat>) {
    && Members(pending) + Members(order) == g.Keys && Members(pending) !! Members(order)
    && NoRepeats(pending) && NoRepeats(order) && |order| + |pending| == |declared|
    && ParentsFirst(g, order) && EarlierFirst(g, declared, order) && Placed(declared, pending, at)
  }

  lemma MoveEarliest(g: Graph, declared: seq<string>, pending: seq<string>, order: seq<string>, at: seq<nat>, i: nat)
    requires NoRepeats(declared) && Members(declared) == g.Keys && Compiling(g, declared, pending, order, at)
    requires i < |pending| && pending[i] in g && Ready(g, Members(order), pending[i])
    requires forall k :: 0 <= k < i ==> pending[k] in g && !Ready(g, Members(order), pending[k])
    ensures Compiling(g, declared, pending[..i] + pending[i + 1..], order + [pending[i]], at[..i] + at[i + 1..])
  {
    Move(g, pending, order, i);
    Earliest(g, declared, pending, order, at, i);
  }

  /** Every body was added before any one declared earlier only if that one was not ready then. */
  ghost predicate EarlierFirst(g: Graph, declared: seq<string>, order: seq<string>) {
    forall k, i, j :: 0 <= k < |order| && 0 <= i < j < |declared| && declared[j] == order[k] ==>
      declared[i] in Members(order[..k]) || Waits(g, declared[i], Members(order[..k]))
  }

  /** It names a parent that is not there. */
  predicate Waits(g: Graph, body: string, there: set<string>) {
    body in g && g[body].Some? && g[body].value !in there
  }

  /** What is pending stands in the declared order, at these positions. */
  predicate Placed(declared: seq<string>, pending: seq<string>, at: seq<nat>) {
    && |at| == |pending|
    && (forall k :: 0 <= k < |at| ==> at[k] < |declared| && declared[at[k]] == pending[k])
    && forall k, l :: 0 <= k < l < |at| ==> at[k] < at[l]
  }

  lemma Earliest(g: Graph, declared: seq<string>, pending: seq<string>, order: seq<string>, at: seq<nat>, i: nat)
    requires NoRepeats(declared) && Members(declared) == g.Keys && Members(pending) + Members(order) == g.Keys
    requires Placed(declared, pending, at) && EarlierFirst(g, declared, order) && i < |pending|
    requires forall k :: 0 <= k < i ==> pending[k] in g && !Ready(g, Members(order), pending[k])
    ensures EarlierFirst(g, declared, order + [pending[i]])
    ensures Placed(declared, pending[..i] + pending[i + 1..], at[..i] + at[i + 1..])
  {
    var more := order + [pending[i]];
    forall k, a, b | 0 <= k < |more| && 0 <= a < b < |declared| && declared[b] == more[k]
      ensures declared[a] in Members(more[..k]) || Waits(g, declared[a], Members(more[..k]))
    {
      if k < |order| {
        assert more[..k] == order[..k];
      } else {
        assert more[..k] == order && b == at[i];
        assert declared[a] in Members(declared);
        if declared[a] !in Members(order) {
          assert declared[a] in Members(pending);
          var l :| 0 <= l < |pending| && pending[l] == declared[a];
          assert at[l] == a && l < i;
        }
      }
    }
  }

  /** The selection loop of `_add_bodies`. Its `next(...)` always finds a body, because the graph
  passed validation; every body is added exactly once, after its parent. */
  method AddBodies(g: Graph, declared: seq<string>) returns (order: seq<string>)
    requires ParentsKnown(g) && AllRooted(g) && Members(declared) == g.Keys && NoRepeats(declared)
    ensures Members(order) == g.Keys && NoRepeats(order) && |order| == |declared|
    ensures ParentsFirst(g, order) && EarlierFirst(g, declared, order)
  {
    var pending := declared;
    order := [];
    ghost var at := Naturals(|declared|);
    while pending != []
      invariant Compiling(g, declared, pending, order, at)
      decreases |pending|
    {
      ghost var body := pending[0];
      assert body in Members(pending);
      ghost var n: nat :| Up(g, Some(body), n).None?;
      ghost var climbed := SomeReady(g, Members(pending), Members(order), body, n);
      var i := FirstReady(g, pending, order, climbed);
      MoveEarliest(g, declared, pending, order, at, i);
      at := at[..i] + at[i + 1..];
      order, pending := order + [pending[i]], pending[..i] + pending[i + 1..];
    }
  }

  /** `next(...)` over the pending bodies in their order. */
  method FirstReady(g: Graph, pending: seq<string>, added: seq<string>, ghost some: string) returns (i: nat)
    requires Members(pending) <= g.Keys && some in Members(pending) && Ready(g, Members(added), some)
    ensures i < |pending| && pending[i] in g && Ready(g, Members(added), pending[i])
    ensures forall k :: 0 <= k < i ==> pending[k] in g && !Ready(g, Members(added), pending[k])
  {
    i := 0;
    assert forall k :: 0 <= k < |pending| ==> pending[k] in Members(pending);
    ghost var found :| 0 <= found < |pending| && pending[found] == some;
    while !Ready(g, Members(added), pending[i])
      invariant i <= found
      invariant forall k :: 0 <= k < i ==> !Ready(g, Members(added), pending[k])
      decreases found - i
    {
      i := i + 1;
    }
  }

  /** Moving one pending body to the end of the order. */
  lemma Move(g: Graph, pending: seq<string>, order: seq<string>, i: nat)
    requires i < |pending| && pending[i] in g && Ready(g, Members(order), pending[i])
    requires Members(pending) !! Members(order) && NoRepeats(pending) && NoRepeats(order) && ParentsFirst(g, order)
    ensures var p, o := pending[..i] + pending[i + 1..], order + [pending[i]];
            && Members(p) + Members(o) == Members(pending) + Members(order)
            && Members(p) !! Members(o) && NoRepeats(p) && NoRepeats(o) && ParentsFirst(g, o)
  {
    var p, o := pending[..i] + pending[i + 1..], order + [pending[i]];
    assert pending[i] in Members(pending);
    MembersMove(pending, order, i);
    forall k | 0 <= k < |order|
      ensures o[k] != pending[i]
    {
      assert order[k] in Members(order);
    }
    forall k | 0 <= k < |o| && o[k] in g && g[o[k]].Some?
      ensures g[o[k]].value in Members(o[..k])
    {
      if k < |order| {
        assert o[..k] == order[..k];
      } else {
        assert o[..k] == order;
      }
    }
  }

  lemma MembersMove(pending: seq<string>, order: seq<string>, i: nat)
    requires i < |pending| && NoRepeats(pending)
    ensures Members(order + [pending[i]]) == Members(order) + {pending[i]}
    ensures Members(pending[..i] + pending[i + 1..]) == Members(pending) - {pending[i]}
  {
    var p, o := pending[..i] + pending[i + 1..], order + [pending[i]];
    forall b
      ensures b in Members(o) <==> b in Members(order) || b == pending[i]
    {
      if b in Members(order) {
        var k :| 0 <= k < |order| && order[k] == b;
        assert o[k] == b;
      }
      assert o[|order|] == pending[i];
    }
    forall b
      ensures b in Members(p) <==> b in Members(pending) && b != pending[i]
    {
      if b in Members(pending) && b != pending[i] {
        var k :| 0 <= k < |pending| && pending[k] == b;
        assert p[if k < i then k else k - 1] == b;
      }
      if b in Members(p) {
        var k :| 0 <= k < |p| && p[k] == b;
        assert pending[if k < i then k else k + 1] == b;
      }
    }
  }

  /** Only an accepted graph can be ordered parents first. */
  lemma OrderedMeansAccepted(g: Graph, order: seq<string>)
    requires Members(order) == g.Keys && ParentsFirst(g, order)
    ensures ParentsKnown(g) && AllRooted(g)
  {
    forall b | b in g
      ensures Rooted(g, b) && (g[b].Some? ==> g[b].value in g)
    {
      var i :| 0 <= i < |order| && order[i] == b;
      OrderedRooted(g, order, i);
    }
  }

  lemma {:induction false} OrderedRooted(g: Graph, order: seq<string>, i: nat)
    requires Members(order) == g.Keys && ParentsFirst(g, order) && i < |order|
    ensures order[i] in g && Rooted(g, order[i]) && (g[order[i]].Some? ==> g[order[i]].value in g)
    decreases i
  {
    assert order[i] in Members(order);
    RootedUp(g, order[i]);
    if g[order[i]].Some? {
      var k :| 0 <= k < |order[..i]| && order[..i][k] == g[order[i]].value;
      OrderedRooted(g, order, k);
    }
  }
}
