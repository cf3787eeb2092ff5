/** What every life of a site keeps: the order of its calls, when the lock is given up, and what is left
open when it is or is not. */
module Releases {
  import opened Wrappers
  import opened Calls
  import opened Lifecycle

  // ----- accounts

  /** An opening in which nothing has failed yet: all that was opened is live and owed. */
  predicate Clean(t: Tally, have: set<Item>, worlds: seq<Item>) { t == Tally(have, have, worlds, true, {}, {}, {}) }

  /** A history in order up to such a moment. */
  predicate Fresh(s: seq<Call>, have: set<Item>, worlds: seq<Item>) { Orderly(s) && Clean(Fold(s), have, worlds) }

  /** The session answers for `rest`. Nothing else is owed but what was spared, and nothing else is live
  unless a close is known to be unconfirmed or something was torn. */
  predicate Answers(t: Tally, rest: set<Item>, doubt: bool) {
    && t.held && t.torn <= t.live && t.unsure <= t.live && rest <= t.live
    && rest !! t.torn && rest !! t.unsure && rest !! t.spared
    && t.spared <= t.owed <= rest + t.spared
    && (!doubt && t.torn == {} ==> t.live <= rest)
  }

  lemma AskGrows(env: Env, s: seq<Call>, step: Step)
    requires Orderly(s) && Allowed(Fold(s), step)
    ensures Orderly(Ask(env, s, step)) && Fold(Ask(env, s, step)) == Next(Fold(s), Call(step, env.outcome(s, step)))
  {
    OrderlyGrows(s, Call(step, env.outcome(s, step)));
  }

  lemma AskSmooth(env: Env, s: seq<Call>, step: Step)
    ensures s <= Ask(env, s, step) && (Smooth(Ask(env, s, step), |s|) <==> env.outcome(s, step).Done?)
  {
    assert Ask(env, s, step)[|s|] == Call(step, env.outcome(s, step));
  }

  lemma SmoothJoin(a: seq<Call>, b: seq<Call>, c: seq<Call>)
    requires a <= b <= c
    ensures a <= c && (Smooth(c, |a|) <==> Smooth(b, |a|) && Smooth(c, |b|))
  {
    if Smooth(c, |a|) {
      forall k | |a| <= k < |b|
        ensures b[k].outcome.Done?
      {
        assert b[k] == c[k];
      }
    }
    if Smooth(b, |a|) && Smooth(c, |b|) {
      forall k | |a| <= k < |c|
        ensures c[k].outcome.Done?
      {
        if k < |b| {
          assert c[k] == b[k];
        }
      }
    }
  }

  // ----- opening

  predicate Building(steps: seq<Step>) { forall step <- steps :: step.Other? || (step.Open? && !step.item.World?) }

  function Opened(steps: seq<Step>): set<Item> { set step | step in steps && step.Open? :: step.item }

  lemma {:induction false} UntilSmooth(env: Env, s: seq<Call>, steps: seq<Step>)
    ensures var r := Until(env, s, steps);
            s <= r.calls && r.out <= |steps| && (r.out == |steps| <==> Smooth(r.calls, |s|))
    decreases |steps|
  {
    if steps != [] {
      AskSmooth(env, s, steps[0]);
      if env.outcome(s, steps[0]).Done? {
        UntilSmooth(env, Ask(env, s, steps[0]), steps[1..]);
        SmoothJoin(s, Ask(env, s, steps[0]), Until(env, Ask(env, s, steps[0]), steps[1..]).calls);
      }
    }
  }

  lemma OpenedStep(steps: seq<Step>, n: nat)
    requires n < |steps|
    ensures Opened(steps[..n + 1]) == (if steps[0].Open? then {steps[0].item} else {}) + Opened(steps[1..][..n])
  {
    assert steps[..n + 1] == [steps[0]] + steps[1..][..n];
  }

  /** What one more call of an opening adds. */
  function Adds(env: Env, s: seq<Call>, step: Step): set<Item> {
    if step.Open? && (step.item.World? || env.outcome(s, step).Done?) then {step.item} else {}
  }

  lemma FreshStep(env: Env, s: seq<Call>, step: Step, have: set<Item>, worlds: seq<Item>)
    requires Fresh(s, have, worlds) && (step.Other? || step.Open?)
    ensures Fresh(Ask(env, s, step), have + Adds(env, s, step), if step.Open? && step.item.World?
              then worlds + [step.item] else worlds)
  {
    AskGrows(env, s, step);
    assert have + {} == have;
  }

  lemma {:induction false} UntilClean(env: Env, s: seq<Call>, steps: seq<Step>, have: set<Item>, worlds: seq<Item>)
    requires Fresh(s, have, worlds) && Building(steps)
    ensures var r := Until(env, s, steps);
            s <= r.calls && r.out <= |steps| && Fresh(r.calls, have + Opened(steps[..r.out]), worlds)
    decreases |steps|
  {
    UntilSmooth(env, s, steps);
    if steps == [] {
      assert have + Opened([]) == have;
    } else {
      var step, t := steps[0], Ask(env, s, steps[0]);
      assert step in steps && Building(steps[1..]);
      FreshStep(env, s, step, have, worlds);
      if env.outcome(s, step).Done? {
        UntilClean(env, t, steps[1..], have + Adds(env, s, step), worlds);
        var n := Until(env, t, steps[1..]).out;
        OpenedStep(steps, n);
        assert have + Adds(env, s, step) + Opened(steps[1..][..n]) == have + Opened(steps[..n + 1]);
      } else {
        assert have + {} + Opened([]) == have && steps[..0] == [];
      }
    }
  }

  function Min(a: nat, b: nat): nat { if a <= b then a else b }

  predicate FreshWorlds(s: seq<Call>, n: nat) { Fresh(s, Elements(Worlds(n)), Worlds(n)) }

  lemma WorldsStep(env: Env, s: seq<Call>, i: nat)
    requires FreshWorlds(s, i)
    ensures FreshWorlds(Ask(env, s, Open(World(i))), i + 1)
  {
    FreshStep(env, s, Open(World(i)), Elements(Worlds(i)), Worlds(i));
    assert Worlds(i + 1) == Worlds(i) + [World(i)];
    assert Elements(Worlds(i + 1)) == Elements(Worlds(i)) + {World(i)};
  }

  function OpensFrom(i: nat, n: nat): seq<Step>
    requires i <= n
  {
    seq(n - i, k requires 0 <= k < n - i => Open(World(i + k)))
  }

  lemma UntilFirst(env: Env, s: seq<Call>, steps: seq<Step>)
    requires steps != []
    ensures var t := Ask(env, s, steps[0]);
            Until(env, s, steps) == if !env.outcome(s, steps[0]).Done? then Ran(t, 0)
            else var r := Until(env, t, steps[1..]); Ran(r.calls, r.out + 1)
  {}

  lemma {:induction false} UntilWorlds(env: Env, s: seq<Call>, i: nat, n: nat)
    requires i <= n && FreshWorlds(s, i)
    ensures var r := Until(env, s, OpensFrom(i, n));
            i + r.out <= n && FreshWorlds(r.calls, Min(i + r.out + 1, n))
    decreases n - i
  {
    if i < n {
      var t := Ask(env, s, Open(World(i)));
      WorldsStep(env, s, i);
      UntilNext(env, s, i, n);
      if env.outcome(s, Open(World(i))).Done? {
        var r := Until(env, t, OpensFrom(i + 1, n));
        UntilWorlds(env, t, i + 1, n);
        assert Until(env, s, OpensFrom(i, n)) == Ran(r.calls, r.out + 1);
        assert Min((i + 1) + r.out + 1, n) == Min(i + (r.out + 1) + 1, n);
      } else {
        assert Until(env, s, OpensFrom(i, n)) == Ran(t, 0) && Min(i + 0 + 1, n) == i + 1;
      }
    }
  }

  lemma UntilNext(env: Env, s: seq<Call>, i: nat, n: nat)
    requires i < n
    ensures var t := Ask(env, s, Open(World(i)));
            Until(env, s, OpensFrom(i, n)) == if !env.outcome(s, Open(World(i))).Done? then Ran(t, 0)
            else var r := Until(env, t, OpensFrom(i + 1, n)); Ran(r.calls, r.out + 1)
  {
    var steps := OpensFrom(i, n);
    assert steps[0] == Open(World(i)) && steps[1..] == OpensFrom(i + 1, n);
    UntilFirst(env, s, steps);
  }

  // ----- closing

  predicate Distinct(units: seq<Item>) { forall i, j :: 0 <= i < j < |units| ==> units[i] != units[j] }

  /** `tower`: the units are all the worlds, newest first; otherwise no world is among them. */
  predicate Closable(units: seq<Item>, worlds: seq<Item>, tower: bool) {
    if tower then |units| == |worlds| && forall i :: 0 <= i < |units| ==>
        units[i].World? && units[i] == worlds[|worlds| - 1 - i]
    else forall i :: 0 <= i < |units| ==> !units[i].World?
  }

  /** What a stretch cut at this step leaves to be answered for. */
  function Unspared(step: Step, items: set<Item>): set<Item> { set x | x in items && !Spares(step, x) }

  /** The account after one unit of a stretch. */
  predicate After(t: Tally, x: Item, undo: bool, how: Sweep, others: set<Item>, doubt: bool) {
    && (undo && how.Doubted? ==> t.unsure != {}) && (undo && how.Short? ==> t.torn != {})
    && (if how.Short? then Answers(t, Unspared(Closing(undo, x), others), !undo)
        else Answers(t, others, doubt || how.Doubted?))
  }

  /** What is known of a failed build's closes is never forgotten. */
  predicate Marks(t: Tally, t': Tally) { t.unsure <= t'.unsure && t.torn <= t'.torn }

  /** One close of one unit that is answered for. */
  lemma CloseOne(t: Tally, x: Item, undo: bool, o: Outcome, others: set<Item>, doubt: bool)
    requires Answers(t, {x} + others, doubt) && x !in others && TopWorld(t.worlds, x)
    ensures Allowed(t, Closing(undo, x))
    ensures var t' := Next(t, Call(Closing(undo, x), o));
            && t'.worlds == Pop(t.worlds, x) && t'.owed == t.owed - {x} && Marks(t, t')
            && After(t', x, undo, if o.Done? then Full else if o.Raised? then Doubted else Short, others, doubt)
            && (o.Raised? ==> x in t'.live && x !in others)
  {
    assert x in {x} + others;
  }

  /** The report of a close that raised. */
  lemma ReportOne(t: Tally, x: Item, undo: bool, o: Outcome, others: set<Item>)
    requires Answers(t, others, true) && x in t.live && x !in others && (undo ==> t.unsure != {})
    ensures Allowed(t, Report(undo, x))
    ensures var t' := Next(t, Call(Report(undo, x), o));
            && t'.worlds == t.worlds && t'.owed == t.owed && Marks(t, t')
            && After(t', x, undo, if o.Done? then Doubted else Short, others, true)
  {}

  lemma UnitKeeps(env: Env, s: seq<Call>, x: Item, undo: bool, others: set<Item>, doubt: bool)
    requires Orderly(s) && Answers(Fold(s), {x} + others, doubt) && x !in others && TopWorld(Fold(s).worlds, x)
    ensures var r := CloseUnit(env, s, x, undo);
            && Orderly(r.calls) && Fold(r.calls).worlds == Pop(Fold(s).worlds, x)
            && Fold(r.calls).owed == Fold(s).owed - {x} && Marks(Fold(s), Fold(r.calls))
            && After(Fold(r.calls), x, undo, r.out, others, doubt)
  {
    var step := Closing(undo, x);
    var t := Ask(env, s, step);
    CloseOne(Fold(s), x, undo, env.outcome(s, step), others, doubt);
    AskGrows(env, s, step);
    if env.outcome(s, step).Raised? && Reported(x) {
      ReportOne(Fold(t), x, undo, env.outcome(t, Report(undo, x)), others);
      AskGrows(env, t, Report(undo, x));
    }
  }

  lemma FirstUnit(units: seq<Item>, worlds: seq<Item>, tower: bool, rest: set<Item>)
    requires units != [] && Distinct(units) && Elements(units) !! rest && Closable(units, worlds, tower)
    ensures var others := Elements(units[1..]) + rest;
            Elements(units) + rest == {units[0]} + others && units[0] !in others
    ensures TopWorld(worlds, units[0]) && Closable(units[1..], Pop(worlds, units[0]), tower)
    ensures Distinct(units[1..]) && Elements(units[1..]) !! rest
  {
    assert units[0] in units;
    assert forall i :: 0 <= i < |units| - 1 ==> units[1..][i] == units[i + 1];
    assert Elements(units) == {units[0]} + Elements(units[1..]);
  }

  lemma UnitSmooth(env: Env, s: seq<Call>, x: Item, undo: bool)
    ensures var r := CloseUnit(env, s, x, undo);
            s <= r.calls && (r.out.Full? <==> Smooth(r.calls, |s|))
  {
    var step := Closing(undo, x);
    var t := Ask(env, s, step);
    AskSmooth(env, s, step);
    if env.outcome(s, step).Raised? && Reported(x) {
      AskSmooth(env, t, Report(undo, x));
      SmoothJoin(s, t, Ask(env, t, Report(undo, x)));
    }
  }

  /** A stretch of closings reaches every unit unless it is cut short, and is full when each call was done. */
  lemma {:induction false} ClosingsSmooth(env: Env, s: seq<Call>, units: seq<Item>, undo: bool, sofar: Sweep)
    requires !sofar.Short?
    ensures var r := Closings(env, s, units, undo, sofar);
            && s <= r.calls && (if r.out.how.Short? then r.out.tried > 0 else r.out.tried == |units|)
            && (r.out.how.Full? <==> sofar.Full? && Smooth(r.calls, |s|))
    decreases |units|
  {
    if units != [] {
      var c := CloseUnit(env, s, units[0], undo);
      UnitSmooth(env, s, units[0], undo);
      if !c.out.Short? {
        var sofar' := if c.out.Doubted? then Doubted else sofar;
        ClosingsSmooth(env, c.calls, units[1..], undo, sofar');
        SmoothJoin(s, c.calls, Closings(env, c.calls, units[1..], undo, sofar').calls);
      }
    }
  }

  /** The units can be closed one after the other from here. */
  predicate Ready(s: seq<Call>, units: seq<Item>, tower: bool, rest: set<Item>, doubt: bool) {
    && Orderly(s) && Answers(Fold(s), Elements(units) + rest, doubt)
    && Distinct(units) && Elements(units) !! rest && Closable(units, Fold(s).worlds, tower)
  }

  /** What a stretch of closings leaves: exactly what it reached is no longer owed. If it was cut short, what
  that does not spare is still answered for. */
  predicate ClosingsLeave(s: seq<Call>, r: Ran<Swept>, units: seq<Item>, undo: bool, tower: bool, rest: set<Item>,
                          doubt: bool) {
    var t, tried := Fold(r.calls), r.out.tried;
    && Orderly(r.calls) && tried <= |units| && t.owed == Fold(s).owed - Elements(units[..tried])
    && Marks(Fold(s), t)
    && (undo && r.out.how.Doubted? ==> t.unsure != {}) && (undo && r.out.how.Short? ==> t.torn != {})
    && (if tower then |units| == |Fold(s).worlds| && t.worlds == Fold(s).worlds[..|units| - tried]
        else t.worlds == Fold(s).worlds)
    && (if r.out.how.Short? then
          0 < tried && Answers(t, Unspared(Closing(undo, units[tried - 1]), Elements(units[tried..]) + rest), !undo)
        else tried == |units| && Answers(t, rest, doubt || r.out.how.Doubted?))
  }

  /** What closing one unit does to a stretch. */
  lemma OneReady(env: Env, s: seq<Call>, units: seq<Item>, undo: bool, tower: bool, rest: set<Item>, doubt: bool)
    requires Ready(s, units, tower, rest, doubt) && units != []
    ensures var c, others := CloseUnit(env, s, units[0], undo), Elements(units[1..]) + rest;
            && Orderly(c.calls) && After(Fold(c.calls), units[0], undo, c.out, others, doubt)
            && Fold(c.calls).owed == Fold(s).owed - {units[0]} && Marks(Fold(s), Fold(c.calls))
            && (tower ==> |units| == |Fold(s).worlds|)
            && Fold(c.calls).worlds == (if tower then Fold(s).worlds[..|units| - 1] else Fold(s).worlds)
            && (!c.out.Short? ==> Ready(c.calls, units[1..], tower, rest, doubt || c.out.Doubted?))
  {
    FirstUnit(units, Fold(s).worlds, tower, rest);
    UnitKeeps(env, s, units[0], undo, Elements(units[1..]) + rest, doubt);
  }

  lemma TriedOneMore(units: seq<Item>, tried: nat)
    requires tried < |units|
    ensures units[1..][tried..] == units[tried + 1..]
    ensures Elements(units[..tried + 1]) == {units[0]} + Elements(units[1..][..tried])
    ensures tried > 0 ==> units[1..][tried - 1] == units[tried]
  {
    assert units[..tried + 1] == [units[0]] + units[1..][..tried];
  }

  lemma OneMore(s: seq<Call>, c: seq<Call>, r: Ran<Swept>, units: seq<Item>, undo: bool, tower: bool, rest: set<Item>,
                before: bool, doubt: bool)
    requires units != [] && ClosingsLeave(c, r, units[1..], undo, tower, rest, before)
    requires (before ==> doubt || !r.out.how.Full?) && Marks(Fold(s), Fold(c))
    requires Fold(c).owed == Fold(s).owed - {units[0]} && (tower ==> |units| == |Fold(s).worlds|)
              && Fold(c).worlds == (if tower then Fold(s).worlds[..|units| - 1] else Fold(s).worlds)
    ensures ClosingsLeave(s, Ran(r.calls, Swept(r.out.how, r.out.tried + 1)), units, undo, tower, rest, doubt)
  {
    TriedOneMore(units, r.out.tried);
    var t, left := Fold(r.calls), Elements(units[r.out.tried + 1..]) + rest;
    if r.out.how.Short? {
      assert Answers(t, Unspared(Closing(undo, units[r.out.tried]), left), !undo);
    } else {
      assert Answers(t, rest, doubt || r.out.how.Doubted?);
    }
    assert t.owed == Fold(s).owed - Elements(units[..r.out.tried + 1]);
  }

  lemma ClosingsNone(s: seq<Call>, undo: bool, sofar: Sweep, tower: bool, rest: set<Item>, doubt: bool)
    requires Ready(s, [], tower, rest, doubt) && !sofar.Short? && (undo && sofar.Doubted? ==> Fold(s).unsure != {})
    ensures ClosingsLeave(s, Ran(s, Swept(sofar, 0)), [], undo, tower, rest, doubt)
  {
    assert Elements([]) + rest == rest;
  }

  lemma ClosingsCut(env: Env, s: seq<Call>, units: seq<Item>, undo: bool, tower: bool, rest: set<Item>, doubt: bool)
    requires Ready(s, units, tower, rest, doubt) && units != [] && CloseUnit(env, s, units[0], undo).out.Short?
    ensures ClosingsLeave(s, Ran(CloseUnit(env, s, units[0], undo).calls, Swept(Short, 1)), units, undo, tower, rest,
                          doubt)
  {
    OneReady(env, s, units, undo, tower, rest, doubt);
    assert units[..1] == [units[0]];
  }

  /** A stretch, unit by unit. */
  lemma ClosingsIs(env: Env, s: seq<Call>, units: seq<Item>, undo: bool, sofar: Sweep)
    requires units != []
    ensures var c := CloseUnit(env, s, units[0], undo);
            Closings(env, s, units, undo, sofar) == if c.out.Short? then Ran(c.calls, Swept(Short, 1))
            else var r := Closings(env, c.calls, units[1..], undo, if c.out.Doubted? then Doubted else sofar);
                 Ran(r.calls, Swept(r.out.how, r.out.tried + 1))
  {}

  lemma {:induction false} ClosingsKeep(env: Env, s: seq<Call>, units: seq<Item>, undo: bool, sofar: Sweep, tower: bool,
                                        rest: set<Item>, doubt: bool)
    requires Ready(s, units, tower, rest, doubt) && !sofar.Short? && (undo && sofar.Doubted? ==> Fold(s).unsure != {})
    ensures ClosingsLeave(s, Closings(env, s, units, undo, sofar), units, undo, tower, rest, doubt)
    decreases |units|, 1
  {
    if units == [] {
      ClosingsNone(s, undo, sofar, tower, rest, doubt);
    } else {
      ClosingsIs(env, s, units, undo, sofar);
      if CloseUnit(env, s, units[0], undo).out.Short? {
        ClosingsCut(env, s, units, undo, tower, rest, doubt);
      } else {
        ClosingsOn(env, s, units, undo, sofar, tower, rest, doubt);
      }
    }
  }

  lemma StaysDoubted(env: Env, s: seq<Call>, units: seq<Item>, undo: bool, sofar: Sweep)
    requires !sofar.Short?
    ensures sofar.Doubted? ==> !Closings(env, s, units, undo, sofar).out.how.Full?
  {
    ClosingsSmooth(env, s, units, undo, sofar);
  }

  lemma {:induction false} ClosingsOn(env: Env, s: seq<Call>, units: seq<Item>, undo: bool, sofar: Sweep, tower: bool,
                                      rest: set<Item>, doubt: bool)
    requires Ready(s, units, tower, rest, doubt) && !sofar.Short? && (undo && sofar.Doubted? ==> Fold(s).unsure != {})
    requires units != [] && !CloseUnit(env, s, units[0], undo).out.Short?
    ensures var c := CloseUnit(env, s, units[0], undo);
            var r := Closings(env, c.calls, units[1..], undo, if c.out.Doubted? then Doubted else sofar);
            ClosingsLeave(s, Ran(r.calls, Swept(r.out.how, r.out.tried + 1)), units, undo, tower, rest, doubt)
    decreases |units|, 0
  {
    var c := CloseUnit(env, s, units[0], undo);
    var sofar' := if c.out.Doubted? then Doubted else sofar;
    OneReady(env, s, units, undo, tower, rest, doubt);
    ClosingsKeep(env, c.calls, units[1..], undo, sofar', tower, rest, doubt || c.out.Doubted?);
    StaysDoubted(env, c.calls, units[1..], undo, sofar');
    var r := Closings(env, c.calls, units[1..], undo, sofar');
    OneMore(s, c.calls, r, units, undo, tower, rest, doubt || c.out.Doubted?, doubt);
  }

  // ----- what an opening leaves

  /** The session answers for `rest`, whose worlds are `worlds`. */
  predicate Keeps(s: seq<Call>, rest: set<Item>, worlds: seq<Item>, doubt: bool) {
    Orderly(s) && Answers(Fold(s), rest, doubt) && Fold(s).worlds == worlds
  }

  predicate NoWorlds(units: seq<Item>) { forall i :: 0 <= i < |units| ==> !units[i].World? }

  /** An unconfirmed close by a failed build has left its mark. */
  predicate Grounded(s: seq<Call>, doubt: bool) { doubt ==> Fold(s).unsure != {} || Fold(s).torn != {} }

  /** A stretch cut at any of these units spares the later ones, and none of `have`. */
  predicate Together(undo: bool, units: seq<Item>, have: set<Item>) {
    forall i :: 0 <= i < |units| ==>
      (forall x <- have :: !Spares(Closing(undo, units[i]), x))
      && forall j :: i < j < |units| ==> Spares(Closing(undo, units[i]), units[j])
  }

  lemma UnsparedRest(undo: bool, units: seq<Item>, have: set<Item>, tried: nat)
    requires Together(undo, units, have) && 0 < tried <= |units|
    ensures Unspared(Closing(undo, units[tried - 1]), Elements(units[tried..]) + have) == have
  {
    assert forall x <- units[tried..] :: exists j :: tried <= j < |units| && units[j] == x;
  }

  /** The rollback of a build that failed. */
  lemma Rollback(env: Env, s: seq<Call>, units: seq<Item>, have: set<Item>, worlds: seq<Item>, doubt: bool)
    requires Keeps(s, Elements(units) + have, worlds, doubt) && Grounded(s, doubt) && Distinct(units)
              && Elements(units) !! have && NoWorlds(units) && Together(true, units, have)
    ensures var u := Closings(env, s, units, true, Full);
            var doubt' := (doubt && u.out.how.Full?) || u.out.how.Doubted?;
            Keeps(u.calls, have, worlds, doubt') && Grounded(u.calls, doubt')
  {
    var u := Closings(env, s, units, true, Full);
    ClosingsKeep(env, s, units, true, Full, false, have, doubt);
    if u.out.how.Short? {
      UnsparedRest(true, units, have, u.out.tried);
    }
  }

  lemma OpenedAll(items: seq<Item>, n: nat)
    requires n <= |items|
    ensures Opened(Opens(items)[..n]) == Elements(items[..n])
  {
    var steps := Opens(items)[..n];
    forall x | x in Elements(items[..n])
      ensures x in Opened(steps)
    {
      var i :| 0 <= i < n && items[i] == x;
      assert steps[i] == Open(x);
    }
  }

  lemma WorldElements(n: nat)
    ensures forall x :: x in Worlds(n) <==> x.World? && x.n < n
    ensures forall x :: x in Down(n) <==> x.World? && x.n < n
    ensures Elements(Down(n)) == Elements(Worlds(n))
  {
    forall x: Item | x.World? && x.n < n
      ensures x in Worlds(n) && x in Down(n)
    {
      assert Worlds(n)[x.n] == x && Down(n)[n - 1 - x.n] == x;
    }
  }

  lemma DownLeft(n: nat, tried: nat)
    requires tried <= n
    ensures Elements(Down(n)[tried..]) + {} == Elements(Worlds(n - tried))
              && Worlds(n)[..n - tried] == Worlds(n - tried)
  {
    WorldElements(n - tried);
    assert Worlds(n)[..n - tried] == Worlds(n - tried);
    assert Down(n)[tried..] == Down(n - tried);
  }

  lemma DownReady(s: seq<Call>, n: nat, doubt: bool)
    requires Keeps(s, Elements(Worlds(n)), Worlds(n), doubt)
    ensures Ready(s, Down(n), true, {}, doubt)
  {
    WorldElements(n);
    assert Elements(Down(n)) + {} == Elements(Worlds(n));
  }

  /** An assembly whose open failed closes what it began, down to where it was cut short. */
  lemma WorldsRollback(env: Env, s: seq<Call>, begun: nat)
    requires FreshWorlds(s, begun)
    ensures var u := Closings(env, s, Down(begun), true, Full);
            var left := begun - u.out.tried;
            Keeps(u.calls, Elements(Worlds(left)), Worlds(left), u.out.how.Doubted?)
  {
    var u := Closings(env, s, Down(begun), true, Full);
    DownReady(s, begun, false);
    ClosingsKeep(env, s, Down(begun), true, Full, true, {}, false);
    ReachedDown(s, u, begun);
  }

  lemma ReachedDown(s: seq<Call>, u: Ran<Swept>, begun: nat)
    requires ClosingsLeave(s, u, Down(begun), true, true, {}, false) && Fold(s).worlds == Worlds(begun)
    ensures var left := begun - u.out.tried;
            Keeps(u.calls, Elements(Worlds(left)), Worlds(left), u.out.how.Doubted?)
  {
    DownLeft(begun, u.out.tried);
    if u.out.how.Short? {
      NoneSpared(Down(begun)[u.out.tried - 1], Elements(Worlds(begun - u.out.tried)));
    }
  }

  lemma NoneSpared(x: Item, items: set<Item>)
    requires x.World? || x.Probe? || x.Core?
    ensures Unspared(Undo(x), items) == items && (x.Core? ==> Unspared(Close(x), items) == items)
  {}

  lemma WorldsBegun(env: Env, s: seq<Call>, n: nat)
    requires Fresh(s, {}, [])
    ensures var u := Until(env, s, Opens(Worlds(n)));
            u.out <= n && FreshWorlds(u.calls, Min(u.out + 1, n))
  {
    assert Worlds(0) == [] && Elements([]) == {} && OpensFrom(0, n) == Opens(Worlds(n));
    UntilWorlds(env, s, 0, n);
  }

  /** What an opening of the worlds leaves. */
  predicate Assembled(r: Ran<Built>, n: nat) {
    if r.out.failure.None? then r.out.count == n && FreshWorlds(r.calls, n)
    else Keeps(r.calls, Elements(Worlds(r.out.count)), Worlds(r.out.count), r.out.failure == Some(CloseUnknown))
  }

  lemma Unassembled(c: Ran<Swept>, left: nat, n: nat)
    requires Keeps(c.calls, Elements(Worlds(left)), Worlds(left), c.out.how.Doubted?)
    ensures Assembled(Ran(c.calls, Built(Some(Verdict(c.out.how)), left)), n)
  {}

  /** What `OpenWorlds` makes of the opens. */
  lemma OpenWorldsIs(env: Env, s: seq<Call>, n: nat)
    ensures var u := Until(env, s, Opens(Worlds(n)));
            OpenWorlds(env, s, n) == if u.out >= n then Ran(u.calls, Built(None, n))
            else var c := Closings(env, u.calls, Down(u.out + 1), true, Full);
                 Ran(c.calls, Built(Some(Verdict(c.out.how)), u.out + 1 - c.out.tried))
  {}

  lemma OpenWorldsKeep(env: Env, s: seq<Call>, n: nat)
    requires Fresh(s, {}, [])
    ensures Assembled(OpenWorlds(env, s, n), n)
  {
    var u := Until(env, s, Opens(Worlds(n)));
    OpenWorldsIs(env, s, n);
    WorldsBegun(env, s, n);
    if u.out < n {
      BegunKeep(env, u.calls, u.out + 1, n);
    }
  }

  lemma BegunKeep(env: Env, s: seq<Call>, begun: nat, n: nat)
    requires FreshWorlds(s, begun)
    ensures var c := Closings(env, s, Down(begun), true, Full);
            Assembled(Ran(c.calls, Built(Some(Verdict(c.out.how)), begun - c.out.tried)), n)
  {
    WorldsRollback(env, s, begun);
    var c := Closings(env, s, Down(begun), true, Full);
    Unassembled(c, begun - c.out.tried, n);
  }

  /** What `BuildCameras` makes of the opens. */
  lemma BuildCamerasIs(env: Env, s: seq<Call>, n: nat)
    ensures var u := Until(env, s, Opens(Cameras(n)));
            BuildCameras(env, s, n) == if u.out >= n then Ran(u.calls, Built(None, n))
            else var c := Closings(env, u.calls, Cameras(u.out), true, Full);
                 Ran(c.calls, Built(Some(Verdict(c.out.how)), 0))
  {}

  lemma CamerasBack(env: Env, s: seq<Call>, built: nat, have: set<Item>, worlds: seq<Item>)
    requires Fresh(s, have + Elements(Cameras(built)), worlds) && forall x <- have :: x.World?
    ensures var c := Closings(env, s, Cameras(built), true, Full);
            Failed(c.calls, have, worlds, Some(Verdict(c.out.how)))
  {
    assert have + Elements(Cameras(built)) == Elements(Cameras(built)) + have;
    Rollback(env, s, Cameras(built), have, worlds, false);
  }

  lemma BuildCamerasKeep(env: Env, s: seq<Call>, n: nat, have: set<Item>, worlds: seq<Item>)
    requires Fresh(s, have, worlds) && forall x <- have :: x.World?
    ensures var r := BuildCameras(env, s, n);
            if r.out.failure.None? then r.out.count == n && Fresh(r.calls, have + Elements(Cameras(n)), worlds)
            else r.out.count == 0 && Failed(r.calls, have, worlds, r.out.failure)
  {
    var r := Until(env, s, Opens(Cameras(n)));
    BuildCamerasIs(env, s, n);
    UntilClean(env, s, Opens(Cameras(n)), have, worlds);
    OpenedAll(Cameras(n), r.out);
    assert Cameras(n)[..r.out] == Cameras(r.out);
    if r.out < n {
      CamerasBack(env, r.calls, r.out, have, worlds);
    }
  }

  /** What a failed build leaves, and what its failure says. */
  predicate Failed(s: seq<Call>, rest: set<Item>, worlds: seq<Item>, failure: Option<Failure>) {
    Keeps(s, rest, worlds, failure == Some(CloseUnknown)) && Grounded(s, failure == Some(CloseUnknown))
  }

  // ----- the arms

  lemma HandedOne(s: seq<Call>, part: nat, count: nat)
    ensures Handed(s, part, count + 1) == Handed(s, part, count) + [Call(Open(Arm(part, count)), Done)]
    ensures Elements(ArmsOf(part, count + 1)) == Elements(ArmsOf(part, count)) + {Arm(part, count)}
  {
    assert ArmsOf(part, count + 1) == ArmsOf(part, count) + [Arm(part, count)];
  }

  lemma {:induction false} HandedFresh(s: seq<Call>, part: nat, count: nat, have: set<Item>, worlds: seq<Item>)
    requires Fresh(s, have, worlds)
    ensures Fresh(Handed(s, part, count), have + Elements(ArmsOf(part, count)), worlds)
    decreases count
  {
    if count == 0 {
      assert Handed(s, part, 0) == s && have + Elements(ArmsOf(part, 0)) == have;
    } else {
      var x, before := Arm(part, count - 1), Handed(s, part, count - 1);
      HandedFresh(s, part, count - 1, have, worlds);
      HandedOne(s, part, count - 1);
      assert have + Elements(ArmsOf(part, count)) == have + Elements(ArmsOf(part, count - 1)) + {x};
      OrderlyGrows(before, Call(Open(x), Done));
    }
  }

  lemma OtherFresh(s: seq<Call>, what: Work, o: Outcome, have: set<Item>, worlds: seq<Item>)
    requires Fresh(s, have, worlds)
    ensures Fresh(s + [Call(Other(what), o)], have, worlds)
  {
    OrderlyGrows(s, Call(Other(what), o));
  }

  lemma TakePartKeep(env: Env, s: seq<Call>, part: nat, have: set<Item>, worlds: seq<Item>)
    requires Fresh(s, have, worlds) && forall x <- have :: x.Arm? ==> x.part < part
    ensures var r := TakePart(env, s, part);
            var taken := if r.out.count == 1 then {Arm(part, 0)} else {};
            && r.out.count <= 1
            && (if r.out.failure.None? then r.out.count == 1 && Fresh(r.calls, have + taken, worlds)
                else Failed(r.calls, have + taken, worlds, r.out.failure))
  {
    var t := Ask(env, s, Other(BuildPart(part)));
    OtherFresh(s, BuildPart(part), env.outcome(s, Other(BuildPart(part))), have, worlds);
    if env.outcome(s, Other(BuildPart(part))).Done? {
      var count := env.arms(t);
      var h := Handed(t, part, count);
      HandedFresh(t, part, count, have, worlds);
      OtherFresh(h, CountArms(part), if count == 1 then Done else Raised, have + Elements(ArmsOf(part, count)), worlds);
      var c := Counted(h, part, count);
      if count == 1 {
        assert ArmsOf(part, 1) == [Arm(part, 0)] && Elements(ArmsOf(part, 1)) == {Arm(part, 0)};
        OtherFresh(c, CheckPart(part), env.outcome(c, Other(CheckPart(part))), have + {Arm(part, 0)}, worlds);
      } else {
        assert have + Elements(ArmsOf(part, count)) == Elements(ArmsOf(part, count)) + have;
        Rollback(env, c, ArmsOf(part, count), have, worlds, false);
        assert have + {} == have;
      }
    } else {
      assert have + {} == have;
    }
  }

  lemma {:induction false} TakePartsKeep(env: Env, s: seq<Call>, i: nat, n: nat, have: set<Item>, worlds: seq<Item>)
    requires i <= n && Fresh(s, have + Elements(Arms(i)), worlds) && forall x <- have :: !x.Arm?
    ensures var r := TakeParts(env, s, i, n);
            && r.out.count <= n
            && (if r.out.failure.None? then r.out.count == n && Fresh(r.calls, have + Elements(Arms(n)), worlds)
                else Failed(r.calls, have + Elements(Arms(r.out.count)), worlds, r.out.failure))
    decreases n - i
  {
    if i == n {
      OtherFresh(s, CheckParts, env.outcome(s, Other(CheckParts)), have + Elements(Arms(n)), worlds);
    } else {
      var r := TakePart(env, s, i);
      TakePartKeep(env, s, i, have + Elements(Arms(i)), worlds);
      assert Arms(i + 1) == Arms(i) + [Arm(i, 0)];
      assert have + Elements(Arms(i + 1)) == have + Elements(Arms(i)) + {Arm(i, 0)};
      assert have + Elements(Arms(i)) + {} == have + Elements(Arms(i));
      if r.out.failure.None? {
        TakePartsKeep(env, r.calls, i + 1, n, have, worlds);
      }
    }
  }

  lemma BuildArmsKeep(env: Env, s: seq<Call>, n: nat, have: set<Item>, worlds: seq<Item>)
    requires Fresh(s, have, worlds) && forall x <- have :: !x.Arm?
    ensures var r := BuildArms(env, s, n);
            if r.out.failure.None? then r.out.count == n && Fresh(r.calls, have + Elements(Arms(n)), worlds)
            else r.out.count == 0 && Failed(r.calls, have, worlds, r.out.failure)
  {
    assert have + Elements(Arms(0)) == have;
    var r := TakeParts(env, s, 0, n);
    TakePartsKeep(env, s, 0, n, have, worlds);
    if r.out.failure.Some? {
      assert have + Elements(Arms(r.out.count)) == Elements(Arms(r.out.count)) + have;
      Rollback(env, r.calls, Arms(r.out.count), have, worlds, r.out.failure == Some(CloseUnknown));
    }
  }

  // ----- the rig

  lemma StartLoopsKeep(env: Env, s: seq<Call>, rig: Rig, have: set<Item>, worlds: seq<Item>)
    requires rig == NO_RIG.(cameras := rig.cameras, arms := rig.arms) && Fresh(s, have + Handles(rig), worlds)
    ensures var r := StartLoops(env, s, rig);
            && r.out.rig == rig.(core := r.out.rig.core, pump := r.out.rig.pump, captures := r.out.rig.captures)
            && r.out.rig.captures <= rig.cameras && r.out.failure != Some(CloseUnknown)
            && (r.out.failure.None? ==> r.out.rig.core)
            && Fresh(r.calls, have + Handles(r.out.rig), worlds)
  {
    var steps := StartSteps(rig.cameras);
    var r := Until(env, s, steps);
    UntilClean(env, s, steps, have + Handles(rig), worlds);
    StartOpened(rig.cameras, r.out);
    var after := StartLoops(env, s, rig).out.rig;
    assert have + Handles(rig) + Opened(steps[..r.out]) == have + Handles(after);
  }

  lemma StartOpened(cameras: nat, n: nat)
    requires n <= 6 + cameras
    ensures Opened(StartSteps(cameras)[..n])
         == Elements(Maybe(n >= 2, Core)) + Elements(Maybe(n >= 5, Pump))
            + Elements(Captures(if n >= 6 then n - 6 else 0))
  {
    var first := StartSteps(cameras)[..6];
    assert first == [Other(Prepare), Open(Core), Other(StartConsole), Other(MakePump), Open(Pump),
                     Other(MakeCapturePumps)];
    if n <= 6 {
      assert StartSteps(cameras)[..n] == first[..n];
      assert forall step <- first[..n] :: step.Open? ==> step == Open(Core) || step == Open(Pump);
      if n >= 2 {
        assert first[..n][1] == Open(Core);
      }
      if n >= 5 {
        assert first[..n][4] == Open(Pump);
      }
    } else {
      var m := n - 6;
      assert StartSteps(cameras)[..n] == first + Opens(Captures(cameras))[..m];
      OpenedAll(Captures(cameras), m);
      assert Captures(cameras)[..m] == Captures(m);
      assert first[1] == Open(Core) && first[4] == Open(Pump);
      assert Opened(first) == {Core, Pump};
      assert Opened(first + Opens(Captures(cameras))[..m]) == Opened(first) + Opened(Opens(Captures(cameras))[..m]);
    }
  }

  /** Closing for good: what is not reached is in doubt. */
  lemma CloseDown(env: Env, s: seq<Call>, units: seq<Item>, have: set<Item>, worlds: seq<Item>, doubt: bool)
    requires Keeps(s, Elements(units) + have, worlds, doubt) && Distinct(units) && Elements(units) !! have
              && NoWorlds(units)
    ensures var r := Closings(env, s, units, false, Full);
            && (if r.out.how.Short? then 0 < r.out.tried <= |units| &&
                  Keeps(r.calls, Unspared(Close(units[r.out.tried - 1]), Elements(units[r.out.tried..]) + have), worlds,
                        true)
                else Keeps(r.calls, have, worlds, doubt || r.out.how.Doubted?))
  {
    ClosingsKeep(env, s, units, false, Full, false, have, doubt);
  }

  predicate WellFormed(rig: Rig) { rig.captures <= rig.cameras }

  lemma CameraElements(from: nat, to: nat)
    requires from <= to
    ensures forall x :: x in LaterCameras(from, to) <==> x.Camera? && from <= x.n < to
    ensures Distinct(LaterCameras(from, to))
    ensures forall x :: x in Cameras(to) <==> x.Camera? && x.n < to
  {
    forall i: nat | i < to
      ensures Camera(i) in Cameras(to) && (from <= i ==> Camera(i) in LaterCameras(from, to))
    {
      assert Cameras(to)[i] == Camera(i);
      if from <= i {
        assert LaterCameras(from, to)[i - from] == Camera(i);
      }
    }
  }

  lemma CaptureElements(n: nat)
    ensures forall x :: x in Captures(n) <==> x.Capture? && x.n < n
  {
    forall i: nat | i < n
      ensures Capture(i) in Captures(n)
    {
      assert Captures(n)[i] == Capture(i);
    }
  }

  lemma DistinctJoin(a: seq<Item>, b: seq<Item>)
    requires Distinct(a) && Distinct(b) && Elements(a) !! Elements(b)
    ensures Distinct(a + b) && Elements(a + b) == Elements(a) + Elements(b)
  {
    forall i, j | 0 <= i < |a| && 0 <= j < |b|
      ensures a[i] != b[j]
    {
      assert a[i] in Elements(a) && b[j] in Elements(b);
    }
  }

  lemma PassiveElements(rig: Rig)
    requires WellFormed(rig) && !rig.finished
    ensures Distinct(Passive(rig)) && NoWorlds(Passive(rig))
    ensures Elements(Passive(rig)) == Elements(Cameras(rig.cameras)) + Elements(Captures(rig.captures))
              + Elements(Maybe(rig.pump, Pump))
    ensures Elements(Passive(rig)) !! Elements(Maybe(rig.core, Core)) + Elements(Arms(rig.arms))
  {
    var a, b, c := Pairs(rig.captures), Maybe(rig.pump, Pump), LaterCameras(rig.captures, rig.cameras);
    PairElements(rig.captures);
    CameraElements(rig.captures, rig.cameras);
    CaptureElements(rig.captures);
    DistinctJoin(a, b);
    DistinctJoin(a + b, c);
    NoWorldsJoin(a + b, c);
  }

  lemma NoWorldsJoin(a: seq<Item>, b: seq<Item>)
    requires NoWorlds(a) && NoWorlds(b)
    ensures NoWorlds(a + b)
  {}

  lemma PairElements(n: nat)
    ensures forall x :: x in Pairs(n) <==> (x.Camera? || x.Capture?) && x.n < n
    ensures Distinct(Pairs(n))
  {
    forall i: nat | i < n
      ensures Camera(i) in Pairs(n) && Capture(i) in Pairs(n)
    {
      assert Pairs(n)[2 * i] == Camera(i) && Pairs(n)[2 * i + 1] == Capture(i);
    }
  }

  lemma ArmsSpared(n: nat, tried: nat, have: set<Item>)
    requires 0 < tried <= n && forall x <- have :: x.World?
    ensures Unspared(Close(Arms(n)[tried - 1]), Elements(Arms(n)[tried..]) + have) == have
  {
    assert Together(false, Arms(n), have);
    UnsparedRest(false, Arms(n), have, tried);
  }

  /** Cut before the core: nothing but the worlds is answered for any more. */
  lemma PassiveSpared(rig: Rig, tried: nat, others: set<Item>, have: set<Item>)
    requires WellFormed(rig) && !rig.finished && 0 < tried <= |Passive(rig)|
    requires (forall x <- others :: !x.World?) && forall x <- have :: x.World?
    ensures Unspared(Close(Passive(rig)[tried - 1]), Elements(Passive(rig)[tried..]) + (others + have)) == have
  {
    PassiveElements(rig);
    var y := Passive(rig)[tried - 1];
    assert y in Elements(Passive(rig));
    assert y.Camera? || y.Capture? || y.Pump?;
    assert forall x <- Passive(rig)[tried..] :: exists j :: tried <= j < |Passive(rig)| && Passive(rig)[j] == x;
  }

  /** The teardown of a rig, stretch by stretch. */
  lemma FinishIs(env: Env, s: seq<Call>, rig: Rig)
    requires !rig.finished
    ensures var f, p := Finish(env, s, rig), Closings(env, s, Passive(rig), false, Full);
            if p.out.how.Short? then f.calls == p.calls && f.out.rig == Spent(false)
            else
              var c := Closings(env, p.calls, Maybe(rig.core, Core), false, Full);
              var a := Closings(env, c.calls, Arms(rig.arms), false, Full);
              && f.calls == a.calls
              && f.out.rig == Spent(rig.confirmed && p.out.how.Full? && c.out.how.Full? && a.out.how.Full?)
  {}

  lemma HandlesSplit(rig: Rig, have: set<Item>)
    requires WellFormed(rig) && !rig.finished
    ensures var core, arms := Elements(Maybe(rig.core, Core)), Elements(Arms(rig.arms));
            && Handles(rig) + have == Elements(Passive(rig)) + ((core + arms) + have)
            && (core + arms) + have == core + (arms + have)
  {
    PassiveElements(rig);
  }

  lemma FinishKeep(env: Env, s: seq<Call>, rig: Rig, have: set<Item>, worlds: seq<Item>, doubt: bool)
    requires WellFormed(rig) && !rig.finished && Keeps(s, Handles(rig) + have, worlds, doubt)
              && forall x <- have :: x.World?
    ensures var f := Finish(env, s, rig);
            f.out.rig.finished && Keeps(f.calls, have, worlds, doubt || !f.out.rig.confirmed)
  {
    var core, arms := Elements(Maybe(rig.core, Core)), Elements(Arms(rig.arms));
    var p := Closings(env, s, Passive(rig), false, Full);
    FinishIs(env, s, rig);
    PassiveElements(rig);
    HandlesSplit(rig, have);
    CloseDown(env, s, Passive(rig), (core + arms) + have, worlds, doubt);
    if p.out.how.Short? {
      PassiveSpared(rig, p.out.tried, core + arms, have);
    } else {
      FinishMore(env, p.calls, rig, have, worlds, doubt || p.out.how.Doubted?);
      var c := Closings(env, p.calls, Maybe(rig.core, Core), false, Full);
      var a := Closings(env, c.calls, Arms(rig.arms), false, Full);
      MoreDoubt(a.calls, have, worlds, doubt || p.out.how.Doubted? || !c.out.how.Full? || !a.out.how.Full?,
                doubt || !Finish(env, s, rig).out.rig.confirmed);
    }
  }

  lemma MoreDoubt(s: seq<Call>, rest: set<Item>, worlds: seq<Item>, doubt: bool, more: bool)
    requires Keeps(s, rest, worlds, doubt) && (doubt ==> more)
    ensures Keeps(s, rest, worlds, more)
  {}

  lemma FinishMore(env: Env, s: seq<Call>, rig: Rig, have: set<Item>, worlds: seq<Item>, doubt: bool)
    requires Keeps(s, Elements(Maybe(rig.core, Core)) + (Elements(Arms(rig.arms)) + have), worlds, doubt)
              && forall x <- have :: x.World?
    ensures var c := Closings(env, s, Maybe(rig.core, Core), false, Full);
            var a := Closings(env, c.calls, Arms(rig.arms), false, Full);
            Keeps(a.calls, have, worlds, doubt || !c.out.how.Full? || !a.out.how.Full?)
  {
    var c := Closings(env, s, Maybe(rig.core, Core), false, Full);
    CoreKeep(env, s, rig.core, Elements(Arms(rig.arms)) + have, worlds, doubt);
    ArmsKeep(env, c.calls, rig.arms, have, worlds, doubt || !c.out.how.Full?);
  }

  /** Whatever happens to the core, the rest is still answered for. */
  lemma CoreKeep(env: Env, s: seq<Call>, core: bool, have: set<Item>, worlds: seq<Item>, doubt: bool)
    requires Keeps(s, Elements(Maybe(core, Core)) + have, worlds, doubt) && Core !in have
    ensures var c := Closings(env, s, Maybe(core, Core), false, Full);
            Keeps(c.calls, have, worlds, doubt || !c.out.how.Full?)
  {
    var c := Closings(env, s, Maybe(core, Core), false, Full);
    CloseDown(env, s, Maybe(core, Core), have, worlds, doubt);
    if c.out.how.Short? {
      assert Maybe(core, Core)[c.out.tried..] == [];
      assert Elements([]) + have == have;
      NoneSpared(Core, have);
    }
  }

  lemma ArmsKeep(env: Env, s: seq<Call>, arms: nat, have: set<Item>, worlds: seq<Item>, doubt: bool)
    requires Keeps(s, Elements(Arms(arms)) + have, worlds, doubt) && forall x <- have :: x.World?
    ensures var a := Closings(env, s, Arms(arms), false, Full);
            Keeps(a.calls, have, worlds, doubt || !a.out.how.Full?)
  {
    var a := Closings(env, s, Arms(arms), false, Full);
    CloseDown(env, s, Arms(arms), have, worlds, doubt);
    if a.out.how.Short? {
      ArmsSpared(arms, a.out.tried, have);
    }
  }

  lemma StartKeep(env: Env, s: seq<Call>, cameras: nat, parts: nat, have: set<Item>, worlds: seq<Item>)
    requires Fresh(s, have, worlds) && forall x <- have :: x.World?
    ensures var r := Start(env, s, cameras, parts);
            && WellFormed(r.out.rig) && !r.out.rig.finished && r.out.rig.confirmed
            && (if r.out.failure.None? then Fresh(r.calls, Handles(r.out.rig) + have, worlds) && r.out.rig.core
                else Failed(r.calls, Handles(r.out.rig) + have, worlds, r.out.failure))
  {
    var c := BuildCameras(env, s, cameras);
    BuildCamerasKeep(env, s, cameras, have, worlds);
    assert Handles(NO_RIG) + have == have;
    if c.out.failure.None? {
      var seen := NO_RIG.(cameras := cameras);
      var a := BuildArms(env, c.calls, parts);
      assert have + Elements(Cameras(cameras)) == Handles(seen) + have;
      BuildArmsKeep(env, c.calls, parts, Handles(seen) + have, worlds);
      if a.out.failure.None? {
        var armed := seen.(arms := parts);
        assert Handles(seen) + have + Elements(Arms(parts)) == have + Handles(armed);
        StartLoopsKeep(env, a.calls, armed, have, worlds);
        var l := StartLoops(env, a.calls, armed);
        assert have + Handles(l.out.rig) == Handles(l.out.rig) + have;
      }
    }
  }

  /** The announcement of a failed start. If it fails too, what the failure said is lost. */
  lemma ReportFailureKeep(env: Env, s: seq<Call>, rest: set<Item>, worlds: seq<Item>, failure: Option<Failure>)
    requires Failed(s, rest, worlds, failure)
    ensures var o := env.outcome(s, Other(ReportFailure));
            Keeps(Ask(env, s, Other(ReportFailure)), rest, worlds, failure == Some(CloseUnknown) && o.Done?)
  {
    AskGrows(env, s, Other(ReportFailure));
  }

  lemma OpenRigKeep(env: Env, s: seq<Call>, cameras: nat, parts: nat, have: set<Item>, worlds: seq<Item>)
    requires Fresh(s, have, worlds) && forall x <- have :: x.World?
    ensures var r := OpenRig(env, s, cameras, parts);
            && WellFormed(r.out.rig)
            && (if r.out.failure.None? then Fresh(r.calls, Handles(r.out.rig) + have, worlds) && r.out.rig.confirmed
                && r.out.rig.core && !r.out.rig.finished
                else Keeps(r.calls, Handles(r.out.rig) + have, worlds,
                           r.out.failure == Some(CloseUnknown) || !r.out.rig.confirmed))
  {
    var r := Start(env, s, cameras, parts);
    StartKeep(env, s, cameras, parts, have, worlds);
    if r.out.failure.Some? {
      var t := Ask(env, r.calls, Other(ReportFailure));
      ReportFailureKeep(env, r.calls, Handles(r.out.rig) + have, worlds, r.out.failure);
      if env.outcome(r.calls, Other(ReportFailure)).Done? {
        FinishKeep(env, t, r.out.rig, have, worlds, r.out.failure == Some(CloseUnknown));
        assert Handles(Finish(env, t, r.out.rig).out.rig) + have == have;
      }
    }
  }

  lemma CloseRigKeep(env: Env, s: seq<Call>, rig: Rig, interrupted: bool, have: set<Item>, worlds: seq<Item>,
                     doubt: bool)
    requires WellFormed(rig) && Keeps(s, Handles(rig) + have, worlds, doubt) && forall x <- have :: x.World?
    ensures var f := CloseRig(env, s, rig, interrupted);
            f.out.rig.finished && Keeps(f.calls, have, worlds, doubt || !f.out.rig.confirmed)
  {
    if rig.finished {
      assert Handles(rig) + have == have;
    } else if interrupted {
      FinishKeep(env, s, rig, have, worlds, doubt);
    } else {
      AskGrows(env, s, Other(WaitParked));
      FinishKeep(env, Ask(env, s, Other(WaitParked)), rig, have, worlds, doubt);
    }
  }

  // ----- the site

  /** What a session answers for besides its worlds. */
  function Held(site: Site): set<Item> {
    (if site.rig.None? then {} else Handles(site.rig.value)) + (if site.service.Running? then {Service} else {})
  }

  function Covered(site: Site): set<Item> { Held(site) + Elements(Worlds(site.worlds)) }

  predicate Owner(site: Site) { site.owned && !site.failed && (site.rig.Some? ==> WellFormed(site.rig.value)) }

  /** What a close may be called on: the session answers for everything live, unless the failure it
  closes on, or its rig, says otherwise. */
  predicate Answering(s: seq<Call>, site: Site, exc: Option<Failure>) {
    && Owner(site)
    && Keeps(s, Covered(site), Worlds(site.worlds), exc == Some(CloseUnknown) || !Confirmed(site))
  }

  /** Open, with everything opened answered for and nothing failed. */
  predicate Up(s: seq<Call>, site: Site) {
    Owner(site) && site.rig.Some? && site.rig.value.confirmed && site.service.Running? && AllOwed(s, site)
  }

  /** Everything opened is answered for and has had no close tried; of the rig at least the core is open. */
  predicate AllOwed(s: seq<Call>, site: Site) {
    Fresh(s, Covered(site), Worlds(site.worlds)) && site.rig.Some? && !site.rig.value.finished && site.rig.value.core
  }

  lemma UpAnswers(s: seq<Call>, site: Site, exc: Option<Failure>)
    requires Up(s, site)
    ensures Answering(s, site, exc)
  {}

  /** What an opening leaves. */
  predicate Opening(r: Ran<Entering>) {
    if r.out.failure.None? then Up(r.calls, r.out.site) && !r.out.site.active
    else Answering(r.calls, r.out.site, r.out.failure)
         && (r.out.site.service.Unstarted? ==> AllOwed(r.calls, r.out.site))
  }

  lemma ProbeKeep(env: Env, s: seq<Call>)
    requires Fresh(s, {Probe}, [])
    ensures var c := CloseUnit(env, s, Probe, true);
            if c.out.Full? then Fresh(c.calls, {}, []) else Keeps(c.calls, {}, [], false)
  {
    CloseOne(Fold(s), Probe, true, env.outcome(s, Undo(Probe)), {}, false);
    assert {Probe} + {} == {Probe};
    AskGrows(env, s, Undo(Probe));
  }

  lemma PermitKeep(env: Env, s: seq<Call>, sizes: Sizes)
    requires Fresh(s, {}, [])
    ensures var p := Permit(env, s, sizes);
            if p.out then Fresh(p.calls, {}, []) else Keeps(p.calls, {}, [], false)
  {
    if sizes.authorized {
      var t := Ask(env, s, Open(Probe));
      FreshStep(env, s, Open(Probe), {}, []);
      if env.outcome(s, Open(Probe)).Done? {
        assert {} + Adds(env, s, Open(Probe)) == {Probe};
        OtherFresh(t, Authorize, env.outcome(t, Other(Authorize)), {Probe}, []);
        ProbeKeep(env, Ask(env, t, Other(Authorize)));
      } else {
        assert {} + Adds(env, s, Open(Probe)) == {};
      }
    }
  }

  lemma BeginKeep(env: Env, s: seq<Call>, sizes: Sizes)
    requires Fresh(s, {}, [])
    ensures var p := Begin(env, s, sizes);
            if p.out then Fresh(p.calls, {}, []) else Keeps(p.calls, {}, [], false)
  {
    var a := Ask(env, s, Other(Assemble));
    OtherFresh(s, Assemble, env.outcome(s, Other(Assemble)), {}, []);
    if env.outcome(s, Other(Assemble)).Done? {
      var p := Permit(env, a, sizes);
      PermitKeep(env, a, sizes);
      if p.out {
        OtherFresh(p.calls, NewRig, env.outcome(p.calls, Other(NewRig)), {}, []);
      }
    }
  }

  lemma OpenAllKeep(env: Env, s: seq<Call>, sizes: Sizes)
    requires Fresh(s, {}, [])
    ensures Opening(OpenAll(env, s, sizes))
  {
    var owner := FREE.(owned := true);
    var p := Begin(env, s, sizes);
    BeginKeep(env, s, sizes);
    assert Worlds(0) == [] && Covered(owner) == {};
    if p.out {
      var w := OpenWorlds(env, p.calls, sizes.worlds);
      OpenWorldsKeep(env, p.calls, sizes.worlds);
      assert Covered(owner.(worlds := w.out.count)) == Elements(Worlds(w.out.count));
      if w.out.failure.None? {
        OpenRestKeep(env, w.calls, sizes, owner.(worlds := sizes.worlds));
      }
    }
  }

  lemma OpenRestKeep(env: Env, s: seq<Call>, sizes: Sizes, site: Site)
    requires site == FREE.(owned := true, worlds := site.worlds)
              && Fresh(s, Elements(Worlds(site.worlds)), Worlds(site.worlds))
    ensures Opening(OpenRest(env, s, sizes, site))
  {
    var have := Elements(Worlds(site.worlds));
    var r := OpenRig(env, s, sizes.cameras, sizes.parts);
    OpenRigKeep(env, s, sizes.cameras, sizes.parts, have, Worlds(site.worlds));
    var owner := site.(rig := Some(r.out.rig));
    assert Covered(owner) == Handles(r.out.rig) + have;
    if r.out.failure.None? {
      StartServiceKeep(env, r.calls, sizes, owner);
    }
  }

  lemma StartServiceKeep(env: Env, s: seq<Call>, sizes: Sizes, site: Site)
    requires Owner(site) && site.service == Absent && !site.active && Fresh(s, Covered(site), Worlds(site.worlds))
    requires site.rig.Some? && site.rig.value.confirmed && !site.rig.value.finished && site.rig.value.core
    ensures Opening(StartService(env, s, sizes, site))
  {
    var steps := if sizes.administered then [Other(BindAdministration)] else [];
    var b := Until(env, s, steps);
    UntilClean(env, s, steps, Covered(site), Worlds(site.worlds));
    assert Opened(steps[..b.out]) == {};
    assert Covered(site) + {} == Covered(site);
    ServiceKeep(env, b.calls, site);
  }

  lemma ServiceKeep(env: Env, s: seq<Call>, site: Site)
    requires site.service == Absent && Fresh(s, Covered(site), Worlds(site.worlds))
    ensures var t := Until(env, s, [Open(Service), Other(Announce)]);
            var after := site.(service := if t.out == 0 then Unstarted else Running);
            t.out <= 2 && Fresh(t.calls, Covered(after), Worlds(site.worlds))
  {
    var last := [Open(Service), Other(Announce)];
    var t := Until(env, s, last);
    UntilClean(env, s, last, Covered(site), Worlds(site.worlds));
    if t.out == 0 {
      assert last[..0] == [];
      assert Opened([]) == {} && Covered(site.(service := Unstarted)) == Covered(site);
      assert Covered(site) + {} == Covered(site);
    } else {
      assert last[..t.out][0] == Open(Service);
      assert Opened(last[..t.out]) == {Service};
      assert Covered(site) + {Service} == Covered(site.(service := Running));
    }
  }
}
