/** The session's event log: a full list beside a bounded history of step events, read by cursor. */
module EventLog {

  datatype Event = Event(cursor: nat, kind: string, data: nat)

  const STEP := "run.step"
  const HISTORY := 4096

  // ----- the simple specification: one append-only log

  /** The log of everything recorded so far: the event at position `i` has cursor `i + 1`. */
  predicate IsLog(log: seq<Event>) { forall i :: 0 <= i < |log| ==> log[i].cursor == i + 1 }

  function CountSteps(es: seq<Event>): nat {
    if es == [] then 0 else CountSteps(es[..|es| - 1]) + (if es[|es| - 1].kind == STEP then 1 else 0)
  }

  /** A non-step event is always kept; a step only while fewer than 4096 newer steps exist. */
  predicate Kept(log: seq<Event>, i: nat)
    requires i < |log|
  {
    log[i].kind == STEP ==> CountSteps(log[i + 1..]) < HISTORY
  }

  /** A choice of kinds (any, steps only, others only), kept events only or not, after a cursor. */
  datatype Test = Test(steps: bool, others: bool, keptOnly: bool, after: nat)

  predicate Picks(t: Test, log: seq<Event>, i: nat)
    requires i < |log|
  {
    && (if log[i].kind == STEP then t.steps else t.others)
    && (t.keptOnly ==> Kept(log, i))
    && log[i].cursor > t.after
  }

  /** The events of `log[..n]` a test picks, in order. */
  function Select(log: seq<Event>, n: nat, t: Test): seq<Event>
    requires n <= |log|
  {
    if n == 0 then [] else Select(log, n - 1, t) + (if Picks(t, log, n - 1) then [log[n - 1]] else [])
  }

  /** The events after a cursor that are still kept, in cursor order. */
  function Visible(log: seq<Event>, after: nat): seq<Event> { Select(log, |log|, Test(true, true, true, after)) }

  const OTHERS := Test(false, true, false, 0)
  const STEPS := Test(true, false, false, 0)
  const KEPT_STEPS := Test(true, false, true, 0)

  // ----- filters and sorted sequences

  function After(es: seq<Event>, cursor: nat): seq<Event> {
    if es == [] then []
    else
      var init, last := After(es[..|es| - 1], cursor), es[|es| - 1];
      if last.cursor > cursor then init + [last] else init
  }

  predicate Sorted(es: seq<Event>) { forall i, j :: 0 <= i < j < |es| ==> es[i].cursor < es[j].cursor }

  /** `sorted(rows, key=cursor)`: insertion into an already sorted prefix. */
  function Insert(es: seq<Event>, e: Event): seq<Event> {
    if es == [] || es[|es| - 1].cursor <= e.cursor then es + [e]
    else Insert(es[..|es| - 1], e) + [es[|es| - 1]]
  }

  function Sort(es: seq<Event>): seq<Event> {
    if es == [] then [] else Insert(Sort(es[..|es| - 1]), es[|es| - 1])
  }

  lemma {:induction false} InsertHolds(es: seq<Event>, e: Event)
    ensures multiset(Insert(es, e)) == multiset(es) + multiset{e}
    ensures forall x :: x in Insert(es, e) ==> x in es || x == e
  {
    if es != [] && es[|es| - 1].cursor > e.cursor {
      InsertHolds(es[..|es| - 1], e);
      assert es == es[..|es| - 1] + [es[|es| - 1]];
    }
  }

  lemma {:induction false} InsertSorts(es: seq<Event>, e: Event)
    requires Sorted(es) && forall i :: 0 <= i < |es| ==> es[i].cursor != e.cursor
    ensures Sorted(Insert(es, e))
  {
    if es != [] && es[|es| - 1].cursor > e.cursor {
      var init, last := es[..|es| - 1], es[|es| - 1];
      InsertSorts(init, e);
      InsertHolds(init, e);
      forall i | 0 <= i < |Insert(init, e)|
        ensures Insert(init, e)[i].cursor < last.cursor
      {
        assert Insert(init, e)[i] in Insert(init, e);
      }
    }
  }

  predicate Distinct(es: seq<Event>) { forall i, j :: 0 <= i < j < |es| ==> es[i].cursor != es[j].cursor }

  lemma {:induction false} SortSorts(es: seq<Event>)
    requires Distinct(es)
    ensures Sorted(Sort(es)) && multiset(Sort(es)) == multiset(es)
  {
    if es != [] {
      var init, last := es[..|es| - 1], es[|es| - 1];
      assert es == init + [last];
      SortSorts(init);
      forall i | 0 <= i < |Sort(init)|
        ensures Sort(init)[i].cursor != last.cursor
      {
        assert Sort(init)[i] in multiset(Sort(init));
        assert Sort(init)[i] in init;
      }
      InsertSorts(Sort(init), last);
      InsertHolds(Sort(init), last);
    }
  }

  lemma SameMembers(a: seq<Event>, b: seq<Event>, e: Event)
    requires multiset(a) == multiset(b) && e in a
    ensures e in b
  {
    assert e in multiset(a);
  }

  lemma SameLast(a: seq<Event>, b: seq<Event>)
    requires Sorted(a) && Sorted(b) && multiset(a) == multiset(b) && a != [] && b != []
    ensures a[|a| - 1] == b[|b| - 1]
  {
    var x, y := a[|a| - 1], b[|b| - 1];
    SameMembers(a, b, x);
    SameMembers(b, a, y);
    var i :| 0 <= i < |b| && b[i] == x;
    var j :| 0 <= j < |a| && a[j] == y;
    assert x.cursor <= y.cursor && y.cursor <= x.cursor;
    assert i == |b| - 1;
  }

  lemma DropLast(a: seq<Event>)
    requires a != []
    ensures multiset(a[..|a| - 1]) == multiset(a) - multiset{a[|a| - 1]}
  {
    assert a == a[..|a| - 1] + [a[|a| - 1]];
  }

  /** A sorted sequence is determined by what it holds. */
  lemma SameLength(a: seq<Event>, b: seq<Event>)
    requires multiset(a) == multiset(b)
    ensures |a| == |b|
  {
    assert |multiset(a)| == |a| && |multiset(b)| == |b|;
  }

  lemma {:induction false} SortedUnique(a: seq<Event>, b: seq<Event>)
    requires Sorted(a) && Sorted(b) && multiset(a) == multiset(b)
    ensures a == b
  {
    SameLength(a, b);
    if a != [] {
      SameLast(a, b);
      DropLast(a);
      DropLast(b);
      SortedUnique(a[..|a| - 1], b[..|b| - 1]);
      assert a == a[..|a| - 1] + [a[|a| - 1]];
      assert b == b[..|b| - 1] + [b[|b| - 1]];
    }
  }

  // ----- selections of a log

  lemma {:induction false} SelectSorted(log: seq<Event>, n: nat, t: Test)
    requires n <= |log| && IsLog(log)
    ensures Sorted(Select(log, n, t))
    ensures forall i :: 0 <= i < |Select(log, n, t)| ==> 0 < Select(log, n, t)[i].cursor <= n
  {
    if n > 0 {
      SelectSorted(log, n - 1, t);
    }
  }

  lemma {:induction false} SelectSame(log: seq<Event>, log': seq<Event>, n: nat, t: Test, t': Test)
    requires n <= |log| && n <= |log'|
    requires forall i :: 0 <= i < n ==> log[i] == log'[i] && Picks(t, log, i) == Picks(t', log', i)
    ensures Select(log, n, t) == Select(log', n, t')
  {
    if n > 0 {
      SelectSame(log, log', n - 1, t, t');
    }
  }

  /** Two disjoint selections together hold what the selection of either holds. */
  lemma {:induction false} SelectUnion(log: seq<Event>, n: nat, a: Test, b: Test, c: Test)
    requires n <= |log|
    requires forall i :: 0 <= i < n ==> (Picks(c, log, i) <==> Picks(a, log, i) || Picks(b, log, i))
    requires forall i :: 0 <= i < n ==> !(Picks(a, log, i) && Picks(b, log, i))
    ensures multiset(Select(log, n, a) + Select(log, n, b)) == multiset(Select(log, n, c))
  {
    if n > 0 {
      SelectUnion(log, n - 1, a, b, c);
    }
  }

  lemma AfterAppend(es: seq<Event>, e: Event, cursor: nat)
    ensures After(es + [e], cursor) == After(es, cursor) + (if e.cursor > cursor then [e] else [])
  {
    assert (es + [e])[..|es|] == es;
  }

  lemma {:induction false} SelectAfter(log: seq<Event>, n: nat, cursor: nat, t: Test)
    requires n <= |log| && IsLog(log) && t.after == 0
    ensures After(Select(log, n, t), cursor) == Select(log, n, t.(after := cursor))
  {
    if n > 0 {
      SelectAfter(log, n - 1, cursor, t);
      if Picks(t, log, n - 1) {
        AfterAppend(Select(log, n - 1, t), log[n - 1], cursor);
      } else {
        assert Select(log, n, t) == Select(log, n - 1, t);
      }
    }
  }

  // ----- the two stores refine the log

  lemma {:induction false} StepsCount(log: seq<Event>, n: nat)
    requires n <= |log| && IsLog(log)
    ensures |Select(log, n, STEPS)| == CountSteps(log[..n])
  {
    if n > 0 {
      StepsCount(log, n - 1);
      assert log[..n][..n - 1] == log[..n - 1];
    }
  }

  lemma {:induction false} CountAppend(a: seq<Event>, b: seq<Event>)
    ensures CountSteps(a + b) == CountSteps(a) + CountSteps(b)
  {
    if b == [] {
      assert a + b == a;
    } else {
      assert (a + b)[..|a + b| - 1] == a + b[..|b| - 1];
      CountAppend(a, b[..|b| - 1]);
    }
  }

  function Surplus(log: seq<Event>): nat {
    if CountSteps(log) > HISTORY then CountSteps(log) - HISTORY else 0
  }

  lemma CountSplit(log: seq<Event>, n: nat)
    requires n <= |log|
    ensures CountSteps(log) == CountSteps(log[..n]) + CountSteps(log[n..])
  {
    assert log == log[..n] + log[n..];
    CountAppend(log[..n], log[n..]);
  }

  function Drop(es: seq<Event>, n: nat): seq<Event> { if n <= |es| then es[n..] else [] }

  lemma DropAppend(es: seq<Event>, e: Event, n: nat)
    ensures Drop(es + [e], n) == Drop(es, n) + (if n <= |es| then [e] else [])
  {}

  /** The kept steps are the steps without the oldest surplus ones. */
  lemma {:induction false} KeptAreNewest(log: seq<Event>, n: nat)
    requires n <= |log| && IsLog(log)
    ensures Select(log, n, KEPT_STEPS) == Drop(Select(log, n, STEPS), Surplus(log))
  {
    if n > 0 {
      KeptAreNewest(log, n - 1);
      if log[n - 1].kind == STEP {
        CountSplit(log, n);
        StepsCount(log, n);
        DropAppend(Select(log, n - 1, STEPS), log[n - 1], Surplus(log));
      }
    }
  }

  /** The session's event store. */
  class Store {
    var events: seq<Event>
    var steps: seq<Event>
    var cursor: nat
    ghost var log: seq<Event>

    ghost predicate Valid()
      reads this
    {
      && IsLog(log) && cursor == |log|
      && events == Select(log, |log|, OTHERS)
      && steps == Select(log, |log|, KEPT_STEPS)
    }

    constructor ()
      ensures Valid() && log == []
    {
      events, steps, cursor, log := [], [], 0, [];
    }

    /** `_event` */
    method Record(kind: string, data: nat) returns (e: Event)
      requires Valid()
      modifies this
      ensures Valid() && log == old(log) + [e] && e == Event(|log|, kind, data)
    {
      cursor := cursor + 1;
      e := Event(cursor, kind, data);
      StoresGrow(log, e);
      log := log + [e];
      if kind == STEP {
        steps := steps + [e];
        if |steps| > HISTORY {
          steps := steps[1..];
        }
      } else {
        events := events + [e];
      }
    }

    /** `events(after_cursor)` */
    method Events(after: nat) returns (r: seq<Event>)
      requires Valid()
      ensures r == Visible(log, after) && Sorted(r)
    {
      var rows := After(events, after) + After(steps, after);
      MergeIsVisible(log, after);
      r := Sort(rows);
    }
  }

  lemma CountOne(log: seq<Event>, e: Event)
    ensures CountSteps(log + [e]) == CountSteps(log) + if e.kind == STEP then 1 else 0
  {
    assert (log + [e])[..|log|] == log;
  }

  lemma GrowSelect(log: seq<Event>, e: Event, t: Test)
    requires IsLog(log) && e.cursor == |log| + 1 && !t.keptOnly && t.after == 0
    ensures var picked := if e.kind == STEP then t.steps else t.others;
            Select(log + [e], |log| + 1, t) == Select(log, |log|, t) + if picked then [e] else []
  {
    SelectSame(log, log + [e], |log|, t, t);
  }

  /** Appending one event to either store does what appending it to the log does. */
  lemma StoresGrow(log: seq<Event>, e: Event)
    requires IsLog(log) && e.cursor == |log| + 1
    ensures var log' := log + [e];
            && IsLog(log')
            && Select(log', |log'|, OTHERS) == Select(log, |log|, OTHERS) + (if e.kind == STEP then [] else [e])
            && (e.kind != STEP ==> Select(log', |log'|, KEPT_STEPS) == Select(log, |log|, KEPT_STEPS))
            && (e.kind == STEP ==> var s := Select(log, |log|, KEPT_STEPS) + [e];
                                   Select(log', |log'|, KEPT_STEPS) == if |s| > HISTORY then s[1..] else s)
  {
    var log', n := log + [e], |log|;
    GrowSelect(log, e, OTHERS);
    GrowSelect(log, e, STEPS);
    CountOne(log, e);
    StepsCount(log, n);
    assert log[..n] == log;
    KeptAreNewest(log, n);
    KeptAreNewest(log', n + 1);
    if e.kind == STEP {
      DropOldest(Select(log, n, STEPS), e, Surplus(log), Surplus(log'));
    }
  }

  /** Appending and dropping at most one more is dropping first, appending, and dropping the rest. */
  lemma DropOldest(all: seq<Event>, e: Event, s: nat, s': nat)
    requires s <= |all| && s <= s' <= s + 1 && s' <= |all|
    ensures Drop(all + [e], s') == if s' > s then (Drop(all, s) + [e])[1..] else Drop(all, s) + [e]
  {
    DropAppend(all, e, s');
    if s' == s + 1 {
      assert (all[s..] + [e])[1..] == all[s + 1..] + [e];
    }
  }

  /** Sorting the two filtered stores together gives the filtered log. */
  lemma MergeIsVisible(log: seq<Event>, after: nat)
    requires IsLog(log)
    ensures Sort(After(Select(log, |log|, OTHERS), after) + After(Select(log, |log|, KEPT_STEPS), after))
              == Visible(log, after)
    ensures Sorted(Visible(log, after))
  {
    var n, a, b, c := |log|, OTHERS.(after := after), KEPT_STEPS.(after := after), Test(true, true, true, after);
    SelectAfter(log, n, after, OTHERS);
    SelectAfter(log, n, after, KEPT_STEPS);
    SelectUnion(log, n, a, b, c);
    SelectSorted(log, n, c);
    var rows := Select(log, n, a) + Select(log, n, b);
    UnionDistinct(log, n, a, b);
    SortSorts(rows);
    SortedUnique(Sort(rows), Select(log, n, c));
  }

  lemma UnionDistinct(log: seq<Event>, n: nat, a: Test, b: Test)
    requires n <= |log| && IsLog(log) && forall i :: 0 <= i < n ==> !(Picks(a, log, i) && Picks(b, log, i))
    ensures Distinct(Select(log, n, a) + Select(log, n, b))
  {
    SelectSorted(log, n, a);
    SelectSorted(log, n, b);
    var x, y := Select(log, n, a), Select(log, n, b);
    forall i, j | 0 <= i < |x| && 0 <= j < |y|
      ensures x[i].cursor != y[j].cursor
    {
      SelectFrom(log, n, a, i);
      SelectFrom(log, n, b, j);
    }
  }

  lemma {:induction false} SelectFrom(log: seq<Event>, n: nat, t: Test, i: nat)
    requires n <= |log| && IsLog(log) && i < |Select(log, n, t)|
    ensures var e := Select(log, n, t)[i];
            0 < e.cursor <= n && Picks(t, log, e.cursor - 1) && log[e.cursor - 1] == e
  {
    if i < |Select(log, n - 1, t)| {
      SelectFrom(log, n - 1, t, i);
    }
  }

  // ----- what is visible, in numbers

  function Steps(es: seq<Event>): set<int> { set k | 0 <= k < |es| && es[k].kind == "run.step" }

  /** Counting steps is counting positions. */
  lemma {:induction false} CountIsSize(es: seq<Event>)
    ensures CountSteps(es) == |Steps(es)|
  {
    if es == [] {
      assert Steps(es) == {};
    } else {
      var n := |es| - 1;
      CountIsSize(es[..n]);
      assert Steps(es) == Steps(es[..n]) + (if es[n].kind == "run.step" then {n} else {});
    }
  }

  lemma {:induction false} SelectHolds(log: seq<Event>, n: nat, t: Test, i: nat)
    requires i < n <= |log| && Picks(t, log, i)
    ensures log[i] in Select(log, n, t)
  {
    if i < n - 1 {
      SelectHolds(log, n - 1, t, i);
    }
  }

  /** An event is shown exactly when it is in the log after the cursor, and is no step or has fewer than 4096
  steps recorded after it. */
  lemma VisibleIff(log: seq<Event>, after: nat, i: nat)
    requires IsLog(log) && i < |log|
    ensures log[i] in Visible(log, after) <==>
              && log[i].cursor > after
              && (log[i].kind == "run.step" ==> |Steps(log[i + 1..])| < 4096)
  {
    var t := Test(true, true, true, after);
    CountIsSize(log[i + 1..]);
    if Picks(t, log, i) {
      SelectHolds(log, |log|, t, i);
    }
    if log[i] in Visible(log, after) {
      var k :| 0 <= k < |Visible(log, after)| && Visible(log, after)[k] == log[i];
      SelectFrom(log, |log|, t, k);
    }
  }

  /** Nothing is shown that was not recorded. */
  lemma VisibleRecorded(log: seq<Event>, after: nat, e: Event)
    requires IsLog(log) && e in Visible(log, after)
    ensures 0 < e.cursor <= |log| && log[e.cursor - 1] == e
  {
    var k :| 0 <= k < |Visible(log, after)| && Visible(log, after)[k] == e;
    SelectFrom(log, |log|, Test(true, true, true, after), k);
  }

  // ----- a client that polls from the last cursor it saw

  /** The cursor a client holds after a poll. */
  function NextCursor(after: nat, seen: seq<Event>): nat { if seen == [] then after else seen[|seen| - 1].cursor }

  /** The newest event is always visible, so a poll always brings the client up to the end of the log. */
  lemma PollCatchesUp(log: seq<Event>, after: nat)
    requires IsLog(log) && after <= |log|
    ensures NextCursor(after, Visible(log, after)) == |log|
  {
    var n := |log|;
    if after < n {
      assert log[n..] == [];
      assert Picks(Test(true, true, true, after), log, n - 1);
    } else {
      NothingAfter(log, n, after);
    }
  }

  lemma {:induction false} NothingAfter(log: seq<Event>, n: nat, after: nat)
    requires IsLog(log) && n <= |log| && n <= after
    ensures Select(log, n, Test(true, true, true, after)) == []
  {
    if n > 0 {
      NothingAfter(log, n - 1, after);
    }
  }

  /** What a client sees in all, polling when the log is `at[0]`, `at[1]`, ... long. */
  function Polled(log: seq<Event>, at: seq<nat>): seq<Event>
    requires forall k :: 0 <= k < |at| ==> at[k] <= |log|
  {
    if at == [] then []
    else
      var init, now := at[..|at| - 1], at[|at| - 1];
      Polled(log, init) + Visible(log[..now], LastPoll(init))
  }

  function LastPoll(at: seq<nat>): nat { if at == [] then 0 else at[|at| - 1] }

  predicate Increasing(at: seq<nat>, n: nat) {
    && (forall j, k :: 0 <= j <= k < |at| ==> at[j] <= at[k])
    && (forall k :: 0 <= k < |at| ==> at[k] <= n)
  }

  function NonSteps(es: seq<Event>): seq<Event> {
    if es == [] then []
    else NonSteps(es[..|es| - 1]) + (if es[|es| - 1].kind == STEP then [] else [es[|es| - 1]])
  }

  lemma {:induction false} NonStepsAppend(a: seq<Event>, b: seq<Event>)
    ensures NonSteps(a + b) == NonSteps(a) + NonSteps(b)
  {
    if b == [] {
      assert a + b == a;
    } else {
      assert (a + b)[..|a + b| - 1] == a + b[..|b| - 1];
      NonStepsAppend(a, b[..|b| - 1]);
    }
  }

  lemma NonStepsOne(es: seq<Event>, e: Event)
    ensures NonSteps(es + [e]) == NonSteps(es) + if e.kind == STEP then [] else [e]
  {
    assert (es + [e])[..|es|] == es;
  }

  lemma SliceGrows(log: seq<Event>, after: nat, n: nat)
    requires after < n <= |log|
    ensures log[after..n] == log[after..n - 1] + [log[n - 1]]
  {}

  lemma OneMore(shown: seq<Event>, es: seq<Event>, e: Event, picked: bool)
    requires NonSteps(shown) == NonSteps(es) && (e.kind != STEP ==> picked)
    ensures NonSteps(if picked then shown + [e] else shown) == NonSteps(es + [e])
  {
    NonStepsOne(shown, e);
    NonStepsOne(es, e);
  }

  lemma SelectNext(log: seq<Event>, n: nat, t: Test)
    requires 0 < n <= |log|
    ensures var init := Select(log, n - 1, t);
            Select(log, n, t) == if Picks(t, log, n - 1) then init + [log[n - 1]] else init
  {}

  /** One poll shows exactly the other events recorded since the last. */
  lemma {:induction false} PollNonSteps(log: seq<Event>, n: nat, after: nat)
    requires IsLog(log) && after <= n <= |log|
    ensures NonSteps(Select(log, n, Test(true, true, true, after))) == NonSteps(log[after..n])
  {
    if n > after {
      var t, e := Test(true, true, true, after), log[n - 1];
      PollNonSteps(log, n - 1, after);
      SliceGrows(log, after, n);
      OneMore(Select(log, n - 1, t), log[after..n - 1], e, Picks(t, log, n - 1));
      SelectNext(log, n, t);
    } else {
      NothingAfter(log, n, after);
    }
  }

  lemma SplitAt(log: seq<Event>, last: nat, now: nat)
    requires last <= now <= |log|
    ensures log[..now][last..now] == log[last..now] && log[..now][last..] == log[last..now]
    ensures log[..now] == log[..last] + log[last..now]
  {}

  lemma NonStepsSplit(log: seq<Event>, last: nat, now: nat)
    requires last <= now <= |log|
    ensures NonSteps(log[..now]) == NonSteps(log[..last]) + NonSteps(log[last..now])
  {
    SplitAt(log, last, now);
    NonStepsAppend(log[..last], log[last..now]);
  }

  lemma IncreasingInit(at: seq<nat>, n: nat)
    requires Increasing(at, n) && at != []
    ensures Increasing(at[..|at| - 1], n) && LastPoll(at[..|at| - 1]) <= at[|at| - 1] <= n
  {}

  /** Every event that is not a step is seen exactly once, in order, however the polls fall. */
  lemma {:induction false} PollsSeeOthersOnce(log: seq<Event>, at: seq<nat>)
    requires IsLog(log) && Increasing(at, |log|)
    ensures NonSteps(Polled(log, at)) == NonSteps(log[..LastPoll(at)])
  {
    if at != [] {
      var init, now := at[..|at| - 1], at[|at| - 1];
      var last, seen := LastPoll(init), log[..now];
      IncreasingInit(at, |log|);
      PollsSeeOthersOnce(log, init);
      PollNonSteps(seen, now, last);
      NonStepsAppend(Polled(log, init), Visible(seen, last));
      SplitAt(log, last, now);
      NonStepsSplit(log, last, now);
    }
  }

  lemma SuffixCount(log: seq<Event>, after: nat, n: nat)
    requires after < n <= |log|
    ensures CountSteps(log[after..]) >= CountSteps(log[n..]) + if log[n - 1].kind == STEP then 1 else 0
  {
    var whole, k := log[after..], n - after;
    CountSplit(whole, k);
    assert whole[k..] == log[n..];
    assert whole[..k] == whole[..k - 1] + [log[n - 1]];
    CountOne(whole[..k - 1], log[n - 1]);
  }

  lemma NewestPicked(log: seq<Event>, n: nat, after: nat)
    requires IsLog(log) && after < n <= |log| && CountSteps(log[after..]) <= HISTORY
    ensures Picks(Test(true, true, true, after), log, n - 1)
  {
    SuffixCount(log, after, n);
  }

  /** With at most 4096 steps since the last poll, a poll shows everything recorded since. */
  lemma {:induction false} PollSeesAll(log: seq<Event>, n: nat, after: nat)
    requires IsLog(log) && after <= n <= |log| && CountSteps(log[after..]) <= HISTORY
    ensures Select(log, n, Test(true, true, true, after)) == log[after..n]
  {
    if n > after {
      PollSeesAll(log, n - 1, after);
      NewestPicked(log, n, after);
      SliceGrows(log, after, n);
    } else {
      NothingAfter(log, n, after);
    }
  }

  /** The steps recorded between poll `k` and the one before it. */
  function StepsBefore(log: seq<Event>, at: seq<nat>, k: nat): nat
    requires k < |at| && Increasing(at, |log|)
  {
    CountSteps(log[(if k == 0 then 0 else at[k - 1])..at[k]])
  }

  /** If no two polls are more than 4096 steps apart, the client sees the whole log, once and in order. */
  lemma {:induction false} PollsSeeAll(log: seq<Event>, at: seq<nat>)
    requires IsLog(log) && Increasing(at, |log|)
    requires forall k :: 0 <= k < |at| ==> StepsBefore(log, at, k) <= HISTORY
    ensures Polled(log, at) == log[..LastPoll(at)]
  {
    if at != [] {
      var init := at[..|at| - 1];
      IncreasingInit(at, |log|);
      assert forall k :: 0 <= k < |init| ==> StepsBefore(log, init, k) == StepsBefore(log, at, k);
      PollsSeeAll(log, init);
      assert StepsBefore(log, at, |at| - 1) <= HISTORY;
      LastPollSees(log, at);
    }
  }

  lemma LastPollSees(log: seq<Event>, at: seq<nat>)
    requires IsLog(log) && Increasing(at, |log|) && at != [] && StepsBefore(log, at, |at| - 1) <= HISTORY
    requires Polled(log, at[..|at| - 1]) == log[..LastPoll(at[..|at| - 1])]
    ensures Polled(log, at) == log[..LastPoll(at)]
  {
    var last, now := LastPoll(at[..|at| - 1]), at[|at| - 1];
    IncreasingInit(at, |log|);
    SplitAt(log, last, now);
    assert CountSteps(log[last..now]) <= HISTORY;
    SeenSinceLast(log, last, now);
  }

  lemma SeenSinceLast(log: seq<Event>, last: nat, now: nat)
    requires IsLog(log) && last <= now <= |log| && CountSteps(log[last..now]) <= HISTORY
    ensures Visible(log[..now], last) == log[last..now]
  {
    SplitAt(log, last, now);
    PollSeesAll(log[..now], now, last);
  }
}
