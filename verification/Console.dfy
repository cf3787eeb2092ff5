/** The e-stop latch of a whole cell, the scene reset that respects it, and the console line that clears it. */
module Console {
  import opened Wrappers
  import opened Twin
  import opened TwinSafety

  const RESUME_WORDS := {"resume", "re-enable", "reenable"}
  const PARK_WORDS := {"parked", "park", "shutdown"}
  const TWIN_KIND := "sim"

  // ----- reading one line: `line.strip().lower()`

  predicate IsSpace(c: char) {
    || '\U{9}' <= c <= '\U{D}' || '\U{1C}' <= c <= '\U{20}' || c == '\U{85}' || c == '\U{A0}' || c == '\U{1680}'
    || '\U{2000}' <= c <= '\U{200A}' || c == '\U{2028}' || c == '\U{2029}' || c == '\U{202F}' || c == '\U{205F}'
        || c == '\U{3000}'
  }

  function Strip(line: string): string
    decreases |line|
  {
    if line == [] then []
    else if IsSpace(line[0]) then Strip(line[1..])
    else if IsSpace(line[|line| - 1]) then Strip(line[..|line| - 1])
    else line
  }

  /** Lower case as far as the known words can tell: the Latin letters, and the Kelvin sign. */
  function LowerChar(c: char): char {
    if 'A' <= c <= 'Z' then c - 'A' + 'a' else if c == '\U{212A}' then 'k' else c
  }

  function Lower(s: string): string { seq(|s|, i requires 0 <= i < |s| => LowerChar(s[i])) }

  function Word(line: string): string { Lower(Strip(line)) }

  predicate Resumes(line: string) { Word(line) in RESUME_WORDS }

  predicate Parks(line: string) { Word(line) in PARK_WORDS }

  /** What a line is read as: itself without the white space around it, in lower case. */
  lemma LineMeans(line: string) returns (before: string, w: string, after: string)
    ensures line == before + w + after && Word(line) == Lower(w)
    ensures (forall c <- before :: IsSpace(c)) && forall c <- after :: IsSpace(c)
    ensures w != [] ==> !IsSpace(w[0]) && !IsSpace(w[|w| - 1])
    ensures Resumes(line) <==> Lower(w) == "resume" || Lower(w) == "re-enable" || Lower(w) == "reenable"
    ensures Parks(line) <==> Lower(w) == "parked" || Lower(w) == "park" || Lower(w) == "shutdown"
  {
    before, w, after := Stripped(line);
  }

  lemma {:induction false} Stripped(line: string) returns (before: string, w: string, after: string)
    ensures line == before + w + after && Strip(line) == w
    ensures (forall c <- before :: IsSpace(c)) && forall c <- after :: IsSpace(c)
    ensures w != [] ==> !IsSpace(w[0]) && !IsSpace(w[|w| - 1])
    decreases |line|
  {
    before, w, after := [], line, [];
    if line != [] && IsSpace(line[0]) {
      before, w, after := Stripped(line[1..]);
      before := [line[0]] + before;
      assert line == [line[0]] + line[1..];
    } else if line != [] && IsSpace(line[|line| - 1]) {
      before, w, after := Stripped(line[..|line| - 1]);
      after := after + [line[|line| - 1]];
      assert line == line[..|line| - 1] + [line[|line| - 1]];
    }
  }

  /** Lower case letter by letter, and what counts as white space among the letters and the usual blanks. */
  lemma LettersMean(s: string, i: nat)
    requires i < |s|
    ensures |Lower(s)| == |s|
    ensures 'A' <= s[i] <= 'Z' ==> Lower(s)[i] as int == s[i] as int + 32
    ensures s[i] < 'A' || 'Z' < s[i] <= 'z' ==> Lower(s)[i] == s[i]
    ensures s[i] == ' ' || s[i] == '\t' || s[i] == '\n' || s[i] == '\r' ==> IsSpace(s[i])
    ensures '!' <= s[i] <= '~' ==> !IsSpace(s[i])
  {}

  lemma WordsApart(line: string)
    ensures !(Resumes(line) && Parks(line)) && (Resumes(line) || Parks(line) ==> Word(line) != [])
  {}

  // ----- the park gate

  datatype Gate = Gate(holding: bool, released: bool)

  // ----- the cell

  /** One declared part: what it is built from, its declared home, and its driver's own word for itself. */
  datatype Part = Part(name: string, config: Config, home: Option<seq<real>>, kind: string) {
    predicate Valid() { config.Valid() && (home.Some? ==> |home.value| == config.Width()) }

    predicate Metal() { kind != TWIN_KIND }
  }

  /** What goes wrong during one act. `refusing` are the parts whose driver call raises, `interrupting` those
  whose call is interrupted, `unsaid` those whose own line of report raises; `mute` are the numbers of the
  act's other lines that raise, and `unread` says that reading the latches does. */
  datatype Trouble = Trouble(refusing: set<nat>, interrupting: set<nat>, unsaid: set<nat>, mute: set<nat>,
                             unread: bool)
  {
    /** A console line stops at this part. */
    predicate Stops(i: nat) { i in interrupting || i in unsaid }

    predicate Fails(i: nat) { i in refusing || i in interrupting }
  }

  /** Everything that reaches the drivers of a cell in this layer. `between` are the driver calls of other
  threads that land on a part after the reset's latch check and before its homing call. */
  datatype Act =
    | Line(text: string, trouble: Trouble)
    | StopAll(trouble: Trouble)
    | Reset(between: seq<seq<Event>>, trouble: Trouble)
    | Drive(part: nat, event: Event)
    | BeginHold
    | EndHold

  /** How a scene reset ends: it vouches for the scene, refuses to, or raises. */
  datatype ResetExit = Vouched | Refused | Raised

  /** The calls a reset, a decision, a hold or the pump makes; none of them re-enables. */
  predicate Ordinary(c: Config, e: Event) { Fits(c, e) && e != ReEnable }

  predicate AllOrdinary(c: Config, es: seq<Event>) { forall k :: 0 <= k < |es| ==> Ordinary(c, es[k]) }

  predicate Possible(parts: seq<Part>, act: Act) {
    match act
    case Reset(between, _) => |between| == |parts| && forall i :: 0 <= i < |parts| ==>
        AllOrdinary(parts[i].config, between[i])
    case Drive(i, event) => i < |parts| && Ordinary(parts[i].config, event)
    case _ => true
  }

  /** A latched twin stands still: its target is where it is, and it has no velocity. */
  predicate Settled(c: Config, s: State) { Sized(c, s) && (s.estopped ==> s == Held(c, s, true)) }

  predicate AllSettled(parts: seq<Part>, states: seq<State>) {
    |states| == |parts| && forall i :: 0 <= i < |parts| ==> parts[i].Valid() && Settled(parts[i].config, states[i])
  }

  /** One part across one act: only a resuming line can change a latched part, and it only forgets the latch. */
  predicate Across(c: Config, s: State, s': State, act: Act)
    requires Sized(c, s)
  {
    s.estopped ==> s' == s || (act.Line? && Resumes(act.text) && s' == Held(c, s, false))
  }

  lemma {:induction false} OrdinaryKeeps(c: Config, s: State, es: seq<Event>)
    requires Settled(c, s) && AllOrdinary(c, es)
    ensures AllFit(c, es) && Settled(c, Run(c, s, es)) && (s.estopped ==> Run(c, s, es) == s)
    decreases es
  {
    if es != [] {
      assert Ordinary(c, es[0]);
      OrdinaryKeeps(c, After(c, s, es[0]), es[1..]);
    }
  }

  lemma {:induction false} OnlyStopsLatch(c: Config, s: State, es: seq<Event>)
    requires Sized(c, s) && AllFit(c, es) && !s.estopped && Estop !in es
    ensures !Run(c, s, es).estopped
    decreases es
  {
    if es != [] {
      assert es[0] in es;
      OnlyStopsLatch(c, After(c, s, es[0]), es[1..]);
    }
  }

  // ----- the latched parts, in the order of their names

  function LatchedIn(states: seq<State>): (r: seq<nat>)
    ensures forall i: nat :: i in r <==> i < |states| && states[i].estopped
    ensures forall k :: 0 <= k < |r| ==> r[k] < |states|
  {
    if states == [] then []
    else
      var n := |states| - 1;
      LatchedIn(states[..n]) + if states[n].estopped then [n] else []
  }

  predicate Before(a: string, b: string) {
    b != [] && (a == [] || a[0] < b[0] || (a[0] == b[0] && Before(a[1..], b[1..])))
  }

  lemma {:induction false} BeforeAsymmetric(a: string, b: string)
    requires Before(a, b)
    ensures !Before(b, a)
  {
    if a != [] && a[0] == b[0] {
      BeforeAsymmetric(a[1..], b[1..]);
    }
  }

  predicate Known(parts: seq<Part>, order: seq<nat>) { forall k :: 0 <= k < |order| ==> order[k] < |parts| }

  predicate InNameOrder(parts: seq<Part>, order: seq<nat>)
    requires Known(parts, order)
  {
    forall k :: 0 < k < |order| ==> !Before(parts[order[k]].name, parts[order[k - 1]].name)
  }

  /** `i` goes before the first part whose name is not before its own. */
  function Insert(parts: seq<Part>, i: nat, order: seq<nat>): (r: seq<nat>)
    requires i < |parts| && Known(parts, order)
    ensures Known(parts, r) && multiset(r) == multiset{i} + multiset(order)
    ensures r != [] && (r[0] == i || (order != [] && r[0] == order[0] && Before(parts[order[0]].name, parts[i].name)))
  {
    if order == [] || !Before(parts[order[0]].name, parts[i].name) then [i] + order
    else
      assert order == [order[0]] + order[1..];
      [order[0]] + Insert(parts, i, order[1..])
  }

  lemma {:induction false} InsertSorted(parts: seq<Part>, i: nat, order: seq<nat>)
    requires i < |parts| && Known(parts, order) && InNameOrder(parts, order)
    ensures InNameOrder(parts, Insert(parts, i, order))
  {
    if order != [] && Before(parts[order[0]].name, parts[i].name) {
      BeforeAsymmetric(parts[order[0]].name, parts[i].name);
      assert InNameOrder(parts, order[1..]) by {
        assert forall k :: 0 <= k < |order| - 1 ==> order[1..][k] == order[k + 1];
      }
      InsertSorted(parts, i, order[1..]);
      var rest := Insert(parts, i, order[1..]);
      assert rest[0] == i || rest[0] == order[1];
    }
  }

  /** `sorted(latched.items())` */
  function ByName(parts: seq<Part>, some: seq<nat>): (r: seq<nat>)
    requires Known(parts, some)
    ensures Known(parts, r) && InNameOrder(parts, r) && multiset(r) == multiset(some)
  {
    if some == [] then []
    else
      assert some == [some[0]] + some[1..];
      InsertSorted(parts, some[0], ByName(parts, some[1..]));
      Insert(parts, some[0], ByName(parts, some[1..]))
  }

  /** The first `n` of the queue had their turn: all of it, or up to the first at which the line stopped. */
  predicate Served(queue: seq<nat>, t: Trouble, n: nat) {
    && n <= |queue| && (n < |queue| ==> n > 0 && t.Stops(queue[n - 1]))
    && forall k :: 0 <= k < n - 1 ==> !t.Stops(queue[k])
  }

  predicate StoppedAt(queue: seq<nat>, t: Trouble, n: nat) { 0 < n <= |queue| && t.Stops(queue[n - 1]) }

  /** The first `n` of the queue are resumed, those whose driver call fails excepted. */
  predicate Resumed(parts: seq<Part>, before: seq<State>, after: seq<State>, queue: seq<nat>, t: Trouble, n: nat)
    requires AllSettled(parts, before) && n <= |queue|
  {
    && |after| == |before|
    && forall i: nat :: i < |before| ==>
         after[i] == if i in queue[..n] && !t.Fails(i) then Held(parts[i].config, before[i], false) else before[i]
  }

  /** How far a line got, and what it left. */
  predicate Turns(parts: seq<Part>, before: seq<State>, after: seq<State>, queue: seq<nat>, t: Trouble, n: nat)
    requires AllSettled(parts, before)
  {
    Served(queue, t, n) && Resumed(parts, before, after, queue, t, n)
  }

  lemma NoTurns(parts: seq<Part>, states: seq<State>, t: Trouble)
    requires AllSettled(parts, states)
    ensures Turns(parts, states, states, [], t, 0)
  {}

  /** The parts a line gives their turn, in order. */
  function Queue(parts: seq<Part>, states: seq<State>, line: string, t: Trouble): seq<nat>
    requires AllSettled(parts, states)
  {
    if Resumes(line) && !t.unread then ByName(parts, LatchedIn(states)) else []
  }

  /** One part's turn. */
  lemma ResumedOne(parts: seq<Part>, before: seq<State>, s: seq<State>, s': seq<State>, queue: seq<nat>, t: Trouble,
                   n: nat)
    requires AllSettled(parts, before) && AllSettled(parts, s) && Known(parts, queue) && n < |queue|
    requires Resumed(parts, before, s, queue, t, n)
    requires var i := queue[n];
             s' == if t.Fails(i) then s else s[i := After(parts[i].config, s[i], ReEnable)]
    ensures Resumed(parts, before, s', queue, t, n + 1) && AllSettled(parts, s')
  {
    assert queue[..n + 1] == queue[..n] + [queue[n]];
  }

  class Cell {
    const parts: seq<Part>
    var states: seq<State>
    var gate: Gate

    ghost predicate Valid()
      reads this
    {
      AllSettled(parts, states)
    }

    constructor (parts: seq<Part>, starts: seq<seq<real>>)
      requires |starts| == |parts|
      requires forall i :: 0 <= i < |parts| ==> parts[i].Valid() && |starts[i]| == parts[i].config.Width()
      ensures Valid() && this.parts == parts && gate == Gate(false, false)
      ensures forall i :: 0 <= i < |parts| ==> states[i] == Start(parts[i].config, starts[i])
    {
      this.parts := parts;
      gate := Gate(false, false);
      states := seq(|parts|, i requires 0 <= i < |parts| => Start(parts[i].config, starts[i]));
    }

    /** `apply_console_gesture`: a latch is cleared exactly by a resuming line, on every latched part that
    gets its turn and whose driver does not refuse; the line stops at a part whose report fails, or whose
    driver is interrupted. A parking line is honoured only while something is held. */
    method Gesture(line: string, t: Trouble) returns (raised: bool, n: nat)
      requires Valid()
      modifies this
      ensures Valid()
      ensures gate == Gate(old(gate.holding), old(gate.released) || (Parks(line) && old(gate.holding)))
      ensures Turns(parts, old(states), states, Queue(parts, old(states), line, t), t, n)
      ensures raised <==>
                && Word(line) != []
                && var queue := Queue(parts, old(states), line, t);
                   if queue != [] then StoppedAt(queue, t, n) else 0 in t.mute || (Resumes(line) && t.unread)
    {
      NoTurns(parts, states, t);
      WordsApart(line);
      raised, n := 0 in t.mute, 0;
      if Word(line) == [] {
        raised := false;
      } else if Parks(line) {
        if gate.holding {
          gate := gate.(released := true);
        }
      } else if Resumes(line) {
        if t.unread {
          return true, 0;
        }
        raised, n := ResumeLatched(t);
      }
    }

    method ResumeLatched(t: Trouble) returns (raised: bool, n: nat)
      requires Valid()
      modifies this`states
      ensures Valid()
      ensures var queue := ByName(parts, LatchedIn(old(states)));
              && Turns(parts, old(states), states, queue, t, n)
              && (raised <==> if queue == [] then 0 in t.mute else StoppedAt(queue, t, n))
    {
      var queue := ByName(parts, LatchedIn(states));
      if queue == [] {
        NoTurns(parts, states, t);
        return 0 in t.mute, 0;
      }
      raised, n := ResumeAll(queue, t);
    }

    /** The loop over the latched parts, each of them once. */
    method ResumeAll(queue: seq<nat>, t: Trouble) returns (raised: bool, n: nat)
      requires Valid() && multiset(queue) == multiset(LatchedIn(states)) && Known(parts, queue)
      modifies this`states
      ensures Valid() && Served(queue, t, n) && (raised <==> StoppedAt(queue, t, n))
      ensures Resumed(parts, old(states), states, queue, t, n)
    {
      n := 0;
      while n < |queue|
        invariant Valid() && n <= |queue| && forall k :: 0 <= k < n ==> !t.Stops(queue[k])
        invariant Resumed(parts, old(states), states, queue, t, n)
      {
        var i := queue[n];
        ghost var s := states;
        if !t.Fails(i) {
          states := states[i := After(parts[i].config, states[i], ReEnable)];
        }
        ResumedOne(parts, old(states), s, states, queue, t, n);
        n := n + 1;
        if t.Stops(i) {
          return true, n;
        }
      }
      raised := false;
    }

    /** `estop_all`: every part is asked to stop, also after one has raised; an interrupt ends it, with
    `asked` parts behind it. What was stopped is reported last. */
    method StopAll(t: Trouble) returns (raised: bool, asked: nat)
      requires Valid()
      modifies this
      ensures Valid() && gate == old(gate)
      ensures asked <= |parts| && (asked < |parts| <==> exists i :: 0 <= i < |parts| && i in t.interrupting)
      ensures (forall i :: 0 <= i < asked ==> i !in t.interrupting) && (asked < |parts| ==> asked in t.interrupting)
      ensures raised <==>
                asked < |parts| || (exists i :: 0 <= i < |parts| && i in t.refusing) || t.unread || 0 in t.mute
      ensures forall i :: 0 <= i < |parts| ==>
                states[i] == if i < asked && i !in t.refusing then Held(parts[i].config, old(states[i]), true)
                             else old(states[i])
    {
      raised := false;
      for i := 0 to |parts|
        invariant Valid() && gate == old(gate)
        invariant raised <==> exists k :: 0 <= k < i && k in t.refusing
        invariant forall k :: 0 <= k < i ==> k !in t.interrupting
        invariant forall k :: i <= k < |parts| ==> states[k] == old(states[k])
        invariant forall k :: 0 <= k < i ==>
                    states[k] == if k in t.refusing then old(states[k]) else Held(parts[k].config, old(states[k]), true)
      {
        if i in t.interrupting {
          return true, i;
        } else if i in t.refusing {
          raised := true;
        } else {
          states := states[i := After(parts[i].config, states[i], Estop)];
        }
      }
      return raised || t.unread || 0 in t.mute, |parts|;
    }

    /** Where part `i` stands once the reset has passed it. */
    ghost function AfterReset(i: nat, s: State, between: seq<Event>): State
      requires i < |parts| && parts[i].Valid() && Settled(parts[i].config, s) && AllOrdinary(parts[i].config, between)
    {
      OrdinaryKeeps(parts[i].config, s, between);
      var c, home := parts[i].config, parts[i].home;
      var now := Run(c, s, between);
      if parts[i].Metal() || home.None? then now else After(c, now, Home(home.value))
    }

    /** Where part `i` stands when its turn in the reset comes. */
    ghost function Met(i: nat, s: State, between: seq<Event>): State
      requires i < |parts| && parts[i].Valid() && Settled(parts[i].config, s) && AllOrdinary(parts[i].config, between)
    {
      OrdinaryKeeps(parts[i].config, s, between);
      Run(parts[i].config, s, between)
    }

    predicate Snaps(i: nat)
      requires i < |parts|
    {
      !parts[i].Metal() && parts[i].home.Some?
    }

    /** The reset raises at part `i`, which stands at `s`: its line does, or its homing call does. */
    predicate Breaks(i: nat, s: State, t: Trouble)
      requires i < |parts|
    {
      if Snaps(i) then t.Fails(i) || (s.estopped && i in t.unsaid) else i in t.unsaid
    }

    /** The vouching loop of the scene reset, once no latch was found. */
    method HomeTwins(between: seq<seq<Event>>, t: Trouble) returns (x: ResetExit, reached: nat)
      requires Valid() && Possible(parts, Reset(between, t))
      modifies this`states
      ensures Valid() && reached <= |parts| && (x.Vouched? <==> reached == |parts|)
      ensures forall i :: 0 <= i < reached ==>
                states[i] == AfterReset(i, old(states[i]), between[i]) && !Breaks(i, states[i], t)
      ensures forall i :: 0 <= i < reached && Snaps(i) ==>
                states[i] == State(parts[i].home.value, Zeros(parts[i].config.Width()), parts[i].home.value, false)
      ensures forall i :: reached < i < |parts| ==> states[i] == old(states[i])
      ensures !x.Vouched? ==>
                && states[reached] == Met(reached, old(states[reached]), between[reached])
                && (x.Raised? <==> Breaks(reached, states[reached], t))
      ensures x.Refused? ==>
                && Snaps(reached) && states[reached].estopped
                && (old(states[reached]).estopped || Estop in between[reached])
    {
      for i := 0 to |parts|
        invariant Valid()
        invariant forall k :: i <= k < |parts| ==> states[k] == old(states[k])
        invariant forall k :: 0 <= k < i ==>
                    states[k] == AfterReset(k, old(states[k]), between[k]) && !Breaks(k, states[k], t)
        invariant forall k :: 0 <= k < i && Snaps(k) ==>
                    states[k] == State(parts[k].home.value, Zeros(parts[k].config.Width()), parts[k].home.value, false)
      {
        var c, home := parts[i].config, parts[i].home;
        OrdinaryKeeps(c, states[i], between[i]);
        states := states[i := Run(c, states[i], between[i])];
        if parts[i].Metal() || home.None? {
          if i in t.unsaid {
            return Raised, i;
          }
          continue;
        }
        if t.Fails(i) {
          return Raised, i;
        }
        if states[i].estopped {
          if !old(states[i]).estopped && Estop !in between[i] {
            OnlyStopsLatch(c, old(states[i]), between[i]);
          }
          return if i in t.unsaid then Raised else Refused, i;
        }
        states := states[i := After(c, states[i], Home(home.value))];
      }
      return Vouched, |parts|;
    }

    /** What a reset that found no latch leaves. */
    method ResetParts(between: seq<seq<Event>>, t: Trouble) returns (x: ResetExit, reached: nat)
      requires Valid() && Possible(parts, Reset(between, t)) && LatchedIn(states) == []
      modifies this`states
      ensures Valid() && reached <= |parts| && (x.Vouched? <==> reached == |parts|)
      ensures forall i :: 0 <= i < reached ==> !Breaks(i, states[i], t)
      ensures x.Vouched? ==> forall i :: 0 <= i < |parts| && Snaps(i) ==>
                            states[i] == State(parts[i].home.value, Zeros(parts[i].config.Width()), parts[i].home.value,
                                               false)
      ensures forall i :: 0 <= i < |parts| && parts[i].Metal() ==>
                            states[i] == old(states[i]) || states[i] == AfterReset(i, old(states[i]), between[i])
      ensures x.Raised? <==> reached < |parts| && Breaks(reached, states[reached], t)
      ensures x.Refused? ==>
                exists i :: 0 <= i < |parts| && states[i].estopped && (old(states[i]).estopped || Estop in between[i])
      ensures forall i :: 0 <= i < |parts| ==> !old(states[i]).estopped
    {
      forall i | 0 <= i < |parts|
        ensures !states[i].estopped
      {
        assert i !in LatchedIn(states);
      }
      x, reached := HomeTwins(between, t);
    }

    /** `scene_reset`: refused outright while anything is latched. When it vouches for the scene every
    twin with a home stands at it; when it refuses, a stop was or came in force; it raises exactly when one
    of its lines, its reading of the latches or a homing call does. */
    method SceneReset(between: seq<seq<Event>>, t: Trouble) returns (x: ResetExit, ghost reached: nat)
      requires Valid() && Possible(parts, Reset(between, t))
      modifies this`states
      ensures Valid() && reached <= |parts|
      ensures LatchedIn(old(states)) != [] ==> !x.Vouched? && states == old(states)
      ensures x.Vouched? ==> forall i :: 0 <= i < |parts| && parts[i].kind == "sim" && parts[i].home.Some? ==>
                            && states[i].q == parts[i].home.value && states[i].target == parts[i].home.value
                            && (forall j :: 0 <= j < |states[i].qd| ==> states[i].qd[j] == 0.0) && !states[i].estopped
      ensures forall i :: 0 <= i < |parts| && parts[i].kind != "sim" ==>
                            states[i] == old(states[i]) || states[i] == AfterReset(i, old(states[i]), between[i])
      ensures x.Refused? ==>
                exists i :: 0 <= i < |parts| && states[i].estopped && (old(states[i]).estopped || Estop in between[i])
      ensures x.Raised? <==>
                if 0 in t.mute || t.unread then true
                else if LatchedIn(old(states)) != [] then 1 in t.mute
                else reached < |parts| && Breaks(reached, states[reached], t)
      ensures !(0 in t.mute || t.unread) && LatchedIn(old(states)) == [] ==>
                forall i :: 0 <= i < reached ==> !Breaks(i, states[i], t)
      ensures forall i :: 0 <= i < |parts| ==> Across(parts[i].config, old(states[i]), states[i], Reset(between, t))
    {
      reached := 0;
      if 0 in t.mute || t.unread {
        return Raised, 0;
      }
      var latched := LatchedIn(states);
      if latched != [] {
        assert latched[0] in latched;
        return if 1 in t.mute then Raised else Refused, 0;
      }
      var r;
      x, r := ResetParts(between, t);
      reached := r;
    }

    /** Any one act. */
    method Perform(act: Act)
      requires Valid() && Possible(parts, act)
      modifies this
      ensures Valid() && gate == NextGate(old(gate), act)
      ensures forall i :: 0 <= i < |parts| ==> Across(parts[i].config, old(states[i]), states[i], act)
    {
      match act {
        case Line(text, trouble) => var _, _ := Gesture(text, trouble);
        case StopAll(trouble) => var _, _ := StopAll(trouble);
        case Reset(between, trouble) => var _, _ := SceneReset(between, trouble);
        case Drive(i, event) =>
          OrdinaryKeeps(parts[i].config, states[i], [event]);
          assert Run(parts[i].config, states[i], [event])
              == After(parts[i].config, states[i], event) by { assert [event][1..] == []; }
          states := states[i := After(parts[i].config, states[i], event)];
        case BeginHold => gate := Gate(true, false);
        case EndHold => gate := gate.(holding := false);
      }
    }
  }

  function NextGate(g: Gate, act: Act): Gate {
    match act
    case Line(text, _) => Gate(g.holding, g.released || (Parks(text) && g.holding))
    case BeginHold => Gate(true, false)
    case EndHold => Gate(false, g.released)
    case _ => g
  }

  // ----- whole runs

  function GateAfter(acts: seq<Act>): Gate {
    if acts == [] then Gate(false, false) else NextGate(GateAfter(acts[..|acts| - 1]), acts[|acts| - 1])
  }

  /** Act `i` is a parking line typed during the hold that is still the last one begun. */
  predicate Confirms(acts: seq<Act>, i: nat) {
    && i < |acts| && acts[i].Line? && Parks(acts[i].text)
    && GateAfter(acts[..i]).holding && BeginHold !in acts[i..]
  }

  lemma ConfirmsLonger(acts: seq<Act>, last: Act, i: nat)
    requires Confirms(acts, i) && last != BeginHold
    ensures Confirms(acts + [last], i)
  {
    assert (acts + [last])[..i] == acts[..i];
    assert (acts + [last])[i..] == acts[i..] + [last];
  }

  /** A confirmation typed before the hold began is never remembered: a released gate had a parking
  line since its last hold began. */
  lemma {:induction false} ReleaseIsCurrent(acts: seq<Act>)
    requires GateAfter(acts).released
    ensures exists i :: Confirms(acts, i)
  {
    var n := |acts| - 1;
    var init, last := acts[..n], acts[n];
    assert acts == init + [last];
    if GateAfter(init).released {
      ReleaseIsCurrent(init);
      var i :| Confirms(init, i);
      ConfirmsLonger(init, last, i);
    } else {
      assert acts[n..] == [last];
      assert Confirms(acts, n);
    }
  }

  // ----- the gate, by position

  /** A hold begun at `i` has not ended. */
  predicate StillHeld(acts: seq<Act>, i: nat) { i < |acts| && acts[i] == BeginHold && EndHold !in acts[i..] }

  lemma HeldLonger(acts: seq<Act>, last: Act, i: nat)
    requires i < |acts|
    ensures StillHeld(acts + [last], i) <==> StillHeld(acts, i) && last != EndHold
  {
    assert (acts + [last])[i..] == acts[i..] + [last];
  }

  /** The gate holds exactly while some hold has begun and not ended. */
  lemma {:induction false} HoldingIff(acts: seq<Act>)
    ensures GateAfter(acts).holding <==> exists i: nat :: StillHeld(acts, i)
  {
    if acts != [] {
      var n := |acts| - 1;
      var init, last := acts[..n], acts[n];
      HoldingIff(init);
      assert acts == init + [last] && acts[n..] == [last];
      if i: nat :| StillHeld(init, i) && last != EndHold {
        HeldLonger(init, last, i);
        assert StillHeld(acts, i);
      }
      if i: nat :| StillHeld(acts, i) {
        if i < n {
          HeldLonger(init, last, i);
        }
      }
      if last == BeginHold {
        assert StillHeld(acts, n);
      }
    }
  }

  /** Act `j` is a parking line that came during a hold, and no hold has begun since. */
  ghost predicate Parked(acts: seq<Act>, j: nat) {
    && j < |acts| && acts[j].Line? && Parks(acts[j].text) && BeginHold !in acts[j..]
    && exists i: nat :: StillHeld(acts[..j], i)
  }

  lemma ParkedLonger(acts: seq<Act>, last: Act, j: nat)
    requires j < |acts|
    ensures Parked(acts + [last], j) <==> Parked(acts, j) && last != BeginHold
  {
    var more := acts + [last];
    assert more[j..] == acts[j..] + [last];
    assert more[..j] == acts[..j] && more[j] == acts[j];
  }

  lemma ParkedNow(acts: seq<Act>, last: Act)
    ensures Parked(acts + [last], |acts|) <==>
              last.Line? && Parks(last.text) && exists i: nat :: StillHeld(acts, i)
  {
    var more := acts + [last];
    assert more[|acts|..] == [last] && more[..|acts|] == acts && more[|acts|] == last;
  }

  /** The gate is released exactly if a parking line came during the hold that was the last to begin. */
  lemma {:induction false} ReleasedIff(acts: seq<Act>)
    ensures GateAfter(acts).released <==> exists j: nat :: Parked(acts, j)
  {
    if acts != [] {
      var n := |acts| - 1;
      var init, last := acts[..n], acts[n];
      ReleasedIff(init);
      HoldingIff(init);
      assert acts == init + [last] && acts[n..] == [last];
      if j: nat :| Parked(init, j) && last != BeginHold {
        ParkedLonger(init, last, j);
        assert Parked(acts, j);
      }
      if j: nat :| Parked(acts, j) && j < n {
        ParkedLonger(init, last, j);
      }
      ParkedNow(init, last);
    }
  }

  predicate Recorded(parts: seq<Part>, acts: seq<Act>, history: seq<seq<State>>) {
    && |history| == |acts| + 1
    && forall t :: 0 <= t < |history| ==> AllSettled(parts, history[t])
  }

  predicate Moves(parts: seq<Part>, before: seq<State>, after: seq<State>, act: Act)
    requires AllSettled(parts, before) && AllSettled(parts, after)
  {
    forall i :: 0 <= i < |parts| ==> Across(parts[i].config, before[i], after[i], act)
  }

  predicate Chained(parts: seq<Part>, acts: seq<Act>, history: seq<seq<State>>)
    requires Recorded(parts, acts, history)
  {
    forall t: nat {:trigger acts[t]} :: t < |acts| ==> Moves(parts, history[t], history[t + 1], acts[t])
  }

  predicate NoResume(acts: seq<Act>) { forall a <- acts :: !(a.Line? && Resumes(a.text)) }

  /** From a stop until a resuming line, nothing in this layer moves the part or clears the latch. */
  lemma {:induction false} FrozenUntilResumed(parts: seq<Part>, acts: seq<Act>, history: seq<seq<State>>, i: nat,
                                              s: nat, t: nat)
    requires Recorded(parts, acts, history) && Chained(parts, acts, history)
    requires s <= t < |history| && i < |parts| && history[s][i].estopped && NoResume(acts[s..t])
    ensures history[t][i] == history[s][i] == Held(parts[i].config, history[s][i], true)
    decreases t - s
  {
    if s < t {
      assert acts[s..t][t - 1 - s] == acts[t - 1];
      assert forall a <- acts[s..t - 1] :: a in acts[s..t] by {
        assert acts[s..t] == acts[s..t - 1] + [acts[t - 1]];
      }
      FrozenUntilResumed(parts, acts, history, i, s, t - 1);
      assert Moves(parts, history[t - 1], history[t - 1 + 1], acts[t - 1]);
    }
  }

  /** Any run of a cell, from twins at any pose: each latch that clears was cleared by a resuming line,
  and a stopped part stands where the stop found it until then. */
  method Operate(parts: seq<Part>, starts: seq<seq<real>>, acts: seq<Act>)
    returns (history: seq<seq<State>>, gate: Gate)
    requires |starts| == |parts|
    requires forall i :: 0 <= i < |parts| ==> parts[i].Valid() && |starts[i]| == parts[i].config.Width()
    requires forall t :: 0 <= t < |acts| ==> Possible(parts, acts[t])
    ensures Recorded(parts, acts, history) && Chained(parts, acts, history) && gate == GateAfter(acts)
    ensures forall i, s, t ::
              0 <= s <= t < |history| && 0 <= i < |parts| && history[s][i].estopped && NoResume(acts[s..t]) ==>
                history[t][i] == history[s][i]
  {
    var cell := new Cell(parts, starts);
    history := [cell.states];
    for t := 0 to |acts|
      invariant cell.parts == parts && cell.Valid() && cell.gate == GateAfter(acts[..t])
      invariant Recorded(parts, acts[..t], history) && Chained(parts, acts[..t], history) && history[t] == cell.states
    {
      cell.Perform(acts[t]);
      assert acts[..t + 1][..t] == acts[..t];
      history := history + [cell.states];
    }
    assert acts[..|acts|] == acts;
    gate := cell.gate;
    forall i, s, t | 0 <= s <= t < |history| && 0 <= i < |parts| && history[s][i].estopped && NoResume(acts[s..t])
      ensures history[t][i] == history[s][i]
    {
      FrozenUntilResumed(parts, acts, history, i, s, t);
    }
  }
}
