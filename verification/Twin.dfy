/** The kinematic twin of one unit, its e-stop latch, and what every run of it keeps. */
module Twin {
  import opened Rotation
  import opened Solids
  import opened Envelope

  /** The numbers a twin is built from. */
  datatype Config = Config(lower: seq<real>, upper: seq<real>, caps: seq<real>, rate: real) {
    predicate Valid() { |lower| == |upper| == |caps| }

    function Width(): nat { |lower| }
  }

  /** Position, velocity, target and latch. */
  datatype State = State(q: seq<real>, qd: seq<real>, target: seq<real>, estopped: bool)

  /** The driver calls; each runs under the driver's own lock, so any interleaving of threads is
  a sequence of these. */
  datatype Event = Write(values: seq<real>) | Hold | Estop | ReEnable | Home(pose: seq<real>) | Step(dt: real)

  function Zeros(n: nat): (z: seq<real>)
    ensures |z| == n && forall i :: 0 <= i < n ==> z[i] == 0.0
  {
    seq(n, _ => 0.0)
  }

  function ClipRow(v: seq<real>, lo: seq<real>, hi: seq<real>): (r: seq<real>)
    requires |v| == |lo| == |hi|
    ensures |r| == |v| && forall i :: 0 <= i < |v| ==> r[i] == Clip(v[i], lo[i], hi[i])
  {
    seq(|v|, i requires 0 <= i < |v| => Clip(v[i], lo[i], hi[i]))
  }

  /** `caps * (dt * rate)`, for one joint. */
  function Travel(cap: real, dt: real, rate: real): real { cap * (dt * rate) }

  /** `clip(target - q, -travel, travel)` */
  function Delta(c: Config, s: State, dt: real): (d: seq<real>)
    requires Sized(c, s)
    ensures |d| == c.Width()
    ensures forall i :: 0 <= i < |d| ==>
              d[i] == Clip(s.target[i] - s.q[i], -Travel(c.caps[i], dt, c.rate), Travel(c.caps[i], dt, c.rate))
  {
    seq(c.Width(), i requires 0 <= i < c.Width() =>
      Clip(s.target[i] - s.q[i], -Travel(c.caps[i], dt, c.rate), Travel(c.caps[i], dt, c.rate)))
  }

  function AddRow(a: seq<real>, b: seq<real>): (r: seq<real>)
    requires |a| == |b|
    ensures |r| == |a| && forall i :: 0 <= i < |a| ==> r[i] == a[i] + b[i]
  {
    seq(|a|, i requires 0 <= i < |a| => a[i] + b[i])
  }

  predicate Sized(c: Config, s: State) { c.Valid() && |s.q| == |s.qd| == |s.target| == c.Width() }

  /** What the driver's callers owe it: a row is empty or as wide as the unit. */
  predicate Fits(c: Config, e: Event) {
    match e
    case Write(v) => v == [] || |v| == c.Width()
    case Home(v) => |v| == c.Width()
    case _ => true
  }

  function Held(c: Config, s: State, latch: bool): State
    requires c.Valid()
  {
    State(s.q, Zeros(c.Width()), s.q, latch)
  }

  /** One driver call. */
  function After(c: Config, s: State, e: Event): (r: State)
    requires Sized(c, s) && Fits(c, e)
    ensures Sized(c, r)
  {
    match e
    case Write(v) => if s.estopped || v == [] then s else s.(target := ClipRow(v, c.lower, c.upper))
    case Hold => Held(c, s, s.estopped)
    case Estop => Held(c, s, true)
    case ReEnable => Held(c, s, false)
    case Home(v) => if s.estopped then s else State(v, Zeros(c.Width()), v, false)
    case Step(dt) =>
      if s.estopped then s.(qd := Zeros(c.Width()))
      else
        var d := Delta(c, s, dt);
        s.(q := ClipRow(AddRow(s.q, d), c.lower, c.upper),
           qd := if dt > 0.0 then seq(|d|, i requires 0 <= i < |d| => d[i] / dt) else Zeros(c.Width()))
  }

  predicate AllFit(c: Config, es: seq<Event>) { forall i :: 0 <= i < |es| ==> Fits(c, es[i]) }

  function Run(c: Config, s: State, es: seq<Event>): (r: State)
    requires Sized(c, s) && AllFit(c, es)
    ensures Sized(c, r)
    decreases es
  {
    if es == [] then s else Run(c, After(c, s, es[0]), es[1..])
  }

  lemma {:induction false} RunAppend(c: Config, s: State, es: seq<Event>, fs: seq<Event>)
    requires Sized(c, s) && AllFit(c, es) && AllFit(c, fs)
    ensures AllFit(c, es + fs)
    ensures Run(c, s, es + fs) == Run(c, Run(c, s, es), fs)
    decreases es
  {
    if es == [] {
      assert es + fs == fs;
    } else {
      assert (es + fs)[1..] == es[1..] + fs;
      RunAppend(c, After(c, s, es[0]), es[1..], fs);
    }
  }

  // ----- the latch

  /** While latched, no driver call but `re_enable` changes anything at all. */
  lemma {:induction false} LatchFreezes(c: Config, s: State, es: seq<Event>)
    requires Sized(c, s) && AllFit(c, es) && s == Held(c, s, true) && ReEnable !in es
    ensures Run(c, s, es) == s
  {
    if es != [] {
      assert es[0] in es;
      assert After(c, s, es[0]) == s;
      LatchFreezes(c, s, es[1..]);
    }
  }

  /** From a stop until the resume, over every interleaving of calls: the twin stands where the stop
  found it, its target is where it stands, it has no velocity, and a reset is refused. */
  lemma LatchOverRun(c: Config, s: State, before: seq<Event>, during: seq<Event>)
    requires Sized(c, s) && AllFit(c, before) && AllFit(c, during) && ReEnable !in during
    ensures AllFit(c, before + [Estop] + during)
    ensures var stopped := Run(c, s, before);
            Run(c, s, before + [Estop] + during) == State(stopped.q, Zeros(c.Width()), stopped.q, true)
  {
    RunAppend(c, s, before, [Estop]);
    RunAppend(c, s, before + [Estop], during);
    var stopped := Run(c, s, before);
    assert Run(c, stopped, [Estop]) == After(c, stopped, Estop) by {
      assert [Estop][1..] == [];
    }
    LatchFreezes(c, After(c, stopped, Estop), during);
  }

  /** After the resume nothing commanded before it is left: only the pose the stop found. */
  lemma ResumeForgets(c: Config, s: State, before: seq<Event>, during: seq<Event>)
    requires Sized(c, s) && AllFit(c, before) && AllFit(c, during) && ReEnable !in during
    ensures AllFit(c, before + [Estop] + during + [ReEnable])
    ensures var stopped := Run(c, s, before);
            Run(c, s, before + [Estop] + during + [ReEnable]) == State(stopped.q, Zeros(c.Width()), stopped.q, false)
  {
    LatchOverRun(c, s, before, during);
    RunAppend(c, s, before + [Estop] + during, [ReEnable]);
    var held := Run(c, s, before + [Estop] + during);
    assert Run(c, held, [ReEnable]) == After(c, held, ReEnable) by {
      assert [ReEnable][1..] == [];
    }
  }

  // ----- a hold

  predicate Quiet(e: Event) { e.Hold? || e.Estop? || e.ReEnable? || (e.Step? && e.dt >= 0.0) }

  predicate AllQuiet(es: seq<Event>) { forall i :: 0 <= i < |es| ==> Quiet(es[i]) }

  /** Stopped, or told to be where it is. */
  predicate Standing(s: State) { s.estopped || s.target == s.q }

  lemma StaysPut(c: Config, s: State, e: Event)
    requires Sane(c) && Sized(c, s) && Bounded(c, s.q) && Standing(s) && Quiet(e)
    ensures Fits(c, e) && After(c, s, e).q == s.q && Standing(After(c, s, e))
  {
    if e.Step? && !s.estopped {
      forall i | 0 <= i < c.Width()
        ensures After(c, s, e).q[i] == s.q[i]
      {
        TravelNonNegative(c.caps[i], e.dt, c.rate);
      }
    }
  }

  /** A twin that stands stays where it is over every run of periods, holds, stops and resumes. */
  lemma {:induction false} QuietStands(c: Config, s: State, es: seq<Event>)
    requires Sane(c) && Sized(c, s) && Bounded(c, s.q) && Standing(s) && AllQuiet(es)
    ensures AllFit(c, es) && Run(c, s, es).q == s.q
    decreases es
  {
    if es != [] {
      StaysPut(c, s, es[0]);
      QuietStands(c, After(c, s, es[0]), es[1..]);
      assert forall i :: 0 < i < |es| ==> es[i] == es[1..][i - 1];
    }
  }

  /** From a hold, latched or not, until the next write or homing the twin does not move. */
  lemma HoldStands(c: Config, s: State, before: seq<Event>, after: seq<Event>)
    requires Sane(c) && Sized(c, s) && Bounded(c, s.q) && Bounded(c, s.target) && AllSensible(c, before)
    requires AllQuiet(after)
    ensures AllFit(c, before + [Hold] + after)
    ensures Run(c, s, before + [Hold] + after).q == Run(c, s, before).q
  {
    RunBounded(c, s, before);
    RunAppend(c, s, before, [Hold]);
    var held := Run(c, s, before + [Hold]);
    assert held == After(c, Run(c, s, before), Hold) by {
      assert [Hold][1..] == [];
    }
    QuietStands(c, held, after);
    RunAppend(c, s, before + [Hold], after);
  }

  // ----- one period of one joint

  /** One period takes a joint to its target if that is within the period's travel, and otherwise that far
  towards it; the velocity is what was covered over the time it took. */
  lemma StepMoves(c: Config, s: State, dt: real, i: nat)
    requires Sane(c) && Sized(c, s) && Bounded(c, s.q) && Bounded(c, s.target) && dt >= 0.0 && i < c.Width()
    ensures var (q, t, travel) := (s.q[i], s.target[i], c.caps[i] * (dt * c.rate));
            var r := After(c, s, Step(dt));
            && travel >= 0.0 && r.target == s.target && r.estopped == s.estopped
            && (s.estopped ==> r.q[i] == q && r.qd[i] == 0.0)
            && (!s.estopped ==>
                  && (q - travel <= t <= q + travel ==> r.q[i] == t)
                  && (t > q + travel ==> r.q[i] == q + travel)
                  && (t < q - travel ==> r.q[i] == q - travel)
                  && (dt > 0.0 ==> r.qd[i] * dt == r.q[i] - q) && (dt == 0.0 ==> r.qd[i] == 0.0))
  {
    TravelNonNegative(c.caps[i], dt, c.rate);
    if !s.estopped && dt > 0.0 {
      Divided(Delta(c, s, dt)[i], dt);
    }
  }

  lemma Divided(d: real, dt: real)
    requires dt > 0.0
    ensures (d / dt) * dt == d
  {}

  // ----- how fast a twin can move

  predicate Bounded(c: Config, q: seq<real>) {
    c.Valid() && |q| == c.Width() && forall i :: 0 <= i < |q| ==> c.lower[i] <= q[i] <= c.upper[i]
  }

  predicate Sane(c: Config) {
    c.Valid() && c.rate > 0.0 && forall i :: 0 <= i < c.Width() ==> c.lower[i] <= c.upper[i] && c.caps[i] >= 0.0
  }

  /** Homes are inside the limits and time does not run backwards. */
  predicate Sensible(c: Config, e: Event) {
    Fits(c, e) && (e.Home? ==> Bounded(c, e.pose)) && (e.Step? ==> e.dt >= 0.0)
  }

  predicate AllSensible(c: Config, es: seq<Event>) {
    forall i :: 0 <= i < |es| ==> Fits(c, es[i]) && Sensible(c, es[i])
  }

  function Elapsed(es: seq<Event>): real {
    if es == [] then 0.0 else (if es[0].Step? then es[0].dt else 0.0) + Elapsed(es[1..])
  }

  lemma StepBounded(c: Config, s: State, e: Event)
    requires Sane(c) && Sized(c, s) && Bounded(c, s.q) && Bounded(c, s.target) && Sensible(c, e)
    ensures Bounded(c, After(c, s, e).q) && Bounded(c, After(c, s, e).target)
  {
  }

  /** Positions and targets never leave the declared limits, whatever is commanded. */
  lemma {:induction false} RunBounded(c: Config, s: State, es: seq<Event>)
    requires Sane(c) && Sized(c, s) && Bounded(c, s.q) && Bounded(c, s.target) && AllSensible(c, es)
    ensures Bounded(c, Run(c, s, es).q) && Bounded(c, Run(c, s, es).target)
    decreases es
  {
    if es != [] {
      StepBounded(c, s, es[0]);
      RunBounded(c, After(c, s, es[0]), es[1..]);
    }
  }

  lemma StepTravel(c: Config, s: State, e: Event, i: nat)
    requires Sane(c) && Sized(c, s) && Bounded(c, s.q) && Sensible(c, e) && !e.Home? && i < c.Width()
    ensures Abs(After(c, s, e).q[i] - s.q[i]) <= Travel(c.caps[i], if e.Step? then e.dt else 0.0, c.rate)
  {
    var dt := if e.Step? then e.dt else 0.0;
    TravelNonNegative(c.caps[i], dt, c.rate);
  }

  lemma TravelNonNegative(cap: real, dt: real, rate: real)
    requires cap >= 0.0 && dt >= 0.0 && rate > 0.0
    ensures Travel(cap, dt, rate) >= 0.0
  {
    assert dt * rate >= 0.0;
    assert cap * (dt * rate) >= 0.0;
  }

  lemma TravelAdds(cap: real, a: real, b: real, rate: real)
    ensures Travel(cap, a + b, rate) == Travel(cap, a, rate) + Travel(cap, b, rate)
  {
    assert cap * ((a + b) * rate) == cap * (a * rate) + cap * (b * rate);
  }

  /** Without a homing, a joint moves no further than its cap for every control period that passed. */
  lemma {:induction false} RunTravel(c: Config, s: State, es: seq<Event>, i: nat)
    requires Sane(c) && Sized(c, s) && Bounded(c, s.q) && Bounded(c, s.target) && AllSensible(c, es) && i < c.Width()
    requires forall k :: 0 <= k < |es| ==> !es[k].Home?
    ensures Abs(Run(c, s, es).q[i] - s.q[i]) <= Travel(c.caps[i], Elapsed(es), c.rate)
    decreases es
  {
    if es != [] {
      var t := After(c, s, es[0]);
      StepTravel(c, s, es[0], i);
      StepBounded(c, s, es[0]);
      RunTravel(c, t, es[1..], i);
      TravelAdds(c.caps[i], if es[0].Step? then es[0].dt else 0.0, Elapsed(es[1..]), c.rate);
    }
  }

  /** The reported velocity never exceeds the cap times the rate. */
  lemma StepSpeed(c: Config, s: State, dt: real, i: nat)
    requires Sane(c) && Sized(c, s) && i < c.Width()
    ensures Abs(After(c, s, Step(dt)).qd[i]) <= c.caps[i] * c.rate
  {
    if !s.estopped && dt > 0.0 {
      TravelNonNegative(c.caps[i], dt, c.rate);
      assert c.caps[i] * (dt * c.rate) == (c.caps[i] * c.rate) * dt;
      Quotient(Delta(c, s, dt)[i], dt, c.caps[i] * c.rate);
    } else {
      assert c.caps[i] * c.rate >= 0.0;
    }
  }

  lemma Quotient(d: real, dt: real, top: real)
    requires dt > 0.0 && -(top * dt) <= d <= top * dt
    ensures Abs(d / dt) <= top
  {
    var x := d / dt;
    assert x * dt == d;
    if x > top {
      ProductPositive(x - top, dt, d - top * dt);
    } else if x < -top {
      ProductPositive(-top - x, dt, -(top * dt) - d);
    }
  }
}
