/** One commanded part: the twin behind it, the envelope in front of it, and its two counters. */
module Unit {
  import opened Wrappers
  import opened Envelope
  import opened Recovery
  import opened Solids
  import opened Twin
  import opened TwinSafety

  class SimDriver {
    const config: Config
    var q: seq<real>
    var qd: seq<real>
    var target: seq<real>
    var estopped: bool

    ghost predicate Valid()
      reads this
    {
      Sized(config, Now())
    }

    ghost function Now(): State
      reads this
    {
      State(q, qd, target, estopped)
    }

    constructor (home: seq<real>, config: Config)
      requires config.Valid() && |home| == config.Width()
      ensures Valid() && this.config == config && Now() == Start(config, home)
    {
      this.config := config;
      q, qd, target, estopped := home, Zeros(config.Width()), home, false;
    }

    method Read() returns (position: seq<real>, velocity: seq<real>)
      ensures position == q && velocity == qd
    {
      return q, qd;
    }

    method Write(values: seq<real>)
      requires Valid() && Fits(config, Event.Write(values))
      modifies this
      ensures Valid() && Now() == After(config, old(Now()), Event.Write(values))
      ensures q == old(q) && qd == old(qd) && estopped == old(estopped)
      ensures if estopped || values == [] then target == old(target)
              else forall i :: 0 <= i < |values| ==>
                     target[i] == Clip(values[i], config.lower[i], config.upper[i])
    {
      if estopped {
        return;
      }
      if values == [] {
        return;
      }
      target := ClipRow(values, config.lower, config.upper);
    }

    method Hold()
      requires Valid()
      modifies this
      ensures Valid() && Now() == After(config, old(Now()), Event.Hold)
      ensures q == old(q) && target == old(q) && estopped == old(estopped) && forall i :: 0 <= i < |qd| ==> qd[i] == 0.0
    {
      target := q;
      qd := Zeros(config.Width());
    }

    method Estop()
      requires Valid()
      modifies this
      ensures Valid() && Now() == After(config, old(Now()), Event.Estop)
      ensures q == old(q) && target == old(q) && estopped == true && forall i :: 0 <= i < |qd| ==> qd[i] == 0.0
    {
      estopped := true;
      target := q;
      qd := Zeros(config.Width());
    }

    method ReEnable()
      requires Valid()
      modifies this
      ensures Valid() && Now() == After(config, old(Now()), Event.ReEnable)
      ensures q == old(q) && target == old(q) && estopped == false && forall i :: 0 <= i < |qd| ==> qd[i] == 0.0
    {
      estopped := false;
      target := q;
      qd := Zeros(config.Width());
    }

    method Home(values: seq<real>) returns (moved: bool)
      requires Valid() && |values| == config.Width()
      modifies this
      ensures Valid() && Now() == After(config, old(Now()), Event.Home(values)) && estopped == old(estopped)
      ensures moved ==> q == values && target == values && forall i :: 0 <= i < |qd| ==> qd[i] == 0.0
      ensures !moved ==> q == old(q) && target == old(target) && qd == old(qd)
      ensures moved <==> !old(estopped)
    {
      if estopped {
        return false;
      }
      q := values;
      qd := Zeros(config.Width());
      target := q;
      return true;
    }

    method Step(dt: real)
      requires Valid()
      modifies this
      ensures Valid() && Now() == After(config, old(Now()), Event.Step(dt))
    {
      if estopped {
        qd := Zeros(config.Width());
        return;
      }
      var delta := Delta(config, State(q, qd, target, estopped), dt);
      q := ClipRow(AddRow(q, delta), config.lower, config.upper);
      qd := if dt > 0.0 then seq(|delta|, i requires 0 <= i < |delta| => delta[i] / dt) else Zeros(config.Width());
    }
  }

  /** The constructor as its callers meet it: rows of different widths are a `ValueError`. */
  method MakeSimDriver(home: seq<real>, config: Config) returns (r: Option<SimDriver>)
    ensures r.Some? <==> |home| == |config.lower| == |config.upper| == |config.caps|
    ensures r.Some? ==>
              fresh(r.value) && r.value.Valid() && r.value.config == config && r.value.Now() == Start(config, home)
  {
    if |home| != |config.lower| || |config.lower| != |config.upper| || |config.upper| != |config.caps| {
      return None;
    }
    var driver := new SimDriver(home, config);
    return Some(driver);
  }

  /** `Unheard`: refused, but the report of it raised. `Raised`: the part's own kinematics did. */
  datatype Outcome = Applied | Refused | Unheard | Raised

  class ArmUnit {
    const arm: Arm
    const driver: SimDriver
    const home: seq<real>
    var accepted: nat
    var rejected: nat

    /** A wired unit in a safe state. */
    ghost predicate Valid()
      reads this, driver
    {
      Wired(arm, driver.config, home) && driver.Valid() && Safe(arm, driver.config, driver.Now())
    }

    constructor (arm: Arm, config: Config, home: seq<real>)
      requires Wired(arm, config, home)
      ensures Valid() && fresh(driver) && this.arm == arm && this.home == home && driver.config == config
      ensures driver.Now() == Start(config, home) && accepted == 0 && rejected == 0
    {
      StillWithinCaps(arm, config, home, home);
      this.arm, this.home := arm, home;
      driver := new SimDriver(home, config);
      accepted, rejected := 0, 0;
    }

    /** Whatever periods, holds, stops and resumes follow, the twin stays there. */
    ghost predicate StandsFrom(at: seq<real>)
      reads this, driver
    {
      driver.Valid() && forall es: seq<Event> :: AllQuiet(es) ==>
        AllFit(driver.config, es) && Run(driver.config, driver.Now(), es).q == at
    }

    lemma Stands()
      requires Valid() && Standing(driver.Now())
      ensures StandsFrom(driver.q)
    {
      forall es: seq<Event> | AllQuiet(es)
        ensures AllFit(driver.config, es) && Run(driver.config, driver.Now(), es).q == driver.q
      {
        QuietStands(driver.config, driver.Now(), es);
      }
    }

    /** `Arm.command`: applied exactly when admissible at the measured pose, held otherwise. `heard`: the
    report of a refusal returns. */
    method Command(values: seq<Scalar>, heard: bool) returns (o: Outcome)
      requires Valid()
      modifies this, driver
      ensures Valid()
      ensures values == [] ==>
                o.Applied? && driver.Now() == old(driver.Now()) && accepted == old(accepted)
                    && rejected == old(rejected)
      ensures values != [] ==>
                (o.Applied? <==> !old(driver.estopped) && Admissible(arm, values, Commanded(old(driver.q))))
      ensures values != [] && o.Applied? ==>
                AllFinite(values) && driver.Now() == After(driver.config, old(driver.Now()), Write(Values(values)))
                && driver.target == Values(values) && accepted == old(accepted) + 1 && rejected == old(rejected)
      ensures o.Refused? || o.Unheard? ==>
                && (o.Refused? <==> heard) && accepted == old(accepted) && rejected == old(rejected) + 1
                && driver.Now() == (if old(driver.estopped) then old(driver.Now())
                                    else After(driver.config, old(driver.Now()), Hold))
      ensures o.Refused? || o.Unheard? ==> StandsFrom(old(driver.q))
      ensures o.Raised? <==>
                values != [] && !old(driver.estopped) && KinematicsRaise(arm, values, Commanded(old(driver.q)))
      ensures o.Raised? ==> driver.Now() == old(driver.Now()) && accepted == old(accepted) && rejected == old(rejected)
    {
      if values == [] {
        return Applied;
      }
      if driver.estopped {
        rejected := rejected + 1;
        Stands();
        return if heard then Refused else Unheard;
      }
      var current, _ := driver.Read();
      var verdict := Check(arm, values, Commanded(current));
      match verdict
      case Raise =>
        o := Raised;
      case Refuse(_) =>
        EventKeepsSafe(arm, driver.config, home, driver.Now(), Hold);
        rejected := rejected + 1;
        driver.Hold();
        Stands();
        o := if heard then Refused else Unheard;
      case Admit =>
        assert values == Commanded(Values(values));
        WriteKeepsSafe(arm, driver.config, home, driver.Now(), Values(values));
        accepted := accepted + 1;
        driver.Write(Values(values));
        o := Applied;
    }

    method HoldStill()
      requires Valid()
      modifies driver
      ensures Valid() && driver.Now() == After(driver.config, old(driver.Now()), Hold) && StandsFrom(old(driver.q))
    {
      EventKeepsSafe(arm, driver.config, home, driver.Now(), Hold);
      driver.Hold();
      Stands();
    }

    method Stop()
      requires Valid()
      modifies driver
      ensures Valid() && driver.Now() == After(driver.config, old(driver.Now()), Estop)
    {
      EventKeepsSafe(arm, driver.config, home, driver.Now(), Estop);
      driver.Estop();
    }

    method Resume()
      requires Valid()
      modifies driver
      ensures Valid() && driver.Now() == After(driver.config, old(driver.Now()), ReEnable)
    {
      EventKeepsSafe(arm, driver.config, home, driver.Now(), ReEnable);
      driver.ReEnable();
    }

    method GoHome() returns (moved: bool)
      requires Valid()
      modifies driver
      ensures Valid() && driver.Now() == After(driver.config, old(driver.Now()), Home(home))
      ensures moved <==> !old(driver.estopped)
    {
      EventKeepsSafe(arm, driver.config, home, driver.Now(), Home(home));
      moved := driver.Home(home);
    }

    method Period(dt: real)
      requires Valid() && dt * driver.config.rate == 1.0
      modifies driver
      ensures Valid() && driver.Now() == After(driver.config, old(driver.Now()), Step(dt))
      ensures !driver.estopped ==> driver.q == old(driver.target)
    {
      EventKeepsSafe(arm, driver.config, home, driver.Now(), Step(dt));
      if !driver.estopped {
        PeriodReachesTarget(arm, driver.config, home, driver.Now(), dt);
      }
      driver.Step(dt);
    }
  }
}
