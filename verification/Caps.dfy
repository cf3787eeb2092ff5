/** What the cap test bounds. A NaN fails every comparison, so a joint that is measured as one passes it. */
module Caps {
  import opened Wrappers
  import opened Envelope

  /** For every admitted command and each of its joints: the joint is told to be within its cap of where it
  was measured, if and only if it was not measured as a NaN and its cap is a number. */
  lemma BoundedIff(arm: Arm, target: seq<Scalar>, measured: seq<Scalar>, i: nat)
    requires arm.Valid() && Admissible(arm, target, measured) && i < arm.Width()
    ensures Bounded(Values(target)[i], measured[i], arm.Caps()[i]) <==> !measured[i].NaN? && arm.Caps()[i].Finite?
  {
    assert !Exceeds(Values(target)[i], measured[i], arm.Caps()[i]);
  }

  predicate Numbered(row: seq<Scalar>) { forall i :: 0 <= i < |row| ==> !row[i].NaN? }

  /** Of a whole command. */
  lemma WithinCapsIff(arm: Arm, target: seq<Scalar>, measured: seq<Scalar>)
    requires arm.Valid() && Admissible(arm, target, measured)
    ensures WithinCaps(arm, Values(target), measured) <==> Numbered(measured) && AllFinite(arm.Caps())
  {
    forall i: nat | i < arm.Width()
      ensures Bounded(Values(target)[i], measured[i], arm.Caps()[i]) <==> !measured[i].NaN? && arm.Caps()[i].Finite?
    {
      BoundedIff(arm, target, measured, i);
    }
  }

  /** A part with no rules but its limits and caps, which lets every number that was measured stand. */
  function Plain(measured: seq<Scalar>): (arm: Arm)
    requires measured != []
    ensures arm.Valid() && AllFinite(arm.Caps())
  {
    Arm("plain", seq(|measured|, i requires 0 <= i < |measured| => (Stand(measured[i]), Stand(measured[i]))),
        seq(|measured|, i requires 0 <= i < |measured| => Finite(1.0)), None, |measured|, None, None, "", [], false,
        0.0, {})
  }

  function Stand(m: Scalar): real { if m.Finite? then m.v else 0.0 }

  function StandRow(measured: seq<Scalar>): (q: seq<Scalar>)
    ensures |q| == |measured| && AllFinite(q)
  {
    seq(|measured|, i requires 0 <= i < |measured| => Finite(Stand(measured[i])))
  }

  predicate SomeInfinite(row: seq<Scalar>) { exists i :: 0 <= i < |row| && row[i].Infinite? }

  /** Some part, with caps that are numbers, admits some row beyond them from this measurement. */
  ghost predicate Escapes(arm: Arm, target: seq<Scalar>, measured: seq<Scalar>) {
    && arm.Valid() && AllFinite(arm.Caps()) && Admissible(arm, target, measured)
    && !WithinCaps(arm, Values(target), measured)
  }

  lemma PlainEscapes(measured: seq<Scalar>)
    requires !Numbered(measured) && !SomeInfinite(measured)
    ensures Escapes(Plain(measured), StandRow(measured), measured)
  {
    var arm, target := Plain(measured), StandRow(measured);
    forall i | 0 <= i < |measured|
      ensures !Exceeds(Values(target)[i], measured[i], arm.Caps()[i])
    {
      assert !measured[i].Infinite?;
    }
    WithinCapsIff(arm, target, measured);
  }

  lemma NumberedHolds(arm: Arm, target: seq<Scalar>, measured: seq<Scalar>)
    requires Numbered(measured) || SomeInfinite(measured)
    ensures !Escapes(arm, target, measured)
  {
    if arm.Valid() && AllFinite(arm.Caps()) && Admissible(arm, target, measured) {
      if SomeInfinite(measured) {
        var i :| 0 <= i < |measured| && measured[i].Infinite?;
        assert arm.Caps()[i].Finite? && Exceeds(Values(target)[i], measured[i], arm.Caps()[i]);
        assert false;
      }
      WithinCapsIff(arm, target, measured);
    }
  }

  /** From which measurements the caps hold for every part and every command: exactly those with no NaN, and
  those with an infinity, from which nothing is admitted. */
  lemma CapsHoldIff(measured: seq<Scalar>)
    ensures (forall arm, target :: !Escapes(arm, target, measured)) <==> Numbered(measured) || SomeInfinite(measured)
  {
    if Numbered(measured) || SomeInfinite(measured) {
      forall arm, target
        ensures !Escapes(arm, target, measured)
      {
        NumberedHolds(arm, target, measured);
      }
    } else {
      PlainEscapes(measured);
    }
  }

  /** A joint measured as a NaN may be sent anywhere within its limits, on a part without further rules. */
  lemma AnywhereAdmitted(arm: Arm, target: seq<Scalar>, measured: seq<Scalar>, i: nat, v: real)
    requires arm.Valid() && arm.workspace.None? && !arm.RulesActive() && Admissible(arm, target, measured)
    requires i < arm.Width() && measured[i].NaN? && arm.limits[i].0 <= v <= arm.limits[i].1
    ensures Admissible(arm, target[i := Finite(v)], measured)
  {
    var q, r := Values(target), Values(target[i := Finite(v)]);
    forall k | 0 <= k < |q|
      ensures arm.limits[k].0 <= r[k] <= arm.limits[k].1 && !Exceeds(r[k], measured[k], arm.Caps()[k])
    {
      assert k != i ==> r[k] == q[k];
    }
  }
}
