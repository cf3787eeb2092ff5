/** The cadence of the robot and camera loops.

A run is driven by two arbitrary sequences: how long each turn's work takes, and how much later
than asked the thread wakes up. */
module Pump {
  import opened Rotation
  import opened Wrappers

  predicate NonNegative(xs: seq<real>) { forall i :: 0 <= i < |xs| ==> xs[i] >= 0.0 }

  /** The deadline a robot turn sets: one period on, or one period from now when that is past. */
  function RobotDeadline(deadline: real, period: real, now: real): (d: real)
    requires period > 0.0
    ensures d >= deadline + period && d >= now
  {
    if deadline + period < now then now + period else deadline + period
  }

  lemma CancelOrder(a: real, b: real, p: real, bp: real)
    requires p > 0.0 && bp == b * p && a * p <= bp
    ensures a <= b
  {
    if a > b {
      ProductPositive(a - b, p, a * p - bp);
    }
  }

  lemma KeepOrder(a: real, b: real, p: real)
    requires p > 0.0 && a <= b
    ensures a * p <= b * p && (a < b ==> a * p < b * p)
  {
    if a < b {
      ProductPositive(b - a, p, b * p - a * p);
    }
  }

  /** The whole slots in a delay, plus one, reach past it by at most one slot. */
  lemma SlotsAhead(late: real, period: real)
    requires period > 0.0 && late > 0.0
    ensures var n := (late / period).Floor + 1;
            n >= 1 && n as real * period > late && (n - 1) as real * period <= late
  {
    var q := late / period;
    assert q * period == late;
    CancelOrder(0.0, q, period, late);
    var n := q.Floor + 1;
    assert n as real > q && (n - 1) as real <= q;
    KeepOrder(q, n as real, period);
    KeepOrder((n - 1) as real, q, period);
  }

  // ----- no catch-up burst

  /** Turn `k` starts no earlier than its deadline, and no later than the deadline it sets. */
  ghost predicate Paced(period: real, starts: seq<real>, deadlines: seq<real>) {
    && |deadlines| == |starts| + 1
    && forall k {:trigger starts[k]} :: 0 <= k < |starts| ==>
         deadlines[k] <= starts[k] <= deadlines[k + 1] && deadlines[k + 1] >= deadlines[k] + period
  }

  lemma {:induction false} DeadlinesSpread(period: real, starts: seq<real>, deadlines: seq<real>, i: nat, j: nat)
    requires period > 0.0 && Paced(period, starts, deadlines) && i <= j < |deadlines|
    ensures deadlines[j] >= deadlines[i] + (j - i) as real * period
  {
    if i < j {
      DeadlinesSpread(period, starts, deadlines, i, j - 1);
      assert (j - i) as real * period == (j - 1 - i) as real * period + period;
      assert starts[j - 1] >= deadlines[j - 1];
    }
  }

  /** Any two starts are apart by a period for every whole turn between them. */
  lemma StartsSpread(period: real, starts: seq<real>, deadlines: seq<real>, i: nat, j: nat)
    requires period > 0.0 && Paced(period, starts, deadlines) && i < j < |starts|
    ensures starts[j] - starts[i] >= (j - i - 1) as real * period
  {
    DeadlinesSpread(period, starts, deadlines, i + 1, j);
    assert starts[i] <= deadlines[i + 1];
    assert (j - (i + 1)) as real * period == (j - i - 1) as real * period;
  }

  /** However late things run, any window holds at most two starts more than whole periods fit in it. */
  lemma WindowBound(period: real, starts: seq<real>, deadlines: seq<real>, i: nat, j: nat, length: real)
    requires period > 0.0 && Paced(period, starts, deadlines) && i <= j < |starts|
    requires starts[j] - starts[i] <= length
    ensures (j - i + 1) as real <= length / period + 2.0
  {
    var q := length / period;
    assert q * period == length;
    if i == j {
      CancelOrder(0.0, q, period, length);
    } else {
      StartsSpread(period, starts, deadlines, i, j);
      CancelOrder((j - i - 1) as real, q, period, length);
    }
  }

  /** The bound is met: a wake-up exactly one period late is followed at once by the next turn. */
  lemma WindowBoundTight()
    ensures var starts, deadlines := [0.0, 2.0, 2.0], [0.0, 1.0, 2.0, 3.0];
            && Paced(1.0, starts, deadlines)
            && RobotRule(1.0, [0.0, 0.0, 0.0], [1.0, 0.0, 0.0], starts, deadlines)
            && (2 - 1 + 1) as real == (starts[2] - starts[1]) / 1.0 + 2.0
  {
    var starts, deadlines, late := [0.0, 2.0, 2.0], [0.0, 1.0, 2.0, 3.0], [1.0, 0.0, 0.0];
    assert starts[1] == Wake(deadlines[1], starts[0] + 0.0, late[0]);
    assert starts[2] == Wake(deadlines[2], starts[1] + 0.0, late[1]);
  }

  lemma PacedGrows(period: real, starts: seq<real>, deadlines: seq<real>, start: real, deadline: real)
    requires Paced(period, starts, deadlines)
    requires deadlines[|starts|] <= start <= deadline && deadline >= deadlines[|starts|] + period
    ensures Paced(period, starts + [start], deadlines + [deadline])
  {}

  /** When turn `k + 1` starts: at its deadline, or at once when that has passed, plus the oversleep. */
  function Wake(deadline: real, now: real, late: real): real { Max(deadline, now) + late }

  /** The first `k` turns followed the robot's rule. */
  ghost predicate RobotRule(period: real, work: seq<real>, late: seq<real>, starts: seq<real>, deadlines: seq<real>)
    requires period > 0.0
  {
    && |starts| <= |work| == |late| && |deadlines| == |starts| + 1
    && (forall k {:trigger starts[k]} :: 0 <= k < |starts| ==>
        deadlines[k + 1] == RobotDeadline(deadlines[k], period, starts[k] + work[k]))
    && (forall k {:trigger late[k]} :: 0 <= k < |starts| - 1 ==>
        starts[k + 1] == Wake(deadlines[k + 1], starts[k] + work[k], late[k]))
  }

  lemma RobotRuleGrows(period: real, work: seq<real>, late: seq<real>, starts: seq<real>, deadlines: seq<real>,
                       start: real)
    requires period > 0.0 && RobotRule(period, work, late, starts, deadlines) && |starts| < |work|
    requires var k := |starts|; k > 0 ==> start == Wake(deadlines[k], starts[k - 1] + work[k - 1], late[k - 1])
    ensures var k := |starts|;
            RobotRule(period, work, late, starts + [start],
                      deadlines + [RobotDeadline(deadlines[k], period, start + work[k])])
  {}

  /** Sleeping for what is left of the period, if anything, is waking at the deadline or at once. */
  lemma Sleeps(deadline: real, now: real, late: real)
    requires late >= 0.0
    ensures now + Max(0.0, deadline - now) + late == Wake(deadline, now, late) >= deadline
  {}

  /** Between turns: the record so far, and when the next turn can start. */
  ghost predicate Ready(t0: real, period: real, work: seq<real>, late: seq<real>, starts: seq<real>,
                        deadlines: seq<real>, clock: real)
    requires period > 0.0
  {
    var k := |starts|;
    && Paced(period, starts, deadlines) && RobotRule(period, work, late, starts, deadlines)
    && deadlines[0] == t0 && clock >= deadlines[k] && (if k == 0 then clock == t0 else starts[0] == t0)
    && (k > 0 ==> clock == Wake(deadlines[k], starts[k - 1] + work[k - 1], late[k - 1]))
  }

  lemma TurnGrows(t0: real, period: real, work: seq<real>, late: seq<real>, starts: seq<real>, deadlines: seq<real>,
                  clock: real, deadline: real)
    requires period > 0.0 && NonNegative(work) && NonNegative(late)
    requires Ready(t0, period, work, late, starts, deadlines, clock) && |starts| < |work|
    requires var k := |starts|; deadline == RobotDeadline(deadlines[k], period, clock + work[k])
    ensures var k := |starts|;
            Ready(t0, period, work, late, starts + [clock], deadlines + [deadline],
                  Wake(deadline, clock + work[k], late[k]))
  {
    var k := |starts|;
    RobotRuleGrows(period, work, late, starts, deadlines, clock);
    PacedGrows(period, starts, deadlines, clock, deadline);
    Sleeps(deadline, clock + work[k], late[k]);
  }

  /** `RobotPump.run`: turn `k` works for `work[k]` and oversleeps by `late[k]`. */
  method RunRobot(t0: real, period: real, work: seq<real>, late: seq<real>)
    returns (starts: seq<real>, deadlines: seq<real>)
    requires period > 0.0 && |work| == |late| && NonNegative(work) && NonNegative(late)
    ensures |starts| == |work| && Paced(period, starts, deadlines) && deadlines[0] == t0
    ensures RobotRule(period, work, late, starts, deadlines)
    ensures |starts| > 0 ==> starts[0] == t0
    ensures forall k {:trigger starts[k]} :: 0 <= k < |starts| ==>
              var now, next := starts[k] + work[k], deadlines[k] + period;
              && deadlines[k + 1] == (if next < now then now + period else next)
              && (k + 1 < |starts| ==>
                    starts[k + 1] == (if deadlines[k + 1] > now then deadlines[k + 1] else now) + late[k])
  {
    var clock, deadline := t0, t0;
    starts, deadlines := [], [deadline];
    for k := 0 to |work|
      invariant |starts| == k && |deadlines| == k + 1 && deadlines[k] == deadline
      invariant Ready(t0, period, work, late, starts, deadlines, clock)
    {
      ghost var start := clock;
      var now := clock + work[k];
      deadline := deadline + period;
      if deadline < now {
        deadline := now + period;
      }
      TurnGrows(t0, period, work, late, starts, deadlines, start, deadline);
      Sleeps(deadline, now, late[k]);
      starts, deadlines := starts + [clock], deadlines + [deadline];
      clock := now + Max(0.0, deadline - now) + late[k];
    }
  }

  /** Slot `next` is the one right after `last`, if it is still ahead; otherwise the first one
  strictly after `now`. */
  predicate FirstFreeSlot(t0: real, period: real, last: nat, next: nat, now: real) {
    if Slot(t0, period, last + 1) >= now then next == last + 1
    else next > last + 1 && Slot(t0, period, next) > now && Slot(t0, period, next - 1) <= now
  }

  function Slot(t0: real, period: real, n: nat): real { t0 + n as real * period }

  /** Every deadline is a slot of the grid, and each is the first free one when it was set. */
  ghost predicate CameraRule(t0: real, period: real, work: seq<real>, starts: seq<real>, deadlines: seq<real>,
                             slots: seq<nat>) {
    && |starts| <= |work| && |deadlines| == |slots| == |starts| + 1
    && (forall k :: 0 <= k < |deadlines| ==> deadlines[k] == Slot(t0, period, slots[k]))
    && (forall k {:trigger starts[k]} :: 0 <= k < |starts| ==>
        FirstFreeSlot(t0, period, slots[k], slots[k + 1], starts[k] + work[k]))
  }

  lemma CameraRuleGrows(t0: real, period: real, work: seq<real>, starts: seq<real>, deadlines: seq<real>,
                        slots: seq<nat>, start: real, slot: nat)
    requires CameraRule(t0, period, work, starts, deadlines, slots) && |starts| < |work|
    requires FirstFreeSlot(t0, period, slots[|starts|], slot, start + work[|starts|])
    ensures CameraRule(t0, period, work, starts + [start], deadlines + [Slot(t0, period, slot)], slots + [slot])
  {}

  /** `CameraPump.run` */
  method RunCamera(t0: real, period: real, work: seq<real>, late: seq<real>)
    returns (starts: seq<real>, deadlines: seq<real>, slots: seq<nat>)
    requires period > 0.0 && |work| == |late| && NonNegative(work) && NonNegative(late)
    ensures |starts| == |work| && Paced(period, starts, deadlines)
    ensures CameraRule(t0, period, work, starts, deadlines, slots)
    ensures slots[0] == 0 && (|starts| > 0 ==> starts[0] == t0)
    ensures forall k {:trigger starts[k]} :: 0 <= k < |starts| - 1 ==>
              var now := starts[k] + work[k];
              starts[k + 1] == (if deadlines[k + 1] > now then deadlines[k + 1] else now) + late[k]
  {
    var clock, deadline, slot := t0, t0, 0;
    starts, deadlines, slots := [], [deadline], [0];
    for k := 0 to |work|
      invariant |starts| == k && Paced(period, starts, deadlines)
                && CameraRule(t0, period, work, starts, deadlines, slots)
      invariant deadlines[k] == deadline && slots[k] == slot && clock >= deadline && slots[0] == 0
      invariant if k == 0 then clock == t0 else starts[0] == t0
      invariant k > 0 ==> clock == Wake(deadline, starts[k - 1] + work[k - 1], late[k - 1])
      invariant forall i {:trigger starts[i]} :: 0 <= i < k - 1 ==>
                  starts[i + 1] == Wake(deadlines[i + 1], starts[i] + work[i], late[i])
    {
      ghost var start := clock;
      starts := starts + [clock];
      assert starts[..k] + [start] == starts;
      var now := clock + work[k];
      var next, at := AdvanceCamera(t0, period, slot, deadline, now);
      PacedGrows(period, starts[..k], deadlines, start, at);
      CameraRuleGrows(t0, period, work, starts[..k], deadlines, slots, start, next);
      deadline, slot := at, next;
      deadlines, slots := deadlines + [deadline], slots + [slot];
      clock := now + Max(0.0, deadline - now) + late[k];
    }
  }

  /** The camera's deadline arithmetic, with the slot it lands on. */
  method AdvanceCamera(t0: real, period: real, slot: nat, deadline: real, now: real) returns (next: nat, at: real)
    requires period > 0.0 && deadline == Slot(t0, period, slot)
    ensures at == Slot(t0, period, next) && at >= now && at >= deadline + period
    ensures FirstFreeSlot(t0, period, slot, next, now)
  {
    NextSlot(t0, period, slot);
    at, next := deadline + period, slot + 1;
    if at < now {
      var skip := ((now - at) / period).Floor + 1;
      SlotsAhead(now - at, period);
      SkipSlots(t0, period, next, skip);
      at, next := at + skip as real * period, next + skip;
    }
  }

  lemma NextSlot(t0: real, period: real, slot: nat)
    ensures Slot(t0, period, slot) + period == Slot(t0, period, slot + 1)
  {}

  lemma SkipSlots(t0: real, period: real, slot: nat, skip: int)
    requires skip >= 1
    ensures Slot(t0, period, slot) + skip as real * period == Slot(t0, period, slot + skip)
    ensures Slot(t0, period, slot) + (skip - 1) as real * period == Slot(t0, period, slot + skip - 1)
  {
    assert (slot + skip) as real == slot as real + skip as real;
    assert (slot + skip - 1) as real == slot as real + (skip - 1) as real;
  }
}
