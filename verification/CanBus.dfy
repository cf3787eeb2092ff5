/** Waiting for the reply of one motor on a shared CAN bus.

The bus is a finite stream of frames, each with the time it becomes readable; the clock is
arbitrary in that every clock read and every receive may be delayed by any amount. */
module CanBus {
  import opened Wrappers

  datatype Frame = Frame(at: real, id: nat)

  /** One receive: when it was called, how long it was willing to wait, and what it returned. */
  datatype Poll = Poll(now: real, wait: real, got: Option<Frame>)

  /** A frame that answers: any frame when no ID is expected. */
  predicate Answers(f: Frame, expected: Option<nat>) { expected.None? || f.id == expected.value }

  /** The bus, how much of it has been consumed, and the clock. */
  class Bus {
    const frames: seq<Frame>
    const jitter: nat -> real
    var taken: nat
    var clock: real
    var ticks: nat
    ghost var polls: seq<Poll>

    ghost predicate Valid()
      reads this
    {
      taken <= |frames| && forall n :: jitter(n) >= 0.0
    }

    constructor (frames: seq<Frame>, jitter: nat -> real, start: real)
      requires forall n :: jitter(n) >= 0.0
      ensures Valid() && this.frames == frames && this.jitter == jitter && taken == 0 && polls == [] && clock == start
    {
      this.frames, this.jitter, taken, clock, ticks, polls := frames, jitter, 0, start, 0, [];
    }

    /** `time.monotonic()`: never goes back. */
    method Monotonic() returns (now: real)
      requires Valid()
      modifies `clock, `ticks
      ensures Valid() && now == clock >= old(clock)
    {
      clock := clock + jitter(ticks);
      ticks := ticks + 1;
      now := clock;
    }

    /** The next frame if it is readable within `wait`; otherwise nothing, after the whole wait. */
    method Receive(wait: real) returns (got: Option<Frame>)
      requires Valid() && wait >= 0.0
      modifies this
      ensures Valid() && clock >= old(clock)
      ensures polls == old(polls) + [Poll(old(clock), wait, got)]
      ensures got.Some? ==> old(taken) < |frames| && got.value == frames[old(taken)] && taken == old(taken) + 1
                            && got.value.at <= old(clock) + wait
      ensures got.None? ==> taken == old(taken) && clock >= old(clock) + wait
                            && (taken < |frames| ==> frames[taken].at > old(clock) + wait)
    {
      ghost var now := clock;
      if taken < |frames| && frames[taken].at <= clock + wait {
        got := Some(frames[taken]);
        clock := Max(clock, frames[taken].at) + jitter(ticks);
        taken := taken + 1;
      } else {
        got := None;
        clock := clock + wait + jitter(ticks);
      }
      ticks := ticks + 1;
      polls := polls + [Poll(now, wait, got)];
    }

    /** `_receive_before`: one deadline, and at most one poll that does not wait. */
    method ReceiveBefore(deadline: real, expected: Option<nat>) returns (reply: Option<Frame>)
      requires Valid()
      modifies this
      ensures Valid() && clock >= old(clock) && old(taken) <= taken
      ensures old(polls) < polls && Polled(polls[|old(polls)|..], deadline, reply)
      ensures reply.Some? ==> old(taken) < taken && reply.value == frames[taken - 1] && Answers(reply.value, expected)
                              && NoneAnswers(frames[old(taken)..taken - 1], expected)
      ensures reply.None? ==> NoneAnswers(frames[old(taken)..taken], expected) && clock >= deadline
    {
      ghost var first := |polls|;
      while true
        invariant Valid() && clock >= old(clock) && old(taken) <= taken && first == |old(polls)|
        invariant old(polls) <= polls && AllWaited(polls[first..], deadline)
        invariant NoneAnswers(frames[old(taken)..taken], expected)
        decreases |frames| - taken, if clock < deadline then 1 else 0
      {
        var now := Monotonic();
        var remaining := deadline - now;
        ghost var before := taken;
        var got := Receive(Max(remaining, 0.0));
        ghost var last := polls[|polls| - 1];
        assert polls[first..|polls| - 1] + [last] == polls[first..];
        if got.Some? {
          assert frames[old(taken)..taken] == frames[old(taken)..before] + [got.value];
          if Answers(got.value, expected) {
            return got;
          }
        }
        if remaining <= 0.0 {
          return None;
        }
      }
    }

    /** `_send_message_get_response_matching`; `None` is the assertion raised when every retry failed.
    `sends(k)` says whether the bus took the message on attempt `k`. */
    method Transact(retries: nat, expected: nat, sends: nat -> bool)
      returns (reply: Option<Frame>, ghost attempts: seq<Attempt>)
      requires Valid()
      modifies this
      ensures Valid() && old(taken) <= taken
      ensures reply.None? ==> |attempts| == Sent(sends, retries)
      ensures reply.Some? ==> exists k :: 0 <= k < retries && sends(k) && |attempts| == Sent(sends, k + 1)
      ensures old(polls) <= polls && polls[|old(polls)|..] == Flatten(attempts)
      ensures forall k :: 0 <= k < |attempts| ==> attempts[k].Sound()
      ensures Paused(attempts)
      ensures reply.Some? ==> old(taken) < taken && reply.value == frames[taken - 1] && reply.value.id == expected
                              && NoneAnswers(frames[old(taken)..taken - 1], Some(expected))
      ensures reply.None? ==> NoneAnswers(frames[old(taken)..taken], Some(expected))
      ensures forall i :: old(taken) <= i < (if reply.Some? then taken - 1 else taken) ==>
                i < |frames| && frames[i].id != expected
    {
      attempts := [];
      for k := 0 to retries
        invariant Valid() && old(taken) <= taken && |attempts| == Sent(sends, k)
        invariant old(polls) <= polls && polls[|old(polls)|..] == Flatten(attempts)
        invariant forall i :: 0 <= i < |attempts| ==> attempts[i].Sound()
        invariant Paused(attempts) && forall i :: 0 <= i < |attempts| ==> attempts[i].start + 0.001 <= clock
        invariant NoneAnswers(frames[old(taken)..taken], Some(expected))
      {
        if sends(k) {
          ghost var before, known, done := polls, taken, attempts;
          ghost var a;
          reply, a := TryOnce(expected);
          attempts := attempts + [a];
          FlattenAppend(done, a);
          assert polls[|old(polls)|..] == before[|old(polls)|..] + polls[|before|..];
          if reply.Some? {
            assert frames[old(taken)..taken - 1] == frames[old(taken)..known] + frames[known..taken - 1];
            assert forall i :: old(taken) <= i < taken - 1 ==>
                frames[i] == frames[old(taken)..taken - 1][i - old(taken)];
            assert sends(k) && |attempts| == Sent(sends, k + 1);
            return;
          }
          assert frames[old(taken)..taken] == frames[old(taken)..known] + frames[known..taken];
        }
        clock := clock + 0.001;
      }
      reply := None;
      assert forall i :: old(taken) <= i < taken ==> frames[i] == frames[old(taken)..taken][i - old(taken)];
    }

    /** One attempt: both deadlines are fixed when the message went out. */
    method TryOnce(expected: nat) returns (reply: Option<Frame>, ghost a: Attempt)
      requires Valid()
      modifies this
      ensures Valid() && old(taken) <= taken
      ensures old(polls) <= polls && polls[|old(polls)|..] == a.first + a.second && a.Sound()
      ensures old(clock) <= a.start <= clock
      ensures reply.Some? ==> old(taken) < taken && reply.value == frames[taken - 1] && reply.value.id == expected
                              && NoneAnswers(frames[old(taken)..taken - 1], Some(expected))
      ensures reply.None? ==> NoneAnswers(frames[old(taken)..taken], Some(expected))
    {
      var start := Monotonic();
      reply := ReceiveBefore(start + 0.010, Some(expected));
      a := Attempt(start, reply, polls[|old(polls)|..], [], None);
      if reply.None? {
        ghost var before, known := polls, taken;
        reply := ReceiveBefore(start + 0.019, Some(expected));
        a := Attempt(start, None, a.first, polls[|before|..], reply);
        assert polls[|old(polls)|..] == a.first + a.second;
        if reply.Some? {
          assert frames[old(taken)..taken - 1] == frames[old(taken)..known] + frames[known..taken - 1];
        } else {
          assert frames[old(taken)..taken] == frames[old(taken)..known] + frames[known..taken];
        }
      }
    }
  }

  /** The polls of one attempt: a first window of 10 ms and, if that found nothing, a second that
  ends 19 ms after the same start. */
  datatype Attempt = Attempt(start: real, early: Option<Frame>, first: seq<Poll>, second: seq<Poll>,
                             late: Option<Frame>) {
    predicate Sound() {
      && Polled(first, start + 0.010, early)
      && (if early.Some? then second == [] else Polled(second, start + 0.019, late))
    }
  }

  /** Every attempt starts at least a millisecond after the one before it. */
  predicate Paused(attempts: seq<Attempt>) {
    forall i, j :: 0 <= i < j < |attempts| ==> attempts[i].start + 0.001 <= attempts[j].start
  }

  /** Both windows count from the moment the message went out: no poll of the first waits past 10 ms, none of the
  second past 19 ms, and the second is there exactly if the first found nothing. */
  lemma AttemptWindows(a: Attempt)
    requires a.Sound()
    ensures forall i :: 0 <= i < |a.first| ==>
              a.first[i].now + a.first[i].wait == Max(a.first[i].now, a.start + 0.010)
    ensures forall i :: 0 <= i < |a.second| ==>
              a.second[i].now + a.second[i].wait == Max(a.second[i].now, a.start + 0.019)
    ensures a.first != [] && (a.second != [] <==> a.early.None?)
  {
    AtMostOneZeroWait(a.first, a.start + 0.010, a.early);
    if a.early.None? {
      AtMostOneZeroWait(a.second, a.start + 0.019, a.late);
    }
  }

  /** How many of the first `n` attempts the bus took the message on. */
  function Sent(sends: nat -> bool, n: nat): nat {
    if n == 0 then 0 else Sent(sends, n - 1) + (if sends(n - 1) then 1 else 0)
  }

  function Flatten(attempts: seq<Attempt>): seq<Poll> {
    if attempts == [] then []
    else
      var last := attempts[|attempts| - 1];
      Flatten(attempts[..|attempts| - 1]) + (last.first + last.second)
  }

  lemma FlattenAppend(attempts: seq<Attempt>, a: Attempt)
    ensures Flatten(attempts + [a]) == Flatten(attempts) + (a.first + a.second)
  {
    assert (attempts + [a])[..|attempts|] == attempts;
  }

  // ----- what sound polling means

  function ZeroWaits(ps: seq<Poll>): nat {
    if ps == [] then 0 else ZeroWaits(ps[..|ps| - 1]) + (if ps[|ps| - 1].wait == 0.0 then 1 else 0)
  }

  lemma {:induction false} WaitedNeverZero(ps: seq<Poll>, deadline: real)
    requires AllWaited(ps, deadline)
    ensures ZeroWaits(ps) == 0
  {
    if ps != [] {
      WaitedNeverZero(ps[..|ps| - 1], deadline);
    }
  }

  /** One receive call polls without waiting at most once, and never waits past its deadline. */
  lemma AtMostOneZeroWait(ps: seq<Poll>, deadline: real, reply: Option<Frame>)
    requires Polled(ps, deadline, reply)
    ensures ZeroWaits(ps) <= 1
    ensures forall i :: 0 <= i < |ps| ==> ps[i].now + ps[i].wait == Max(ps[i].now, deadline)
  {
    WaitedNeverZero(ps[..|ps| - 1], deadline);
    assert forall i :: 0 <= i < |ps| - 1 ==> ps[i] == ps[..|ps| - 1][i];
  }

  lemma {:induction false} ZeroWaitsAppend(a: seq<Poll>, b: seq<Poll>)
    ensures ZeroWaits(a + b) == ZeroWaits(a) + ZeroWaits(b)
  {
    if b == [] {
      assert a + b == a;
    } else {
      assert (a + b)[..|a + b| - 1] == a + b[..|b| - 1];
      ZeroWaitsAppend(a, b[..|b| - 1]);
    }
  }

  /** A whole transaction polls without waiting at most twice per attempt. */
  lemma {:induction false} TransactionZeroWaits(attempts: seq<Attempt>)
    requires forall k :: 0 <= k < |attempts| ==> attempts[k].Sound()
    ensures ZeroWaits(Flatten(attempts)) <= 2 * |attempts|
  {
    if attempts != [] {
      var init, a := attempts[..|attempts| - 1], attempts[|attempts| - 1];
      TransactionZeroWaits(init);
      AtMostOneZeroWait(a.first, a.start + 0.010, a.early);
      if a.early.None? {
        AtMostOneZeroWait(a.second, a.start + 0.019, a.late);
      }
      ZeroWaitsAppend(a.first, a.second);
      ZeroWaitsAppend(Flatten(init), a.first + a.second);
    }
  }

  predicate NoneAnswers(fs: seq<Frame>, expected: Option<nat>) {
    forall i :: 0 <= i < |fs| ==> !Answers(fs[i], expected)
  }

  /** Every poll was made before the deadline and waited for exactly what was left of it. */
  predicate AllWaited(ps: seq<Poll>, deadline: real) {
    forall i :: 0 <= i < |ps| ==> ps[i].now < deadline && ps[i].wait == deadline - ps[i].now
  }

  /** All polls but the last waited out the same deadline; nothing is returned only after a last
  poll, without waiting, at or past the deadline. */
  predicate Polled(ps: seq<Poll>, deadline: real, reply: Option<Frame>) {
    && |ps| > 0
    && AllWaited(ps[..|ps| - 1], deadline)
    && var last := ps[|ps| - 1];
       && (last.now < deadline ==> last.wait == deadline - last.now && reply.Some?)
       && (last.now >= deadline ==> last.wait == 0.0)
       && (reply.Some? ==> last.got == reply)
  }
}
