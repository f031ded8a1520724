/** Timer and Ticker: futures over the task's expires_at cell. */
module Timers {
  import opened Basics

  // The cell register_timer lowers: TaskHeader.expires_at.
  class Deadline {
    var expiresAt: nat

    constructor (at: nat)
      ensures expiresAt == at
    {
      expiresAt := at;
    }

    method Register(at: nat)
      modifies this
      ensures expiresAt == Min(old(expiresAt), at)
    {
      expiresAt := Min(expiresAt, at);
    }
  }

  class Timer {
    const expiresAt: nat
    var yieldedOnce: bool

    constructor At(expiresAt: nat)
      ensures this.expiresAt == expiresAt && !yieldedOnce
    {
      this.expiresAt := expiresAt;
      yieldedOnce := false;
    }

    method Poll(now: nat, task: Deadline) returns (ready: bool)
      modifies this, task
      ensures ready == TimerReady(expiresAt, old(yieldedOnce), now)
      ensures ready ==> yieldedOnce == old(yieldedOnce) && task.expiresAt == old(task.expiresAt)
      ensures !ready ==> yieldedOnce && task.expiresAt == Min(old(task.expiresAt), expiresAt)
    {
      if yieldedOnce && expiresAt <= now {
        ready := true;
      } else {
        task.Register(expiresAt);
        yieldedOnce := true;
        ready := false;
      }
    }
  }

  predicate TimerReady(expiresAt: nat, yieldedOnce: bool, now: nat) {
    yieldedOnce && expiresAt <= now
  }

  // The answers of a fresh Timer::at(d) polled at the given times, until it is Ready.
  function TimerAnswers(d: nat, yieldedOnce: bool, nows: seq<nat>): seq<bool>
    decreases |nows|
  {
    if nows == [] then []
    else if TimerReady(d, yieldedOnce, nows[0]) then [true]
    else [false] + TimerAnswers(d, true, nows[1..])
  }

  // The k-th poll is answered Ready iff it is the first one, not counting poll 0, made at d or later.
  lemma {:induction false} TimerReadyExactly(d: nat, yieldedOnce: bool, nows: seq<nat>, k: nat)
    requires k < |nows|
    ensures (k < |TimerAnswers(d, yieldedOnce, nows)| && TimerAnswers(d, yieldedOnce, nows)[k])
            <==> (yieldedOnce || k > 0) && nows[k] >= d
                 && forall j | (if yieldedOnce then 0 else 1) <= j < k :: nows[j] < d
    decreases k
  {
    if TimerReady(d, yieldedOnce, nows[0]) {
    } else if k > 0 {
      TimerReadyExactly(d, true, nows[1..], k - 1);
      assert nows[1..][k - 1] == nows[k];
      assert forall j | 0 <= j < k - 1 :: nows[1..][j] == nows[j + 1];
      assert yieldedOnce ==> nows[0] < d;
      if forall j | 0 <= j < k - 1 :: nows[1..][j] < d {
        forall j | 1 <= j < k ensures nows[j] < d { assert nows[1..][j - 1] < d; }
      }
    }
  }

  class Ticker {
    var expiresAt: nat
    const duration: nat

    constructor Every(now: nat, duration: nat)
      ensures expiresAt == now + duration && this.duration == duration
    {
      this.expiresAt := now + duration;
      this.duration := duration;
    }

    method PollNext(now: nat, task: Deadline) returns (ready: bool)
      modifies this, task
      ensures ready == (old(expiresAt) <= now)
      ensures expiresAt == TickerNext(old(expiresAt), duration, now)
      ensures task.expiresAt == if ready then old(task.expiresAt) else Min(old(task.expiresAt), expiresAt)
    {
      if expiresAt <= now {
        expiresAt := expiresAt + duration;
        ready := true;
      } else {
        task.Register(expiresAt);
        ready := false;
      }
    }
  }

  function TickerNext(expiresAt: nat, duration: nat, now: nat): nat {
    if expiresAt <= now then expiresAt + duration else expiresAt
  }

  // expires_at after polls at the given times, and the number of ticks they yielded.
  function ExpiresAfter(first: nat, duration: nat, nows: seq<nat>): nat {
    if nows == [] then first else TickerNext(ExpiresAfter(first, duration, Init(nows)), duration, Last(nows))
  }

  function Ticks(first: nat, duration: nat, nows: seq<nat>): nat {
    if nows == [] then 0
    else Ticks(first, duration, Init(nows)) + if ExpiresAfter(first, duration, Init(nows)) <= Last(nows) then 1 else 0
  }

  function Init(nows: seq<nat>): seq<nat> requires nows != [] { nows[..|nows| - 1] }

  function Last(nows: seq<nat>): nat requires nows != [] { nows[|nows| - 1] }

  predicate Ordered(nows: seq<nat>) { forall i, j | 0 <= i < j < |nows| :: nows[i] <= nows[j] }

  lemma OneMore(n: nat, duration: nat)
    ensures (n + 1) * duration == n * duration + duration
  {
  }

  // Ticks come at first, first + duration, ... without drift, whatever the delays between polls:
  // none is early, and once a poll is answered Pending exactly the elapsed ones have been yielded.
  lemma {:induction false} TickerIsUniform(first: nat, duration: nat, nows: seq<nat>)
    requires nows != [] && Ordered(nows)
    ensures var n := Ticks(first, duration, nows);
            && ExpiresAfter(first, duration, nows) == first + n * duration
            && (n > 0 ==> first + (n - 1) * duration <= Last(nows))
            && (n == Ticks(first, duration, Init(nows)) ==> Last(nows) < first + n * duration)
    decreases |nows|
  {
    var before := Init(nows);
    var m := Ticks(first, duration, before);
    OneMore(m, duration);
    if |nows| == 1 {
      assert before == [];
    } else {
      assert Ordered(before) && Last(before) <= Last(nows);
      TickerIsUniform(first, duration, before);
    }
    assert ExpiresAfter(first, duration, nows) == TickerNext(ExpiresAfter(first, duration, before), duration, Last(nows));
  }
}
