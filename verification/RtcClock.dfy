/** A 64-bit clock from a short hardware counter and a software count of its half-periods. */
module RtcClock {
  import opened Basics

  // The counter with its top bit, of weight h, inverted.
  function Flip(h: nat, counter: nat): nat
    requires counter < 2 * h
  {
    if counter < h then counter + h else counter - h
  }

  // calc_now for a counter that wraps at 2 * h.
  function CalcNow(h: nat, period: nat, counter: nat): nat
    requires counter < 2 * h
  {
    period * h + if period % 2 == 1 then Flip(h, counter) else counter
  }

  // The half-period count a tick count belongs to, and the counter value it shows.
  lemma {:induction false} CounterOf(h: nat, ticks: nat)
    requires h > 0
    ensures ticks == ticks / h * h + ticks % h
    ensures ticks % (2 * h) == ticks % h + if ticks / h % 2 == 1 then h else 0
  {
    var q, r := ticks / h, ticks % h;
    var k, c := q / 2, r + if q % 2 == 1 then h else 0;
    assert q * h == k * (2 * h) + (q % 2) * h by { Distribute(2 * k, q % 2, h); Reassociate(k, h); }
    RemainderIs(ticks, 2 * h, k, c);
  }

  lemma Reassociate(k: int, h: int)
    ensures 2 * k * h == k * (2 * h)
  {
  }

  // Against the real tick count: the answer is exact iff the period count is current or one behind.
  lemma {:induction false} ClockIsExactIff(h: nat, period: nat, ticks: nat)
    requires h > 0
    ensures 0 <= ticks % (2 * h) < 2 * h
    ensures CalcNow(h, period, ticks % (2 * h)) == ticks <==> period == ticks / h || period + 1 == ticks / h
  {
    var q, r := ticks / h, ticks % h;
    CounterOf(h, ticks);
    var late := if period % 2 == q % 2 then period else period + 1;
    assert CalcNow(h, period, ticks % (2 * h)) == late * h + r by { Distribute(period, 1, h); }
    Cancel(late, q, h);
    Cancel(q, late, h);
  }
}
