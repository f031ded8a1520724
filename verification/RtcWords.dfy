/** calc_now on machine words: the 24-bit counter of embassy-nrf and the 16-bit counter of embassy-stm32.

    A word is reasoned about through the number it holds: Number is hidden wherever the bits of a word are not
    looked at, and the bits are looked at only in lemmas that need nothing else. */
module RtcWords {
  import opened RtcClock

  // The number that a word holds.
  ghost function Number(x: bv64): nat { x as int }

  lemma Widened(x: bv32)
    ensures Number(x as bv64) == x as int && x as bv64 <= 0xFFFF_FFFF
  {
  }

  lemma Doubled(x: bv64)
    requires x < 0x8000_0000_0000_0000
    ensures Number(x << 1) == 2 * Number(x) && Number((x << 1) | 1) == 2 * Number(x) + 1
  {
  }

  lemma Halves(x: bv64)
    ensures x >> 1 < 0x8000_0000_0000_0000 && x == if x & 1 == 1 then ((x >> 1) << 1) | 1 else (x >> 1) << 1
  {
  }

  lemma HalvesOf(x: bv64)
    ensures Number(x) == 2 * Number(x >> 1) + if x & 1 == 1 then 1 else 0
  {
    hide Number;
    Halves(x);
    Doubled(x >> 1);
  }

  lemma LastBit(x: bv32)
    ensures (x as bv64) & 1 == 1 <==> x & 1 == 1
  {
  }

  lemma ParityOf(x: bv32)
    ensures x & 1 == 1 <==> Number(x as bv64) % 2 == 1
  {
    hide Number;
    LastBit(x);
    HalvesOf(x as bv64);
  }

  lemma CarriesOver(x: bv64)
    requires x != 0xFFFF_FFFF_FFFF_FFFF
    ensures x & 1 != 1 ==> (x + 1) & 1 == 1 && (x + 1) >> 1 == x >> 1
    ensures x & 1 == 1 ==> (x + 1) & 1 != 1 && (x + 1) >> 1 == (x >> 1) + 1 && x >> 1 != 0xFFFF_FFFF_FFFF_FFFF
  {
  }

  lemma {:induction false} Successor(x: bv64)
    requires x != 0xFFFF_FFFF_FFFF_FFFF
    ensures Number(x + 1) == Number(x) + 1
    decreases Number(x)
  {
    hide Number;
    CarriesOver(x);
    HalvesOf(x);
    HalvesOf(x + 1);
    if x & 1 == 1 { Successor(x >> 1); }
  }

  function Half(x: bv64): bv64 { x >> 1 }

  predicate PowerOfTwo(y: bv64) { y != 0 && y & (y - 1) == 0 }

  lemma HalfOf(x: bv64)
    ensures 2 * Number(Half(x)) <= Number(x) <= 2 * Number(Half(x)) + 1
  {
    hide Number;
    HalvesOf(x);
  }

  lemma PowerHalves(y: bv64)
    requires PowerOfTwo(y) && y != 1
    ensures y & 1 != 1 && PowerOfTwo(Half(y)) && Half(y) < y && y == Half(y) << 1 && Half(y) < 0x8000_0000_0000_0000
  {
  }

  lemma PowerOrder(x: bv64, y: bv64)
    requires PowerOfTwo(y) && y != 1 && x < y
    ensures Half(x) < Half(y)
  {
    PowerHalves(y);
  }

  lemma Smallest(x: bv64)
    requires x < 1
    ensures Number(x) < Number(1)
  {
    assert x == 0;
  }

  // Powers of two bound words as they bound numbers.
  lemma {:induction false} Ordered(x: bv64, y: bv64)
    requires x < y && PowerOfTwo(y)
    ensures Number(x) < Number(y)
    decreases y
  {
    hide Number, Half, PowerOfTwo;
    if y == 1 {
      Smallest(x);
    } else {
      PowerHalves(y);
      PowerOrder(x, y);
      HalfOf(x);
      HalfOf(y);
      Ordered(Half(x), Half(y));
    }
  }

  lemma Literals()
    ensures Number(0x80_0000) == 0x80_0000 && Number(0x100_0000) == 0x100_0000
    ensures Number(0x8000) == 0x8000 && Number(0x1_0000) == 0x1_0000
  {
  }

  /* ---------- the 24-bit counter ---------- */

  function Sum24(p: bv64, x: bv64): bv64 {
    (p << 23) + x
  }

  function Term24(period: bv32, counter: bv32): bv64 {
    (counter ^ ((period & 1) << 23)) as bv64
  }

  // calc_now as it is written.
  function CalcNow24(period: bv32, counter: bv32): bv64 {
    ((period as bv64) << 23) + Term24(period, counter)
  }

  lemma CalcNow24Is(period: bv32, counter: bv32)
    ensures CalcNow24(period, counter) == Sum24(period as bv64, Term24(period, counter))
  {
  }

  lemma OddTerm24(period: bv32, counter: bv32)
    requires period & 1 == 1 && counter as bv64 < 0x100_0000
    ensures Term24(period, counter) == (counter as bv64) ^ 0x80_0000 < 0x100_0000
  {
  }

  lemma EvenTerm24(period: bv32, counter: bv32)
    requires period & 1 == 0
    ensures Term24(period, counter) == counter as bv64
  {
  }

  lemma WithoutTop24(x: bv64)
    requires 0x80_0000 <= x < 0x100_0000
    ensures x ^ 0x80_0000 < 0x80_0000 && Number(x) == Number(x ^ 0x80_0000) + 0x80_0000
  {
  }

  lemma WithTop24(x: bv64)
    requires x < 0x80_0000
    ensures 0x80_0000 <= x ^ 0x80_0000 < 0x100_0000 && (x ^ 0x80_0000) ^ 0x80_0000 == x
  {
  }

  // The exclusive-or of a counter with its top bit inverts that bit, which is Flip on the number it holds.
  lemma XorInvertsTopBit24(counter: bv64)
    requires counter < 0x100_0000
    ensures Number(counter) < 0x100_0000 && Number(counter ^ 0x80_0000) == Flip(0x80_0000, Number(counter))
  {
    hide Number;
    Literals();
    Ordered(counter, 0x100_0000);
    if counter < 0x80_0000 {
      Ordered(counter, 0x80_0000);
      WithTop24(counter);
      WithoutTop24(counter ^ 0x80_0000);
    } else {
      WithoutTop24(counter);
    }
  }

  lemma BitsJoined24(p: bv64, b: bv64)
    requires p <= 0x1_0000_0000
    ensures Number((p << 23) | (b & 0x7F_FFFF)) == Number(p) * 0x80_0000 + Number(b & 0x7F_FFFF)
  {
  }

  lemma SumIsJoin24(p: bv64, low: bv64)
    requires p <= 0x1_0000_0000 && low < 0x80_0000
    ensures Sum24(p, low) == (p << 23) | (low & 0x7F_FFFF) && low == low & 0x7F_FFFF
  {
  }

  lemma Joined24(p: bv64, low: bv64)
    requires p <= 0x1_0000_0000 && low < 0x80_0000
    ensures Number(Sum24(p, low)) == Number(p) * 0x80_0000 + Number(low)
  {
    hide Number, Sum24;
    SumIsJoin24(p, low);
    BitsJoined24(p, low);
  }

  // With the top bit set, the sum carries into the half-periods.
  lemma BitsCarried24(p: bv64, x: bv64)
    requires p <= 0xFFFF_FFFF && 0x80_0000 <= x < 0x100_0000
    ensures (p << 23) + x == ((p + 1) << 23) + (x ^ 0x80_0000) && p + 1 <= 0x1_0000_0000
  {
  }

  lemma Carried24(p: bv64, x: bv64)
    requires p <= 0xFFFF_FFFF && 0x80_0000 <= x < 0x100_0000
    ensures Sum24(p, x) == Sum24(p + 1, x ^ 0x80_0000) && p + 1 <= 0x1_0000_0000
  {
    BitsCarried24(p, x);
  }

  lemma Added24(p: bv64, x: bv64)
    requires p <= 0xFFFF_FFFF && x < 0x100_0000
    ensures Number(Sum24(p, x)) == Number(p) * 0x80_0000 + Number(x)
  {
    hide Number, Sum24;
    if x < 0x80_0000 {
      Joined24(p, x);
    } else {
      Carried24(p, x);
      WithoutTop24(x);
      Successor(p);
      Joined24(p + 1, x ^ 0x80_0000);
    }
  }

  lemma Term24Is(period: bv32, counter: bv32)
    requires counter as bv64 < 0x100_0000
    ensures Term24(period, counter) == if Number(period as bv64) % 2 == 1 then (counter as bv64) ^ 0x80_0000 else counter as bv64
    ensures Term24(period, counter) < 0x100_0000
  {
    hide Number, Term24;
    ParityOf(period);
    if period & 1 == 1 { OddTerm24(period, counter); } else { EvenTerm24(period, counter); }
  }

  lemma Summed24(p: bv64, counter: bv64, x: bv64)
    requires p <= 0xFFFF_FFFF && counter < 0x100_0000 && x < 0x100_0000
    requires x == if Number(p) % 2 == 1 then counter ^ 0x80_0000 else counter
    ensures Number(counter) < 0x100_0000 && Number(Sum24(p, x)) == CalcNow(0x80_0000, Number(p), Number(counter))
  {
    hide Number, Sum24;
    XorInvertsTopBit24(counter);
    Added24(p, x);
  }

  // The word holds what the formula on numbers says.
  lemma CalcNow24IsCalcNow(period: bv32, counter: bv32)
    requires counter as bv64 < 0x100_0000
    ensures Number(counter as bv64) < 0x100_0000
    ensures Number(CalcNow24(period, counter)) == CalcNow(0x80_0000, Number(period as bv64), Number(counter as bv64))
  {
    hide Number, Term24, CalcNow24, Sum24;
    CalcNow24Is(period, counter);
    Widened(period);
    Term24Is(period, counter);
    Summed24(period as bv64, counter as bv64, Term24(period, counter));
  }

  // So it is exact for the same counts.
  lemma WordClockIsExact24(period: bv32, counter: bv32, ticks: nat)
    requires counter as bv64 < 0x100_0000 && counter as int == ticks % 0x100_0000
    ensures CalcNow24(period, counter) as int == ticks
       <==> period as int == ticks / 0x80_0000 || period as int + 1 == ticks / 0x80_0000
  {
    hide CalcNow24;
    Widened(counter);
    Widened(period);
    CalcNow24IsCalcNow(period, counter);
    ClockIsExactIff(0x80_0000, period as int, ticks);
  }

  /* ---------- the 16-bit counter ---------- */

  function Sum16(p: bv64, x: bv64): bv64 {
    (p << 15) + x
  }

  function Term16(period: bv32, counter: bv16): bv64 {
    ((counter as bv32) ^ ((period & 1) << 15)) as bv64
  }

  function CalcNow16(period: bv32, counter: bv16): bv64 {
    ((period as bv64) << 15) + Term16(period, counter)
  }

  lemma CalcNow16Is(period: bv32, counter: bv16)
    ensures CalcNow16(period, counter) == Sum16(period as bv64, Term16(period, counter))
  {
  }

  lemma OddTerm16(period: bv32, counter: bv16)
    requires period & 1 == 1 && (counter as bv32) as bv64 < 0x1_0000
    ensures Term16(period, counter) == ((counter as bv32) as bv64) ^ 0x8000 < 0x1_0000
  {
  }

  lemma EvenTerm16(period: bv32, counter: bv16)
    requires period & 1 == 0
    ensures Term16(period, counter) == (counter as bv32) as bv64
  {
  }

  lemma WithoutTop16(x: bv64)
    requires 0x8000 <= x < 0x1_0000
    ensures x ^ 0x8000 < 0x8000 && Number(x) == Number(x ^ 0x8000) + 0x8000
  {
  }

  lemma WithTop16(x: bv64)
    requires x < 0x8000
    ensures 0x8000 <= x ^ 0x8000 < 0x1_0000 && (x ^ 0x8000) ^ 0x8000 == x
  {
  }

  lemma XorInvertsTopBit16(counter: bv64)
    requires counter < 0x1_0000
    ensures Number(counter) < 0x1_0000 && Number(counter ^ 0x8000) == Flip(0x8000, Number(counter))
  {
    hide Number;
    Literals();
    Ordered(counter, 0x1_0000);
    if counter < 0x8000 {
      Ordered(counter, 0x8000);
      WithTop16(counter);
      WithoutTop16(counter ^ 0x8000);
    } else {
      WithoutTop16(counter);
    }
  }

  lemma BitsJoined16(p: bv64, b: bv64)
    requires p <= 0x1_0000_0000
    ensures Number((p << 15) | (b & 0x7FFF)) == Number(p) * 0x8000 + Number(b & 0x7FFF)
  {
  }

  lemma SumIsJoin16(p: bv64, low: bv64)
    requires p <= 0x1_0000_0000 && low < 0x8000
    ensures Sum16(p, low) == (p << 15) | (low & 0x7FFF) && low == low & 0x7FFF
  {
  }

  lemma Joined16(p: bv64, low: bv64)
    requires p <= 0x1_0000_0000 && low < 0x8000
    ensures Number(Sum16(p, low)) == Number(p) * 0x8000 + Number(low)
  {
    hide Number, Sum16;
    SumIsJoin16(p, low);
    BitsJoined16(p, low);
  }

  lemma BitsCarried16(p: bv64, x: bv64)
    requires p <= 0xFFFF_FFFF && 0x8000 <= x < 0x1_0000
    ensures (p << 15) + x == ((p + 1) << 15) + (x ^ 0x8000) && p + 1 <= 0x1_0000_0000
  {
  }

  lemma Carried16(p: bv64, x: bv64)
    requires p <= 0xFFFF_FFFF && 0x8000 <= x < 0x1_0000
    ensures Sum16(p, x) == Sum16(p + 1, x ^ 0x8000) && p + 1 <= 0x1_0000_0000
  {
    BitsCarried16(p, x);
  }

  lemma Added16(p: bv64, x: bv64)
    requires p <= 0xFFFF_FFFF && x < 0x1_0000
    ensures Number(Sum16(p, x)) == Number(p) * 0x8000 + Number(x)
  {
    hide Number, Sum16;
    if x < 0x8000 {
      Joined16(p, x);
    } else {
      Carried16(p, x);
      WithoutTop16(x);
      Successor(p);
      Joined16(p + 1, x ^ 0x8000);
    }
  }

  lemma Term16Is(period: bv32, counter: bv16)
    requires (counter as bv32) as bv64 < 0x1_0000
    ensures Term16(period, counter) == if Number(period as bv64) % 2 == 1 then ((counter as bv32) as bv64) ^ 0x8000 else (counter as bv32) as bv64
    ensures Term16(period, counter) < 0x1_0000
  {
    hide Number, Term16;
    ParityOf(period);
    if period & 1 == 1 { OddTerm16(period, counter); } else { EvenTerm16(period, counter); }
  }

  lemma Summed16(p: bv64, counter: bv64, x: bv64)
    requires p <= 0xFFFF_FFFF && counter < 0x1_0000 && x < 0x1_0000
    requires x == if Number(p) % 2 == 1 then counter ^ 0x8000 else counter
    ensures Number(counter) < 0x1_0000 && Number(Sum16(p, x)) == CalcNow(0x8000, Number(p), Number(counter))
  {
    hide Number, Sum16;
    XorInvertsTopBit16(counter);
    Added16(p, x);
  }

  lemma CalcNow16IsCalcNow(period: bv32, counter: bv16)
    requires (counter as bv32) as bv64 < 0x1_0000
    ensures Number((counter as bv32) as bv64) < 0x1_0000
    ensures Number(CalcNow16(period, counter)) == CalcNow(0x8000, Number(period as bv64), Number((counter as bv32) as bv64))
  {
    hide Number, Term16, CalcNow16, Sum16;
    CalcNow16Is(period, counter);
    Widened(period);
    Term16Is(period, counter);
    Summed16(period as bv64, (counter as bv32) as bv64, Term16(period, counter));
  }

  lemma Widened16(x: bv16)
    ensures Number((x as bv32) as bv64) == x as int && ((x as bv32) as bv64) < 0x1_0000
  {
  }

  lemma WordClockIsExact16(period: bv32, counter: bv16, ticks: nat)
    requires counter as int == ticks % 0x1_0000
    ensures CalcNow16(period, counter) as int == ticks
       <==> period as int == ticks / 0x8000 || period as int + 1 == ticks / 0x8000
  {
    hide CalcNow16;
    Widened16(counter);
    Widened(period);
    CalcNow16IsCalcNow(period, counter);
    ClockIsExactIff(0x8000, period as int, ticks);
  }
}
