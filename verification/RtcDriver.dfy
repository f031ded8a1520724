/** The RTC driver's methods, as runs of the machine in RtcAlarms. */
module RtcDriver {
  import opened Basics
  import opened RtcClock
  import opened RtcAlarms

  // What on_interrupt computes: the period events first, then the compare events in channel order.
  function ServePeriods(s: State): (r: State)
    requires |s.chan| == CHANNELS
    ensures |r.chan| == CHANNELS && (s.handler == Idle ==> r.handler == Idle)
  {
    var s1 := if s.ovf then NextPeriodOf(s.(ovf := false)) else s;
    if s1.half then NextPeriodOf(s1.(half := false)) else s1
  }

  function ServeAlarms(s: State, n: nat): (r: State)
    requires |s.chan| == CHANNELS && s.handler == Idle && n <= CHANNELS
    ensures |r.chan| == CHANNELS && r.handler == Idle && r.ovf == s.ovf && r.half == s.half
    ensures forall m {:trigger r.chan[m]} {:trigger s.chan[m]} | 0 <= m < CHANNELS :: r.chan[m].event == (m >= n && s.chan[m].event)
  {
    if n == 0 then s
    else
      var r := ServeAlarms(s, n - 1);
      if r.chan[n - 1].event then TriggerOf(r.(chan := r.chan[n - 1 := r.chan[n - 1].(event := false)]), n - 1) else r
  }

  // The same as machine steps.
  function PeriodEvents(s: State): List<Event> {
    Concat(if s.ovf then Cons(ClearOvf, Single(NextPeriod)) else Nil, if s.half then Cons(ClearHalf, Single(NextPeriod)) else Nil)
  }

  function AlarmEvents(s: State, n: nat): List<Event>
    requires n <= |s.chan|
  {
    if n == 0 then Nil
    else if s.chan[n - 1].event then Concat(AlarmEvents(s, n - 1), Cons(ClearCompare(n - 1), Single(Trigger(n - 1))))
    else AlarmEvents(s, n - 1)
  }

  lemma LeadsTwo(latency: nat, s: State, e: Event, f: Event)
    requires |s.chan| == CHANNELS && Enabled(latency, s, e) && Enabled(latency, Apply(s, e), f)
    ensures Leads(latency, s, Cons(e, Single(f)), Apply(Apply(s, e), f))
  {
    LeadsOne(latency, Apply(s, e), f);
    LeadsFirst(latency, s, e, Single(f), Apply(Apply(s, e), f));
  }

  lemma PeriodsAreARun(latency: nat, s: State)
    requires |s.chan| == CHANNELS && s.handler == Idle
    ensures Leads(latency, s, PeriodEvents(s), ServePeriods(s))
  {
    var s1, es := s, Nil;
    if s.ovf {
      LeadsTwo(latency, s, ClearOvf, NextPeriod);
      s1, es := NextPeriodOf(s.(ovf := false)), Cons(ClearOvf, Single(NextPeriod));
    }
    if s.half {
      LeadsTwo(latency, s1, ClearHalf, NextPeriod);
      LeadsOn(latency, s, es, s1, Cons(ClearHalf, Single(NextPeriod)), ServePeriods(s));
    }
  }

  lemma {:induction false} AlarmsAreARun(latency: nat, s: State, n: nat)
    requires |s.chan| == CHANNELS && s.handler == Idle && n <= CHANNELS
    ensures Leads(latency, s, AlarmEvents(s, n), ServeAlarms(s, n))
  {
    if n > 0 {
      AlarmsAreARun(latency, s, n - 1);
      var r, es := ServeAlarms(s, n - 1), AlarmEvents(s, n - 1);
      assert r.chan[n - 1].event == s.chan[n - 1].event;
      if r.chan[n - 1].event {
        LeadsTwo(latency, r, ClearCompare(n - 1), Trigger(n - 1));
        LeadsOn(latency, s, es, r, Cons(ClearCompare(n - 1), Single(Trigger(n - 1))), ServeAlarms(s, n));
      }
    }
  }

  // One call of on_interrupt is a run of the machine, so whatever holds of every run holds across it;
  // it leaves no event unserved.
  lemma InterruptIsARun(latency: nat, s: State)
    requires latency < HALF && Inv(latency, s) && s.handler == Idle
    ensures Leads(latency, s, Concat(PeriodEvents(s), AlarmEvents(ServePeriods(s), CHANNELS)), InterruptOf(s))
    ensures var t := InterruptOf(s); Inv(latency, t) && !Owed(t) && forall n: nat | n < CHANNELS :: !Due(t, n)
  {
    var s1 := ServePeriods(s);
    PeriodsAreARun(latency, s);
    AlarmsAreARun(latency, s1, CHANNELS);
    LeadsOn(latency, s, PeriodEvents(s), s1, AlarmEvents(s1, CHANNELS), InterruptOf(s));
    LeadsIsARun(latency, s, Concat(PeriodEvents(s), AlarmEvents(s1, CHANNELS)), InterruptOf(s));
    InvAlways(latency, s, Concat(PeriodEvents(s), AlarmEvents(s1, CHANNELS)));
  }

  // What can come between two instructions of now(): a tick of the counter, or a whole interrupt.
  datatype Happening = Advances(missed: set<nat>) | Interrupt

  function InterruptOf(s: State): (r: State)
    requires |s.chan| == CHANNELS && s.handler == Idle
    ensures |r.chan| == CHANNELS && r.handler == Idle
  {
    ServeAlarms(ServePeriods(s), CHANNELS)
  }

  function HappensOnce(s: State, h: Happening): (r: State)
    requires |s.chan| == CHANNELS && s.handler == Idle
    ensures |r.chan| == CHANNELS && r.handler == Idle
  {
    match h
    case Advances(missed) => TickOf(s, missed)
    case Interrupt => InterruptOf(s)
  }

  function Happens(s: State, between: seq<Happening>): State
    requires |s.chan| == CHANNELS && s.handler == Idle
    decreases |between|
  {
    if between == [] then s else Happens(HappensOnce(s, between[0]), between[1..])
  }

  // The assumptions on the hardware hold throughout.
  predicate Allows(latency: nat, s: State, between: seq<Happening>)
    requires |s.chan| == CHANNELS && s.handler == Idle
    decreases |between|
  {
    between == [] || ((between[0].Advances? ==> TickAllowed(latency, s)) && Allows(latency, HappensOnce(s, between[0]), between[1..]))
  }

  lemma {:induction false} HappeningsAreARun(latency: nat, s: State, between: seq<Happening>) returns (es: List<Event>)
    requires latency < HALF && Inv(latency, s) && s.handler == Idle && Allows(latency, s, between)
    ensures Leads(latency, s, es, Happens(s, between))
    decreases |between|
  {
    if between == [] {
      es := Nil;
    } else {
      var m := HappensOnce(s, between[0]);
      var first := HappeningIsARun(latency, s, between[0]);
      var rest := HappeningsAreARun(latency, m, between[1..]);
      LeadsOn(latency, s, first, m, rest, Happens(s, between));
      es := Concat(first, rest);
    }
  }

  lemma HappeningIsARun(latency: nat, s: State, h: Happening) returns (es: List<Event>)
    requires latency < HALF && Inv(latency, s) && s.handler == Idle && (h.Advances? ==> TickAllowed(latency, s))
    ensures Leads(latency, s, es, HappensOnce(s, h)) && Inv(latency, HappensOnce(s, h))
  {
    match h
    case Advances(missed) =>
      es := Single(Tick(missed));
      LeadsOne(latency, s, Tick(missed));
      TickKeepsInv(latency, s, missed);
    case Interrupt =>
      InterruptIsARun(latency, s);
      es := Concat(PeriodEvents(s), AlarmEvents(ServePeriods(s), CHANNELS));
  }

  // What Now returns, whatever happens between its reads: the real time at the second one, iff at most one period
  // boundary has been passed that the first one does not know.
  lemma NowIsExactWhen(latency: nat, s: State, between: seq<Happening>)
    requires latency < HALF && Inv(latency, s) && s.handler == Idle && Allows(latency, s, between)
    ensures var s' := Happens(s, between);
      CalcNow(HALF, s.period, Counter(s')) == s'.ticks <==> s'.ticks / HALF <= s.period + 1
  {
    var es := HappeningsAreARun(latency, s, between);
    LeadsIsARun(latency, s, es, Happens(s, between));
    SplitReadIsExactly(latency, s, es);
  }

  class Rtc {
    // Registers.
    var ticks: nat
    var ovf: bool
    var half: bool
    // Software state; chan also holds the compare registers, events and interrupt enables.
    var period: nat
    var chan: seq<Channel>
    // Calls of trigger_alarm so far, and where the handler is.
    var fired: seq<Firing>
    ghost var handler: Handler

    ghost function View(): State
      reads this
    {
      State(ticks, period, ovf, half, handler, chan, fired)
    }

    constructor ()
      ensures View() == Init()
    {
      ticks, ovf, half, period := 0, false, false, 0;
      chan, fired := seq(CHANNELS, i => Channel(OFF, 0, false, false, true)), [];
      handler := Idle;
    }

    // period is read before the counter; anything may happen between the two reads.
    method Now(between: seq<Happening>) returns (t: nat)
      requires between != [] ==> |chan| == CHANNELS && handler == Idle
      modifies this
      ensures View() == (if between == [] then old(View()) else Happens(old(View()), between))
      ensures t == CalcNow(HALF, old(period), Counter(View()))
    {
      var p := period;
      if between != [] { Let(between); }
      var counter := ticks % WRAP;
      t := CalcNow(HALF, p, counter);
      assert Counter(View()) == counter;
    }

    method Let(between: seq<Happening>)
      requires |chan| == CHANNELS && handler == Idle
      modifies this
      ensures View() == Happens(old(View()), between)
    {
      for i := 0 to |between|
        invariant |chan| == CHANNELS && handler == Idle
        invariant Happens(old(View()), between) == Happens(View(), between[i..])
      {
        assert between[i..][1..] == between[i + 1..];
        match between[i]
        case Advances(missed) => Advance(missed);
        case Interrupt => OnInterrupt();
      }
      assert between[|between|..] == [];
    }

    // The hardware: the counter advances by one.
    method Advance(missed: set<nat>)
      modifies this
      ensures View() == TickOf(old(View()), missed)
    {
      ticks := ticks + 1;
      if ticks % WRAP == 0 { ovf := true; }
      if ticks % WRAP == HALF { half := true; }
      var before, now := chan, ticks;
      chan := seq(|before|, i requires 0 <= i < |before| => TickChannel(before[i], now, i in missed));
    }

    method NextPeriod()
      requires |chan| == CHANNELS
      modifies this
      ensures View() == NextPeriodOf(old(View()))
    {
      period := NextCount(period);
      handler := Idle;
      var t := period * HALF;
      for n := 0 to CHANNELS
        invariant View() == old(View()).(period := period, handler := Idle, chan := chan)
        invariant period == NextCount(old(period)) && t == period * HALF && |chan| == CHANNELS
        invariant forall i {:trigger chan[i]} | 0 <= i < CHANNELS ::
          chan[i] == if i < n then Rearm(old(chan)[i], t, ticks) else old(chan)[i]
      {
        var at := chan[n].at;
        var diff := WrappingSub(at, t);
        if diff < WINDOW {
          chan := chan[n := WriteCompare(chan[n], at, ticks)];
        }
      }
    }

    method TriggerAlarm(n: nat)
      requires n < |chan|
      modifies this
      ensures View() == TriggerOf(old(View()), n)
    {
      var at := chan[n].at;
      chan := chan[n := chan[n].(enabled := false)];
      chan := chan[n := chan[n].(at := OFF)];
      // After clearing the alarm, so that the callback can set another.
      fired := fired + [Firing(n, at, ticks)];
    }

    // ticked: the counter advances between the reading of the time and the writing of the register.
    method SetAlarm(n: nat, timestamp: nat, ticked: bool, missed: set<nat>)
      requires n < |chan|
      modifies this
      ensures View() == SetAlarmOf(old(View()), n, timestamp, ticked, missed)
      ensures timestamp <= old(RtcAlarms.Now(View())) ==> fired == old(fired) + [Firing(n, timestamp, ticks)] && chan[n].at == OFF
      ensures timestamp > old(RtcAlarms.Now(View())) ==> fired == old(fired) && chan[n].at == timestamp
      ensures |chan| == |old(chan)| && forall m {:trigger chan[m]} | 0 <= m < |chan| && m != n :: chan[m].at == old(chan)[m].at
    {
      SetAlarmTakes(View(), n, timestamp, ticked, missed);
      Set(n, timestamp, ticked, missed);
    }

    method Set(n: nat, timestamp: nat, ticked: bool, missed: set<nat>)
      requires n < |chan|
      modifies this
      ensures View() == SetAlarmOf(old(View()), n, timestamp, ticked, missed)
    {
      chan := chan[n := chan[n].(at := timestamp)];
      var t := Now([]);
      if ticked { Advance(missed); }
      Arm(n, timestamp, t);
    }

    // The rest of set_alarm, once the time has been read.
    method Arm(n: nat, timestamp: nat, t: nat)
      requires n < |chan|
      modifies this
      ensures View() == ArmOf(old(View()), n, timestamp, t)
    {
      if timestamp <= t {
        TriggerAlarm(n);
        return;
      }
      var diff := timestamp - t;
      if diff < WINDOW {
        var safe := if timestamp < t + 3 then t + 3 else timestamp;
        chan := chan[n := WriteCompare(chan[n], safe, ticks)];
      } else {
        chan := chan[n := chan[n].(enabled := false)];
      }
    }

    method OnInterrupt()
      requires |chan| == CHANNELS && handler == Idle
      modifies this
      ensures View() == InterruptOf(old(View()))
    {
      if ovf {
        ovf := false;
        NextPeriod();
      }
      if half {
        half := false;
        NextPeriod();
      }
      ServeChannels();
    }

    // The loop over the three compare events.
    method ServeChannels()
      requires |chan| == CHANNELS && handler == Idle
      modifies this
      ensures View() == ServeAlarms(old(View()), CHANNELS)
    {
      ghost var s := View();
      for n := 0 to CHANNELS
        invariant |chan| == CHANNELS && |s.chan| == CHANNELS && s.handler == Idle
        invariant View() == ServeAlarms(s, n)
      {
        if chan[n].event {
          chan := chan[n := chan[n].(event := false)];
          TriggerAlarm(n);
        }
      }
    }
  }
}
