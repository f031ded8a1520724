/** Alarms on the 24-bit counter: compare channels, the period interrupt and the hand-over of far alarms. */
module RtcAlarms {
  import opened Basics
  import opened RtcClock

  const HALF: nat := 0x80_0000
  const WRAP: nat := 0x100_0000
  // set_alarm and next_period program the compare channel when the alarm is closer than this.
  const WINDOW: nat := 0xC0_0000
  const OFF: nat := 0xFFFF_FFFF_FFFF_FFFF
  // The 32-bit half-period count does not wrap before this tick.
  const LIMIT: nat := 0x80_0000_0000_0000
  const CHANNELS: nat := 3

  // at: the software timestamp. The rest are registers; sure: the next match cannot be missed by the hardware.
  datatype Channel = Channel(at: nat, cc: nat, enabled: bool, event: bool, sure: bool)

  // Where the interrupt handler is: it has cleared an event and has not acted on it yet.
  datatype Handler = Idle | PeriodDue | AlarmDue(n: nat)

  // One call of trigger_alarm: the timestamp it cancels, and the real time.
  datatype Firing = Firing(n: nat, at: nat, ticks: nat)

  // ticks is real time since start; the counter register shows it modulo WRAP.
  datatype State = State(ticks: nat, period: nat, ovf: bool, half: bool, handler: Handler,
                         chan: seq<Channel>, fired: seq<Firing>)

  datatype Event =
    | Tick(missed: set<nat>)
    | ClearOvf
    | ClearHalf
    | NextPeriod
    | ClearCompare(n: nat)
    | Trigger(n: nat)
    | SetAlarm(n: nat, at: nat, ticked: bool, missed: set<nat>)

  function Init(): State {
    State(0, 0, false, false, Idle, seq(CHANNELS, i => Channel(OFF, 0, false, false, true)), [])
  }

  function Counter(s: State): nat {
    s.ticks % WRAP
  }

  function Now(s: State): nat {
    CalcNow(HALF, s.period, Counter(s))
  }

  predicate Owed(s: State) {
    s.ovf || s.half || s.handler == PeriodDue
  }

  predicate Due(s: State, n: nat)
    requires n < |s.chan|
  {
    s.chan[n].event || s.handler == AlarmDue(n)
  }

  predicate Waiting(s: State, n: nat)
    requires n < |s.chan|
  {
    s.chan[n].at != OFF && !Due(s, n)
  }

  /* ---------- hardware ---------- */

  // A compare match raises the event only while its interrupt is enabled.
  // A value written as the current or the next count may be missed at the next tick.
  function TickChannel(c: Channel, ticks: nat, missed: bool): Channel {
    var hit := c.enabled && c.cc == ticks % WRAP && (c.sure || !missed);
    c.(event := c.event || hit, sure := true)
  }

  function TickOf(s: State, missed: set<nat>): State {
    var t := s.ticks + 1;
    s.(ticks := t,
       ovf := s.ovf || t % WRAP == 0,
       half := s.half || t % WRAP == HALF,
       chan := seq(|s.chan|, i requires 0 <= i < |s.chan| => TickChannel(s.chan[i], t, i in missed)))
  }

  function WriteCompare(c: Channel, timestamp: nat, ticks: nat): Channel {
    var cc := timestamp % WRAP;
    c.(cc := cc, enabled := true, sure := cc != ticks % WRAP && cc != (ticks + 1) % WRAP)
  }

  /* ---------- software ---------- */

  // at - t in 64 bits.
  function WrappingSub(at: nat, t: nat): nat {
    (at as int - t as int) % (OFF + 1)
  }

  function Rearm(c: Channel, t: nat, ticks: nat): Channel {
    if WrappingSub(c.at, t) < WINDOW then WriteCompare(c, c.at, ticks) else c
  }

  // The half-period count is a 32-bit cell.
  function NextCount(period: nat): nat {
    if period + 1 == 0x1_0000_0000 then 0 else period + 1
  }

  function NextPeriodOf(s: State): State {
    var t := NextCount(s.period) * HALF;
    s.(period := NextCount(s.period), handler := Idle,
       chan := seq(|s.chan|, i requires 0 <= i < |s.chan| => Rearm(s.chan[i], t, s.ticks)))
  }

  function TriggerOf(s: State, n: nat): State
    requires n < |s.chan|
  {
    s.(chan := s.chan[n := s.chan[n].(at := OFF, enabled := false)],
       fired := s.fired + [Firing(n, s.chan[n].at, s.ticks)])
  }

  function SafeTimestamp(at: nat, t: nat): nat {
    if at < t + 3 then t + 3 else at
  }

  // The counter may advance once between reading the time and writing the compare register.
  function SetAlarmOf(s: State, n: nat, at: nat, ticked: bool, missed: set<nat>): (s': State)
    requires n < |s.chan|
    ensures |s'.chan| == |s.chan|
  {
    SetAlarmAt(s, n, at, Now(s), ticked, missed)
  }

  function SetAlarmAt(s: State, n: nat, at: nat, t: nat, ticked: bool, missed: set<nat>): (s': State)
    requires n < |s.chan|
    ensures |s'.chan| == |s.chan|
  {
    var s1 := s.(chan := s.chan[n := s.chan[n].(at := at)]);
    ArmOf(if ticked then TickOf(s1, missed) else s1, n, at, t)
  }

  function ArmOf(s: State, n: nat, at: nat, t: nat): (s': State)
    requires n < |s.chan|
    ensures |s'.chan| == |s.chan|
  {
    if at <= t then TriggerOf(s, n)
    else if at - t < WINDOW then
      s.(chan := s.chan[n := WriteCompare(s.chan[n], SafeTimestamp(at, t), s.ticks)])
    else s.(chan := s.chan[n := s.chan[n].(enabled := false)])
  }

  function Apply(s: State, e: Event): (s': State)
    requires |s.chan| == CHANNELS && Possible(s, e)
    ensures |s'.chan| == CHANNELS
  {
    match e
    case Tick(missed) => TickOf(s, missed)
    case ClearOvf => s.(ovf := false, handler := PeriodDue)
    case ClearHalf => s.(half := false, handler := PeriodDue)
    case NextPeriod => NextPeriodOf(s)
    case ClearCompare(n) => s.(handler := AlarmDue(n), chan := s.chan[n := s.chan[n].(event := false)])
    case Trigger(n) => TriggerOf(s, n).(handler := Idle)
    case SetAlarm(n, at, ticked, missed) => SetAlarmOf(s, n, at, ticked, missed)
  }

  // What the code itself demands before each step.
  predicate Possible(s: State, e: Event)
    requires |s.chan| == CHANNELS
  {
    match e
    case Tick(missed) => true
    case ClearOvf => s.handler == Idle && s.ovf
    case ClearHalf => s.handler == Idle && s.half
    case NextPeriod => s.handler == PeriodDue
    case ClearCompare(n) => n < CHANNELS && s.handler == Idle && s.chan[n].event
    case Trigger(n) => n < CHANNELS && s.handler == AlarmDue(n)
    case SetAlarm(n, at, ticked, missed) => n < CHANNELS && at <= OFF
  }

  /* ---------- assumptions on the environment ---------- */

  predicate Matches(s: State, n: nat, ticks: nat)
    requires n < |s.chan|
  {
    s.chan[n].enabled && s.chan[n].cc == ticks % WRAP
  }

  // A period interrupt is served at most latency ticks into its period; a compare interrupt before
  // the counter comes round to the same value.
  predicate TickAllowed(latency: nat, s: State)
    requires |s.chan| == CHANNELS
  {
    && s.ticks + 1 < LIMIT
    && (Owed(s) ==> s.ticks % HALF < latency)
    && (forall n: nat {:trigger s.chan[n]} | n < CHANNELS :: Due(s, n) ==> !Matches(s, n, s.ticks + 1))
  }

  // No compare event of the channel is raised or being handled while set_alarm runs on it.
  predicate Quiet(s: State, n: nat, ticked: bool)
    requires n < |s.chan|
  {
    !Due(s, n) && !(ticked && Matches(s, n, s.ticks + 1))
  }

  predicate Allowed(latency: nat, s: State, e: Event)
    requires |s.chan| == CHANNELS
  {
    && Possible(s, e)
    && (e.Tick? ==> TickAllowed(latency, s))
    && (e.SetAlarm? && e.ticked ==> TickAllowed(latency, s))
  }

  predicate Enabled(latency: nat, s: State, e: Event)
    requires |s.chan| == CHANNELS
  {
    Allowed(latency, s, e) && (e.SetAlarm? ==> Quiet(s, e.n, e.ticked))
  }

  predicate Legal(latency: nat, s: State, es: List<Event>)
    requires |s.chan| == CHANNELS
    decreases es
  {
    es.Nil? || (Enabled(latency, s, es.head) && Legal(latency, Apply(s, es.head), es.tail))
  }

  function After(latency: nat, s: State, es: List<Event>): (s': State)
    requires |s.chan| == CHANNELS && Legal(latency, s, es)
    ensures |s'.chan| == CHANNELS
    decreases es
  {
    if es.Nil? then s else After(latency, Apply(s, es.head), es.tail)
  }

  // es is a legal run from s to t.
  predicate Leads(latency: nat, s: State, es: List<Event>, t: State)
    requires |s.chan| == CHANNELS
    decreases es
  {
    if es.Nil? then s == t
    else Enabled(latency, s, es.head) && Leads(latency, Apply(s, es.head), es.tail, t)
  }

  lemma LeadsNowhere(latency: nat, s: State)
    requires |s.chan| == CHANNELS
    ensures Leads(latency, s, Nil, s)
  {
  }

  lemma LeadsFirst(latency: nat, s: State, e: Event, rest: List<Event>, t: State)
    requires |s.chan| == CHANNELS && Enabled(latency, s, e) && Leads(latency, Apply(s, e), rest, t)
    ensures Leads(latency, s, Cons(e, rest), t)
  {
  }

  lemma LeadsOne(latency: nat, s: State, e: Event)
    requires |s.chan| == CHANNELS && Enabled(latency, s, e)
    ensures Leads(latency, s, Single(e), Apply(s, e))
  {
  }

  lemma {:induction false} LeadsOn(latency: nat, s: State, es: List<Event>, m: State, fs: List<Event>, t: State)
    requires |s.chan| == CHANNELS && |m.chan| == CHANNELS && Leads(latency, s, es, m) && Leads(latency, m, fs, t)
    ensures Leads(latency, s, Concat(es, fs), t)
    decreases es
  {
    if es.Cons? { LeadsOn(latency, Apply(s, es.head), es.tail, m, fs, t); }
  }

  lemma {:induction false} LeadsIsARun(latency: nat, s: State, es: List<Event>, t: State)
    requires |s.chan| == CHANNELS && Leads(latency, s, es, t)
    ensures Legal(latency, s, es) && After(latency, s, es) == t
    decreases es
  {
    if es.Cons? { LeadsIsARun(latency, Apply(s, es.head), es.tail, t); }
  }

  /* ---------- the invariant ---------- */

  // The first tick after now at which the counter shows cc.
  function NextMatch(ticks: nat, cc: nat): nat {
    ticks + 1 + (cc as int - (ticks + 1) as int) % WRAP
  }

  predicate ClockOk(latency: nat, s: State) {
    && s.ticks < LIMIT
    && !(s.ovf && s.half) && (s.handler == PeriodDue ==> !s.ovf && !s.half)
    && s.period + (if Owed(s) then 1 else 0) == s.ticks / HALF
    && (Owed(s) ==> s.ticks % HALF <= latency)
    && (s.handler.AlarmDue? ==> s.handler.n < CHANNELS)
  }

  predicate ChannelOk(s: State, n: nat)
    requires n < |s.chan|
  {
    var c := s.chan[n];
    && c.at <= OFF && c.cc < WRAP
    && (Due(s, n) ==> c.at <= s.ticks)
    && (c.event ==> s.handler != AlarmDue(n))
    && (c.enabled && !Due(s, n) ==> c.at <= NextMatch(s.ticks, c.cc))
    && (!c.enabled && c.at != OFF ==> c.at >= s.period * HALF + WINDOW)
  }

  predicate NoneEarly(fired: seq<Firing>) {
    forall i | 0 <= i < |fired| :: fired[i].at <= fired[i].ticks
  }

  predicate Inv(latency: nat, s: State) {
    && |s.chan| == CHANNELS
    && ClockOk(latency, s)
    && (forall n: nat {:trigger s.chan[n]} | n < CHANNELS :: ChannelOk(s, n))
    && NoneEarly(s.fired)
  }

  lemma NoneEarlyAdd(fired: seq<Firing>, f: Firing)
    requires NoneEarly(fired) && f.at <= f.ticks
    ensures NoneEarly(fired + [f])
  {
  }

  lemma InvInit(latency: nat)
    ensures Inv(latency, Init())
  {
    forall n: nat | n < CHANNELS ensures ChannelOk(Init(), n) {
      assert Init().chan[n] == Channel(OFF, 0, false, false, true);
    }
  }

  // now() is exact in every state of the invariant, also while a period interrupt is outstanding.
  lemma NowIsExact(latency: nat, s: State)
    requires Inv(latency, s)
    ensures Now(s) == s.ticks
    ensures CalcNow(0x80_0000, s.period, s.ticks % 0x100_0000) == s.ticks
  {
    ClockIsExactIff(HALF, s.period, s.ticks);
  }

  lemma HalfPeriodBoundary(ticks: nat)
    ensures ticks % WRAP == 0 || ticks % WRAP == HALF <==> ticks % HALF == 0
    ensures ticks > 0 && ticks % HALF == 0 ==> (ticks - 1) % HALF == HALF - 1 && ticks / HALF == (ticks - 1) / HALF + 1
    ensures ticks % HALF != 0 ==> (ticks - 1) % HALF == ticks % HALF - 1 && ticks / HALF == (ticks - 1) / HALF
  {
    CounterOf(HALF, ticks);
  }

  lemma TickKeepsClock(latency: nat, s: State, missed: set<nat>)
    requires latency < HALF && Inv(latency, s) && TickAllowed(latency, s)
    ensures ClockOk(latency, TickOf(s, missed))
  {
    HalfPeriodBoundary(s.ticks + 1);
  }

  lemma TickKeepsChannel(latency: nat, s: State, missed: set<nat>, n: nat)
    requires latency < HALF && Inv(latency, s) && TickAllowed(latency, s) && n < CHANNELS
    ensures ChannelOk(TickOf(s, missed), n)
  {
    var c, s' := s.chan[n], TickOf(s, missed);
    assert s'.chan[n] == TickChannel(c, s.ticks + 1, n in missed);
    NextMatchMoves(s.ticks, c.cc);
  }

  lemma NextMatchMoves(ticks: nat, cc: nat)
    requires cc < WRAP
    ensures NextMatch(ticks, cc) == ticks + 1 <==> cc == (ticks + 1) % WRAP
    ensures NextMatch(ticks, cc) != ticks + 1 ==> NextMatch(ticks + 1, cc) == NextMatch(ticks, cc)
  {
  }

  lemma NextMatchOf(ticks: nat, at: nat)
    ensures ticks < at <= ticks + WRAP ==> NextMatch(ticks, at % WRAP) == at
  {
  }

  lemma TickKeepsInv(latency: nat, s: State, missed: set<nat>)
    requires latency < HALF && Inv(latency, s) && TickAllowed(latency, s)
    ensures Inv(latency, TickOf(s, missed))
  {
    TickKeepsClock(latency, s, missed);
    forall n: nat | n < CHANNELS ensures ChannelOk(TickOf(s, missed), n) { TickKeepsChannel(latency, s, missed, n); }
  }

  lemma RearmIsInWindow(at: nat, t: nat)
    requires at <= OFF && t < LIMIT
    ensures WrappingSub(at, t) < WINDOW <==> t <= at < t + WINDOW
  {
  }

  // In the time considered the count does not wrap.
  lemma CountFits(latency: nat, s: State)
    requires ClockOk(latency, s) && s.handler == PeriodDue
    ensures NextCount(s.period) == s.period + 1
  {
  }

  lemma NextPeriodKeepsInv(latency: nat, s: State)
    requires latency < HALF && Inv(latency, s) && s.handler == PeriodDue
    ensures Inv(latency, NextPeriodOf(s))
  {
    CountFits(latency, s);
    var s', t := NextPeriodOf(s), (s.period + 1) * HALF;
    forall n: nat | n < CHANNELS ensures ChannelOk(s', n) {
      var c := s.chan[n];
      assert ChannelOk(s, n);
      assert s'.chan[n] == Rearm(c, t, s.ticks);
      RearmIsInWindow(c.at, t);
      NextMatchOf(s.ticks, c.at);
    }
  }

  lemma TriggerKeepsInv(latency: nat, s: State, n: nat)
    requires Inv(latency, s) && n < CHANNELS && s.handler == AlarmDue(n)
    ensures Inv(latency, TriggerOf(s, n).(handler := Idle))
  {
    assert ChannelOk(s, n);
    NoneEarlyAdd(s.fired, Firing(n, s.chan[n].at, s.ticks));
    forall m: nat | m < CHANNELS ensures ChannelOk(TriggerOf(s, n).(handler := Idle), m) { assert ChannelOk(s, m); }
  }

  lemma StepKeepsInv(latency: nat, s: State, e: Event)
    requires latency < HALF && Inv(latency, s) && Enabled(latency, s, e)
    ensures Inv(latency, Apply(s, e))
  {
    match e
    case Tick(missed) => TickKeepsInv(latency, s, missed);
    case ClearOvf => HandlerStep(latency, s, e);
    case ClearHalf => HandlerStep(latency, s, e);
    case NextPeriod => NextPeriodKeepsInv(latency, s);
    case ClearCompare(n) => HandlerStep(latency, s, e);
    case Trigger(n) => TriggerKeepsInv(latency, s, n);
    case SetAlarm(n, at, ticked, missed) => SetAlarmKeepsInv(latency, s, n, at, ticked, missed);
  }

  lemma HandlerStep(latency: nat, s: State, e: Event)
    requires Inv(latency, s) && Enabled(latency, s, e) && (e.ClearOvf? || e.ClearHalf? || e.ClearCompare?)
    ensures Inv(latency, Apply(s, e))
  {
    forall m: nat | m < CHANNELS ensures ChannelOk(Apply(s, e), m) { assert ChannelOk(s, m); }
  }

  // What set_alarm leaves once the tick it may overlap has happened; t is the time it read.
  function Programmed(s: State, n: nat, at: nat, t: nat): State
    requires n < |s.chan|
  {
    var c := s.chan[n].(at := at);
    if at <= t then s.(chan := s.chan[n := c.(at := OFF, enabled := false)], fired := s.fired + [Firing(n, at, s.ticks)])
    else s.(chan := s.chan[n :=
      if at - t < WINDOW then WriteCompare(c, SafeTimestamp(at, t), s.ticks) else c.(enabled := false)])
  }

  lemma TickAfterSet(s: State, n: nat, at: nat, missed: set<nat>)
    requires n < |s.chan|
    ensures TickOf(s.(chan := s.chan[n := s.chan[n].(at := at)]), missed)
         == TickOf(s, missed).(chan := TickOf(s, missed).chan[n := TickOf(s, missed).chan[n].(at := at)])
  {
    var s0 := s.(chan := s.chan[n := s.chan[n].(at := at)]);
    assert TickOf(s0, missed).chan == TickOf(s, missed).chan[n := TickOf(s, missed).chan[n].(at := at)];
  }

  lemma ArmIsProgrammed(s: State, n: nat, at: nat, t: nat)
    requires n < |s.chan|
    ensures ArmOf(s.(chan := s.chan[n := s.chan[n].(at := at)]), n, at, t) == Programmed(s, n, at, t)
  {
    var c, c' := s.chan[n].(at := at), ArmOf(s.(chan := s.chan[n := s.chan[n].(at := at)]), n, at, t).chan[n];
    assert s.chan[n := c][n := c'] == s.chan[n := c'];
  }

  lemma SetAlarmAtIs(s: State, n: nat, at: nat, t: nat, ticked: bool, missed: set<nat>)
    requires n < |s.chan|
    ensures SetAlarmAt(s, n, at, t, ticked, missed) == Programmed(if ticked then TickOf(s, missed) else s, n, at, t)
  {
    TickAfterSet(s, n, at, missed);
    ArmIsProgrammed(if ticked then TickOf(s, missed) else s, n, at, t);
  }

  // set_alarm against real time.
  lemma SetAlarmIs(latency: nat, s: State, n: nat, at: nat, ticked: bool, missed: set<nat>)
    requires Inv(latency, s) && n < CHANNELS
    ensures SetAlarmOf(s, n, at, ticked, missed) == Programmed(if ticked then TickOf(s, missed) else s, n, at, s.ticks)
  {
    NowIsExact(latency, s);
    SetAlarmAtIs(s, n, at, s.ticks, ticked, missed);
  }

  lemma QuietTick(s: State, n: nat, ticked: bool, missed: set<nat>)
    requires |s.chan| == CHANNELS && n < CHANNELS && Quiet(s, n, ticked)
    ensures !Due(if ticked then TickOf(s, missed) else s, n)
  {
    assert ticked ==> TickOf(s, missed).chan[n] == TickChannel(s.chan[n], s.ticks + 1, n in missed);
  }

  lemma SetAlarmKeepsInv(latency: nat, s: State, n: nat, at: nat, ticked: bool, missed: set<nat>)
    requires latency < HALF && Inv(latency, s) && Enabled(latency, s, SetAlarm(n, at, ticked, missed))
    ensures Inv(latency, SetAlarmOf(s, n, at, ticked, missed))
  {
    var s1 := if ticked then TickOf(s, missed) else s;
    if ticked { TickKeepsInv(latency, s, missed); }
    SetAlarmIs(latency, s, n, at, ticked, missed);
    QuietTick(s, n, ticked, missed);
    ProgrammedKeepsInv(latency, s1, n, at, s.ticks);
  }

  lemma ProgrammedKeepsInv(latency: nat, s: State, n: nat, at: nat, t: nat)
    requires latency < HALF && Inv(latency, s) && n < CHANNELS && at <= OFF && !Due(s, n)
    requires s.period * HALF <= t <= s.ticks <= t + 1
    ensures Inv(latency, Programmed(s, n, at, t))
  {
    var s' := Programmed(s, n, at, t);
    if at <= t { NoneEarlyAdd(s.fired, Firing(n, at, s.ticks)); }
    forall m: nat | m < CHANNELS ensures ChannelOk(s', m) {
      assert ChannelOk(s, m);
      if m == n && t < at && at - t < WINDOW {
        NextMatchOf(s.ticks, SafeTimestamp(at, t));
        assert s'.chan[n] == WriteCompare(s.chan[n].(at := at), SafeTimestamp(at, t), s.ticks);
      }
    }
  }

  lemma {:induction false} InvAlways(latency: nat, s: State, es: List<Event>)
    requires latency < HALF && Inv(latency, s) && Legal(latency, s, es)
    ensures Inv(latency, After(latency, s, es))
    decreases es
  {
    if es.Cons? {
      StepKeepsInv(latency, s, es.head);
      InvAlways(latency, Apply(s, es.head), es.tail);
    }
  }

  /* ---------- the clock across interrupts ---------- */

  lemma {:induction false} TicksMonotone(latency: nat, s: State, es: List<Event>)
    requires latency < HALF && Inv(latency, s) && Legal(latency, s, es)
    ensures s.ticks <= After(latency, s, es).ticks
    decreases es
  {
    if es.Cons? {
      StepKeepsInv(latency, s, es.head);
      TicksMonotone(latency, Apply(s, es.head), es.tail);
    }
  }

  // now() reads the period count in s and the counter after anything has happened, interrupts included: it is exact
  // iff the period read is at most one behind by then.
  lemma SplitReadIsExactly(latency: nat, s: State, es: List<Event>)
    requires latency < HALF && Inv(latency, s) && Legal(latency, s, es)
    ensures var s' := After(latency, s, es);
      CalcNow(HALF, s.period, Counter(s')) == s'.ticks <==> s'.ticks / HALF <= s.period + 1
  {
    var s' := After(latency, s, es);
    InvAlways(latency, s, es);
    TicksMonotone(latency, s, es);
    ClockIsExactIff(HALF, s.period, s'.ticks);
    PeriodsMonotone(s.ticks, s'.ticks);
  }

  lemma PeriodsMonotone(ticks: nat, ticks': nat)
    requires ticks <= ticks'
    ensures ticks / HALF <= ticks' / HALF
  {
  }

  // Two such readings one after the other, in whatever runs before, inside and between them.
  lemma SplitReadsAreMonotone(latency: nat, s: State, inside: List<Event>, between: List<Event>, inside': List<Event>)
    requires latency < HALF && Inv(latency, s) && Legal(latency, s, inside)
    requires Legal(latency, After(latency, s, inside), between)
    requires Legal(latency, After(latency, After(latency, s, inside), between), inside')
    ensures var s1 := After(latency, s, inside); var s2 := After(latency, s1, between); var s3 := After(latency, s2, inside');
      s1.ticks / HALF <= s.period + 1 && s3.ticks / HALF <= s2.period + 1 ==>
        CalcNow(HALF, s.period, Counter(s1)) <= CalcNow(HALF, s2.period, Counter(s3))
  {
    var s1 := After(latency, s, inside);
    InvAlways(latency, s, inside);
    var s2 := After(latency, s1, between);
    InvAlways(latency, s1, between);
    SplitReadIsExactly(latency, s, inside);
    SplitReadIsExactly(latency, s2, inside');
    TicksMonotone(latency, s1, between);
    TicksMonotone(latency, s2, inside');
  }

  /* ---------- never early ---------- */

  // Over every run: each firing happens at or after the timestamp it cancels. A cancelled channel holds
  // the timestamp OFF, so nothing fires twice or after being cleared.
  lemma AlarmsAreNeverEarly(latency: nat, es: List<Event>)
    requires latency < HALF && Legal(latency, Init(), es)
    ensures var s := After(latency, Init(), es);
      && NoneEarly(s.fired) && Now(s) == s.ticks
      && forall n: nat | n < CHANNELS && Due(s, n) :: s.chan[n].at <= s.ticks
  {
    InvInit(latency);
    InvAlways(latency, Init(), es);
    var s := After(latency, Init(), es);
    NowIsExact(latency, s);
    forall n: nat | n < CHANNELS && Due(s, n) ensures s.chan[n].at <= s.ticks { assert ChannelOk(s, n); }
  }

  /* ---------- no alarm disappears ---------- */

  // The firings of one channel.
  function FiredOn(fired: seq<Firing>, n: nat): seq<Firing> {
    if fired == [] then []
    else
      var before, f := FiredOn(fired[..|fired| - 1], n), fired[|fired| - 1];
      if f.n == n then before + [f] else before
  }

  lemma FiredOnAdd(fired: seq<Firing>, f: Firing, n: nat)
    ensures FiredOn(fired + [f], n) == if f.n == n then FiredOn(fired, n) + [f] else FiredOn(fired, n)
  {
    assert (fired + [f])[..|fired|] == fired;
  }

  // From s to t channel n has kept the timestamp at, or has fired it once, at time k, and holds none.
  predicate Kept(s: State, n: nat, at: nat, t: State)
    requires n < |t.chan|
  {
    t.chan[n].at == at && FiredOn(t.fired, n) == FiredOn(s.fired, n)
  }

  predicate FiredAt(s: State, n: nat, at: nat, k: nat, t: State)
    requires n < |t.chan|
  {
    t.chan[n].at == OFF && FiredOn(t.fired, n) == FiredOn(s.fired, n) + [Firing(n, at, k)]
  }

  lemma TriggerFires(s: State, m: nat, n: nat)
    requires m < |s.chan| && n < |s.chan|
    ensures if m == n then FiredAt(s, n, s.chan[n].at, s.ticks, TriggerOf(s, m)) else Kept(s, n, s.chan[n].at, TriggerOf(s, m))
  {
    FiredOnAdd(s.fired, Firing(m, s.chan[m].at, s.ticks), n);
  }

  // Against the time that set_alarm reads.
  lemma SetAlarmTakes(s: State, n: nat, at: nat, ticked: bool, missed: set<nat>)
    requires n < |s.chan|
    ensures var s' := SetAlarmOf(s, n, at, ticked, missed);
      && (at <= Now(s) ==> s'.fired == s.fired + [Firing(n, at, s'.ticks)] && s'.chan[n].at == OFF)
      && (at > Now(s) ==> s'.fired == s.fired && s'.chan[n].at == at)
      && forall m: nat {:trigger s'.chan[m]} | m < |s.chan| && m != n :: s'.chan[m].at == s.chan[m].at
  {
    SetAlarmAtIs(s, n, at, Now(s), ticked, missed);
  }

  // A timestamp that has come fires at once, before set_alarm returns; any other is what the channel waits for.
  lemma SetAlarmIsTaken(latency: nat, s: State, n: nat, at: nat, ticked: bool, missed: set<nat>)
    requires Inv(latency, s) && n < CHANNELS
    ensures var s' := SetAlarmOf(s, n, at, ticked, missed);
      && (at <= s.ticks ==> s'.fired == s.fired + [Firing(n, at, s'.ticks)] && s'.chan[n].at == OFF && !s'.chan[n].enabled)
      && (at > s.ticks ==> s'.fired == s.fired && s'.chan[n].at == at)
      && s.ticks <= s'.ticks && forall m: nat {:trigger s'.chan[m]} | m < CHANNELS && m != n :: s'.chan[m].at == s.chan[m].at
  {
    SetAlarmIs(latency, s, n, at, ticked, missed);
  }

  // Only the trigger of its own channel takes a timestamp away, and it fires it.
  lemma StepKeepsAlarm(latency: nat, s: State, e: Event, n: nat)
    requires Inv(latency, s) && Enabled(latency, s, e) && n < CHANNELS && !(e.SetAlarm? && e.n == n)
    ensures var s' := Apply(s, e);
      s.ticks <= s'.ticks && if e == Trigger(n) then FiredAt(s, n, s.chan[n].at, s.ticks, s') else Kept(s, n, s.chan[n].at, s')
  {
    match e
    case Trigger(m) => TriggerFires(s, m, n);
    case SetAlarm(m, at, ticked, missed) =>
      SetAlarmIsTaken(latency, s, m, at, ticked, missed);
      if at <= s.ticks { FiredOnAdd(s.fired, Firing(m, at, SetAlarmOf(s, m, at, ticked, missed).ticks), n); }
    case NextPeriod => assert NextPeriodOf(s).chan[n] == Rearm(s.chan[n], NextCount(s.period) * HALF, s.ticks);
    case _ =>
  }

  // No call of set_alarm on channel n.
  predicate LeavesAlone(es: List<Event>, n: nat) {
    es.Cons? ==> !(es.head.SetAlarm? && es.head.n == n) && LeavesAlone(es.tail, n)
  }

  // Until it is set again a channel keeps its timestamp until it fires it, once, and not before its time.
  lemma {:induction false} AlarmFiresOnce(latency: nat, s: State, n: nat, es: List<Event>) returns (k: nat)
    requires latency < HALF && Inv(latency, s) && n < CHANNELS && Legal(latency, s, es) && LeavesAlone(es, n)
    ensures var t, at := After(latency, s, es), s.chan[n].at;
      Kept(s, n, at, t) || (at != OFF && at <= k && s.ticks <= k <= t.ticks && FiredAt(s, n, at, k, t))
    decreases es
  {
    k := s.ticks;
    if es.Cons? {
      var s1 := Apply(s, es.head);
      StepKeepsInv(latency, s, es.head);
      StepKeepsAlarm(latency, s, es.head, n);
      assert ChannelOk(s, n);
      TicksMonotone(latency, s1, es.tail);
      var later := AlarmFiresOnce(latency, s1, n, es.tail);
      if es.head != Trigger(n) { k := later; }
    }
  }

  // Over every run: an alarm set on a channel is pending until it fires, or has fired exactly once, at its time or
  // later, whether the timestamp was still ahead or had come already, until the channel is set again.
  lemma AlarmIsPendingOrFired(latency: nat, s: State, n: nat, at: nat, ticked: bool, missed: set<nat>, es: List<Event>) returns (k: nat)
    requires latency < HALF && Inv(latency, s) && Legal(latency, s, Cons(SetAlarm(n, at, ticked, missed), es)) && LeavesAlone(es, n)
    ensures n < CHANNELS
    ensures var t := After(latency, s, Cons(SetAlarm(n, at, ticked, missed), es));
      Kept(s, n, at, t) || (at <= k && s.ticks <= k <= t.ticks && FiredAt(s, n, at, k, t))
    ensures at <= s.ticks ==> FiredAt(s, n, at, k, After(latency, s, Cons(SetAlarm(n, at, ticked, missed), es)))
  {
    var s1 := SetAlarmOf(s, n, at, ticked, missed);
    StepKeepsInv(latency, s, SetAlarm(n, at, ticked, missed));
    SetAlarmIsTaken(latency, s, n, at, ticked, missed);
    TicksMonotone(latency, s1, es);
    k := AlarmFiresOnce(latency, s1, n, es);
    if at <= s.ticks {
      k := s1.ticks;
      FiredOnAdd(s.fired, Firing(n, at, k), n);
    }
  }

  ghost predicate NeverFiresEarly(latency: nat, s: State) {
    |s.chan| == CHANNELS && forall es | Legal(latency, s, es) :: NoneEarly(After(latency, s, es).fired)
  }

  // The assumption on set_alarm is exact: it is safe in every continuation iff no compare event of the
  // channel is outstanding.
  lemma QuietIsExact(latency: nat, s: State, n: nat, at: nat, ticked: bool)
    requires latency < HALF && Inv(latency, s) && Allowed(latency, s, SetAlarm(n, at, ticked, {}))
    requires at > s.ticks + if ticked then 1 else 0
    ensures Quiet(s, n, ticked)
       <==> forall missed :: NeverFiresEarly(latency, SetAlarmOf(s, n, at, ticked, missed))
  {
    if Quiet(s, n, ticked) {
      forall missed ensures NeverFiresEarly(latency, SetAlarmOf(s, n, at, ticked, missed)) {
        QuietIsSafe(latency, s, n, at, ticked, missed);
      }
    } else {
      NotQuietFires(latency, s, n, at, ticked);
    }
  }

  lemma NotQuietFires(latency: nat, s: State, n: nat, at: nat, ticked: bool)
    requires latency < HALF && Inv(latency, s) && Allowed(latency, s, SetAlarm(n, at, ticked, {}))
    requires at > s.ticks + if ticked then 1 else 0
    requires !Quiet(s, n, ticked)
    ensures !NeverFiresEarly(latency, SetAlarmOf(s, n, at, ticked, {}))
  {
    SetAlarmIs(latency, s, n, at, ticked, {});
    OutstandingAtWrite(s, n, ticked);
    ProgrammedFires(latency, if ticked then TickOf(s, {}) else s, n, at, s.ticks);
  }

  lemma OutstandingAtWrite(s: State, n: nat, ticked: bool)
    requires |s.chan| == CHANNELS && n < CHANNELS && !Quiet(s, n, ticked)
    ensures Due(if ticked then TickOf(s, {}) else s, n)
  {
    assert ticked ==> TickOf(s, {}).chan[n] == TickChannel(s.chan[n], s.ticks + 1, false);
  }

  lemma ProgrammedFires(latency: nat, s: State, n: nat, at: nat, t: nat)
    requires |s.chan| == CHANNELS && n < CHANNELS && Due(s, n) && t <= s.ticks < at
    requires s.handler.AlarmDue? ==> s.handler.n < CHANNELS
    ensures !NeverFiresEarly(latency, Programmed(s, n, at, t))
  {
    var es := EarlyFiring(latency, Programmed(s, n, at, t), n);
  }

  lemma QuietIsSafe(latency: nat, s: State, n: nat, at: nat, ticked: bool, missed: set<nat>)
    requires latency < HALF && Inv(latency, s) && Enabled(latency, s, SetAlarm(n, at, ticked, missed))
    ensures NeverFiresEarly(latency, SetAlarmOf(s, n, at, ticked, missed))
  {
    var s' := SetAlarmOf(s, n, at, ticked, missed);
    SetAlarmKeepsInv(latency, s, n, at, ticked, missed);
    forall es | Legal(latency, s', es) ensures NoneEarly(After(latency, s', es).fired) {
      InvAlways(latency, s', es);
    }
  }

  // An outstanding event of a channel that has been set again fires at once.
  lemma EarlyFiring(latency: nat, s: State, n: nat) returns (es: List<Event>)
    requires |s.chan| == CHANNELS && n < CHANNELS && Due(s, n) && s.ticks < s.chan[n].at
    requires s.handler.AlarmDue? ==> s.handler.n < CHANNELS
    ensures Legal(latency, s, es) && !NoneEarly(After(latency, s, es).fired)
    decreases if s.handler == Idle then 0 else 1
  {
    if s.handler == AlarmDue(n) {
      es := Single(Trigger(n));
      LastIsEarly(s.fired, Firing(n, s.chan[n].at, s.ticks));
    } else if s.handler == Idle {
      es := Cons(ClearCompare(n), Single(Trigger(n)));
      var s1 := Apply(s, es.head);
      assert After(latency, s1, es.tail) == Apply(s1, Trigger(n));
      LastIsEarly(s.fired, Firing(n, s.chan[n].at, s.ticks));
    } else {
      var e := if s.handler == PeriodDue then NextPeriod else Trigger(s.handler.n);
      var s1 := Apply(s, e);
      if e == NextPeriod { assert s1.chan[n] == Rearm(s.chan[n], NextCount(s.period) * HALF, s.ticks); }
      var rest := EarlyFiring(latency, s1, n);
      es := Cons(e, rest);
    }
  }

  lemma LastIsEarly(fired: seq<Firing>, f: Firing)
    requires f.ticks < f.at
    ensures !NoneEarly(fired + [f])
  {
    assert (fired + [f])[|fired|] == f;
  }

  /* ---------- the hand-over of far alarms ---------- */

  // next_period arms a waiting far alarm at the first boundary t with at - t below the window, and then
  // at least half a half-period remains; until then the alarm is still ahead.
  lemma FarAlarmIsHandedOver(latency: nat, s: State, n: nat)
    requires latency < HALF && Inv(latency, s) && s.handler == PeriodDue && n < CHANNELS
    requires s.chan[n].at != OFF && !s.chan[n].enabled
    ensures var s', t, at := NextPeriodOf(s), (s.period + 1) * HALF, s.chan[n].at;
      && s'.chan[n].at == at && t <= s.ticks
      && (s'.chan[n].enabled <==> at - t < 0xC0_0000)
      && at - t >= 0x40_0000
      && (s'.chan[n].enabled && latency < 0x40_0000 ==> NextMatch(s.ticks, s'.chan[n].cc) == at)
  {
    assert ChannelOk(s, n);
    CountFits(latency, s);
    var c, t := s.chan[n], (s.period + 1) * HALF;
    assert NextPeriodOf(s).chan[n] == Rearm(c, t, s.ticks);
    RearmIsInWindow(c.at, t);
    NextMatchOf(s.ticks, c.at);
  }

  lemma WriteIsSure(c: Channel, target: nat, ticks: nat)
    requires ticks + 2 <= target < ticks + WRAP
    ensures WriteCompare(c, target, ticks).sure
    ensures NextMatch(ticks, target % WRAP) == target
  {
    NextMatchOf(ticks, target);
  }

  // Close alarms are programmed between their timestamp and two ticks later, at least two ticks ahead of the
  // counter when the register is written.
  lemma NearAlarmIsProgrammed(latency: nat, s: State, n: nat, at: nat, ticked: bool, missed: set<nat>)
    requires latency < HALF && Inv(latency, s) && Enabled(latency, s, SetAlarm(n, at, ticked, missed))
    requires s.ticks < at < s.ticks + 0xC0_0000
    ensures var s' := SetAlarmOf(s, n, at, ticked, missed); var c := s'.chan[n]; var m := NextMatch(s'.ticks, c.cc);
      c.enabled && c.sure && c.at == at <= m <= at + 2 && m >= s.ticks + 3 && m >= s'.ticks + 2
  {
    SetAlarmIs(latency, s, n, at, ticked, missed);
    var s1 := if ticked then TickOf(s, missed) else s;
    QuietTick(s, n, ticked, missed);
    WriteIsSure(s1.chan[n].(at := at), SafeTimestamp(at, s.ticks), s1.ticks);
  }
}
