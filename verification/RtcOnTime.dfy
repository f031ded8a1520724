/** When an nRF alarm is on time, and exactly which timestamps can be missed. */
module RtcOnTime {
  import opened Basics
  import opened RtcAlarms
  import opened RtcClock

  // Half the window's slack: a handed-over alarm is still ahead of the counter.
  const MAX_LATENCY: nat := 0x40_0000 - 2

  // next_period rewrites a compare register without set_alarm's three-tick guard, so a timestamp must not
  // fall among the ticks at which the handler may still be rewriting it. The first half-period has no handler run.
  predicate KeepsTime(latency: nat, at: nat) {
    at < HALF || at % HALF >= latency + 2
  }

  predicate ChannelOnTime(latency: nat, s: State, n: nat)
    requires n < |s.chan|
  {
    var c := s.chan[n];
    Waiting(s, n) && KeepsTime(latency, c.at) && c.enabled ==>
      NextMatch(s.ticks, c.cc) <= c.at + 2 && (c.sure || NextMatch(s.ticks, c.cc) != s.ticks + 1)
  }

  predicate OnTime(latency: nat, s: State) {
    && Inv(latency, s)
    && forall n: nat {:trigger s.chan[n]} | n < CHANNELS :: ChannelOnTime(latency, s, n)
  }

  lemma OnTimeInit(latency: nat)
    ensures OnTime(latency, Init())
  {
    InvInit(latency);
    forall n: nat | n < CHANNELS ensures ChannelOnTime(latency, Init(), n) {
      assert Init().chan[n] == Channel(OFF, 0, false, false, true);
    }
  }

  lemma TickKeepsOnTime(latency: nat, s: State, missed: set<nat>)
    requires latency <= MAX_LATENCY && OnTime(latency, s) && TickAllowed(latency, s)
    ensures OnTime(latency, TickOf(s, missed))
  {
    TickKeepsInv(latency, s, missed);
    forall n: nat | n < CHANNELS ensures ChannelOnTime(latency, TickOf(s, missed), n) {
      var c := s.chan[n];
      assert ChannelOnTime(latency, s, n) && ChannelOk(s, n);
      assert TickOf(s, missed).chan[n] == TickChannel(c, s.ticks + 1, n in missed);
      NextMatchMoves(s.ticks, c.cc);
    }
  }

  lemma PeriodKeepsOnTime(latency: nat, s: State)
    requires latency <= MAX_LATENCY && OnTime(latency, s) && s.handler == PeriodDue
    ensures OnTime(latency, NextPeriodOf(s))
  {
    NextPeriodKeepsInv(latency, s);
    CountFits(latency, s);
    var t := (s.period + 1) * HALF;
    forall n: nat | n < CHANNELS ensures ChannelOnTime(latency, NextPeriodOf(s), n) {
      var c := s.chan[n];
      assert ChannelOnTime(latency, s, n) && ChannelOk(s, n);
      assert NextPeriodOf(s).chan[n] == Rearm(c, t, s.ticks);
      RearmIsInWindow(c.at, t);
      if t <= c.at < t + WINDOW && KeepsTime(latency, c.at) {
        AheadOfHandler(latency, s.ticks, t, c.at);
        WriteIsSure(c, c.at, s.ticks);
      }
    }
  }

  // While the handler of boundary t may run, a timestamp that keeps time is two ticks away.
  lemma AheadOfHandler(latency: nat, ticks: nat, t: nat, at: nat)
    requires latency <= MAX_LATENCY && t == ticks / HALF * HALF && ticks % HALF <= latency
    requires HALF <= t <= at < t + WINDOW && KeepsTime(latency, at)
    ensures ticks + 2 <= at
  {
  }

  lemma SetAlarmKeepsOnTime(latency: nat, s: State, n: nat, at: nat, ticked: bool, missed: set<nat>)
    requires latency <= MAX_LATENCY && OnTime(latency, s) && Enabled(latency, s, SetAlarm(n, at, ticked, missed))
    ensures OnTime(latency, SetAlarmOf(s, n, at, ticked, missed))
  {
    var s1, s' := if ticked then TickOf(s, missed) else s, SetAlarmOf(s, n, at, ticked, missed);
    SetAlarmKeepsInv(latency, s, n, at, ticked, missed);
    if ticked { TickKeepsOnTime(latency, s, missed); }
    SetAlarmIs(latency, s, n, at, ticked, missed);
    if s.ticks < at < s.ticks + WINDOW { NearAlarmIsProgrammed(latency, s, n, at, ticked, missed); }
    forall m: nat | m < CHANNELS ensures ChannelOnTime(latency, s', m) {
      assert ChannelOnTime(latency, s1, m);
      assert m != n ==> s'.chan[m] == s1.chan[m];
    }
  }

  lemma StepKeepsOnTime(latency: nat, s: State, e: Event)
    requires latency <= MAX_LATENCY && OnTime(latency, s) && Enabled(latency, s, e)
    ensures OnTime(latency, Apply(s, e))
  {
    match e
    case Tick(missed) => TickKeepsOnTime(latency, s, missed);
    case NextPeriod => PeriodKeepsOnTime(latency, s);
    case SetAlarm(n, at, ticked, missed) => SetAlarmKeepsOnTime(latency, s, n, at, ticked, missed);
    case _ =>
      StepKeepsInv(latency, s, e);
      forall m: nat | m < CHANNELS ensures ChannelOnTime(latency, Apply(s, e), m) {
        assert ChannelOnTime(latency, s, m);
      }
  }

  lemma {:induction false} OnTimeAlways(latency: nat, s: State, es: List<Event>)
    requires latency <= MAX_LATENCY && OnTime(latency, s) && Legal(latency, s, es)
    ensures OnTime(latency, After(latency, s, es))
    decreases es
  {
    if es.Cons? {
      StepKeepsOnTime(latency, s, es.head);
      OnTimeAlways(latency, Apply(s, es.head), es.tail);
    }
  }

  // No alarm waits past two ticks after its timestamp: by then its compare event has been raised.
  lemma PendingIsNotLate(latency: nat, s: State, n: nat)
    requires latency <= MAX_LATENCY && OnTime(latency, s) && n < CHANNELS
    requires Waiting(s, n) && KeepsTime(latency, s.chan[n].at)
    ensures s.ticks < s.chan[n].at + 2
  {
    assert ChannelOk(s, n) && ChannelOnTime(latency, s, n);
  }

  predicate LateAt(s: State, n: nat, at: nat)
    requires n < |s.chan|
  {
    s.chan[n].at == at && s.ticks >= at + 2 && !Due(s, n)
  }

  ghost predicate AlwaysOnTime(latency: nat, n: nat, at: nat)
    requires n < CHANNELS
  {
    forall es | Legal(latency, Init(), es) :: !LateAt(After(latency, Init(), es), n, at)
  }

  // Every alarm of this timestamp is on time over every run iff the timestamp keeps clear of the handler.
  lemma OnTimeExactly(latency: nat, n: nat, at: nat)
    requires latency <= MAX_LATENCY && n < CHANNELS && at + 2 < LIMIT
    ensures KeepsTime(latency, at) <==> AlwaysOnTime(latency, n, at)
  {
    if KeepsTime(latency, at) {
      forall es | Legal(latency, Init(), es) ensures !LateAt(After(latency, Init(), es), n, at) {
        NeverLate(latency, n, at, es);
      }
    } else {
      var es := LateRun(latency, n, at);
    }
  }

  lemma NeverLate(latency: nat, n: nat, at: nat, es: List<Event>)
    requires latency <= MAX_LATENCY && n < CHANNELS && at < LIMIT && KeepsTime(latency, at) && Legal(latency, Init(), es)
    ensures !LateAt(After(latency, Init(), es), n, at)
  {
    OnTimeInit(latency);
    OnTimeAlways(latency, Init(), es);
    var s := After(latency, Init(), es);
    if LateAt(s, n, at) { PendingIsNotLate(latency, s, n); }
  }

  // So an alarm that keeps time has fired, exactly once and at its time or later, two ticks past its timestamp, unless
  // its compare event is still to be served or the channel was set again.
  lemma AlarmFiresInTime(latency: nat, s: State, n: nat, at: nat, ticked: bool, missed: set<nat>, es: List<Event>) returns (k: nat)
    requires latency <= MAX_LATENCY && OnTime(latency, s) && KeepsTime(latency, at)
    requires Legal(latency, s, Cons(SetAlarm(n, at, ticked, missed), es)) && LeavesAlone(es, n)
    ensures n < CHANNELS
    ensures var t := After(latency, s, Cons(SetAlarm(n, at, ticked, missed), es));
      t.ticks >= at + 2 && !Due(t, n) ==> at <= k <= t.ticks && FiredAt(s, n, at, k, t)
  {
    var e := SetAlarm(n, at, ticked, missed);
    var t := After(latency, s, Cons(e, es));
    k := AlarmIsPendingOrFired(latency, s, n, at, ticked, missed, es);
    OnTimeAlways(latency, s, Cons(e, es));
    if t.ticks >= at + 2 && !Due(t, n) && t.chan[n].at == at { PendingIsNotLate(latency, t, n); }
  }

  /* ---------- a run that misses any other timestamp ---------- */

  function Idler(): Channel {
    Channel(OFF, 0, false, false, true)
  }

  // A state with all channels idle but one.
  function Alone(ticks: nat, period: nat, ovf: bool, half: bool, n: nat, c: Channel): State
    requires n < CHANNELS
  {
    State(ticks, period, ovf, half, Idle, seq(CHANNELS, i => Idler())[n := c], [])
  }

  lemma AloneChannels(s: State, n: nat, c: Channel, ticks: nat, missed: set<nat>)
    requires n < CHANNELS && s.chan == seq(CHANNELS, i => Idler())[n := c]
    ensures TickOf(s.(ticks := ticks), missed).chan == seq(CHANNELS, i => Idler())[n := TickChannel(c, ticks + 1, n in missed)]
  {
  }

  // One tick that is not a boundary, of which a match that the hardware may drop is dropped.
  lemma AloneTicks(latency: nat, ticks: nat, period: nat, ovf: bool, half: bool, n: nat, c: Channel, missed: set<nat>)
    requires n < CHANNELS && ticks + 1 < LIMIT && !c.event && (ticks + 1) % HALF != 0
    requires ovf || half ==> ticks % HALF < latency
    requires c.enabled && c.cc == (ticks + 1) % WRAP ==> !c.sure && n in missed
    ensures var s := Alone(ticks, period, ovf, half, n, c);
      && Enabled(latency, s, Tick(missed))
      && Apply(s, Tick(missed)) == Alone(ticks + 1, period, ovf, half, n, c.(sure := true))
  {
    var s := Alone(ticks, period, ovf, half, n, c);
    HalfPeriodBoundary(ticks + 1);
    AloneChannels(s, n, c, ticks, missed);
    assert forall i: nat | i < CHANNELS :: !Due(s, i);
  }

  // The tick to boundary b raises the one event or the other.
  lemma AloneCrosses(latency: nat, b: nat, period: nat, n: nat, c: Channel)
    requires n < CHANNELS && 0 < b < LIMIT && !c.event && b % HALF == 0 && (c.enabled ==> c.cc != b % WRAP)
    ensures var s := Alone(b - 1, period, false, false, n, c);
      && Enabled(latency, s, Tick({}))
      && Apply(s, Tick({})) == Alone(b, period, b % WRAP == 0, b % WRAP == HALF, n, c.(sure := true))
      && (b % WRAP == 0 || b % WRAP == HALF)
  {
    var s := Alone(b - 1, period, false, false, n, c);
    HalfPeriodBoundary(b);
    AloneChannels(s, n, c, b - 1, {});
    assert forall i: nat | i < CHANNELS :: !Due(s, i);
  }

  // The period interrupt of the boundary t.
  lemma AloneServes(latency: nat, ticks: nat, period: nat, ovf: bool, half: bool, n: nat, c: Channel, c': Channel)
    returns (es: List<Event>)
    requires n < CHANNELS && ovf != half && (period + 1) * HALF < LIMIT
    requires c' == Rearm(c, (period + 1) * HALF, ticks)
    ensures Leads(latency, Alone(ticks, period, ovf, half, n, c), es, Alone(ticks, period + 1, false, false, n, c'))
  {
    var s := Alone(ticks, period, ovf, half, n, c);
    var e := if ovf then ClearOvf else ClearHalf;
    AloneRearms(ticks, period, n, c, c');
    LeadsOne(latency, Apply(s, e), NextPeriod);
    LeadsFirst(latency, s, e, Single(NextPeriod), Alone(ticks, period + 1, false, false, n, c'));
    es := Cons(e, Single(NextPeriod));
  }

  lemma AloneRearms(ticks: nat, period: nat, n: nat, c: Channel, c': Channel)
    requires n < CHANNELS && (period + 1) * HALF < LIMIT && c' == Rearm(c, (period + 1) * HALF, ticks)
    ensures NextPeriodOf(Alone(ticks, period, false, false, n, c).(handler := PeriodDue))
         == Alone(ticks, period + 1, false, false, n, c')
  {
    RearmIsInWindow(OFF, (period + 1) * HALF);
    assert NextCount(period) == period + 1;
    var s := Alone(ticks, period, false, false, n, c).(handler := PeriodDue);
    assert NextPeriodOf(s).chan == Alone(ticks, period + 1, false, false, n, c').chan;
  }

  lemma MatchIsFurther(ticks: nat, cc: nat, k: nat)
    requires cc < WRAP && 0 < k && NextMatch(ticks, cc) > ticks + k
    ensures cc != (ticks + 1) % WRAP && NextMatch(ticks + 1, cc) > ticks + k
  {
    NextMatchMoves(ticks, cc);
  }

  lemma BoundaryIsFurther(ticks: nat, k: nat)
    requires 0 < k && ticks % HALF + k < HALF
    ensures (ticks + 1) % HALF == ticks % HALF + 1
  {
  }

  // Ticks that raise nothing: no boundary, no match.
  lemma {:induction false} AloneWaits(latency: nat, ticks: nat, period: nat, ovf: bool, half: bool, n: nat, c: Channel, k: nat)
    returns (es: List<Event>)
    requires n < CHANNELS && ticks + k < LIMIT && c.cc < WRAP && !c.event && c.sure && NextMatch(ticks, c.cc) > ticks + k
    requires ticks % HALF + k < HALF && (ovf || half ==> ticks % HALF + k <= latency)
    ensures Leads(latency, Alone(ticks, period, ovf, half, n, c), es, Alone(ticks + k, period, ovf, half, n, c))
    decreases k
  {
    hide Leads;
    if k == 0 {
      LeadsNowhere(latency, Alone(ticks, period, ovf, half, n, c));
      es := Nil;
    } else {
      MatchIsFurther(ticks, c.cc, k);
      BoundaryIsFurther(ticks, k);
      AloneTicks(latency, ticks, period, ovf, half, n, c, {});
      es := AloneWaits(latency, ticks + 1, period, ovf, half, n, c, k - 1);
      LeadsFirst(latency, Alone(ticks, period, ovf, half, n, c), Tick({}), es, Alone(ticks + k, period, ovf, half, n, c));
      es := Cons(Tick({}), es);
    }
  }

  lemma {:induction false} IdleUntil(latency: nat, ticks: nat, n: nat) returns (es: List<Event>)
    requires n < CHANNELS && ticks < LIMIT
    ensures Leads(latency, Init(), es, Alone(ticks, ticks / HALF, false, false, n, Idler()))
    decreases ticks
  {
    hide Leads;
    if ticks == 0 {
      es := IdleFirst(latency, n);
    } else {
      es := IdleUntil(latency, ticks - 1, n);
      var period, period' := (ticks - 1) / HALF, ticks / HALF;
      var more := IdleOn(latency, ticks, period, period', n);
      LeadsOn(latency, Init(), es, Alone(ticks - 1, period, false, false, n, Idler()), more,
              Alone(ticks, period', false, false, n, Idler()));
      es := Concat(es, more);
    }
  }

  lemma IdleFirst(latency: nat, n: nat) returns (es: List<Event>)
    requires n < CHANNELS
    ensures Leads(latency, Init(), es, Alone(0, 0, false, false, n, Idler()))
  {
    es := Nil;
    assert Init().chan == Alone(0, 0, false, false, n, Idler()).chan;
  }

  // One idle tick, with the period interrupt if it is a boundary.
  lemma IdleOn(latency: nat, ticks: nat, period: nat, period': nat, n: nat) returns (es: List<Event>)
    requires n < CHANNELS && 0 < ticks < LIMIT && period == (ticks - 1) / HALF && period' == ticks / HALF
    ensures Leads(latency, Alone(ticks - 1, period, false, false, n, Idler()), es, Alone(ticks, period', false, false, n, Idler()))
  {
    hide Leads;
    var s := Alone(ticks - 1, period, false, false, n, Idler());
    HalfPeriodBoundary(ticks);
    if ticks % HALF == 0 {
      AloneCrosses(latency, ticks, period, n, Idler());
      RearmIsInWindow(OFF, period' * HALF);
      es := AloneServes(latency, ticks, period, ticks % WRAP == 0, ticks % WRAP == HALF, n, Idler(), Idler());
      LeadsFirst(latency, s, Tick({}), es, Alone(ticks, period', false, false, n, Idler()));
      es := Cons(Tick({}), es);
    } else {
      AloneTicks(latency, ticks - 1, period, false, false, n, Idler(), {});
      LeadsOne(latency, s, Tick({}));
      es := Single(Tick({}));
    }
  }

  // The alarm just set, its compare register holding target.
  function Armed(at: nat, target: nat): Channel {
    Channel(at, target % WRAP, true, false, true)
  }

  // set_alarm one tick before boundary b.
  lemma AloneSets(latency: nat, b: nat, period: nat, n: nat, at: nat)
    requires latency < HALF && n < CHANNELS && HALF <= b <= at < b + HALF && b < LIMIT
    requires Inv(latency, Alone(b - 1, period, false, false, n, Idler()))
    ensures var s, e := Alone(b - 1, period, false, false, n, Idler()), SetAlarm(n, at, false, {});
      && Enabled(latency, s, e)
      && Apply(s, e) == Alone(b - 1, period, false, false, n, Armed(at, SafeTimestamp(at, b - 1)))
  {
    var s := Alone(b - 1, period, false, false, n, Idler());
    var c := Armed(at, SafeTimestamp(at, b - 1));
    SetAlarmIs(latency, s, n, at, false, {});
    WriteIsSure(Idler().(at := at), SafeTimestamp(at, b - 1), b - 1);
    assert s.chan[n := c] == Alone(b - 1, period, false, false, n, c).chan;
  }

  // Where a timestamp that does not keep time lies: k ticks after the boundary that ends a half-period, or one more.
  lemma TooClose(latency: nat, at: nat) returns (period: nat, k: nat)
    requires latency <= MAX_LATENCY && !KeepsTime(latency, at)
    ensures k <= latency && (period + 1) * HALF + k <= at <= (period + 1) * HALF + k + 1
    ensures at == (period + 1) * HALF + k ==> k == 0
  {
    period := at / HALF - 1;
    k := if at % HALF == 0 then 0 else at % HALF - 1;
  }

  // The flags that boundary b raises.
  function Overflows(b: nat): bool { b % WRAP == 0 }

  function Halves(b: nat): bool { b % WRAP == HALF }

  // Set one tick before the boundary that ends a half-period.
  lemma SetBeforeBoundary(latency: nat, n: nat, at: nat, period: nat, b: nat, c: Channel) returns (es: List<Event>)
    requires latency < HALF && n < CHANNELS && b == (period + 1) * HALF && b <= at < b + HALF && at < LIMIT
    requires c == Armed(at, SafeTimestamp(at, b - 1))
    ensures Leads(latency, Init(), es, Alone(b, period, Overflows(b), Halves(b), n, c))
  {
    hide Leads;
    var s, s1 := Alone(b - 1, period, false, false, n, Idler()), Alone(b - 1, period, false, false, n, c);
    BeforeBoundary(period, b);
    es := IdleUntil(latency, b - 1, n);
    LeadsIsARun(latency, Init(), es, s);
    InvInit(latency);
    InvAlways(latency, Init(), es);
    AloneSets(latency, b, period, n, at);
    SafeIsNotBoundary(at, b);
    AloneCrosses(latency, b, period, n, c);
    LeadsOne(latency, s1, Tick({}));
    LeadsFirst(latency, s, SetAlarm(n, at, false, {}), Single(Tick({})), Alone(b, period, Overflows(b), Halves(b), n, c));
    LeadsOn(latency, Init(), es, s, Cons(SetAlarm(n, at, false, {}), Single(Tick({}))),
            Alone(b, period, Overflows(b), Halves(b), n, c));
    es := Concat(es, Cons(SetAlarm(n, at, false, {}), Single(Tick({}))));
  }

  lemma BeforeBoundary(period: nat, b: nat)
    requires b == (period + 1) * HALF
    ensures (b - 1) / HALF == period && b % HALF == 0
  {
  }

  lemma SafeIsNotBoundary(at: nat, b: nat)
    requires HALF <= b <= at < b + HALF
    ensures SafeTimestamp(at, b - 1) % WRAP != b % WRAP
  {
  }

  // The handler of that boundary is held up for k ticks.
  lemma HandlerWaits(latency: nat, n: nat, at: nat, period: nat, b: nat, k: nat, c: Channel) returns (es: List<Event>)
    requires latency <= MAX_LATENCY && n < CHANNELS && at < LIMIT && b == (period + 1) * HALF
    requires k <= latency && b + k <= at <= b + k + 1 && (at == b + k ==> k == 0)
    requires c == Armed(at, SafeTimestamp(at, b - 1))
    ensures Leads(latency, Init(), es, Alone(b + k, period, Overflows(b), Halves(b), n, c))
  {
    hide Leads;
    es := SetBeforeBoundary(latency, n, at, period, b, c);
    BeforeBoundary(period, b);
    NextMatchOf(b, SafeTimestamp(at, b - 1));
    var waits := AloneWaits(latency, b, period, Overflows(b), Halves(b), n, c, k);
    LeadsOn(latency, Init(), es, Alone(b, period, Overflows(b), Halves(b), n, c), waits,
            Alone(b + k, period, Overflows(b), Halves(b), n, c));
    es := Concat(es, waits);
  }

  lemma ServeOn(latency: nat, n: nat, es: List<Event>, ticks: nat, period: nat, ovf: bool, half: bool, c: Channel, c': Channel)
    returns (es': List<Event>)
    requires n < CHANNELS && ovf != half && (period + 1) * HALF < LIMIT && c' == Rearm(c, (period + 1) * HALF, ticks)
    requires Leads(latency, Init(), es, Alone(ticks, period, ovf, half, n, c))
    ensures Leads(latency, Init(), es', Alone(ticks, period + 1, false, false, n, c'))
  {
    hide Leads;
    var serves := AloneServes(latency, ticks, period, ovf, half, n, c, c');
    LeadsOn(latency, Init(), es, Alone(ticks, period, ovf, half, n, c), serves, Alone(ticks, period + 1, false, false, n, c'));
    es' := Concat(es, serves);
  }

  // Then it rewrites the register at the current or the next count.
  lemma HandlerRewrites(latency: nat, n: nat, at: nat, period: nat, k: nat, c': Channel) returns (es: List<Event>)
    requires latency <= MAX_LATENCY && n < CHANNELS && at < LIMIT && c' == Channel(at, at % WRAP, true, false, false)
    requires var b := (period + 1) * HALF; k <= latency && b + k <= at <= b + k + 1 && (at == b + k ==> k == 0)
    ensures Leads(latency, Init(), es, Alone((period + 1) * HALF + k, period + 1, false, false, n, c'))
  {
    hide Leads;
    var b := (period + 1) * HALF;
    var c := Armed(at, SafeTimestamp(at, b - 1));
    es := HandlerWaits(latency, n, at, period, b, k, c);
    RearmIs(at, b, k);
    OneFlag(b);
    es := ServeOn(latency, n, es, b + k, period, Overflows(b), Halves(b), c, c');
  }

  lemma OneFlag(b: nat)
    requires b % HALF == 0
    ensures Overflows(b) != Halves(b)
  {
    HalfPeriodBoundary(b);
  }

  lemma RearmIs(at: nat, b: nat, k: nat)
    requires HALF <= b && b + k <= at <= b + k + 1 && k < HALF && at < LIMIT
    ensures Rearm(Armed(at, SafeTimestamp(at, b - 1)), b, b + k) == Channel(at, at % WRAP, true, false, false)
  {
    RearmIsInWindow(at, b);
    WriteIsUnsure(Armed(at, SafeTimestamp(at, b - 1)), at, b + k);
  }

  lemma WriteIsUnsure(c: Channel, target: nat, ticks: nat)
    requires ticks <= target <= ticks + 1
    ensures !WriteCompare(c, target, ticks).sure
  {
  }

  // The match at that count is dropped, and no other comes until the counter has come round.
  lemma LateRun(latency: nat, n: nat, at: nat) returns (es: List<Event>)
    requires latency <= MAX_LATENCY && n < CHANNELS && at + 2 < LIMIT && !KeepsTime(latency, at)
    ensures Legal(latency, Init(), es) && LateAt(After(latency, Init(), es), n, at)
  {
    var period, k := TooClose(latency, at);
    var t;
    es, t := LateRunFrom(latency, n, at, period, k);
    LeadsIsARun(latency, Init(), es, t);
  }

  lemma LateRunFrom(latency: nat, n: nat, at: nat, period: nat, k: nat) returns (es: List<Event>, t: State)
    requires latency <= MAX_LATENCY && n < CHANNELS && at + 2 < LIMIT
    requires var b := (period + 1) * HALF; k <= latency && b + k <= at <= b + k + 1 && (at == b + k ==> k == 0)
    ensures Leads(latency, Init(), es, t) && |t.chan| == CHANNELS && LateAt(t, n, at)
  {
    hide Leads;
    var ticks, c := (period + 1) * HALF + k, Channel(at, at % WRAP, true, false, false);
    es := HandlerRewrites(latency, n, at, period, k, c);
    var rest;
    rest, t := DroppedMatch(latency, n, at, period + 1, ticks, c);
    LeadsOn(latency, Init(), es, Alone(ticks, period + 1, false, false, n, c), rest, t);
    es := Concat(es, rest);
  }

  lemma DroppedMatch(latency: nat, n: nat, at: nat, period: nat, ticks: nat, c: Channel) returns (es: List<Event>, t: State)
    requires n < CHANNELS && at + 2 < LIMIT && ticks <= at <= ticks + 1 && ticks % HALF <= MAX_LATENCY
    requires c == Channel(at, at % WRAP, true, false, false)
    ensures Leads(latency, Alone(ticks, period, false, false, n, c), es, t)
    ensures |t.chan| == CHANNELS && LateAt(t, n, at)
  {
    hide Leads;
    var c' := Armed(at, at);
    BoundaryIsFurther(ticks, 3);
    AloneTicks(latency, ticks, period, false, false, n, c, {n});
    NextMatchOf(ticks + 1, at + WRAP);
    SameCount(at);
    es := AloneWaits(latency, ticks + 1, period, false, false, n, c', at + 1 - ticks);
    t := Alone(at + 2, period, false, false, n, c');
    LeadsFirst(latency, Alone(ticks, period, false, false, n, c), Tick({n}), es, t);
    es := Cons(Tick({n}), es);
  }

  lemma SameCount(at: nat)
    ensures (at + WRAP) % WRAP == at % WRAP
  {
  }

  /* ---------- a run to a state in which set_alarm is not safe ---------- */

  // An alarm set at tick 0 for tick 3, and three ticks.
  lemma EventOutstanding(latency: nat) returns (es: List<Event>, t: State)
    requires latency <= MAX_LATENCY
    ensures Leads(latency, Init(), es, t) && Inv(latency, t) && t.ticks == 3 && t.handler == Idle && t.chan[0].event
  {
    hide Leads;
    var c := Armed(3, 3);
    var s1, s2 := Alone(0, 0, false, false, 0, c), Alone(2, 0, false, false, 0, c);
    SetAtStart(latency);
    LeadsOne(latency, Init(), SetAlarm(0, 3, false, {}));
    var waits := AloneWaits(latency, 0, 0, false, false, 0, c, 2);
    LeadsOn(latency, Init(), Single(SetAlarm(0, 3, false, {})), s1, waits, s2);
    es := Concat(Single(SetAlarm(0, 3, false, {})), waits);
    t := ThirdTick(latency);
    LeadsOn(latency, Init(), es, s2, Single(Tick({})), t);
    es := Concat(es, Single(Tick({})));
    LeadsIsARun(latency, Init(), es, t);
    InvInit(latency);
    InvAlways(latency, Init(), es);
  }

  lemma ThirdTick(latency: nat) returns (t: State)
    ensures Leads(latency, Alone(2, 0, false, false, 0, Armed(3, 3)), Single(Tick({})), t)
    ensures |t.chan| == CHANNELS && t.ticks == 3 && t.handler == Idle && t.chan[0].event
  {
    var s := Alone(2, 0, false, false, 0, Armed(3, 3));
    assert forall i: nat | i < CHANNELS :: !Due(s, i);
    assert TickOf(s, {}).chan[0] == TickChannel(Armed(3, 3), 3, false);
    LeadsOne(latency, s, Tick({}));
    t := Apply(s, Tick({}));
  }

  lemma SetAtStart(latency: nat)
    requires latency <= MAX_LATENCY
    ensures Enabled(latency, Init(), SetAlarm(0, 3, false, {}))
    ensures Apply(Init(), SetAlarm(0, 3, false, {})) == Alone(0, 0, false, false, 0, Armed(3, 3))
  {
    InvInit(latency);
    SetAlarmIs(latency, Init(), 0, 3, false, {});
    assert Init().chan[0 := Armed(3, 3)] == Alone(0, 0, false, false, 0, Armed(3, 3)).chan;
  }

  // So the states that QuietIsExact excludes are reached: any later timestamp set there can fire early.
  lemma UnsafeSetIsReached(latency: nat, at: nat) returns (es: List<Event>)
    requires latency <= MAX_LATENCY && 3 < at <= OFF
    ensures Legal(latency, Init(), es)
    ensures var s := After(latency, Init(), es);
      Allowed(latency, s, SetAlarm(0, at, false, {})) && !NeverFiresEarly(latency, SetAlarmOf(s, 0, at, false, {}))
  {
    var t;
    es, t := EventOutstanding(latency);
    LeadsIsARun(latency, Init(), es, t);
    NotQuietFires(latency, t, 0, at, false);
  }
}
