/** What every call of run_queued does in the end: it takes the list, runs it, sets the alarm and returns; and that no
    list is left without a signal. */
module ExecutorProgress {
  import opened Basics
  import opened ExecutorModel
  import opened ExecutorInv
  import opened ExecutorSteps
  import opened ExecutorRuns
  import opened ExecutorFairness

  /* ---------- the phases of run_queued ---------- */

  // How one step moves the executor from phase to phase.
  ghost predicate PhaseMoves(s: State, e: Event, s': State) {
    && s'.hasAlarm == s.hasAlarm
    && if IsAgentEvent(e) then s'.pc == s.pc
       else if s.pc.Sleeping? then e.Enter? && BeforeSwap(s'.pc)
       else if BeforeSwap(s.pc) then !e.Enter? && e != AlarmSet && (if e == Swap then InBatchLoop(s'.pc) else BeforeSwap(s'.pc))
       else if InBatchLoop(s.pc) then
         !e.Enter? && e != Swap && e != AlarmSet
         && (InBatchLoop(s'.pc) || (e == Take && s.pc == Batch(Null) && if s.hasAlarm then s'.pc.Scan? else s'.pc.Sleeping?))
       else if s.pc.Scan? then e == ScanVisit && (s'.pc.Scan? || s'.pc.SetAlarm?)
       else e == AlarmSet && s'.pc.Sleeping?
  }

  lemma WalkPhase(s: State, e: Event, s': State)
    requires Step(s, e) == Some(s') && WalksTimers(e)
    ensures PhaseMoves(s, e, s')
  {
  }

  lemma BatchPhase(s: State, e: Event, s': State)
    requires Step(s, e) == Some(s') && !IsAgentEvent(e) && !WalksTimers(e)
    ensures PhaseMoves(s, e, s')
  {
  }

  lemma PhaseStep(s: State, e: Event, s': State)
    requires Step(s, e) == Some(s')
    ensures PhaseMoves(s, e, s')
  {
    hide Step;
    if IsAgentEvent(e) { AgentTouches(s, e, s'); }
    else if WalksTimers(e) { WalkPhase(s, e, s'); }
    else { BatchPhase(s, e, s'); }
  }

  ghost predicate NoneBetween(r: Run, i: nat, j: nat, e: Event)
    requires j <= |r.events|
  {
    forall k | i < k < j :: r.events[k] != e
  }

  // What has happened since run_queued was entered at i, by the phase it is in at j; w is where it took the list.
  ghost predicate Underway(r: Run, i: nat, w: nat, j: nat)
    requires |r.states| == |r.events| + 1 && i < j < |r.states|
  {
    && r.states[j].hasAlarm == r.states[i].hasAlarm
    && if BeforeSwap(r.states[j].pc) then NoneBetween(r, i, j, Swap) && NoneBetween(r, i, j, AlarmSet)
       else
         && i < w < j && r.events[w] == Swap && NoneBetween(r, i, w, Swap) && NoneBetween(r, w, j, Swap)
         && (if r.states[j].pc.Sleeping? && r.states[i].hasAlarm then r.events[j - 1] == AlarmSet && NoneBetween(r, i, j - 1, AlarmSet)
             else NoneBetween(r, i, j, AlarmSet))
         && (r.states[j].pc.Scan? || r.states[j].pc.SetAlarm? ==> r.states[i].hasAlarm)
  }

  lemma UnderwayStep(r: Run, i: nat, w: nat, j: nat) returns (w': nat)
    requires |r.states| == |r.events| + 1 && i < j < |r.events| && Underway(r, i, w, j) && !r.states[j].pc.Sleeping?
    requires PhaseMoves(r.states[j], r.events[j], r.states[j + 1])
    requires r.events[j] == Swap ==> BeforeSwap(r.states[j].pc) && InBatchLoop(r.states[j + 1].pc)
    ensures Underway(r, i, w', j + 1)
  {
    w' := if r.events[j] == Swap then j else w;
  }

  lemma {:induction false} UnderwayAlways(r: Run, i: nat, j: nat) returns (w: nat)
    requires IsRun(r) && i < j < |r.states| && r.events[i].Enter?
    requires forall k | i < k < j :: !r.states[k].pc.Sleeping?
    ensures Underway(r, i, w, j)
    decreases j
  {
    hide Step, Underway, After;
    NextHistory(r, j - 1);
    PhaseStep(r.states[j - 1], r.events[j - 1], r.states[j]);
    if j == i + 1 {
      EnterSleeps(r.states[i], r.events[i], r.states[j]);
      w := i;
      UnderwayFirst(r, i);
    } else {
      w := UnderwayAlways(r, i, j - 1);
      if r.events[j - 1] == Swap { SwapIsBefore(r.states[j - 1], r.states[j]); }
      w := UnderwayStep(r, i, w, j - 1);
    }
  }

  lemma UnderwayFirst(r: Run, i: nat)
    requires |r.states| == |r.events| + 1 && i < |r.events| && PhaseMoves(r.states[i], r.events[i], r.states[i + 1])
    requires BeforeSwap(r.states[i + 1].pc)
    ensures Underway(r, i, i, i + 1)
  {
  }

  lemma EnterSleeps(s: State, e: Event, s': State)
    requires Step(s, e) == Some(s') && e.Enter?
    ensures s.pc.Sleeping? && BeforeSwap(s'.pc)
  {
  }

  lemma SwapIsBefore(s: State, s': State)
    requires Step(s, Swap) == Some(s')
    ensures BeforeSwap(s.pc) && InBatchLoop(s'.pc)
  {
  }

  // Every call of run_queued that has returned took the head list exactly once, and then, if there is an alarm, set it
  // exactly once, as the last thing it did.
  lemma {:induction false} RunQueuedSetsAlarm(r: Run, i: nat, j: nat) returns (w: nat)
    requires IsRun(r) && i < j < |r.states| && r.events[i].Enter? && r.states[j].pc == Sleeping
    requires forall k | i < k < j :: r.states[k].pc != Sleeping
    ensures i < w < j && r.events[w] == Swap
    ensures forall k | i < k < j && k != w :: r.events[k] != Swap
    ensures forall k | i < k < j :: r.events[k] == AlarmSet <==> r.states[i].hasAlarm && k == j - 1
    ensures r.states[i].hasAlarm ==> w < j - 1
  {
    w := UnderwayAlways(r, i, j);
  }

  /* ---------- no list without a signal ---------- */

  // How the head list can change in a step, and who is about to signal.
  lemma HeadStep(s: State, h: History, e: Event, s': State)
    requires Shape(s, h) && Step(s, e) == Some(s') && IsAgentEvent(e)
    ensures s'.head != s.head ==> e.HeadCas? && s'.head.To? && (s.head.Null? ==> SignalDue(s'))
    ensures SignalDue(s) && !e.SignalCall? ==> SignalDue(s')
  {
    AgentTouches(s, e, s');
    HeadCasSignals(s, e, s');
    if SignalDue(s) && !e.SignalCall? {
      var a :| 0 <= a < |s.agents| && s.agents[a] == Signal;
      if a == e.a { SignalOnlyCalls(s, e, s'); } else { assert s'.agents[a] == Signal; }
    }
  }

  lemma HeadCasSignals(s: State, e: Event, s': State)
    requires Step(s, e) == Some(s') && IsAgentEvent(e) && e.a < |s.agents| == |s'.agents|
    ensures s'.head != s.head ==> e.HeadCas? && s'.head.To? && (s.head.Null? ==> SignalDue(s'))
  {
    if e.HeadCas? && !e.spurious && s.agents[e.a].Push? && s.head == s.agents[e.a].prev && s.head.Null? {
      assert s'.agents[e.a] == Signal;
    }
  }

  lemma SignalOnlyCalls(s: State, e: Event, s': State)
    requires Step(s, e) == Some(s') && IsAgentEvent(e) && e.a < |s.agents| && s.agents[e.a] == Signal
    ensures e.SignalCall?
  {
  }

  lemma SwapEmpties(s: State, s': State)
    requires Step(s, Swap) == Some(s')
    ensures s'.head == Null
  {
  }

  lemma ClearKeepsHead(s: State, s': State)
    requires Step(s, ClearRunQueued) == Some(s')
    ensures s'.head == s.head && s'.agents == s.agents
  {
  }

  lemma ExecutorHeadStep(s: State, e: Event, s': State)
    requires Step(s, e) == Some(s') && !IsAgentEvent(e) && (s.pc.Expire? && |s.agents| > 0 ==> s.agents[0] == Idle)
    ensures if e == Swap then s'.head == Null else s'.head == s.head && (SignalDue(s) ==> SignalDue(s'))
  {
    hide Step;
    if e == Swap { SwapEmpties(s, s'); }
    else {
      if e == ClearRunQueued { ClearKeepsHead(s, s'); } else { ExecutorTouches(s, e, s'); }
      if SignalDue(s) {
        var a :| 0 <= a < |s.agents| && s.agents[a] == Signal;
        assert s'.agents[a] == Signal;
      }
    }
  }

  // The head list is empty, or signal_fn was called at k and neither a swap nor an entry has come since, or is about
  // to be called.
  ghost predicate Signalled(r: Run, k: nat, i: nat)
    requires |r.states| == |r.events| + 1 && i < |r.states|
  {
    r.states[i].head != Null ==>
      || SignalDue(r.states[i])
      || (k < i && r.events[k].SignalCall? && (forall x | k < x < i :: r.events[x] != Swap)
          && (!BeforeSwap(r.states[i].pc) ==> forall x | k < x < i :: !r.events[x].Enter?))
  }

  lemma SignalledStep(r: Run, k: nat, i: nat) returns (k': nat)
    requires |r.states| == |r.events| + 1 && i < |r.events| && Signalled(r, k, i)
    requires var s, e, s' := r.states[i], r.events[i], r.states[i + 1];
      && PhaseMoves(s, e, s')
      && if IsAgentEvent(e) then
           (s'.head != s.head ==> s'.head.To? && (s.head.Null? ==> SignalDue(s'))) && (SignalDue(s) && !e.SignalCall? ==> SignalDue(s'))
         else if e == Swap then s'.head == Null else s'.head == s.head && (SignalDue(s) ==> SignalDue(s'))
    ensures Signalled(r, k', i + 1)
  {
    hide SignalDue;
    k' := if r.events[i].SignalCall? then i else k;
  }

  // Over every run: while there is queued work, signal_fn has been called since the list was last taken, and since
  // run_queued was last entered unless it is about to take the list, or it is about to be called.
  lemma {:induction false} SignalFollowsPush(r: Run, i: nat) returns (k: nat)
    requires IsRun(r) && i < |r.states|
    ensures Signalled(r, k, i)
    decreases i
  {
    hide Step, After, Inv, Signalled, PhaseMoves;
    if i == 0 {
      k := 0;
      NotSignalled(r);
    } else {
      k := SignalFollowsPush(r, i - 1);
      var s, h, e, s' := r.states[i - 1], r.hist[i - 1], r.events[i - 1], r.states[i];
      NextHistory(r, i - 1);
      InvAlways(r, i - 1);
      PhaseStep(s, e, s');
      IdleAtRetain(s, h);
      if IsAgentEvent(e) { HeadStep(s, h, e, s'); } else { ExecutorHeadStep(s, e, s'); }
      k := SignalledStep(r, k, i - 1);
    }
  }

  lemma NotSignalled(r: Run)
    requires IsRun(r)
    ensures Signalled(r, 0, 0)
  {
  }

  lemma IdleAtRetain(s: State, h: History)
    requires Inv(s, h)
    ensures Shape(s, h) && |s.agents| > 0 && (s.pc.Expire? ==> s.agents[0] == Idle)
  {
  }

  // signal_fn sets both flags; an entry clears the one that waiting reads, a swap the other.
  ghost predicate FlagMoves(s: State, e: Event, s': State) {
    && s'.event == (e.SignalCall? || (s.event && !e.Enter?))
    && s'.signalled == (e.SignalCall? || (s.signalled && e != Swap))
  }

  lemma WalkFlags(s: State, e: Event, s': State)
    requires Step(s, e) == Some(s') && WalksTimers(e)
    ensures FlagMoves(s, e, s')
  {
  }

  lemma BatchFlags(s: State, e: Event, s': State)
    requires Step(s, e) == Some(s') && !IsAgentEvent(e) && !WalksTimers(e)
    ensures FlagMoves(s, e, s')
  {
  }

  lemma StoreFlags(s: State, e: Event, s': State)
    requires Step(s, e) == Some(s') && StoresTask(e)
    ensures FlagMoves(s, e, s')
  {
  }

  lemma LoadFlags(s: State, e: Event, s': State)
    requires Step(s, e) == Some(s') && IsAgentEvent(e) && !StoresTask(e)
    ensures FlagMoves(s, e, s')
  {
  }

  lemma FlagStep(s: State, e: Event, s': State)
    requires Step(s, e) == Some(s')
    ensures FlagMoves(s, e, s')
  {
    hide Step;
    if WalksTimers(e) { WalkFlags(s, e, s'); }
    else if !IsAgentEvent(e) { BatchFlags(s, e, s'); }
    else if StoresTask(e) { StoreFlags(s, e, s'); }
    else { LoadFlags(s, e, s'); }
  }

  ghost predicate CalledSinceEntry(r: Run, k: nat, i: nat)
    requires i <= |r.events|
  {
    k < i && r.events[k].SignalCall? && forall x | k < x < i :: !r.events[x].Enter?
  }

  ghost predicate CalledSinceSwap(r: Run, k: nat, i: nat)
    requires i <= |r.events|
  {
    k < i && r.events[k].SignalCall? && forall x | k < x < i :: r.events[x] != Swap
  }

  // The event that waiting reads is set exactly if signal_fn was called since run_queued was last entered, or it was
  // set from the start and has not been entered.
  lemma {:induction false} EventIsACall(r: Run, i: nat)
    requires IsRun(r) && i < |r.states|
    ensures r.states[i].event <==>
              EntryCalled(r, i) || (r.states[0].event && forall x | 0 <= x < i :: !r.events[x].Enter?)
    decreases i
  {
    if i > 0 {
      EventIsACall(r, i - 1);
      NextHistory(r, i - 1);
      FlagStep(r.states[i - 1], r.events[i - 1], r.states[i]);
      CalledStep(r, i - 1, i);
    }
  }

  ghost predicate EntryCalled(r: Run, i: nat)
    requires i <= |r.events|
  {
    exists k: nat :: CalledSinceEntry(r, k, i)
  }

  ghost predicate SwapCalled(r: Run, i: nat)
    requires i <= |r.events|
  {
    exists k: nat :: CalledSinceSwap(r, k, i)
  }

  lemma CalledStep(r: Run, i: nat, j: nat)
    requires j == i + 1 <= |r.events|
    ensures EntryCalled(r, j) <==> r.events[i].SignalCall? || (!r.events[i].Enter? && EntryCalled(r, i))
    ensures SwapCalled(r, j) <==> r.events[i].SignalCall? || (r.events[i] != Swap && SwapCalled(r, i))
  {
    if r.events[i].SignalCall? { assert CalledSinceEntry(r, i, j) && CalledSinceSwap(r, i, j); }
    if EntryCalled(r, i) && !r.events[i].Enter? {
      var k: nat :| CalledSinceEntry(r, k, i);
      assert CalledSinceEntry(r, k, j);
    }
    if SwapCalled(r, i) && r.events[i] != Swap {
      var k: nat :| CalledSinceSwap(r, k, i);
      assert CalledSinceSwap(r, k, j);
    }
    if EntryCalled(r, j) {
      var k: nat :| CalledSinceEntry(r, k, j);
      if k < i { assert CalledSinceEntry(r, k, i); }
    }
    if SwapCalled(r, j) {
      var k: nat :| CalledSinceSwap(r, k, j);
      if k < i { assert CalledSinceSwap(r, k, i); }
    }
  }

  // The same for the flag of NoLostSignal and the taking of the list.
  lemma {:induction false} SignalledIsACall(r: Run, i: nat)
    requires IsRun(r) && i < |r.states|
    ensures r.states[i].signalled <==>
              SwapCalled(r, i) || (r.states[0].signalled && forall x | 0 <= x < i :: r.events[x] != Swap)
    decreases i
  {
    if i > 0 {
      SignalledIsACall(r, i - 1);
      NextHistory(r, i - 1);
      FlagStep(r.states[i - 1], r.events[i - 1], r.states[i]);
      CalledStep(r, i - 1, i);
    }
  }

  /* ---------- nobody is stuck, and run_queued ends ---------- */

  // What the executor does next; a poll may register timers, or return Ready, instead of returning Pending.
  function NextEvent(s: State): Event {
    match s.pc
    case Sleeping => Enter(s.now)
    case Expire(_) => ExpireVisit
    case ExpireCall(_, _) => ExpireUnlink
    case ToSwap => Swap
    case Batch(_) => Take
    case Took(_, _) => ClearRunQueued
    case ToPoll(_, _) => BeginPoll
    case Polling(_, _) => PollPending
    case Dropped(_, _) => ClearSpawned
    case Updating(_, _) => UpdateTimer
    case Scan(_, _) => ScanVisit
    case SetAlarm(_) => AlarmSet
  }

  function NextAgentEvent(ag: Agent, a: nat): Event
    requires ag != Idle
  {
    match ag
    case Cas(_, _) => WakeCas(a, false)
    case Alloc(_) => WriteFuture(a)
    case Token(_) => SpawnToken(a)
    case LoadHead(_) => HeadLoad(a)
    case Link(_, _) => NextStore(a)
    case Push(_, _) => HeadCas(a, false)
    case Signal => SignalCall(a)
  }

  lemma AgentCanMove(s: State, h: History, a: nat)
    requires Shape(s, h) && a < |s.agents| && AgentOk(s, h, a) && s.agents[a] != Idle
    ensures Step(s, NextAgentEvent(s.agents[a], a)).Some?
  {
  }

  // The cell under retain's cursor designates a slot as long as there is an element ahead.
  ghost predicate CursorAhead(s: State, h: History) {
    && (s.pc.Expire? || s.pc.ExpireCall? || s.pc.Scan?) && h.k <= |h.tl|
    && (h.k < |h.tl| ==> Cell(s, s.pc.prev) == To(h.tl[h.k]) && h.tl[h.k] < |s.tasks|)
    && (h.k == |h.tl| ==> Cell(s, s.pc.prev) == Null && !s.pc.ExpireCall?)
  }

  lemma CursorIsAhead(s: State, h: History)
    requires Shape(s, h) && TimerListOk(s, h) && RetainOk(s, h) && (s.pc.Expire? || s.pc.ExpireCall? || s.pc.Scan?)
    ensures CursorAhead(s, h)
  {
    CursorCell(s, h);
  }

  lemma WalkerCanMove(s: State, h: History)
    requires Shape(s, h) && CursorAhead(s, h) && !s.pc.ExpireCall?
    ensures Step(s, NextEvent(s)).Some?
  {
  }

  lemma ElseCanMove(s: State, h: History)
    requires Inv(s, h) && !s.pc.Expire? && !s.pc.Scan? && (s.pc.ExpireCall? ==> s.agents[0] == Idle)
    ensures Step(s, NextEvent(s)).Some?
  {
    hide RunInv, SignalInv, LifeInv, TimerInv;
  }

  // Every agent that is inside a call can go on, and so can the executor; while it enqueues an expired task it does so
  // as agent 0.
  lemma {:induction false} NeverStuck(r: Run, i: nat, a: nat)
    requires IsRun(r) && i < |r.states|
    ensures a < |r.states[i].agents| && r.states[i].agents[a] != Idle ==>
              Step(r.states[i], NextAgentEvent(r.states[i].agents[a], a)).Some?
    ensures |r.states[i].agents| > 0
    ensures if r.states[i].pc.ExpireCall? && r.states[i].agents[0] != Idle
            then Step(r.states[i], NextAgentEvent(r.states[i].agents[0], 0)).Some?
            else Step(r.states[i], NextEvent(r.states[i])).Some?
  {
    var s, h := r.states[i], r.hist[i];
    hide Step;
    InvAlways(r, i);
    IdleAtRetain(s, h);
    assert AgentOk(s, h, 0);
    if a < |s.agents| && s.agents[a] != Idle { assert AgentOk(s, h, a); AgentCanMove(s, h, a); }
    if s.pc.ExpireCall? && s.agents[0] != Idle { AgentCanMove(s, h, 0); }
    else if s.pc.Expire? || s.pc.Scan? {
      CursorIsAhead(s, h);
      WalkerCanMove(s, h);
    }
    else { ElseCanMove(s, h); }
  }

  // What is left of a call of run_queued: the phase, the elements to visit in it, and the steps of one visit.
  datatype Rank = Rank(phase: nat, elements: nat, steps: nat)

  predicate Less(a: Rank, b: Rank) {
    || a.phase < b.phase
    || (a.phase == b.phase && a.elements < b.elements)
    || (a.phase == b.phase && a.elements == b.elements && a.steps < b.steps)
  }

  function Ahead(h: History): nat { if h.k <= |h.tl| then |h.tl| - h.k else 0 }

  function RankOf(s: State, h: History): Rank {
    match s.pc
    case Expire(_) => Rank(5, Ahead(h), 1)
    case ExpireCall(_, _) => Rank(5, Ahead(h), 0)
    case ToSwap => Rank(4, 0, 0)
    case ToPoll(_, _) => Rank(3, |h.rest|, 5)
    case Polling(_, _) => Rank(3, |h.rest|, 4)
    case Dropped(_, _) => Rank(3, |h.rest|, 3)
    case Updating(_, _) => Rank(3, |h.rest|, 2)
    case Batch(_) => Rank(3, |h.rest|, 1)
    case Took(_, _) => Rank(3, |h.rest|, 0)
    case Scan(_, _) => Rank(2, Ahead(h), 0)
    case SetAlarm(_) => Rank(1, 0, 0)
    case Sleeping => Rank(0, 0, 0)
  }

  lemma VisitLowersRank(s: State, h: History, s': State)
    requires Shape(s, h) && CursorAhead(s, h) && Step(s, ExpireVisit) == Some(s')
    ensures Less(RankOf(s', After(s, h, ExpireVisit)), RankOf(s, h))
  {
  }

  lemma UnlinkLowersRank(s: State, h: History, s': State)
    requires Shape(s, h) && CursorAhead(s, h) && Step(s, ExpireUnlink) == Some(s')
    ensures Less(RankOf(s', After(s, h, ExpireUnlink)), RankOf(s, h))
  {
    Forgotten(h);
  }

  lemma ScanLowersRank(s: State, h: History, s': State)
    requires Shape(s, h) && CursorAhead(s, h) && Step(s, ScanVisit) == Some(s')
    ensures Less(RankOf(s', After(s, h, ScanVisit)), RankOf(s, h))
  {
    if h.k < |h.tl| { Forgotten(h); }
  }

  lemma WalkLowersRank(s: State, h: History, e: Event, s': State)
    requires Shape(s, h) && TimerListOk(s, h) && RetainOk(s, h) && Step(s, e) == Some(s')
    requires (s.pc.Expire? && e == ExpireVisit) || (s.pc.ExpireCall? && e == ExpireUnlink) || (s.pc.Scan? && e == ScanVisit)
    ensures Less(RankOf(s', After(s, h, e)), RankOf(s, h))
  {
    hide Step, After, RankOf, Less;
    CursorIsAhead(s, h);
    if e == ExpireVisit { VisitLowersRank(s, h, s'); }
    else if e == ExpireUnlink { UnlinkLowersRank(s, h, s'); }
    else { ScanLowersRank(s, h, s'); }
  }

  lemma AlarmLowersRank(s: State, h: History, s': State)
    requires Shape(s, h) && Step(s, AlarmSet) == Some(s')
    ensures Less(RankOf(s', After(s, h, AlarmSet)), RankOf(s, h))
  {
  }

  lemma WalkerIsAt(s: State, e: Event, s': State)
    requires Step(s, e) == Some(s')
    ensures e == ExpireVisit ==> s.pc.Expire?
    ensures e == ExpireUnlink ==> s.pc.ExpireCall?
    ensures e == ScanVisit ==> s.pc.Scan?
  {
  }

  lemma BatchLowersRank(s: State, h: History, e: Event, s': State)
    requires Shape(s, h) && CursorOk(s, h) && Step(s, e) == Some(s') && !IsAgentEvent(e) && !WalksTimers(e) && !e.RegisterTimer?
    ensures Less(RankOf(s', After(s, h, e)), RankOf(s, h))
  {
  }

  lemma OthersKeepRank(s: State, h: History, e: Event, s': State)
    requires Shape(s, h) && Step(s, e) == Some(s') && (IsAgentEvent(e) || e.RegisterTimer?)
    ensures RankOf(s', After(s, h, e)) == RankOf(s, h)
  {
    if IsAgentEvent(e) { AgentTouches(s, e, s'); }
  }

  // Every step of the executor but the entry and register_timer brings the end of the call nearer, and nothing that
  // interrupts do puts it off: run_queued ends however many tasks are woken meanwhile.
  lemma {:induction false} RunQueuedEnds(r: Run, i: nat)
    requires IsRun(r) && i < |r.events|
    ensures if IsAgentEvent(r.events[i]) || r.events[i].RegisterTimer?
            then RankOf(r.states[i + 1], r.hist[i + 1]) == RankOf(r.states[i], r.hist[i])
            else r.events[i].Enter? || Less(RankOf(r.states[i + 1], r.hist[i + 1]), RankOf(r.states[i], r.hist[i]))
  {
    var s, h, e, s' := r.states[i], r.hist[i], r.events[i], r.states[i + 1];
    hide Step, After, RankOf, Less;
    NextHistory(r, i);
    InvAlways(r, i);
    if IsAgentEvent(e) || e.RegisterTimer? { OthersKeepRank(s, h, e, s'); }
    else if e.ExpireVisit? || e.ScanVisit? || e.ExpireUnlink? {
      WalkerIsAt(s, e, s');
      WalkLowersRank(s, h, e, s');
    }
    else if e == AlarmSet { AlarmLowersRank(s, h, s'); }
    else if !e.Enter? { BatchLowersRank(s, h, e, s'); }
  }
}
