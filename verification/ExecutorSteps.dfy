module ExecutorSteps {
  import opened Basics
  import opened ExecutorModel
  import opened ExecutorInv

  // A step that leaves the run lists, the RUN_QUEUED bits and who holds them alone.
  lemma RunFrame(s: State, h: History, s': State, h': History)
    requires Shape(s, h) && RunInv(s, h) && Shape(s', h')
    requires |s'.tasks| == |s.tasks| && |s'.agents| == |s.agents| && s'.head == s.head
    requires h'.q == h.q && h'.rest == h.rest && h'.place == h.place
    requires forall t | 0 <= t < |s.tasks| ::
               s'.tasks[t].state.runQueued == s.tasks[t].state.runQueued && s'.tasks[t].runNext == s.tasks[t].runNext
    requires forall a | 0 <= a < |s.agents| ::
               || s'.agents[a] == s.agents[a]
               || (!Holds(s.agents[a]) && !Holds(s'.agents[a]) && AgentOk(s', h', a))
    requires CursorOk(s', h')
    requires Visiting(s'.pc).Some? ==> Visiting(s'.pc) == Visiting(s.pc)
    ensures RunInv(s', h')
  {
    forall t | 0 <= t < |s'.tasks| ensures PlaceOk(s', h', t) { assert PlaceOk(s, h, t); }
    forall a | 0 <= a < |s'.agents| ensures AgentOk(s', h', a) { assert AgentOk(s, h, a); }
  }

  // An agent that holds t, or takes hold of it, moves on; the lists stay as they are.
  lemma RunHold(s: State, h: History, s': State, h': History, a: nat, t: nat)
    requires Shape(s, h) && RunInv(s, h) && Shape(s', h')
    requires a < |s.agents| && t < |s.tasks|
    requires |s'.agents| == |s.agents| && |s'.tasks| == |s.tasks|
    requires s'.agents == s.agents[a := s'.agents[a]] && Holds(s'.agents[a]) && s'.agents[a].t == t
    requires s'.tasks == s.tasks[t := s'.tasks[t]] && s'.tasks[t].state.runQueued
    requires s'.head == s.head && s'.pc == s.pc
    requires h' == h.(place := h.place[t := HeldBy(a)])
    requires if Holds(s.agents[a]) then s.agents[a].t == t else h.place[t] == Nowhere
    requires s'.agents[a].Push? ==> s'.tasks[t].runNext == s'.agents[a].prev
    ensures RunInv(s', h')
  {
    assert AgentOk(s, h, a) && PlaceOk(s, h, t);
    forall u | 0 <= u < |s'.tasks| ensures PlaceOk(s', h', u) { assert PlaceOk(s, h, u); }
    forall b | 0 <= b < |s'.agents| ensures AgentOk(s', h', b) { assert AgentOk(s, h, b); }
  }

  lemma RunPushed(s: State, h: History, e: Event, s': State)
    requires Shape(s, h) && RunInv(s, h) && Step(s, e) == Some(s')
    requires e.HeadCas? && !e.spurious && s.agents[e.a].Push? && s.head == s.agents[e.a].prev
    ensures Shape(s', After(s, h, e)) && RunInv(s', After(s, h, e))
  {
    var h' := After(s, h, e);
    var t := s.agents[e.a].t;
    assert AgentOk(s, h, e.a);
    forall u | 0 <= u < |s'.tasks| ensures PlaceOk(s', h', u) { assert PlaceOk(s, h, u); }
    forall b | 0 <= b < |s'.agents| ensures AgentOk(s', h', b) { assert AgentOk(s, h, b); }
    assert ListOk(s', h', h'.q, false);
    assert ListOk(s', h', h'.rest, true);
  }

  lemma RunSwapped(s: State, h: History, s': State)
    requires Shape(s, h) && RunInv(s, h) && Step(s, Swap) == Some(s')
    ensures Shape(s', After(s, h, Swap)) && RunInv(s', After(s, h, Swap))
  {
    var h' := After(s, h, Swap);
    forall u | 0 <= u < |s'.tasks| ensures PlaceOk(s', h', u) { assert PlaceOk(s, h, u); }
    forall b | 0 <= b < |s'.agents| ensures AgentOk(s', h', b) { assert AgentOk(s, h, b); }
  }

  lemma RunCleared(s: State, h: History, s': State)
    requires Shape(s, h) && RunInv(s, h) && Step(s, ClearRunQueued) == Some(s')
    ensures Shape(s', After(s, h, ClearRunQueued)) && RunInv(s', After(s, h, ClearRunQueued))
  {
    var h' := After(s, h, ClearRunQueued);
    assert PlaceOk(s, h, s.pc.t);
    forall u | 0 <= u < |s'.tasks| ensures PlaceOk(s', h', u) { assert PlaceOk(s, h, u); }
    forall b | 0 <= b < |s'.agents| ensures AgentOk(s', h', b) { assert AgentOk(s, h, b); }
  }

  // What an agent's step can touch.
  ghost predicate OnlyAgent(s: State, a: nat, s': State) {
    && a < |s.agents| == |s'.agents| && |s'.tasks| == |s.tasks|
    && s'.pc == s.pc && s'.timerHead == s.timerHead && s'.now == s.now && s'.hasAlarm == s.hasAlarm
    && (forall b | 0 <= b < |s.agents| && b != a :: s'.agents[b] == s.agents[b])
    && (forall t | 0 <= t < |s.tasks| ::
          && s'.tasks[t].state.timerQueued == s.tasks[t].state.timerQueued
          && s'.tasks[t].timerNext == s.tasks[t].timerNext && s'.tasks[t].expiresAt == s.tasks[t].expiresAt
          && (s'.tasks[t].state == s.tasks[t].state || s'.tasks[t].state.runQueued))
  }

  // the agents' events that store to a task
  predicate StoresTask(e: Event) { e.WakeCas? || e.AllocSlot? || e.WriteFuture? || e.SpawnToken? || e.NextStore? }

  lemma AgentLoads(s: State, e: Event, s': State)
    requires Step(s, e) == Some(s') && IsAgentEvent(e) && !StoresTask(e)
    ensures OnlyAgent(s, e.a, s')
  {
  }

  lemma AgentStores(s: State, e: Event, s': State)
    requires Step(s, e) == Some(s') && StoresTask(e)
    ensures OnlyAgent(s, e.a, s')
  {
  }

  lemma AgentTouches(s: State, e: Event, s': State)
    requires Step(s, e) == Some(s') && IsAgentEvent(e)
    ensures OnlyAgent(s, e.a, s')
  {
    hide Step;
    if StoresTask(e) { AgentStores(s, e, s'); } else { AgentLoads(s, e, s'); }
  }

  // The run lists' cells and the slots, except for agent 0, are the same in both states.
  ghost predicate SameCells(s: State, s': State) {
    && |s'.tasks| == |s.tasks| && |s'.agents| == |s.agents| >= 1 && s'.head == s.head
    && (forall b | 0 < b < |s.agents| :: s'.agents[b] == s.agents[b])
    && (forall t | 0 <= t < |s.tasks| ::
          s'.tasks[t].state.runQueued == s.tasks[t].state.runQueued && s'.tasks[t].runNext == s.tasks[t].runNext)
  }

  ghost predicate SameSlots(s: State, s': State) {
    && |s'.tasks| == |s.tasks|
    && forall t | 0 <= t < |s.tasks| ::
              && s'.tasks[t].state.spawned == s.tasks[t].state.spawned && s'.tasks[t].live == s.tasks[t].live
              && s'.tasks[t].executor == s.tasks[t].executor
  }

  // retain's events and the ones around it
  predicate WalksTimers(e: Event) { e.Enter? || e.ExpireVisit? || e.ExpireUnlink? || e.ScanVisit? || e.AlarmSet? }

  // the events of a batch that leave the state word's first two bits alone
  predicate InsideBatch(e: Event) { e.Take? || e.BeginPoll? || e.RegisterTimer? || e.PollPending? || e.UpdateTimer? }

  lemma UnlinkTouches(s: State, prev: Ptr, p: nat)
    requires p < |s.tasks| && (prev.To? ==> prev.id < |s.tasks|) && |s.agents| >= 1
    ensures var s' := Unlink(s, prev, p);
            SameCells(s, s') && SameSlots(s, s') && s' == s.(timerHead := s'.timerHead, tasks := s'.tasks)
  {
  }

  lemma UnlinkWalks(s: State, s': State)
    requires Step(s, ExpireUnlink) == Some(s')
    ensures SameCells(s, s') && SameSlots(s, s') && s'.agents == s.agents
  {
    UnlinkTouches(s, s.pc.prev, s.pc.p);
  }

  lemma ScanWalks(s: State, s': State)
    requires Step(s, ScanVisit) == Some(s')
    ensures SameCells(s, s') && SameSlots(s, s') && s'.agents == s.agents
  {
    var c := Cell(s, s.pc.prev);
    if c.To? && s.tasks[c.id].expiresAt == MAX {
      UnlinkTouches(s, s.pc.prev, c.id);
    }
  }

  lemma VisitWalks(s: State, s': State)
    requires Step(s, ExpireVisit) == Some(s')
    ensures SameCells(s, s') && SameSlots(s, s') && s.pc.Expire? && Considers(s, s'.agents[0], s.agents[0])
  {
  }

  lemma WalkTouches(s: State, e: Event, s': State)
    requires Step(s, e) == Some(s') && WalksTimers(e)
    ensures SameCells(s, s') && SameSlots(s, s')
    ensures if e.ExpireVisit? then s.pc.Expire? && Considers(s, s'.agents[0], s.agents[0]) else s'.agents == s.agents
  {
    if e == ExpireUnlink { UnlinkWalks(s, s'); }
    else if e == ScanVisit { ScanWalks(s, s'); }
    else if e == ExpireVisit { VisitWalks(s, s'); }
  }

  // run_queued leaves the flags alone, and reaches the swap from before it only.
  ghost predicate FlagsKept(s: State, s': State) {
    s'.signalled == s.signalled && (!BeforeSwap(s'.pc) ==> !BeforeSwap(s.pc) && s'.event == s.event)
  }

  lemma SignalWalk(s: State, e: Event, s': State)
    requires Step(s, e) == Some(s') && WalksTimers(e)
    ensures FlagsKept(s, s')
  {
  }

  lemma SignalBatch(s: State, e: Event, s': State)
    requires Step(s, e) == Some(s') && (InsideBatch(e) || e.PollReady? || e.ClearSpawned?)
    ensures FlagsKept(s, s')
  {
  }

  lemma SignalExecutor(s: State, e: Event, s': State)
    requires Step(s, e) == Some(s') && !IsAgentEvent(e) && !e.Swap? && !e.ClearRunQueued?
    ensures FlagsKept(s, s')
  {
    hide Step;
    if WalksTimers(e) { SignalWalk(s, e, s'); } else { SignalBatch(s, e, s'); }
  }

  // ag is what agent 0 becomes when it is old, idle, and considers enqueueing a task.
  predicate Considers(s: State, ag: Agent, old_: Agent) {
    ag == old_ || ag == Idle || (ag.Cas? && ag.cur.spawned && !ag.cur.runQueued && ag.t < |s.tasks|)
  }

  lemma TakeTouches(s: State, s': State)
    requires Step(s, Take) == Some(s')
    ensures SameCells(s, s') && SameSlots(s, s') && s'.agents == s.agents
  {
  }

  lemma UpdateTouches(s: State, s': State)
    requires Step(s, UpdateTimer) == Some(s')
    ensures SameCells(s, s') && SameSlots(s, s') && s'.agents == s.agents
  {
  }

  lemma BatchTouches(s: State, e: Event, s': State)
    requires Step(s, e) == Some(s') && InsideBatch(e)
    ensures SameCells(s, s') && SameSlots(s, s') && s'.agents == s.agents
  {
    if e == Take { TakeTouches(s, s'); }
    else if e == UpdateTimer { UpdateTouches(s, s'); }
  }

  lemma ReadyTouches(s: State, e: Event, s': State)
    requires Step(s, e) == Some(s') && (e.PollReady? || e.ClearSpawned?)
    ensures SameCells(s, s') && s'.agents == s.agents
  {
  }

  lemma ExecutorTouches(s: State, e: Event, s': State)
    requires Step(s, e) == Some(s') && !IsAgentEvent(e) && !e.Swap? && !e.ClearRunQueued?
    ensures SameCells(s, s')
    ensures if e.ExpireVisit? then s.pc.Expire? && Considers(s, s'.agents[0], s.agents[0]) else s'.agents == s.agents
    ensures !e.PollReady? && !e.ClearSpawned? ==> SameSlots(s, s')
  {
    if WalksTimers(e) { WalkTouches(s, e, s'); }
    else if InsideBatch(e) { BatchTouches(s, e, s'); }
    else { ReadyTouches(s, e, s'); }
  }

  // How the executor's cursors move.
  ghost predicate CursorsMoved(s: State, h: History, s': State, h': History) {
    && Shape(s', h')
    && h'.q == h.q && h'.rest == h.rest && h'.place == h.place && CursorOk(s', h')
    && (Visiting(s'.pc).Some? ==> Visiting(s'.pc) == Visiting(s.pc))
    && (s'.pc.ToPoll? || s'.pc.Polling? || s'.pc.Dropped? ==>
          (s.pc.ToPoll? || s.pc.Polling? || s.pc.Dropped?) && s'.pc.t == s.pc.t)
  }

  lemma WalkHistory(s: State, h: History, e: Event)
    requires |h.place| == |s.tasks| == |h.reg| && Step(s, e).Some? && WalksTimers(e)
    ensures After(s, h, e) == h.(k := After(s, h, e).k, tl := After(s, h, e).tl)
  {
  }

  // Before and after these events the executor is outside a batch.
  lemma ScanPc(s: State, s': State)
    requires Step(s, ScanVisit) == Some(s')
    ensures PcInRange(s') && !InsideOf(s.pc) && !InsideOf(s'.pc)
  {
  }

  lemma WalkPc(s: State, e: Event, s': State)
    requires Step(s, e) == Some(s') && WalksTimers(e)
    ensures PcInRange(s') && !InsideOf(s.pc) && !InsideOf(s'.pc)
  {
    if e == ScanVisit { ScanPc(s, s'); }
  }

  predicate InsideOf(pc: Pc) { pc.Batch? || pc.Took? || Visiting(pc).Some? }

  lemma WalkMoves(s: State, h: History, e: Event, s': State)
    requires Shape(s, h) && RunInv(s, h) && Step(s, e) == Some(s') && WalksTimers(e)
    ensures CursorsMoved(s, h, s', After(s, h, e))
  {
    WalkTouches(s, e, s');
    WalkHistory(s, h, e);
    WalkPc(s, e, s');
  }

  lemma TakeMoves(s: State, h: History, s': State)
    requires Shape(s, h) && RunInv(s, h) && Step(s, Take) == Some(s')
    ensures CursorsMoved(s, h, s', After(s, h, Take))
  {
    if s.pc.cur.To? {
      assert h.rest != [];
      assert s.tasks[h.rest[|h.rest| - 1]].runNext == Below(h.rest, |h.rest| - 1);
    }
  }

  lemma UpdateMoves(s: State, h: History, s': State)
    requires Shape(s, h) && RunInv(s, h) && Step(s, UpdateTimer) == Some(s')
    ensures CursorsMoved(s, h, s', After(s, h, UpdateTimer))
  {
  }

  lemma PollMoves(s: State, h: History, e: Event, s': State)
    requires Shape(s, h) && CursorOk(s, h) && Step(s, e) == Some(s')
    requires e.BeginPoll? || e.RegisterTimer? || e.PollPending? || e.PollReady? || e.ClearSpawned?
    ensures CursorsMoved(s, h, s', After(s, h, e))
  {
  }

  lemma BatchMoves(s: State, h: History, e: Event, s': State)
    requires Shape(s, h) && RunInv(s, h) && Step(s, e) == Some(s')
    requires InsideBatch(e) || e.PollReady? || e.ClearSpawned?
    ensures CursorsMoved(s, h, s', After(s, h, e))
  {
    hide Step;
    if e == Take { TakeMoves(s, h, s'); }
    else if e == UpdateTimer { UpdateMoves(s, h, s'); }
    else { PollMoves(s, h, e, s'); }
  }

  lemma ExecutorMoves(s: State, h: History, e: Event, s': State)
    requires Shape(s, h) && RunInv(s, h) && Step(s, e) == Some(s')
    requires !IsAgentEvent(e) && !e.Swap? && !e.ClearRunQueued?
    ensures CursorsMoved(s, h, s', After(s, h, e))
  {
    if WalksTimers(e) { WalkMoves(s, h, e, s'); } else { BatchMoves(s, h, e, s'); }
  }

  lemma RunExecutor(s: State, h: History, e: Event, s': State)
    requires Shape(s, h) && RunInv(s, h) && Step(s, e) == Some(s') && !IsAgentEvent(e)
    requires s.pc.Expire? ==> s.agents[0] == Idle
    ensures Shape(s', After(s, h, e)) && RunInv(s', After(s, h, e))
  {
    if e.Swap? { RunSwapped(s, h, s'); }
    else if e.ClearRunQueued? { RunCleared(s, h, s'); }
    else {
      ExecutorTouches(s, e, s');
      ExecutorMoves(s, h, e, s');
      RunFrame(s, h, s', After(s, h, e));
    }
  }

  // A wake's access either takes the bit for the agent, or changes only where the agent stands.
  lemma WakeCasIs(s: State, h: History, e: Event, s': State)
    requires Shape(s, h) && Step(s, e) == Some(s') && e.WakeCas? && e.a < |s.agents| && AgentOk(s, h, e.a)
    ensures s.agents[e.a].Cas? && |s'.agents| == |s.agents|
    ensures var t := s.agents[e.a].t;
      if Holds(s'.agents[e.a]) then
        !s.tasks[t].state.runQueued && After(s, h, e) == h.(place := h.place[t := HeldBy(e.a)])
        && s' == SetAgent(SetTask(s, t, s.tasks[t].(state := s.tasks[t].state.(runQueued := true))), e.a, LoadHead(t))
      else After(s, h, e) == h && s' == SetAgent(s, e.a, s'.agents[e.a]) && AgentOk(s', h, e.a)
  {
  }

  lemma RunAfterWake(s: State, h: History, a: nat, s': State, h': History)
    requires Shape(s, h) && RunInv(s, h) && a < |s.agents| == |s'.agents| && s.agents[a].Cas? && s.agents[a].t < |s.tasks|
    requires var t := s.agents[a].t;
      if Holds(s'.agents[a]) then
        h.place[t] == Nowhere && h' == h.(place := h.place[t := HeldBy(a)])
        && s' == SetAgent(SetTask(s, t, s.tasks[t].(state := s.tasks[t].state.(runQueued := true))), a, LoadHead(t))
      else h' == h && s' == SetAgent(s, a, s'.agents[a]) && AgentOk(s, h, a) && AgentOk(s', h, a)
    ensures Shape(s', h') && RunInv(s', h')
  {
    if Holds(s'.agents[a]) {
      RunHold(s, h, s', h', a, s.agents[a].t);
    } else {
      RunFrame(s, h, s', h');
    }
  }

  lemma RunWake(s: State, h: History, e: Event, s': State)
    requires Shape(s, h) && RunInv(s, h) && Step(s, e) == Some(s') && e.WakeCas?
    ensures Shape(s', After(s, h, e)) && RunInv(s', After(s, h, e))
  {
    assert AgentOk(s, h, e.a);
    assert PlaceOk(s, h, s.agents[e.a].t);
    WakeCasIs(s, h, e, s');
    RunAfterWake(s, h, e.a, s', After(s, h, e));
  }

  lemma RunAlloc(s: State, h: History, e: Event, s': State)
    requires Shape(s, h) && RunInv(s, h) && Step(s, e) == Some(s') && e.AllocSlot?
    ensures Shape(s', After(s, h, e)) && RunInv(s', After(s, h, e))
  {
    assert AgentOk(s, h, e.a);
    assert PlaceOk(s, h, e.t);
    if s.tasks[e.t].state == FREE { RunHold(s, h, s', After(s, h, e), e.a, e.t); }
  }

  lemma RunIdle(s: State, h: History, e: Event, s': State)
    requires Shape(s, h) && RunInv(s, h) && Step(s, e) == Some(s')
    requires e.WakeLoad? || e.SignalCall?
    ensures Shape(s', After(s, h, e)) && RunInv(s', After(s, h, e))
  {
    assert AgentOk(s, h, e.a);
    RunFrame(s, h, s', After(s, h, e));
  }

  lemma RunPush(s: State, h: History, e: Event, s': State)
    requires Shape(s, h) && RunInv(s, h) && Step(s, e) == Some(s')
    requires e.WriteFuture? || e.SpawnToken? || e.HeadLoad? || e.NextStore? || e.HeadCas?
    ensures Shape(s', After(s, h, e)) && RunInv(s', After(s, h, e))
  {
    var t := s.agents[e.a].t;
    assert AgentOk(s, h, e.a) && PlaceOk(s, h, t);
    if e.HeadCas? && !e.spurious && s.head == s.agents[e.a].prev { RunPushed(s, h, e, s'); }
    else { RunHold(s, h, s', After(s, h, e), e.a, t); }
  }

  lemma RunKept(s: State, h: History, e: Event, s': State)
    requires Shape(s, h) && RunInv(s, h) && Step(s, e) == Some(s')
    requires s.pc.Expire? ==> s.agents[0] == Idle
    ensures Shape(s', After(s, h, e)) && RunInv(s', After(s, h, e))
  {
    if !IsAgentEvent(e) { RunExecutor(s, h, e, s'); }
    else if e.WakeCas? { RunWake(s, h, e, s'); }
    else if e.AllocSlot? { RunAlloc(s, h, e, s'); }
    else if e.WakeLoad? || e.SignalCall? { RunIdle(s, h, e, s'); }
    else { RunPush(s, h, e, s'); }
  }

  // signal_fn is called by agents only; the list grows by pushes only.
  lemma SignalKept(s: State, h: History, e: Event, s': State)
    requires Shape(s, h) && RunInv(s, h) && SignalInv(s, h) && Step(s, e) == Some(s')
    requires s.pc.Expire? ==> s.agents[0] == Idle
    ensures SignalInv(s', After(s, h, e))
  {
    if IsAgentEvent(e) {
      AgentTouches(s, e, s');
      SignalAgent(s, h, e, s');
    } else if e.Swap? || e.ClearRunQueued? {
      if SignalDue(s) { assert SignalDue(s'); }
    } else {
      ExecutorTouches(s, e, s');
      ExecutorMoves(s, h, e, s');
      if SignalDue(s) {
        var a :| 0 <= a < |s.agents| && s.agents[a] == Signal;
        assert s'.agents[a] == Signal;
      }
      SignalExecutor(s, e, s');
    }
  }

  lemma SignalAgent(s: State, h: History, e: Event, s': State)
    requires Shape(s, h) && RunInv(s, h) && SignalInv(s, h) && Step(s, e) == Some(s') && IsAgentEvent(e)
    requires forall b | 0 <= b < |s.agents| && b != e.a :: s'.agents[b] == s.agents[b]
    requires s'.pc == s.pc && |s'.agents| == |s.agents|
    ensures SignalInv(s', After(s, h, e))
  {
    assert AgentOk(s, h, e.a);
    if SignalDue(s) && !e.SignalCall? {
      var a :| 0 <= a < |s.agents| && s.agents[a] == Signal;
      assert s'.agents[a] == Signal;
      assert SignalDue(s');
    }
    if e.HeadCas? && s'.agents[e.a] == Signal { assert SignalDue(s'); }
  }

  lemma LifeFrame(s: State, h: History, s': State, h': History)
    requires Shape(s, h) && PlacesOk(s, h) && LifeInv(s, h) && Shape(s', h')
    requires |s'.tasks| == |s.tasks| && |s'.agents| == |s.agents| && h'.place == h.place
    requires forall t | 0 <= t < |s.tasks| ::
               && s'.tasks[t].state.spawned == s.tasks[t].state.spawned && s'.tasks[t].live == s.tasks[t].live
               && s'.tasks[t].executor == s.tasks[t].executor
    requires forall a | 0 <= a < |s.agents| :: s'.agents[a] == s.agents[a] || (!Holds(s.agents[a]) && !Holds(s'.agents[a]))
    requires s'.pc.Dropped? == s.pc.Dropped? && (s'.pc.Dropped? ==> s'.pc.t == s.pc.t)
    requires s'.pc.ToPoll? || s'.pc.Polling? || s'.pc.Dropped? ==>
               (s.pc.ToPoll? || s.pc.Polling? || s.pc.Dropped?) && s'.pc.t == s.pc.t
    ensures LifeInv(s', h')
  {
    forall t | 0 <= t < |s'.tasks| ensures SlotOk(s', h', t) { assert SlotOk(s, h, t) && PlaceOk(s, h, t); }
    if s.pc.ToPoll? || s.pc.Polling? || s.pc.Dropped? { assert PlaceOk(s, h, s.pc.t); }
  }

  // An agent moves from one point to another while it holds t, or takes hold of t.
  lemma LifeHold(s: State, h: History, s': State, h': History, a: nat, t: nat)
    requires Shape(s, h) && PlacesOk(s, h) && LifeInv(s, h) && Shape(s', h')
    requires a < |s.agents| && t < |s.tasks| && |s'.agents| == |s.agents| && |s'.tasks| == |s.tasks|
    requires s'.agents == s.agents[a := s'.agents[a]] && s'.tasks == s.tasks[t := s'.tasks[t]] && s'.pc == s.pc
    requires if Holds(s.agents[a]) then s.agents[a].t == t && h.place[t] == HeldBy(a) else h.place[t] == Nowhere
    requires h'.place == h.place[t := h'.place[t]]
    requires SlotOk(s', h', t)
    requires (s.pc.ToPoll? || s.pc.Polling? || s.pc.Dropped?) && s.pc.t == t ==>
               s'.tasks[t].state.spawned && !Unspawned(Holder(s', h', t))
    ensures LifeInv(s', h')
  {
    forall u | 0 <= u < |s'.tasks| ensures SlotOk(s', h', u) { assert SlotOk(s, h, u) && PlaceOk(s, h, u); }
    if s.pc.ToPoll? || s.pc.Polling? || s.pc.Dropped? { assert PlaceOk(s, h, s.pc.t); }
  }

  lemma LifeTaken(s: State, h: History, e: Event, s': State)
    requires Shape(s, h) && PlacesOk(s, h) && LifeInv(s, h) && Step(s, e) == Some(s')
    requires e.WakeCas? && e.a < |s.agents| && AgentOk(s, h, e.a)
    requires Shape(s', After(s, h, e))
    ensures LifeInv(s', After(s, h, e))
  {
    var t := s.agents[e.a].t;
    assert SlotOk(s, h, t) && PlaceOk(s, h, t);
    if Holds(s'.agents[e.a]) { LifeHold(s, h, s', After(s, h, e), e.a, t); }
    else { LifeFrame(s, h, s', After(s, h, e)); }
  }

  lemma LifeAlloc(s: State, h: History, e: Event, s': State)
    requires Shape(s, h) && PlacesOk(s, h) && LifeInv(s, h) && Step(s, e) == Some(s')
    requires e.AllocSlot? && e.a < |s.agents| && AgentOk(s, h, e.a)
    requires Shape(s', After(s, h, e))
    ensures LifeInv(s', After(s, h, e))
  {
    assert SlotOk(s, h, e.t) && PlaceOk(s, h, e.t);
    if s.tasks[e.t].state == FREE { LifeHold(s, h, s', After(s, h, e), e.a, e.t); }
  }

  lemma LifePush(s: State, h: History, e: Event, s': State)
    requires Shape(s, h) && PlacesOk(s, h) && LifeInv(s, h) && Step(s, e) == Some(s')
    requires IsAgentEvent(e) ==> e.a < |s.agents| && AgentOk(s, h, e.a)
    requires e.WriteFuture? || e.SpawnToken? || e.HeadLoad? || e.NextStore? || e.HeadCas?
    requires Shape(s', After(s, h, e))
    ensures LifeInv(s', After(s, h, e))
  {
    var t := s.agents[e.a].t;
    assert AgentOk(s, h, e.a) && SlotOk(s, h, t) && PlaceOk(s, h, t);
    LifeHold(s, h, s', After(s, h, e), e.a, t);
  }

  lemma LifeDropped(s: State, h: History, e: Event, s': State)
    requires Shape(s, h) && PlacesOk(s, h) && LifeInv(s, h) && Step(s, e) == Some(s')
    requires e.ClearSpawned? || e.PollReady?
    requires Shape(s', After(s, h, e))
    ensures LifeInv(s', After(s, h, e))
  {
    forall t | 0 <= t < |s'.tasks| ensures SlotOk(s', After(s, h, e), t) { assert SlotOk(s, h, t) && PlaceOk(s, h, t); }
  }

  lemma LifeSwapped(s: State, h: History, s': State)
    requires Shape(s, h) && PlacesOk(s, h) && LifeInv(s, h) && Step(s, Swap) == Some(s')
    requires Shape(s', After(s, h, Swap))
    ensures LifeInv(s', After(s, h, Swap))
  {
    var h' := After(s, h, Swap);
    forall t | 0 <= t < |s'.tasks| ensures SlotOk(s', h', t) { assert SlotOk(s, h, t) && PlaceOk(s, h, t); }
  }

  lemma LifeCleared(s: State, h: History, s': State)
    requires Shape(s, h) && RunInv(s, h) && LifeInv(s, h) && Step(s, ClearRunQueued) == Some(s')
    requires Shape(s', After(s, h, ClearRunQueued))
    ensures LifeInv(s', After(s, h, ClearRunQueued))
  {
    var h' := After(s, h, ClearRunQueued);
    forall t | 0 <= t < |s'.tasks| ensures SlotOk(s', h', t) { assert SlotOk(s, h, t) && PlaceOk(s, h, t); }
    assert SlotOk(s, h, s.pc.t) && PlaceOk(s, h, s.pc.t);
  }

  lemma LifeKept(s: State, h: History, e: Event, s': State)
    requires Shape(s, h) && RunInv(s, h) && LifeInv(s, h) && Step(s, e) == Some(s')
    requires IsAgentEvent(e) ==> e.a < |s.agents| && AgentOk(s, h, e.a)
    requires s.pc.Expire? ==> s.agents[0] == Idle
    requires Shape(s', After(s, h, e))
    ensures LifeInv(s', After(s, h, e))
  {
    if e.WakeLoad? || e.SignalCall? { LifeFrame(s, h, s', After(s, h, e)); }
    else if e.WakeCas? { LifeTaken(s, h, e, s'); }
    else if e.AllocSlot? { LifeAlloc(s, h, e, s'); }
    else if IsAgentEvent(e) { LifePush(s, h, e, s'); }
    else if e.Swap? { LifeSwapped(s, h, s'); }
    else if e.ClearRunQueued? { LifeCleared(s, h, s'); }
    else if e.ClearSpawned? || e.PollReady? { LifeDropped(s, h, e, s'); }
    else {
      ExecutorTouches(s, e, s');
      ExecutorMoves(s, h, e, s');
      LifeFrame(s, h, s', After(s, h, e));
    }
  }

  // A step that leaves the timer list, its cursor and the deadlines alone.
  ghost predicate SameTimers(s: State, h: History, s': State, h': History) {
    && |s'.tasks| == |s.tasks| && s'.timerHead == s.timerHead && s'.now == s.now && s'.hasAlarm == s.hasAlarm
    && h'.tl == h.tl && h'.k == h.k && h'.reg == h.reg && s'.pc == s.pc
    && (forall t | 0 <= t < |s.tasks| ::
               && s'.tasks[t].state.timerQueued == s.tasks[t].state.timerQueued
               && s'.tasks[t].timerNext == s.tasks[t].timerNext && s'.tasks[t].expiresAt == s.tasks[t].expiresAt
               && (s'.tasks[t].state == s.tasks[t].state || s'.tasks[t].state.runQueued))
  }

  lemma TimerFrame(s: State, h: History, s': State, h': History)
    requires Shape(s, h) && TimerInv(s, h) && Shape(s', h') && SameTimers(s, h, s', h')
    requires
      || s'.agents[0] == s.agents[0]
      || (s.pc.ExpireCall?
          && (s'.agents[0].Cas? ==> s'.agents[0].t == s.pc.p)
          && (!s'.agents[0].Cas? ==> s'.tasks[s.pc.p].state.runQueued || !s'.tasks[s.pc.p].state.spawned))
    ensures TimerInv(s', h')
  {
    TimerListFrame(s, h, s', h');
    RetainFrame(s, h, s', h');
    DeadlineFrame(s, h, s', h');
  }

  lemma TimerListFrame(s: State, h: History, s': State, h': History)
    requires Shape(s, h) && TimerListOk(s, h) && Shape(s', h') && SameTimers(s, h, s', h')
    ensures TimerListOk(s', h')
  {
  }

  lemma RetainFrame(s: State, h: History, s': State, h': History)
    requires Shape(s, h) && InRange(s, h.tl) && RetainOk(s, h)
    requires Shape(s', h') && InRange(s', h'.tl) && SameTimers(s, h, s', h')
    requires
      || s'.agents[0] == s.agents[0]
      || (s.pc.ExpireCall?
          && (s'.agents[0].Cas? ==> s'.agents[0].t == s.pc.p)
          && (!s'.agents[0].Cas? ==> s'.tasks[s.pc.p].state.runQueued || !s'.tasks[s.pc.p].state.spawned))
    ensures RetainOk(s', h')
  {
  }

  lemma DeadlineFrame(s: State, h: History, s': State, h': History)
    requires Shape(s, h) && Shape(s', h') && SameTimers(s, h, s', h')
    requires forall t | 0 <= t < |s.tasks| :: DeadlineOk(s, h, t)
    ensures forall t | 0 <= t < |s'.tasks| :: DeadlineOk(s', h', t)
  {
    forall t | 0 <= t < |s'.tasks| ensures DeadlineOk(s', h', t) { assert DeadlineOk(s, h, t); }
  }

  lemma TimerAgent(s: State, h: History, e: Event, s': State)
    requires Shape(s, h) && RunInv(s, h) && TimerInv(s, h) && Step(s, e) == Some(s') && IsAgentEvent(e)
    requires Shape(s', After(s, h, e))
    ensures TimerInv(s', After(s, h, e))
  {
    AgentTouches(s, e, s');
    assert AgentOk(s, h, e.a);
    if e.a == 0 { TimerAgentZero(s, h, e, s'); }
    TimerFrame(s, h, s', After(s, h, e));
  }

  // Agent 0 enqueues the expired task p: when it is done, p is RUN_QUEUED or not spawned.
  // Agent 0 acts only while it enqueues an expired task.
  lemma AgentZeroActs(s: State, e: Event, s': State)
    requires Step(s, e) == Some(s') && IsAgentEvent(e) && e.a == 0
    ensures |s.agents| > 0 && s.agents[0] != Idle
  {
  }

  lemma AgentZeroCas(s: State, h: History, e: Event, s': State)
    requires Shape(s, h) && Step(s, e) == Some(s') && IsAgentEvent(e) && e.a == 0 && AgentOk(s, h, 0)
    requires |s'.agents| == |s.agents| && |s'.tasks| == |s.tasks|
    ensures s'.agents[0].Cas? ==> s.agents[0].Cas? && s'.agents[0].t == s.agents[0].t
    ensures s.agents[0].Cas? && !s'.agents[0].Cas? ==>
              s'.tasks[s.agents[0].t].state.runQueued || !s'.tasks[s.agents[0].t].state.spawned
    ensures !s.agents[0].Cas? ==> forall t | 0 <= t < |s.tasks| :: s'.tasks[t].state == s.tasks[t].state
  {
    AgentZeroActs(s, e, s');
  }

  lemma TimerAgentZero(s: State, h: History, e: Event, s': State)
    requires Shape(s, h) && RunInv(s, h) && TimerInv(s, h) && Step(s, e) == Some(s') && IsAgentEvent(e) && e.a == 0
    ensures s.pc.ExpireCall? && s.agents[0] != Idle && |s'.agents| == |s.agents| && |s'.tasks| == |s.tasks|
    ensures s'.agents[0].Cas? ==> s'.agents[0].t == s.pc.p
    ensures !s'.agents[0].Cas? ==> s'.tasks[s.pc.p].state.runQueued || !s'.tasks[s.pc.p].state.spawned
  {
    assert AgentOk(s, h, 0);
    AgentTouches(s, e, s');
    AgentZeroActs(s, e, s');
    AgentZeroCas(s, h, e, s');
  }

  // The cell under retain's cursor designates the next element to look at.
  lemma CursorCell(s: State, h: History)
    requires Shape(s, h) && TimerListOk(s, h) && h.k <= |h.tl|
    ensures Cell(s, PrevOf(h)) == PtrAt(h.tl, h.k)
  {
    if h.k > 0 { assert s.tasks[h.tl[h.k - 1]].timerNext == PtrAt(h.tl, h.k); }
  }

  lemma Forgotten(h: History)
    requires h.k < |h.tl|
    ensures h.k <= |Forget(h).tl| == |h.tl| - 1 && PrevOf(Forget(h)) == PrevOf(h)
    ensures Forget(h) == h.(tl := Forget(h).tl)
    ensures forall i | 0 <= i < |Forget(h).tl| :: Forget(h).tl[i] == if i < h.k then h.tl[i] else h.tl[i + 1]
  {
  }

  // Removing the element under the cursor removes it from the list, and its bit with it.
  lemma Unlinked(s: State, h: History, prev: Ptr, p: nat, s': State)
    requires Shape(s, h) && TimerListOk(s, h) && h.k < |h.tl| && h.tl[h.k] == p && prev == PrevOf(h)
    requires s' == Unlink(s, prev, p)
    ensures s' == s.(timerHead := s'.timerHead, tasks := s'.tasks) && |s'.tasks| == |s.tasks| && InRange(s', Forget(h).tl)
    ensures s'.timerHead == if prev.Null? then s.tasks[p].timerNext else s.timerHead
    ensures forall t | 0 <= t < |s.tasks| ::
              && s'.tasks[t].expiresAt == s.tasks[t].expiresAt && s'.tasks[t].state.spawned == s.tasks[t].state.spawned
              && s'.tasks[t].state.runQueued == s.tasks[t].state.runQueued
              && s'.tasks[t].state.timerQueued == (t != p && s.tasks[t].state.timerQueued)
              && s'.tasks[t].timerNext == if prev == To(t) then s.tasks[p].timerNext else s.tasks[t].timerNext
  {
    Forgotten(h);
  }

  lemma UnlinkedNext(s: State, prev: Ptr, p: nat, t: nat)
    requires p < |s.tasks| && t < |s.tasks| && (prev.To? ==> prev.id < |s.tasks|)
    ensures |Unlink(s, prev, p).tasks| == |s.tasks|
    ensures Unlink(s, prev, p).tasks[t].timerNext
         == if prev == To(t) then s.tasks[p].timerNext else s.tasks[t].timerNext
    ensures Unlink(s, prev, p).timerHead == if prev == Null then s.tasks[p].timerNext else s.timerHead
  {
  }

  lemma UnlinkedChain(s: State, h: History, prev: Ptr, p: nat, s': State)
    requires Shape(s, h) && TimerListOk(s, h) && h.k < |h.tl| && h.tl[h.k] == p && prev == PrevOf(h)
    requires s' == Unlink(s, prev, p)
    requires InRange(s', Forget(h).tl) && |s'.tasks| == |s.tasks|
    ensures s'.timerHead == PtrAt(Forget(h).tl, 0)
    ensures forall i {:trigger s'.tasks[Forget(h).tl[i]]} | 0 <= i < |Forget(h).tl| ::
              s'.tasks[Forget(h).tl[i]].timerNext == PtrAt(Forget(h).tl, i + 1)
  {
    var l, l' := h.tl, Forget(h).tl;
    hide Unlink;
    Forgotten(h);
    UnlinkedNext(s, prev, p, p);
    assert s.tasks[l[h.k]].timerNext == PtrAt(l, h.k + 1);
    forall i {:trigger s'.tasks[l'[i]]} | 0 <= i < |l'| ensures s'.tasks[l'[i]].timerNext == PtrAt(l', i + 1) {
      var j := if i < h.k then i else i + 1;
      UnlinkedNext(s, prev, p, l[j]);
      assert s.tasks[l[j]].timerNext == PtrAt(l, j + 1);
    }
  }

  lemma UnlinkedList(s: State, h: History, prev: Ptr, p: nat, s': State)
    requires Shape(s, h) && TimerListOk(s, h) && h.k < |h.tl| && h.tl[h.k] == p && prev == PrevOf(h)
    requires s' == Unlink(s, prev, p) && Shape(s', Forget(h))
    ensures TimerListOk(s', Forget(h))
  {
    hide Unlink, Forget, TimerListOk;
    Unlinked(s, h, prev, p, s');
    UnlinkedChain(s, h, prev, p, s');
    UnlinkedBits(s, h, p, s');
    ListIs(s', Forget(h));
  }

  lemma ListIs(s: State, h: History)
    requires Shape(s, h) && s.timerHead == PtrAt(h.tl, 0) && InRange(s, h.tl)
    requires forall i {:trigger s.tasks[h.tl[i]]} | 0 <= i < |h.tl| :: s.tasks[h.tl[i]].timerNext == PtrAt(h.tl, i + 1)
    requires forall i, j | 0 <= i < j < |h.tl| :: h.tl[i] != h.tl[j]
    requires forall t | 0 <= t < |s.tasks| :: s.tasks[t].state.timerQueued <==> t in h.tl
    ensures TimerListOk(s, h)
  {
  }

  lemma UnlinkedBits(s: State, h: History, p: nat, s': State)
    requires Shape(s, h) && TimerListOk(s, h) && h.k < |h.tl| && h.tl[h.k] == p && |s'.tasks| == |s.tasks|
    requires forall t | 0 <= t < |s.tasks| :: s'.tasks[t].state.timerQueued == (t != p && s.tasks[t].state.timerQueued)
    ensures forall t | 0 <= t < |s'.tasks| :: s'.tasks[t].state.timerQueued <==> t in Forget(h).tl
    ensures forall i, j | 0 <= i < j < |Forget(h).tl| :: Forget(h).tl[i] != Forget(h).tl[j]
  {
    Forgotten(h);
    forall t | 0 <= t < |s.tasks| ensures s'.tasks[t].state.timerQueued <==> t in Forget(h).tl { MemberAfterForget(h, t); }
  }

  lemma MemberAfterForget(h: History, t: nat)
    requires h.k < |h.tl|
    requires forall i, j | 0 <= i < j < |h.tl| :: h.tl[i] != h.tl[j]
    ensures t in Forget(h).tl <==> t in h.tl && t != h.tl[h.k]
  {
    if t in h.tl && t != h.tl[h.k] {
      var i :| 0 <= i < |h.tl| && h.tl[i] == t;
      assert Forget(h).tl[if i < h.k then i else i - 1] == t;
    }
  }

  // The deadlines after a step of retain: it removes at most p, which needs no timer any more.
  lemma DeadlinesInRetain(s: State, h: History, s': State, h': History, p: nat)
    requires Shape(s, h) && Shape(s', h') && |s'.tasks| == |s.tasks| && h'.reg == h.reg && p < |s.tasks|
    requires !s.pc.ToPoll? && Visiting(s.pc).None? && !s'.pc.ToPoll? && Visiting(s'.pc).None?
    requires forall t | 0 <= t < |s.tasks| :: DeadlineOk(s, h, t)
    requires forall t | 0 <= t < |s.tasks| ::
              && s'.tasks[t].expiresAt == s.tasks[t].expiresAt && s'.tasks[t].state.spawned == s.tasks[t].state.spawned
              && s'.tasks[t].state.runQueued == s.tasks[t].state.runQueued
              && (t != p ==> s'.tasks[t].state.timerQueued == s.tasks[t].state.timerQueued)
    requires s.tasks[p].expiresAt == MAX || s.tasks[p].state.runQueued || !s.tasks[p].state.spawned
             || s'.tasks[p].state.timerQueued == s.tasks[p].state.timerQueued
    ensures forall t | 0 <= t < |s'.tasks| :: DeadlineOk(s', h', t)
  {
    forall t | 0 <= t < |s'.tasks| ensures DeadlineOk(s', h', t) { assert DeadlineOk(s, h, t); }
  }

  lemma RetainUnlinked(s: State, h: History, s': State, h': History)
    requires Shape(s, h) && InRange(s, h.tl) && RetainOk(s, h)
    requires Shape(s', h') && InRange(s', h'.tl) && |s'.tasks| == |s.tasks| && s'.agents == s.agents && s'.now == s.now
    requires forall t | 0 <= t < |s.tasks| :: s'.tasks[t].expiresAt == s.tasks[t].expiresAt
    requires h.k < |h.tl| && h' == Forget(h) && PrevOf(h') == PrevOf(h)
    requires || (s.pc.ExpireCall? && s.agents[0] == Idle && s'.pc == Expire(s.pc.prev))
             || (s.pc.Scan? && s.tasks[h.tl[h.k]].expiresAt == MAX && s'.pc == s.pc)
    ensures RetainOk(s', h')
  {
    assert forall i | 0 <= i < h.k :: h'.tl[i] == h.tl[i];
  }

  lemma ListUnlinked(s: State, h: History, e: Event, s': State)
    requires Shape(s, h) && TimerListOk(s, h) && RetainOk(s, h) && Step(s, e) == Some(s') && Shape(s', After(s, h, e))
    requires e.ExpireUnlink? || (e.ScanVisit? && Cell(s, s.pc.prev).To? && s.tasks[Cell(s, s.pc.prev).id].expiresAt == MAX)
    ensures h.k < |h.tl| && After(s, h, e) == Forget(h) && TimerListOk(s', Forget(h))
  {
    hide Unlink, Forget, Step, TimerListOk, RetainOk;
    UnlinkStep(s, h, e, s');
    var u := Unlink(s, s.pc.prev, h.tl[h.k]);
    Unlinked(s, h, s.pc.prev, h.tl[h.k], u);
    Forgotten(h);
    UnlinkedList(s, h, s.pc.prev, h.tl[h.k], u);
    ListSame(u, Forget(h), s', Forget(h));
  }

  lemma RestUnlinked(s: State, h: History, e: Event, s': State)
    requires Shape(s, h) && TimerInv(s, h) && Step(s, e) == Some(s') && Shape(s', After(s, h, e))
    requires e.ExpireUnlink? || (e.ScanVisit? && Cell(s, s.pc.prev).To? && s.tasks[Cell(s, s.pc.prev).id].expiresAt == MAX)
    ensures h.k < |h.tl| && After(s, h, e) == Forget(h) && InRange(s', Forget(h).tl) && RetainOk(s', Forget(h))
    ensures forall t | 0 <= t < |s'.tasks| :: DeadlineOk(s', Forget(h), t)
    ensures !s'.pc.Took? && !s'.pc.ToPoll?
  {
    hide Unlink, Forget, Step, TimerListOk, RetainOk, DeadlineOk;
    UnlinkStep(s, h, e, s');
    var p := h.tl[h.k];
    Unlinked(s, h, s.pc.prev, p, Unlink(s, s.pc.prev, p));
    Forgotten(h);
    RetainUnlinked(s, h, s', Forget(h));
    DeadlinesInRetain(s, h, s', Forget(h), p);
  }

  lemma TimerUnlink(s: State, h: History, e: Event, s': State)
    requires Shape(s, h) && TimerInv(s, h) && Step(s, e) == Some(s') && Shape(s', After(s, h, e))
    requires e.ExpireUnlink? || (e.ScanVisit? && Cell(s, s.pc.prev).To? && s.tasks[Cell(s, s.pc.prev).id].expiresAt == MAX)
    ensures TimerInv(s', After(s, h, e))
  {
    hide Step, Forget, TimerListOk, RetainOk, DeadlineOk;
    ListUnlinked(s, h, e, s');
    RestUnlinked(s, h, e, s');
  }

  lemma UnlinkStep(s: State, h: History, e: Event, s': State)
    requires Shape(s, h) && TimerListOk(s, h) && RetainOk(s, h) && Step(s, e) == Some(s')
    requires e.ExpireUnlink? || (e.ScanVisit? && Cell(s, s.pc.prev).To? && s.tasks[Cell(s, s.pc.prev).id].expiresAt == MAX)
    ensures InRange(s, h.tl) && h.k < |h.tl| && s.pc.prev == PrevOf(h) && After(s, h, e) == Forget(h)
    ensures s' == Unlink(s, s.pc.prev, h.tl[h.k]).(pc := s'.pc)
    ensures s.pc.ExpireCall? ==> s.tasks[h.tl[h.k]].state.runQueued || !s.tasks[h.tl[h.k]].state.spawned
    ensures || (s.pc.ExpireCall? && s.agents[0] == Idle && s'.pc == Expire(s.pc.prev))
            || (s.pc.Scan? && s.tasks[h.tl[h.k]].expiresAt == MAX && s'.pc == s.pc)
  {
    CursorCell(s, h);
  }

  lemma ListSame(s: State, h: History, s': State, h': History)
    requires Shape(s, h) && TimerListOk(s, h) && Shape(s', h')
    requires s'.tasks == s.tasks && s'.timerHead == s.timerHead && h'.tl == h.tl
    ensures TimerListOk(s', h')
  {
  }

  // retain passes an element, or ends.
  ghost predicate Visited(s: State, h: History, s': State, h': History) {
    && s'.tasks == s.tasks && s'.timerHead == s.timerHead && h'.tl == h.tl && h'.reg == h.reg
    && !s'.pc.ToPoll? && !s'.pc.Took? && Visiting(s'.pc).None?
    && (Shape(s', h') ==> InRange(s', h'.tl) && RetainOk(s', h'))
  }

  lemma VisitExpire(s: State, h: History, s': State)
    requires Shape(s, h) && InRange(s, h.tl) && RetainOk(s, h) && Step(s, ExpireVisit) == Some(s')
    requires s.pc.Expire? && Cell(s, PrevOf(h)) == PtrAt(h.tl, h.k)
    ensures Visited(s, h, s', After(s, h, ExpireVisit))
  {
  }

  lemma VisitScan(s: State, h: History, s': State)
    requires Shape(s, h) && InRange(s, h.tl) && RetainOk(s, h) && Step(s, ScanVisit) == Some(s')
    requires Cell(s, s.pc.prev).To? ==> s.tasks[Cell(s, s.pc.prev).id].expiresAt < MAX
    requires s.pc.Scan? && Cell(s, PrevOf(h)) == PtrAt(h.tl, h.k)
    ensures Visited(s, h, s', After(s, h, ScanVisit))
  {
  }

  lemma TimerVisit(s: State, h: History, e: Event, s': State)
    requires Shape(s, h) && TimerInv(s, h) && Step(s, e) == Some(s') && Shape(s', After(s, h, e))
    requires e.ExpireVisit? || e.ScanVisit?
    requires e.ScanVisit? && Cell(s, s.pc.prev).To? ==> s.tasks[Cell(s, s.pc.prev).id].expiresAt != MAX
    ensures TimerInv(s', After(s, h, e))
  {
    var h' := After(s, h, e);
    CursorCell(s, h);
    if Cell(s, s.pc.prev).To? { assert DeadlineOk(s, h, h.tl[h.k]); }
    if e.ExpireVisit? { VisitExpire(s, h, s'); } else { VisitScan(s, h, s'); }
    ListSame(s, h, s', h');
    if s.tasks != [] { DeadlinesInRetain(s, h, s', h', 0); }
  }

  // Steps outside retain that leave the timer list alone.
  lemma TimerQuiet(s: State, h: History, e: Event, s': State)
    requires Shape(s, h) && TimerInv(s, h) && Step(s, e) == Some(s') && Shape(s', After(s, h, e))
    requires e.Enter? || e.Swap? || e.AlarmSet?
    ensures TimerInv(s', After(s, h, e))
  {
    forall t | 0 <= t < |s'.tasks| ensures DeadlineOk(s', After(s, h, e), t) { assert DeadlineOk(s, h, t); }
  }

  lemma TimerPoll(s: State, h: History, e: Event, s': State)
    requires Shape(s, h) && TimerInv(s, h) && Step(s, e) == Some(s') && Shape(s', After(s, h, e))
    requires e.BeginPoll? || e.PollPending? || e.PollReady? || e.ClearSpawned?
    ensures TimerInv(s', After(s, h, e))
  {
    forall t | 0 <= t < |s'.tasks| ensures DeadlineOk(s', After(s, h, e), t) { assert DeadlineOk(s, h, t); }
  }

  lemma TimerTake(s: State, h: History, s': State)
    requires Shape(s, h) && RunInv(s, h) && TimerInv(s, h) && Step(s, Take) == Some(s') && Shape(s', After(s, h, Take))
    ensures TimerInv(s', After(s, h, Take))
  {
    if s.pc.cur.To? { assert PlaceOk(s, h, h.rest[|h.rest| - 1]); }
    forall t | 0 <= t < |s'.tasks| ensures DeadlineOk(s', After(s, h, Take), t) { assert DeadlineOk(s, h, t); }
  }

  lemma TimerClear(s: State, h: History, s': State)
    requires Shape(s, h) && RunInv(s, h) && TimerInv(s, h)
    requires Step(s, ClearRunQueued) == Some(s') && Shape(s', After(s, h, ClearRunQueued))
    ensures TimerInv(s', After(s, h, ClearRunQueued))
  {
    forall t | 0 <= t < |s'.tasks| ensures DeadlineOk(s', After(s, h, ClearRunQueued), t) { assert DeadlineOk(s, h, t); }
  }

  lemma TimerRegister(s: State, h: History, at: nat, s': State)
    requires Shape(s, h) && RunInv(s, h) && TimerInv(s, h)
    requires Step(s, RegisterTimer(at)) == Some(s') && Shape(s', After(s, h, RegisterTimer(at)))
    ensures TimerInv(s', After(s, h, RegisterTimer(at)))
  {
    var h' := After(s, h, RegisterTimer(at));
    forall t | 0 <= t < |s'.tasks| ensures DeadlineOk(s', h', t) {
      assert DeadlineOk(s, h, t);
      if t == s.pc.t {
        assert h'.reg[t] == h.reg[t] + [at];
        assert h'.reg[t][|h.reg[t]|] == at;
      }
    }
  }

  lemma TimerBatch(s: State, h: History, e: Event, s': State)
    requires Shape(s, h) && RunInv(s, h) && TimerInv(s, h) && Step(s, e) == Some(s') && Shape(s', After(s, h, e))
    requires e.Take? || e.ClearRunQueued? || e.RegisterTimer?
    ensures TimerInv(s', After(s, h, e))
  {
    match e
    case Take => TimerTake(s, h, s');
    case ClearRunQueued => TimerClear(s, h, s');
    case RegisterTimer(at) => TimerRegister(s, h, at, s');
  }

  lemma TimerUpdate(s: State, h: History, s': State)
    requires Shape(s, h) && TimerInv(s, h) && Step(s, UpdateTimer) == Some(s') && Shape(s', After(s, h, UpdateTimer))
    ensures TimerInv(s', After(s, h, UpdateTimer))
  {
    var h' := After(s, h, UpdateTimer);
    assert DeadlineOk(s, h, s.pc.t);
    forall t | 0 <= t < |s'.tasks| ensures DeadlineOk(s', h', t) { assert DeadlineOk(s, h, t); }
    ListUpdated(s, h, s');
  }

  lemma ListUpdated(s: State, h: History, s': State)
    requires Shape(s, h) && TimerListOk(s, h) && Step(s, UpdateTimer) == Some(s') && Shape(s', After(s, h, UpdateTimer))
    ensures TimerListOk(s', After(s, h, UpdateTimer))
  {
    var h' := After(s, h, UpdateTimer);
    if h' != h {
      forall i {:trigger s'.tasks[h'.tl[i]]} | 0 <= i < |h'.tl| ensures s'.tasks[h'.tl[i]].timerNext == PtrAt(h'.tl, i + 1) {
        if i > 0 { assert h'.tl[i] == h.tl[i - 1]; assert s.tasks[h.tl[i - 1]].timerNext == PtrAt(h.tl, i); }
      }
      forall t | 0 <= t < |s'.tasks| ensures s'.tasks[t].state.timerQueued <==> t in h'.tl {}
    }
  }

  lemma TimerKept(s: State, h: History, e: Event, s': State)
    requires Shape(s, h) && RunInv(s, h) && TimerInv(s, h) && Step(s, e) == Some(s') && Shape(s', After(s, h, e))
    ensures TimerInv(s', After(s, h, e))
  {
    if IsAgentEvent(e) { TimerAgent(s, h, e, s'); }
    else if e.UpdateTimer? { TimerUpdate(s, h, s'); }
    else if e.Take? || e.ClearRunQueued? || e.RegisterTimer? { TimerBatch(s, h, e, s'); }
    else if e.ExpireUnlink? { TimerUnlink(s, h, e, s'); }
    else if e.ScanVisit? && Cell(s, s.pc.prev).To? && s.tasks[Cell(s, s.pc.prev).id].expiresAt == MAX { TimerUnlink(s, h, e, s'); }
    else if e.ScanVisit? || e.ExpireVisit? { TimerVisit(s, h, e, s'); }
    else if e.Enter? || e.Swap? || e.AlarmSet? { TimerQuiet(s, h, e, s'); }
    else { TimerPoll(s, h, e, s'); }
  }

  lemma InvInit(s: State)
    requires Init(s)
    ensures Inv(s, InitHistory(s))
  {
    var h := InitHistory(s);
    forall t | 0 <= t < |s.tasks| ensures PlaceOk(s, h, t) && SlotOk(s, h, t) && DeadlineOk(s, h, t) {}
  }

  // Every step of the executor and of every agent keeps the invariant.
  lemma StepKeepsInv(s: State, h: History, e: Event, s': State)
    requires Inv(s, h) && Step(s, e) == Some(s')
    ensures Inv(s', After(s, h, e))
  {
    RunKept(s, h, e, s');
    SignalKept(s, h, e, s');
    LifeKept(s, h, e, s');
    TimerKept(s, h, e, s');
  }
}
