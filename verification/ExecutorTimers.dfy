/** From a registered deadline to the poll it causes. */
module ExecutorTimers {
  import opened Basics
  import opened ExecutorModel
  import opened ExecutorInv
  import opened ExecutorSteps
  import opened ExecutorRuns
  import opened ExecutorFairness
  import Timers

  ghost predicate SpawnedAt(r: Run, i: nat, t: nat)
    requires IsRun(r) && i < |r.states| && t < |r.states[0].tasks|
  {
    SlotCount(r, i);
    r.states[i].tasks[t].state.spawned
  }

  ghost predicate RunQueuedAt(r: Run, i: nat, t: nat)
    requires IsRun(r) && i < |r.states| && t < |r.states[0].tasks|
  {
    SlotCount(r, i);
    r.states[i].tasks[t].state.runQueued
  }

  ghost function Deadlines(r: Run, i: nat, t: nat): seq<nat>
    requires IsRun(r) && i < |r.states| && t < |r.states[0].tasks|
  {
    SlotCount(r, i);
    Registered(r, i, t)
  }

  lemma BeforeSwapStep(s: State, h: History, e: Event, s': State, h': History, t: nat)
    requires Inv(s, h) && Step(s, e) == Some(s') && h' == After(s, h, e) && t < |s.tasks|
    requires BeforeSwap(s.pc) && !e.Swap?
    ensures BeforeSwap(s'.pc) && s'.now == s.now && s'.hasAlarm == s.hasAlarm && h'.reg == h.reg && |s'.tasks| == |s.tasks|
    ensures s.tasks[t].state.spawned ==> s'.tasks[t].state.spawned
    ensures s.tasks[t].state.spawned && NotYetSpawned(s', t) ==> NotYetSpawned(s, t)
  {
    if IsAgentEvent(e) {
      assert AgentOk(s, h, e.a);
      AgentStepBeforeSwap(s, h, e, s', t);
    } else {
      WalkStep(s, h, e, s', t);
    }
  }

  lemma AgentStepBeforeSwap(s: State, h: History, e: Event, s': State, t: nat)
    requires Shape(s, h) && Step(s, e) == Some(s') && t < |s.tasks| && IsAgentEvent(e) && e.a < |s.agents| && AgentOk(s, h, e.a)
    ensures s'.pc == s.pc && s'.now == s.now && s'.hasAlarm == s.hasAlarm && After(s, h, e).reg == h.reg
    ensures |s'.tasks| == |s.tasks|
    ensures s.tasks[t].state.spawned ==> s'.tasks[t].state.spawned
    ensures s.tasks[t].state.spawned && NotYetSpawned(s', t) ==> NotYetSpawned(s, t)
  {
    AgentTouches(s, e, s');
    SpawnedByAllocation(s, h, e, s', t);
    if s.tasks[t].state.spawned { UnspawnedStep(s, h, e, s', t); }
  }

  lemma WalkClock(s: State, h: History, e: Event, s': State)
    requires Shape(s, h) && Step(s, e) == Some(s') && !IsAgentEvent(e) && BeforeSwap(s.pc) && !e.Swap?
    ensures WalksTimers(e) && BeforeSwap(s'.pc) && s'.now == s.now && s'.hasAlarm == s.hasAlarm && After(s, h, e).reg == h.reg
  {
  }

  lemma WalkStep(s: State, h: History, e: Event, s': State, t: nat)
    requires Shape(s, h) && Step(s, e) == Some(s') && t < |s.tasks| && !IsAgentEvent(e)
    requires BeforeSwap(s.pc) && !e.Swap?
    ensures BeforeSwap(s'.pc) && s'.now == s.now && s'.hasAlarm == s.hasAlarm && After(s, h, e).reg == h.reg
    ensures |s'.tasks| == |s.tasks| && s'.tasks[t].state.spawned == s.tasks[t].state.spawned
    ensures NotYetSpawned(s', t) ==> NotYetSpawned(s, t)
  {
    hide Step, After;
    WalkClock(s, h, e, s');
    WalkTouches(s, e, s');
    if NotYetSpawned(s', t) {
      var a :| 0 <= a < |s'.agents| && Unspawned(s'.agents[a]) && s'.agents[a].t == t;
      assert s'.agents[a] == s.agents[a];
    }
  }

  // Only an allocation makes an agent hold a task that is not yet spawned.
  lemma UnspawnedBefore(s: State, e: Event, s': State)
    requires Step(s, e) == Some(s') && IsAgentEvent(e) && e.a < |s.agents| == |s'.agents|
    requires Unspawned(s'.agents[e.a]) && s'.agents[e.a].t < |s.tasks| && s.tasks[s'.agents[e.a].t].state.spawned
    ensures Unspawned(s.agents[e.a]) && s.agents[e.a].t == s'.agents[e.a].t
  {
    assert e.AllocSlot? || e.WriteFuture?;
  }

  lemma UnspawnedStep(s: State, h: History, e: Event, s': State, t: nat)
    requires Shape(s, h) && Step(s, e) == Some(s') && IsAgentEvent(e) && t < |s.tasks| && s.tasks[t].state.spawned
    requires |s'.agents| == |s.agents| && forall b | 0 <= b < |s.agents| && b != e.a :: s'.agents[b] == s.agents[b]
    ensures NotYetSpawned(s', t) ==> NotYetSpawned(s, t)
  {
    if NotYetSpawned(s', t) {
      var a :| 0 <= a < |s'.agents| && Unspawned(s'.agents[a]) && s'.agents[a].t == t;
      if a == e.a { UnspawnedBefore(s, e, s'); }
      assert Unspawned(s.agents[a]) && s.agents[a].t == t;
    }
  }

  lemma BeforeSwapStepAt(r: Run, i: nat, t: nat)
    requires IsRun(r) && i < |r.events| && t < |r.states[0].tasks|
    requires BeforeSwap(r.states[i].pc) && !r.events[i].Swap?
    ensures BeforeSwap(r.states[i + 1].pc) && r.states[i + 1].now == r.states[i].now
    ensures r.states[i + 1].hasAlarm == r.states[i].hasAlarm
    ensures Deadlines(r, i + 1, t) == Deadlines(r, i, t)
    ensures SpawnedAt(r, i, t) ==> SpawnedAt(r, i + 1, t)
    ensures SpawnedAt(r, i, t) && NotYetSpawned(r.states[i + 1], t) ==> NotYetSpawned(r.states[i], t)
  {
    SlotCount(r, i);
    NextHistory(r, i);
    InvAlways(r, i);
    BeforeSwapStep(r.states[i], r.hist[i], r.events[i], r.states[i + 1], r.hist[i + 1], t);
  }

  lemma EnterStepAt(r: Run, i: nat, t: nat)
    requires IsRun(r) && i < |r.events| && t < |r.states[0].tasks| && r.events[i].Enter?
    ensures BeforeSwap(r.states[i + 1].pc) && r.states[i + 1].now == r.events[i].now
    ensures r.states[i + 1].hasAlarm == r.states[i].hasAlarm
    ensures Deadlines(r, i + 1, t) == Deadlines(r, i, t)
    ensures SpawnedAt(r, i, t) ==> SpawnedAt(r, i + 1, t)
    ensures SpawnedAt(r, i, t) && NotYetSpawned(r.states[i + 1], t) ==> NotYetSpawned(r.states[i], t)
  {
    SlotCount(r, i);
    NextHistory(r, i);
  }

  lemma UntilSwap(r: Run, i: nat, k: nat, t: nat)
    requires IsRun(r) && i < k < |r.states| && t < |r.states[0].tasks| && r.events[i].Enter?
    requires forall x | i < x < k :: r.events[x] != Swap
    ensures BeforeSwap(r.states[k].pc) && r.states[k].now == r.events[i].now
    ensures r.states[k].hasAlarm == r.states[i].hasAlarm
    ensures Deadlines(r, k, t) == Deadlines(r, i, t)
    ensures SpawnedAt(r, i, t) ==> SpawnedAt(r, k, t)
    ensures SpawnedAt(r, i, t) && NotYetSpawned(r.states[k], t) ==> NotYetSpawned(r.states[i], t)
    decreases k
  {
    if k == i + 1 { EnterStepAt(r, i, t); }
    else { UntilSwap(r, i, k - 1, t); BeforeSwapStepAt(r, k - 1, t); }
  }

  lemma NothingDueAtSwap(s: State, h: History, t: nat, d: nat)
    requires Inv(s, h) && s.pc == ToSwap && s.hasAlarm && t < |s.tasks|
    requires s.tasks[t].state.spawned && d in h.reg[t] && d <= s.now && d < MAX
    ensures s.tasks[t].state.runQueued
  {
    assert DeadlineOk(s, h, t);
  }

  // run_queued entered at or after a deadline of a live idle task has put the task back into the run
  // queue by the time it takes the list.
  lemma {:induction false} DueTasksAreQueued(r: Run, i: nat, w: nat, t: nat, d: nat)
    requires IsRun(r) && i < w < |r.events| && t < |r.states[0].tasks|
    requires r.events[i].Enter? && r.states[i].hasAlarm && r.events[w] == Swap
    requires forall x | i < x < w :: r.events[x] != Swap
    requires SpawnedAt(r, i, t) && d in Deadlines(r, i, t) && d <= r.events[i].now && d < MAX
    ensures RunQueuedAt(r, w, t) && SpawnedAt(r, w, t)
  {
    UntilSwap(r, i, w, t);
    InvAlways(r, w);
    NextHistory(r, w);
    SlotCount(r, w);
    NothingDueAtSwap(r.states[w], r.hist[w], t, d);
  }

  // t waits in the batch and is live, or is about to be polled.
  ghost predicate WillBePolled(r: Run, i: nat, t: nat)
    requires IsRun(r) && i < |r.states| && t < |r.states[0].tasks|
  {
    (PlaceAt(r, i, t).InBatch? && SpawnedAt(r, i, t)) || AboutToPoll(r.states[i], t)
  }

  lemma DueStep(s: State, h: History, e: Event, s': State, t: nat)
    requires Inv(s, h) && Step(s, e) == Some(s') && t < |s.tasks| == |s'.tasks|
    ensures h.place[t].InBatch? && s.tasks[t].state.spawned ==> s'.tasks[t].state.spawned
    ensures Dequeues(s, e, t) && s.tasks[t].state.spawned ==> AboutToPoll(s', t)
    ensures AboutToPoll(s, t) && !PollBegins(s, e, t) ==> AboutToPoll(s', t)
    ensures InBatchLoop(s.pc) ==> s'.now == s.now
  {
    if IsAgentEvent(e) {
      AgentTouches(s, e, s');
      assert AgentOk(s, h, e.a);
      SpawnedByAllocation(s, h, e, s', t);
    } else {
      SpawnedKept(s, e, s', t);
    }
  }

  lemma WillBePolledStep(r: Run, i: nat, t: nat)
    requires IsRun(r) && i < |r.events| && t < |r.states[0].tasks| && WillBePolled(r, i, t)
    ensures PollBegins(r.states[i], r.events[i], t) || WillBePolled(r, i + 1, t)
    ensures InBatchLoop(r.states[i].pc) && r.states[i + 1].now == r.states[i].now
  {
    SlotCount(r, i);
    SlotCount(r, i + 1);
    NextHistory(r, i);
    PlaceStepAt(r, i, t);
    InvAlways(r, i);
    DueStep(r.states[i], r.hist[i], r.events[i], r.states[i + 1], t);
  }

  lemma PolledBeforeBatchEnds(r: Run, i: nat, j: nat, t: nat)
    requires IsRun(r) && i <= j < |r.states| && t < |r.states[0].tasks|
    requires WillBePolled(r, i, t) && !InBatchLoop(r.states[j].pc)
    ensures exists k | i <= k < j :: PollBegins(r.states[k], r.events[k], t) && r.states[k].now == r.states[i].now
    decreases j - i
  {
    if i == j {
      RestOutsideBatch(r, j);
      RunInvAlways(r, j);
      SlotCount(r, j);
      PlaceIsOne(r.states[j], r.hist[j], t);
    } else {
      WillBePolledStep(r, i, t);
      if !PollBegins(r.states[i], r.events[i], t) { PolledBeforeBatchEnds(r, i + 1, j, t); }
    }
  }

  // A task that is not in the list taken is not polled before the next swap.
  lemma {:induction false} NotTakenNotPolled(r: Run, w: nat, j: nat, t: nat)
    requires IsRun(r) && w < j < |r.states| && t < |r.states[0].tasks|
    requires r.events[w] == Swap && forall x | w < x < j :: r.events[x] != Swap
    requires !PlaceAt(r, w, t).InHead?
    ensures !PlaceAt(r, j, t).InBatch? && !AboutToPoll(r.states[j], t)
    ensures forall k | w < k < j :: !PollBegins(r.states[k], r.events[k], t)
    decreases j
  {
    PlaceStepAt(r, j - 1, t);
    if j > w + 1 { NotTakenNotPolled(r, w, j - 1, t); }
  }

  lemma ClockMonotone(r: Run, i: nat, k: nat)
    requires IsRun(r) && i <= k < |r.states|
    ensures r.states[i].now <= r.states[k].now
    decreases k
  {
    if i < k {
      ClockMonotone(r, i, k - 1);
      NextHistory(r, k - 1);
      ClockStep(r.states[k - 1], r.events[k - 1], r.states[k]);
    }
  }

  lemma ClockStep(s: State, e: Event, s': State)
    requires Step(s, e) == Some(s')
    ensures s.now <= s'.now
  {
    if IsAgentEvent(e) { AgentTouches(s, e, s'); }
  }

  // A due idle task is in the list that run_queued takes or held by an agent that has set RUN_QUEUED and is still to
  // push it.  It is polled in that call exactly in the first case, and then its pending Timer::at(d) answers Ready.
  lemma {:induction false} TimerEndToEnd(r: Run, i: nat, w: nat, j: nat, t: nat, d: nat)
    requires IsRun(r) && i < w < j < |r.states| && t < |r.states[0].tasks|
    requires r.events[i].Enter? && r.states[i].hasAlarm && r.events[w] == Swap
    requires forall x | i < x < w :: r.events[x] != Swap
    requires forall x | w < x < j :: r.events[x] != Swap
    requires !InBatchLoop(r.states[j].pc)
    requires SpawnedAt(r, i, t) && !RunQueuedAt(r, i, t)
    requires d in Deadlines(r, i, t) && d <= r.events[i].now && d < MAX
    ensures PlaceAt(r, w, t).InHead? <==> !InFlight(r.states[w], t)
    ensures PlaceAt(r, w, t).InHead? <==> exists k | w < k < j :: PollBegins(r.states[k], r.events[k], t)
    ensures forall k | w < k < j && PollBegins(r.states[k], r.events[k], t) :: Timers.TimerReady(d, true, r.states[k].now)
  {
    DueTasksAreQueued(r, i, w, t, d);
    UntilSwap(r, i, w, t);
    WhereAtSwap(r, i, w, t);
    if PlaceAt(r, w, t).InHead? {
      PlaceStepAt(r, w, t);
      SwapKeepsSpawned(r, w, t);
      PolledBeforeBatchEnds(r, w + 1, j, t);
    } else {
      NotTakenNotPolled(r, w, j, t);
    }
    forall k | w < k < j && PollBegins(r.states[k], r.events[k], t) ensures Timers.TimerReady(d, true, r.states[k].now) {
      ClockMonotone(r, w, k);
    }
  }

  // A task that was idle when run_queued was entered and is RUN_QUEUED at its swap.
  lemma WhereAtSwap(r: Run, i: nat, w: nat, t: nat)
    requires IsRun(r) && i < w < |r.events| && t < |r.states[0].tasks| && r.events[w] == Swap
    requires SpawnedAt(r, i, t) && !RunQueuedAt(r, i, t) && RunQueuedAt(r, w, t)
    requires NotYetSpawned(r.states[w], t) ==> NotYetSpawned(r.states[i], t)
    ensures PlaceAt(r, w, t).InHead? <==> !InFlight(r.states[w], t)
  {
    SlotCount(r, i);
    RunInvAlways(r, i);
    PlaceIsOne(r.states[i], r.hist[i], t);
    SlotCount(r, w);
    HeldIfNotInHead(r, w, t);
    RunInvAlways(r, w);
    PlaceIsOne(r.states[w], r.hist[w], t);
  }

  lemma SwapKeepsSpawned(r: Run, w: nat, t: nat)
    requires IsRun(r) && w < |r.events| && r.events[w] == Swap && t < |r.states[0].tasks| && SpawnedAt(r, w, t)
    ensures SpawnedAt(r, w + 1, t) && r.states[w + 1].now == r.states[w].now
  {
    SlotCount(r, w);
    SlotCount(r, w + 1);
    NextHistory(r, w);
  }

  // At a swap, a live RUN_QUEUED task that has run before is in the head list or held by an enqueuer.
  lemma HeldIfNotInHead(r: Run, w: nat, t: nat)
    requires IsRun(r) && w < |r.events| && r.events[w] == Swap && t < |r.states[0].tasks| && RunQueuedAt(r, w, t)
    ensures PlaceAt(r, w, t).InHead? || InFlight(r.states[w], t) || NotYetSpawned(r.states[w], t)
  {
    SlotCount(r, w);
    RunInvAlways(r, w);
    NoBatchAtSwap(r, w, t);
    assert PlaceOk(r.states[w], r.hist[w], t);
  }
}
