/** Safety of the executor over whole runs, for any number of tasks and agents and any interleaving. */
module ExecutorRuns {
  import opened Basics
  import opened ExecutorModel
  import opened ExecutorInv
  import opened ExecutorSteps

  // A run, with the history variables alongside.
  datatype Run = Run(states: seq<State>, events: seq<Event>, hist: seq<History>)

  ghost predicate IsRun(r: Run) {
    && |r.states| == |r.events| + 1 == |r.hist|
    && Init(r.states[0]) && r.hist[0] == InitHistory(r.states[0])
    && forall i | 0 <= i < |r.events| :: StepAt(r, i)
  }

  ghost predicate StepAt(r: Run, i: nat)
    requires |r.states| == |r.events| + 1 == |r.hist| && i < |r.events|
  {
    && Step(r.states[i], r.events[i]) == Some(r.states[i + 1])
    && |r.hist[i].place| == |r.states[i].tasks| == |r.hist[i].reg|
    && r.hist[i + 1] == After(r.states[i], r.hist[i], r.events[i])
  }

  // Every sequence of steps is a run: the history variables restrict nothing.
  lemma {:induction false} HistoryExists(states: seq<State>, events: seq<Event>) returns (r: Run)
    requires |states| == |events| + 1 && Init(states[0])
    requires forall i | 0 <= i < |events| :: Step(states[i], events[i]) == Some(states[i + 1])
    ensures IsRun(r) && r.states == states && r.events == events
    ensures |r.hist[|events|].place| == |states[|events|].tasks| == |r.hist[|events|].reg|
    decreases |events|
  {
    var n := |events|;
    if n == 0 {
      r := Run(states, events, [InitHistory(states[0])]);
    } else {
      var before := HistoryExists(states[..n], events[..n - 1]);
      assert Step(states[n - 1], events[n - 1]) == Some(states[n]);
      SameTasks(states[n - 1], before.hist[n - 1], events[n - 1], states[n]);
      r := Run(states, events, before.hist + [After(states[n - 1], before.hist[n - 1], events[n - 1])]);
      forall i | 0 <= i < n ensures StepAt(r, i) {
        if i < n - 1 { assert StepAt(before, i); }
      }
    }
  }

  lemma SameTasks(s: State, h: History, e: Event, s': State)
    requires Step(s, e) == Some(s') && |h.place| == |s.tasks| == |h.reg|
    ensures |s'.tasks| == |s.tasks|
    ensures |After(s, h, e).place| == |h.place| && |After(s, h, e).reg| == |h.reg|
  {
    if IsAgentEvent(e) { AgentTouches(s, e, s'); }
    else if !e.Swap? && !e.ClearRunQueued? { ExecutorTouches(s, e, s'); }
  }

  // The invariant holds after every step of every run.
  lemma {:induction false} InvAlways(r: Run, i: nat)
    requires IsRun(r) && i < |r.states|
    ensures Inv(r.states[i], r.hist[i])
  {
    if i == 0 { InvInit(r.states[0]); }
    else {
      InvAlways(r, i - 1);
      assert StepAt(r, i - 1);
      StepKeepsInv(r.states[i - 1], r.hist[i - 1], r.events[i - 1], r.states[i]);
    }
  }

  lemma SlotCount(r: Run, i: nat)
    requires IsRun(r) && i < |r.states|
    ensures |r.states[i].tasks| == |r.states[0].tasks| == |r.hist[i].place| == |r.hist[i].reg|
  {
    if i > 0 {
      SlotCount(r, i - 1);
      assert StepAt(r, i - 1);
      SameTasks(r.states[i - 1], r.hist[i - 1], r.events[i - 1], r.states[i]);
    }
  }

  lemma NextHistory(r: Run, i: nat)
    requires IsRun(r) && i < |r.events|
    ensures Step(r.states[i], r.events[i]) == Some(r.states[i + 1])
    ensures |r.hist[i].place| == |r.states[i].tasks| == |r.hist[i].reg|
    ensures r.hist[i + 1] == After(r.states[i], r.hist[i], r.events[i])
    ensures |r.states[i + 1].tasks| == |r.states[i].tasks|
  {
    assert StepAt(r, i);
    SameTasks(r.states[i], r.hist[i], r.events[i], r.states[i + 1]);
  }

  /* ---------- who owns RUN_QUEUED ---------- */

  // Following the next pointers from top meets l from its last element to its first, and then ends.
  ghost predicate Linked(s: State, top: Ptr, l: seq<nat>) {
    && InRange(s, l)
    && top == Top(l)
    && (forall i {:trigger s.tasks[l[i]]} | 0 <= i < |l| :: s.tasks[l[i]].runNext == Below(l, i))
    && (forall i, j | 0 <= i < j < |l| :: l[i] != l[j])
  }

  // Where dequeue_all will go on, starting with the task whose bit it has not cleared yet.
  function Unvisited(pc: Pc): Ptr {
    match pc
    case Batch(cur) => cur
    case Took(t, _) => To(t)
    case ToPoll(_, nxt) => nxt
    case Polling(_, nxt) => nxt
    case Dropped(_, nxt) => nxt
    case Updating(_, nxt) => nxt
    case _ => Null
  }

  ghost predicate InFlight(s: State, t: nat) {
    exists a | 0 <= a < |s.agents| :: Holds(s.agents[a]) && !Unspawned(s.agents[a]) && s.agents[a].t == t
  }

  ghost predicate NotYetSpawned(s: State, t: nat) {
    exists a | 0 <= a < |s.agents| :: Unspawned(s.agents[a]) && s.agents[a].t == t
  }

  function Count(b: bool): nat { if b then 1 else 0 }

  // RUN_QUEUED is set iff t is in exactly one of the four places, and in none otherwise.
  ghost predicate OnePlace(s: State, q: seq<nat>, rest: seq<nat>, t: nat)
    requires t < |s.tasks|
  {
    Count(t in q) + Count(t in rest) + Count(InFlight(s, t)) + Count(NotYetSpawned(s, t))
    == Count(s.tasks[t].state.runQueued)
  }

  lemma {:induction false} RunQueuedHasOneOwner(r: Run, i: nat) returns (q: seq<nat>, rest: seq<nat>)
    requires IsRun(r) && i < |r.states|
    ensures Linked(r.states[i], r.states[i].head, q)
    ensures Linked(r.states[i], Unvisited(r.states[i].pc), rest)
    ensures forall t | 0 <= t < |r.states[i].tasks| :: OnePlace(r.states[i], q, rest, t)
    ensures forall a, b | 0 <= a < b < |r.states[i].agents| && Holds(r.states[i].agents[a]) && Holds(r.states[i].agents[b]) ::
              r.states[i].agents[a].t != r.states[i].agents[b].t
  {
    var s, h := r.states[i], r.hist[i];
    InvAlways(r, i);
    q, rest := h.q, h.rest;
    PlacesDiffer(s, h);
    forall t | 0 <= t < |s.tasks| ensures OnePlace(s, q, rest, t) { PlaceIsOne(s, h, t); }
    forall a, b | 0 <= a < b < |s.agents| && Holds(s.agents[a]) && Holds(s.agents[b]) ensures s.agents[a].t != s.agents[b].t {
      assert AgentOk(s, h, a) && AgentOk(s, h, b);
    }
  }

  lemma PlacesDiffer(s: State, h: History)
    requires Shape(s, h) && RunInv(s, h)
    ensures Linked(s, s.head, h.q) && Linked(s, Unvisited(s.pc), h.rest)
  {
    forall i, j | 0 <= i < j < |h.q| ensures h.q[i] != h.q[j] {
      assert h.place[h.q[i]] == InHead(i) && h.place[h.q[j]] == InHead(j);
    }
    forall i, j | 0 <= i < j < |h.rest| ensures h.rest[i] != h.rest[j] {
      assert h.place[h.rest[i]] == InBatch(i) && h.place[h.rest[j]] == InBatch(j);
    }
  }

  lemma PlaceIsOne(s: State, h: History, t: nat)
    requires Shape(s, h) && RunInv(s, h) && t < |s.tasks|
    ensures OnePlace(s, h.q, h.rest, t)
    ensures t in h.q <==> h.place[t].InHead?
    ensures t in h.rest <==> h.place[t].InBatch?
  {
    assert PlaceOk(s, h, t);
    if t in h.q { var i :| 0 <= i < |h.q| && h.q[i] == t; assert h.place[h.q[i]] == InHead(i); }
    if t in h.rest { var i :| 0 <= i < |h.rest| && h.rest[i] == t; assert h.place[h.rest[i]] == InBatch(i); }
    forall a | 0 <= a < |s.agents| && Holds(s.agents[a]) && s.agents[a].t == t ensures h.place[t] == HeldBy(a) {
      assert AgentOk(s, h, a);
    }
    if h.place[t].HeldBy? { assert Holds(s.agents[h.place[t].a]) && s.agents[h.place[t].a].t == t; }
  }

  /* ---------- no lost wake ---------- */

  // The atomic access at which a call of t's enqueue decides, t being spawned at that moment.
  ghost predicate Wakes(s: State, e: Event, s': State, t: nat) {
    && (e.WakeLoad? || e.WakeCas?) && e.a < |s.agents| && e.a < |s'.agents| && t < |s.tasks|
    && (if e.WakeLoad? then e.t == t else s.agents[e.a].Cas? && s.agents[e.a].t == t)
    && s.tasks[t].state.spawned
    && !s'.agents[e.a].Cas?
  }

  ghost predicate PollBegins(s: State, e: Event, t: nat) { e.BeginPoll? && s.pc.ToPoll? && s.pc.t == t }

  // t is queued, about to be polled, or not a live task.
  predicate WakePending(s: State, t: nat)
    requires t < |s.tasks|
  {
    s.tasks[t].state.runQueued || (s.pc.ToPoll? && s.pc.t == t) || !s.tasks[t].state.spawned
  }

  lemma WakePendingKept(s: State, h: History, e: Event, s': State, t: nat)
    requires Inv(s, h) && Step(s, e) == Some(s') && t < |s.tasks| && WakePending(s, t)
    ensures |s'.tasks| == |s.tasks|
    ensures PollBegins(s, e, t) || WakePending(s', t)
  {
    if IsAgentEvent(e) { AgentTouches(s, e, s'); assert AgentOk(s, h, e.a); SpawnedByAllocation(s, h, e, s', t); }
    else if e.Swap? || e.ClearRunQueued? {}
    else { ExecutorTouches(s, e, s'); SpawnedKept(s, e, s', t); }
  }

  lemma SpawnedByAllocation(s: State, h: History, e: Event, s': State, t: nat)
    requires Shape(s, h) && Step(s, e) == Some(s') && IsAgentEvent(e) && t < |s.tasks| == |s'.tasks|
    requires e.a < |s.agents| && AgentOk(s, h, e.a)
    ensures s'.tasks[t].state.spawned && !s.tasks[t].state.spawned ==> s'.tasks[t].state.runQueued
    ensures s.tasks[t].state.spawned ==> s'.tasks[t].state.spawned
  {
    hide Step;
    if e.WakeCas? { SpawnedByWake(s, h, e, s', t); }
    else if StoresTask(e) { SpawnedByStore(s, e, s', t); }
    else { LoadsKeepTasks(s, e, s'); }
  }

  lemma LoadsKeepTasks(s: State, e: Event, s': State)
    requires Step(s, e) == Some(s') && IsAgentEvent(e) && !StoresTask(e)
    ensures s'.tasks == s.tasks
  {
  }

  lemma SpawnedByWake(s: State, h: History, e: Event, s': State, t: nat)
    requires Shape(s, h) && Step(s, e) == Some(s') && e.WakeCas? && t < |s.tasks| == |s'.tasks|
    requires e.a < |s.agents| && AgentOk(s, h, e.a)
    ensures s'.tasks[t].state.spawned == s.tasks[t].state.spawned
  {
  }

  lemma SpawnedByStore(s: State, e: Event, s': State, t: nat)
    requires Step(s, e) == Some(s') && StoresTask(e) && !e.WakeCas? && t < |s.tasks| == |s'.tasks|
    ensures s'.tasks[t].state.spawned && !s.tasks[t].state.spawned ==> s'.tasks[t].state.runQueued
    ensures s.tasks[t].state.spawned ==> s'.tasks[t].state.spawned
  {
  }

  lemma SpawnedKept(s: State, e: Event, s': State, t: nat)
    requires Step(s, e) == Some(s') && !IsAgentEvent(e) && t < |s.tasks| == |s'.tasks|
    ensures s'.tasks[t].state.spawned ==> s.tasks[t].state.spawned
    ensures s.pc.ToPoll? && s.pc.t == t ==> e.BeginPoll?
    ensures s.tasks[t].state.spawned ==> s'.tasks[t].state.spawned || (e.ClearSpawned? && s.pc.t == t)
  {
    if !e.Swap? && !e.ClearRunQueued? && !e.ClearSpawned? && !e.PollReady? { ExecutorTouches(s, e, s'); }
  }

  // Once t has been woken while live, it cannot be live, idle and past the point of being polled,
  // unless a poll of t began after the wake took effect.
  lemma {:induction false} NoLostWake(r: Run, i: nat, j: nat, t: nat)
    requires IsRun(r) && i < j < |r.states| && t < |r.states[i].tasks|
    requires Wakes(r.states[i], r.events[i], r.states[i + 1], t)
    ensures |r.states[j].tasks| == |r.states[i].tasks|
    ensures WakePending(r.states[j], t) || exists k | i < k < j :: PollBegins(r.states[k], r.events[k], t)
    decreases j
  {
    if j == i + 1 {
      WakeTaken(r, i, t);
    } else {
      NoLostWake(r, i, j - 1, t);
      WakeStays(r, j - 1, t);
    }
  }

  lemma WakeStays(r: Run, i: nat, t: nat)
    requires IsRun(r) && i < |r.events| && t < |r.states[i].tasks|
    ensures |r.states[i + 1].tasks| == |r.states[i].tasks|
    ensures WakePending(r.states[i], t) ==> PollBegins(r.states[i], r.events[i], t) || WakePending(r.states[i + 1], t)
  {
    NextHistory(r, i);
    InvAlways(r, i);
    if WakePending(r.states[i], t) { WakePendingKept(r.states[i], r.hist[i], r.events[i], r.states[i + 1], t); }
  }

  lemma WakeTaken(r: Run, i: nat, t: nat)
    requires IsRun(r) && i < |r.events| && t < |r.states[i].tasks|
    requires Wakes(r.states[i], r.events[i], r.states[i + 1], t)
    ensures |r.states[i + 1].tasks| == |r.states[i].tasks| && WakePending(r.states[i + 1], t)
  {
    NextHistory(r, i);
    InvAlways(r, i);
    WakeDecided(r.states[i], r.hist[i], r.events[i], r.states[i + 1], t);
  }

  lemma WakeDecided(s: State, h: History, e: Event, s': State, t: nat)
    requires Inv(s, h) && Step(s, e) == Some(s') && t < |s.tasks| && Wakes(s, e, s', t)
    ensures |s'.tasks| == |s.tasks| && s'.tasks[t].state.runQueued
  {
    assert AgentOk(s, h, e.a);
  }

  /* ---------- no lost signal ---------- */

  lemma {:induction false} NoLostSignal(r: Run, i: nat)
    requires IsRun(r) && i < |r.states|
    ensures r.states[i].head != Null ==> r.states[i].signalled || SignalDue(r.states[i])
    ensures r.states[i].head != Null && r.states[i].pc == Sleeping ==> r.states[i].event || SignalDue(r.states[i])
  {
    InvAlways(r, i);
  }

  /* ---------- slots and futures ---------- */

  // A future is polled, and dropped on Ready, only while it is live: never again after Ready,
  // until a new one is written into the slot.
  lemma {:induction false} PolledFuturesAreLive(r: Run, i: nat)
    requires IsRun(r) && i < |r.events|
    requires r.events[i].BeginPoll? || r.events[i].PollReady?
    ensures var s := r.states[i];
            && (s.pc.ToPoll? || s.pc.Polling?) && s.pc.t < |s.tasks|
            && s.tasks[s.pc.t].live && s.tasks[s.pc.t].state.spawned
  {
    var s, h := r.states[i], r.hist[i];
    InvAlways(r, i);
    NextHistory(r, i);
    assert SlotOk(s, h, s.pc.t);
  }

  // live is written by WriteFuture and PollReady alone.
  lemma {:induction false} FutureLifetime(r: Run, i: nat, t: nat)
    requires IsRun(r) && i < |r.events| && t < |r.states[i].tasks|
    ensures |r.states[i + 1].tasks| == |r.states[i].tasks|
    ensures r.states[i + 1].tasks[t].live && !r.states[i].tasks[t].live ==> r.events[i].WriteFuture?
    ensures !r.states[i + 1].tasks[t].live && r.states[i].tasks[t].live ==>
              r.events[i].PollReady? && r.states[i].pc.Polling? && r.states[i].pc.t == t
  {
    var s, e, s' := r.states[i], r.events[i], r.states[i + 1];
    NextHistory(r, i);
    if IsAgentEvent(e) { AgentLive(s, e, s', t); } else { ExecutorLive(s, e, s', t); }
  }

  lemma AgentLive(s: State, e: Event, s': State, t: nat)
    requires Step(s, e) == Some(s') && IsAgentEvent(e) && t < |s.tasks| == |s'.tasks|
    ensures s'.tasks[t].live == s.tasks[t].live || (e.WriteFuture? && s'.tasks[t].live)
  {
  }

  lemma ExecutorLive(s: State, e: Event, s': State, t: nat)
    requires Step(s, e) == Some(s') && !IsAgentEvent(e) && t < |s.tasks| == |s'.tasks|
    ensures s'.tasks[t].live == s.tasks[t].live
            || (e.PollReady? && !s'.tasks[t].live && s.pc.Polling? && s.pc.t == t)
  {
    if !e.Swap? && !e.ClearRunQueued? && !e.ClearSpawned? && !e.PollReady? { ExecutorTouches(s, e, s'); }
  }

  // A slot is handed out only when it holds no future, is in neither queue, and no agent is about to push it.
  lemma {:induction false} AllocatedSlotsAreFree(r: Run, i: nat, t: nat) returns (q: seq<nat>, rest: seq<nat>, tl: seq<nat>)
    requires IsRun(r) && i < |r.states| && t < |r.states[i].tasks| && r.states[i].tasks[t].state == FREE
    ensures Linked(r.states[i], r.states[i].head, q) && Linked(r.states[i], Unvisited(r.states[i].pc), rest)
    ensures TimerLinked(r.states[i], tl)
    ensures t !in q && t !in rest && t !in tl && !InFlight(r.states[i], t) && !NotYetSpawned(r.states[i], t)
    ensures !r.states[i].tasks[t].live
  {
    var s, h := r.states[i], r.hist[i];
    InvAlways(r, i);
    q, rest, tl := h.q, h.rest, h.tl;
    PlacesDiffer(s, h);
    PlaceIsOne(s, h, t);
    assert SlotOk(s, h, t);
  }

  // Dereferencing the executor pointer in TaskHeader::enqueue is safe.
  lemma {:induction false} ExecutorPointerIsSet(r: Run, i: nat, a: nat)
    requires IsRun(r) && i < |r.states| && a < |r.states[i].agents| && r.states[i].agents[a].LoadHead?
    ensures r.states[i].agents[a].t < |r.states[i].tasks| && r.states[i].tasks[r.states[i].agents[a].t].executor
  {
    InvAlways(r, i);
    assert AgentOk(r.states[i], r.hist[i], a);
    assert SlotOk(r.states[i], r.hist[i], r.states[i].agents[a].t);
  }

  /* ---------- the timer queue and the alarm ---------- */

  ghost predicate TimerLinked(s: State, tl: seq<nat>) {
    && InRange(s, tl)
    && s.timerHead == PtrAt(tl, 0)
    && (forall i {:trigger s.tasks[tl[i]]} | 0 <= i < |tl| :: s.tasks[tl[i]].timerNext == PtrAt(tl, i + 1))
    && (forall i, j | 0 <= i < j < |tl| :: tl[i] != tl[j])
  }

  // The deadlines t has registered since its last poll began.
  ghost function Registered(r: Run, i: nat, t: nat): seq<nat>
    requires IsRun(r) && i < |r.states| && t < |r.states[i].tasks|
  {
    SlotCount(r, i);
    r.hist[i].reg[t]
  }

  lemma RegisteredSteps(r: Run, i: nat, t: nat)
    requires IsRun(r) && i < |r.events| && t < |r.states[i].tasks|
    ensures |r.states[i + 1].tasks| == |r.states[i].tasks|
    ensures PollBegins(r.states[i], r.events[i], t) ==> Registered(r, i + 1, t) == []
    ensures !PollBegins(r.states[i], r.events[i], t) ==>
              Registered(r, i + 1, t) ==
              if r.events[i].RegisterTimer? && r.states[i].pc.Polling? && r.states[i].pc.t == t
              then Registered(r, i, t) + [r.events[i].at] else Registered(r, i, t)
  {
    NextHistory(r, i);
    RegisteredAfter(r.states[i], r.hist[i], r.events[i], t);
  }

  lemma RegisteredAfter(s: State, h: History, e: Event, t: nat)
    requires |h.place| == |s.tasks| == |h.reg| && Step(s, e).Some? && t < |s.tasks|
    ensures |After(s, h, e).reg| == |h.reg|
    ensures PollBegins(s, e, t) ==> After(s, h, e).reg[t] == []
    ensures !PollBegins(s, e, t) ==>
              After(s, h, e).reg[t] == if e.RegisterTimer? && s.pc.Polling? && s.pc.t == t then h.reg[t] + [e.at] else h.reg[t]
  {
  }

  // When run_queued gives a value to alarm.set, it is the least expires_at in the timer queue, and no
  // live idle task has registered an earlier deadline: each such task is queued at its least deadline.
  lemma {:induction false} AlarmIsNextDeadline(r: Run, i: nat) returns (tl: seq<nat>)
    requires IsRun(r) && i < |r.events| && r.events[i] == AlarmSet
    ensures TimerLinked(r.states[i], tl)
    ensures var s, at := r.states[i], r.states[i + 1].alarm;
            && at <= MAX
            && (forall k | 0 <= k < |tl| :: at <= s.tasks[tl[k]].expiresAt)
            && (at == MAX || exists k | 0 <= k < |tl| :: s.tasks[tl[k]].expiresAt == at)
            && forall t | 0 <= t < |s.tasks| && s.tasks[t].state.spawned && !s.tasks[t].state.runQueued ::
                 && IsMinimum(s.tasks[t].expiresAt, Registered(r, i, t))
                 && at <= s.tasks[t].expiresAt
                 && (s.tasks[t].expiresAt < MAX ==> t in tl)
  {
    hide Inv, Step, After;
    InvAlways(r, i);
    NextHistory(r, i);
    tl := r.hist[i].tl;
    AlarmAt(r.states[i], r.hist[i], r.states[i + 1]);
  }

  lemma AlarmAt(s: State, h: History, s': State)
    requires Inv(s, h) && Step(s, AlarmSet) == Some(s')
    ensures TimerLinked(s, h.tl) && s'.alarm <= MAX
    ensures forall k | 0 <= k < |h.tl| :: s'.alarm <= s.tasks[h.tl[k]].expiresAt
    ensures s'.alarm == MAX || exists k | 0 <= k < |h.tl| :: s.tasks[h.tl[k]].expiresAt == s'.alarm
    ensures forall t | 0 <= t < |s.tasks| && s.tasks[t].state.spawned && !s.tasks[t].state.runQueued ::
              && IsMinimum(s.tasks[t].expiresAt, h.reg[t])
              && s'.alarm <= s.tasks[t].expiresAt
              && (s.tasks[t].expiresAt < MAX ==> t in h.tl)
  {
    hide Inv, Step, TimerLinked, IsMinimum;
    AlarmIsRes(s, h, s');
    forall t | 0 <= t < |s.tasks| && s.tasks[t].state.spawned && !s.tasks[t].state.runQueued
      ensures IsMinimum(s.tasks[t].expiresAt, h.reg[t])
      ensures s'.alarm <= s.tasks[t].expiresAt
      ensures s.tasks[t].expiresAt < MAX ==> t in h.tl
    {
      IdleDeadline(s, h, t);
    }
  }

  // When next_expiration is through, its result is the least deadline in the list.
  lemma AlarmIsRes(s: State, h: History, s': State)
    requires Inv(s, h) && Step(s, AlarmSet) == Some(s')
    ensures TimerLinked(s, h.tl) && s'.alarm <= MAX && InRange(s, h.tl) && s.pc.SetAlarm? && |h.reg| == |s.tasks|
    ensures forall k | 0 <= k < |h.tl| :: s'.alarm <= s.tasks[h.tl[k]].expiresAt
    ensures s'.alarm == MAX || exists k | 0 <= k < |h.tl| :: s.tasks[h.tl[k]].expiresAt == s'.alarm
  {
    hide RunInv, SignalInv, LifeInv;
  }

  lemma IdleDeadline(s: State, h: History, t: nat)
    requires Inv(s, h) && s.pc.SetAlarm? && t < |s.tasks| && s.tasks[t].state.spawned && !s.tasks[t].state.runQueued
    ensures IsMinimum(s.tasks[t].expiresAt, h.reg[t]) && s.tasks[t].expiresAt <= MAX
    ensures s.tasks[t].expiresAt < MAX ==> t in h.tl
  {
    hide RunInv, SignalInv, LifeInv, RetainOk;
    assert DeadlineOk(s, h, t);
  }
}
