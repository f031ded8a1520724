/** A due task that run_queued does not poll: a concrete run for every deadline.

    The only task has registered the deadline and is idle. run_queued is entered at the deadline; an interrupt wakes the
    task, sets RUN_QUEUED and is held up before its push. The expired task is taken off the timer list, its enqueue finds
    the bit set, and the list taken is empty. */
module ExecutorHeld {
  import opened Basics
  import opened ExecutorModel
  import opened ExecutorInv
  import opened ExecutorRuns
  import opened ExecutorFairness
  import opened ExecutorTimers
  import opened ExecutorUnfair

  // A state with one task and one agent beside the executor, which has an alarm.
  ghost predicate Shows(s: State, task: Task, ag: Agent, head: Ptr, timerHead: Ptr, pc: Pc, now: nat) {
    && s.tasks == [task] && s.agents == [Idle, ag]
    && s.head == head && s.timerHead == timerHead && s.pc == pc && s.hasAlarm && s.now == now
  }

  function Slot(state: Word, live: bool, executor: bool, at: nat): Task {
    Task(state, live, executor, Null, at, Null)
  }

  lemma Go(p: Path, e: Event, task: Task, ag: Agent, head: Ptr, timerHead: Ptr, pc: Pc, now: nat) returns (p': Path)
    requires IsPath(p) && Step(End(p), e).Some?
    requires var s' := Step(End(p), e).value;
             && |s'.tasks| == 1 && |s'.agents| == 2 && s'.tasks[0] == task && s'.agents[0] == Idle && s'.agents[1] == ag
             && s'.head == head && s'.timerHead == timerHead && s'.pc == pc && s'.hasAlarm && s'.now == now
    ensures Extends(p, [e], p') && Shows(End(p'), task, ag, head, timerHead, pc, now)
  {
    var s' := Step(End(p), e).value;
    p' := Path(p.states + [s'], p.events + [e]);
    assert s'.tasks == [task] && s'.agents == [Idle, ag];
  }

  lemma Part0(p: Path, d: nat) returns (p': Path)
    requires d < MAX && IsPath(p) && Shows(End(p), Slot(Word(false, false, false), false, false, 0), Idle, Null, Null, Sleeping, 0)
    ensures Extends(p, [AllocSlot(1, 0), WriteFuture(1)], p')
    ensures Shows(End(p'), Slot(Word(true, true, false), true, false, 0), Token(0), Null, Null, Sleeping, 0)
  {
    var q1 := Go(p, AllocSlot(1, 0), Slot(Word(true, true, false), false, false, 0), Alloc(0), Null, Null, Sleeping, 0);
    p' := Go(q1, WriteFuture(1), Slot(Word(true, true, false), true, false, 0), Token(0), Null, Null, Sleeping, 0);
  }

  lemma Part1(p: Path, d: nat) returns (p': Path)
    requires d < MAX && IsPath(p) && Shows(End(p), Slot(Word(true, true, false), true, false, 0), Token(0), Null, Null, Sleeping, 0)
    ensures Extends(p, [SpawnToken(1), HeadLoad(1)], p')
    ensures Shows(End(p'), Slot(Word(true, true, false), true, true, 0), Link(0, Null), Null, Null, Sleeping, 0)
  {
    var q1 := Go(p, SpawnToken(1), Slot(Word(true, true, false), true, true, 0), LoadHead(0), Null, Null, Sleeping, 0);
    p' := Go(q1, HeadLoad(1), Slot(Word(true, true, false), true, true, 0), Link(0, Null), Null, Null, Sleeping, 0);
  }

  lemma Part2(p: Path, d: nat) returns (p': Path)
    requires d < MAX && IsPath(p) && Shows(End(p), Slot(Word(true, true, false), true, true, 0), Link(0, Null), Null, Null, Sleeping, 0)
    ensures Extends(p, [NextStore(1), HeadCas(1, false)], p')
    ensures Shows(End(p'), Slot(Word(true, true, false), true, true, 0), Signal, To(0), Null, Sleeping, 0)
  {
    var q1 := Go(p, NextStore(1), Slot(Word(true, true, false), true, true, 0), Push(0, Null), Null, Null, Sleeping, 0);
    p' := Go(q1, HeadCas(1, false), Slot(Word(true, true, false), true, true, 0), Signal, To(0), Null, Sleeping, 0);
  }

  lemma Part3(p: Path, d: nat) returns (p': Path)
    requires d < MAX && IsPath(p) && Shows(End(p), Slot(Word(true, true, false), true, true, 0), Signal, To(0), Null, Sleeping, 0)
    ensures Extends(p, [SignalCall(1), Enter(0)], p')
    ensures Shows(End(p'), Slot(Word(true, true, false), true, true, 0), Idle, To(0), Null, Expire(Null), 0)
  {
    var q1 := Go(p, SignalCall(1), Slot(Word(true, true, false), true, true, 0), Idle, To(0), Null, Sleeping, 0);
    p' := Go(q1, Enter(0), Slot(Word(true, true, false), true, true, 0), Idle, To(0), Null, Expire(Null), 0);
  }

  lemma Part4(p: Path, d: nat) returns (p': Path)
    requires d < MAX && IsPath(p) && Shows(End(p), Slot(Word(true, true, false), true, true, 0), Idle, To(0), Null, Expire(Null), 0)
    ensures Extends(p, [ExpireVisit, Swap], p')
    ensures Shows(End(p'), Slot(Word(true, true, false), true, true, 0), Idle, Null, Null, Batch(To(0)), 0)
  {
    var q1 := Go(p, ExpireVisit, Slot(Word(true, true, false), true, true, 0), Idle, To(0), Null, ToSwap, 0);
    p' := Go(q1, Swap, Slot(Word(true, true, false), true, true, 0), Idle, Null, Null, Batch(To(0)), 0);
  }

  lemma Part5(p: Path, d: nat) returns (p': Path)
    requires d < MAX && IsPath(p) && Shows(End(p), Slot(Word(true, true, false), true, true, 0), Idle, Null, Null, Batch(To(0)), 0)
    ensures Extends(p, [Take, ClearRunQueued], p')
    ensures Shows(End(p'), Slot(Word(true, false, false), true, true, MAX), Idle, Null, Null, ToPoll(0, Null), 0)
  {
    var q1 := Go(p, Take, Slot(Word(true, true, false), true, true, MAX), Idle, Null, Null, Took(0, Null), 0);
    p' := Go(q1, ClearRunQueued, Slot(Word(true, false, false), true, true, MAX), Idle, Null, Null, ToPoll(0, Null), 0);
  }

  lemma Part6(p: Path, d: nat) returns (p': Path)
    requires d < MAX && IsPath(p) && Shows(End(p), Slot(Word(true, false, false), true, true, MAX), Idle, Null, Null, ToPoll(0, Null), 0)
    ensures Extends(p, [BeginPoll], p')
    ensures Shows(End(p'), Slot(Word(true, false, false), true, true, MAX), Idle, Null, Null, Polling(0, Null), 0)
  {
    p' := Go(p, BeginPoll, Slot(Word(true, false, false), true, true, MAX), Idle, Null, Null, Polling(0, Null), 0);
  }

  lemma Part7(p: Path, d: nat) returns (p': Path)
    requires d < MAX && IsPath(p) && Shows(End(p), Slot(Word(true, false, false), true, true, MAX), Idle, Null, Null, Polling(0, Null), 0)
    ensures Extends(p, [RegisterTimer(d)], p')
    ensures Shows(End(p'), Slot(Word(true, false, false), true, true, d), Idle, Null, Null, Polling(0, Null), 0)
  {
    p' := Go(p, RegisterTimer(d), Slot(Word(true, false, false), true, true, d), Idle, Null, Null, Polling(0, Null), 0);
  }

  lemma Part8(p: Path, d: nat) returns (p': Path)
    requires d < MAX && IsPath(p) && Shows(End(p), Slot(Word(true, false, false), true, true, d), Idle, Null, Null, Polling(0, Null), 0)
    ensures Extends(p, [PollPending, UpdateTimer, Take], p')
    ensures Shows(End(p'), Slot(Word(true, false, true), true, true, d), Idle, Null, To(0), Scan(Null, MAX), 0)
  {
    var q1 := Go(p, PollPending, Slot(Word(true, false, false), true, true, d), Idle, Null, Null, Updating(0, Null), 0);
    var q2 := Go(q1, UpdateTimer, Slot(Word(true, false, true), true, true, d), Idle, Null, To(0), Batch(Null), 0);
    p' := Go(q2, Take, Slot(Word(true, false, true), true, true, d), Idle, Null, To(0), Scan(Null, MAX), 0);
  }

  lemma Part9(p: Path, d: nat) returns (p': Path)
    requires d < MAX && IsPath(p) && Shows(End(p), Slot(Word(true, false, true), true, true, d), Idle, Null, To(0), Scan(Null, MAX), 0)
    ensures Extends(p, [ScanVisit, ScanVisit, AlarmSet], p')
    ensures Shows(End(p'), Slot(Word(true, false, true), true, true, d), Idle, Null, To(0), Sleeping, 0)
  {
    var q1 := Go(p, ScanVisit, Slot(Word(true, false, true), true, true, d), Idle, Null, To(0), Scan(To(0), d), 0);
    var q2 := Go(q1, ScanVisit, Slot(Word(true, false, true), true, true, d), Idle, Null, To(0), SetAlarm(d), 0);
    p' := Go(q2, AlarmSet, Slot(Word(true, false, true), true, true, d), Idle, Null, To(0), Sleeping, 0);
  }

  lemma Part10(p: Path, d: nat) returns (p': Path)
    requires d < MAX && IsPath(p) && Shows(End(p), Slot(Word(true, false, true), true, true, d), Idle, Null, To(0), Sleeping, 0)
    ensures Extends(p, [Enter(d), WakeLoad(1, 0)], p')
    ensures Shows(End(p'), Slot(Word(true, false, true), true, true, d), Cas(0, Word(true, false, true)), Null, To(0), Expire(Null), d)
  {
    var q1 := Go(p, Enter(d), Slot(Word(true, false, true), true, true, d), Idle, Null, To(0), Expire(Null), d);
    p' := Go(q1, WakeLoad(1, 0), Slot(Word(true, false, true), true, true, d), Cas(0, Word(true, false, true)), Null, To(0), Expire(Null), d);
  }

  lemma Part11(p: Path, d: nat) returns (p': Path)
    requires d < MAX && IsPath(p) && Shows(End(p), Slot(Word(true, false, true), true, true, d), Cas(0, Word(true, false, true)), Null, To(0), Expire(Null), d)
    ensures Extends(p, [WakeCas(1, false), ExpireVisit], p')
    ensures Shows(End(p'), Slot(Word(true, true, true), true, true, d), LoadHead(0), Null, To(0), ExpireCall(Null, 0), d)
  {
    var q1 := Go(p, WakeCas(1, false), Slot(Word(true, true, true), true, true, d), LoadHead(0), Null, To(0), Expire(Null), d);
    p' := Go(q1, ExpireVisit, Slot(Word(true, true, true), true, true, d), LoadHead(0), Null, To(0), ExpireCall(Null, 0), d);
  }

  lemma Part12(p: Path, d: nat) returns (p': Path)
    requires d < MAX && IsPath(p) && Shows(End(p), Slot(Word(true, true, true), true, true, d), LoadHead(0), Null, To(0), ExpireCall(Null, 0), d)
    ensures Extends(p, [ExpireUnlink, ExpireVisit], p')
    ensures Shows(End(p'), Slot(Word(true, true, false), true, true, d), LoadHead(0), Null, Null, ToSwap, d)
  {
    var q1 := Go(p, ExpireUnlink, Slot(Word(true, true, false), true, true, d), LoadHead(0), Null, Null, Expire(Null), d);
    p' := Go(q1, ExpireVisit, Slot(Word(true, true, false), true, true, d), LoadHead(0), Null, Null, ToSwap, d);
  }

  lemma Part13(p: Path, d: nat) returns (p': Path)
    requires d < MAX && IsPath(p) && Shows(End(p), Slot(Word(true, true, false), true, true, d), LoadHead(0), Null, Null, ToSwap, d)
    ensures Extends(p, [Swap, Take], p')
    ensures Shows(End(p'), Slot(Word(true, true, false), true, true, d), LoadHead(0), Null, Null, Scan(Null, MAX), d)
  {
    var q1 := Go(p, Swap, Slot(Word(true, true, false), true, true, d), LoadHead(0), Null, Null, Batch(Null), d);
    p' := Go(q1, Take, Slot(Word(true, true, false), true, true, d), LoadHead(0), Null, Null, Scan(Null, MAX), d);
  }

  // The deadlines registered stay while no poll begins and none is registered.
  lemma {:induction false} DeadlinesStay(r: Run, a: nat, b: nat, t: nat)
    requires IsRun(r) && a <= b < |r.states| && t < |r.states[0].tasks|
    requires forall k | a <= k < b :: !r.events[k].BeginPoll? && !r.events[k].RegisterTimer?
    ensures Deadlines(r, b, t) == Deadlines(r, a, t)
    decreases b
  {
    if a < b {
      DeadlinesStay(r, a, b - 1, t);
      SlotCount(r, b - 1);
      RegisteredSteps(r, b - 1, t);
    }
  }

  ghost predicate Shown(p: Path, i: nat, task: Task, ag: Agent, head: Ptr, timerHead: Ptr, pc: Pc, now: nat) {
    i < |p.states| && Shows(p.states[i], task, ag, head, timerHead, pc, now)
  }

  const SPAWNED: seq<Event> := [
    AllocSlot(1, 0), WriteFuture(1), SpawnToken(1), HeadLoad(1), NextStore(1), HeadCas(1, false), SignalCall(1), Enter(0)]

  const TAKEN: seq<Event> := [ExpireVisit, Swap, Take, ClearRunQueued]

  function Polled(d: nat): seq<Event> {
    [BeginPoll, RegisterTimer(d), PollPending, UpdateTimer, Take, ScanVisit, ScanVisit, AlarmSet]
  }

  function Idled(d: nat): seq<Event> {
    SPAWNED + TAKEN + Polled(d)
  }

  function Missed(d: nat): seq<Event> {
    [Enter(d), WakeLoad(1, 0), WakeCas(1, false), ExpireVisit, ExpireUnlink, ExpireVisit, Swap, Take]
  }

  lemma UntilEntered(d: nat) returns (p: Path)
    requires d < MAX
    ensures IsPath(p) && p.events == SPAWNED && Init(p.states[0]) && |p.states[0].tasks| == 1
    ensures Shows(End(p), Slot(Word(true, true, false), true, true, 0), Idle, To(0), Null, Expire(Null), 0)
  {
    var s := State([Slot(Word(false, false, false), false, false, 0)], [Idle, Idle], Null, Null, Sleeping, true, 0, 0, false, false);
    var p1 := Part0(Path([s], []), d);
    var p2 := Part1(p1, d);
    var p3 := Part2(p2, d);
    p := Part3(p3, d);
  }

  lemma UntilPolled(d: nat) returns (p: Path)
    requires d < MAX
    ensures IsPath(p) && p.events == SPAWNED + TAKEN && Init(p.states[0]) && |p.states[0].tasks| == 1
    ensures Shows(End(p), Slot(Word(true, false, false), true, true, MAX), Idle, Null, Null, ToPoll(0, Null), 0)
  {
    var p0 := UntilEntered(d);
    var p1 := Part4(p0, d);
    p := Part5(p1, d);
  }

  lemma PollAndScan(p: Path, d: nat) returns (p': Path)
    requires d < MAX && IsPath(p)
    requires Shows(End(p), Slot(Word(true, false, false), true, true, MAX), Idle, Null, Null, ToPoll(0, Null), 0)
    ensures Extends(p, Polled(d), p')
    ensures Shown(p', |p.events| + 1, Slot(Word(true, false, false), true, true, MAX), Idle, Null, Null, Polling(0, Null), 0)
    ensures Shows(End(p'), Slot(Word(true, false, true), true, true, d), Idle, Null, To(0), Sleeping, 0)
  {
    var p1 := Part6(p, d);
    var p2 := Part7(p1, d);
    var p3 := Part8(p2, d);
    p' := Part9(p3, d);
    assert p'.states[|p.events| + 1] == End(p1);
  }

  lemma UntilIdle(d: nat) returns (p: Path)
    requires d < MAX
    ensures IsPath(p) && p.events == Idled(d) && Init(p.states[0]) && |p.states[0].tasks| == 1
    ensures Shown(p, 12, Slot(Word(true, false, false), true, true, MAX), Idle, Null, Null, ToPoll(0, Null), 0)
    ensures Shown(p, 13, Slot(Word(true, false, false), true, true, MAX), Idle, Null, Null, Polling(0, Null), 0)
    ensures Shows(End(p), Slot(Word(true, false, true), true, true, d), Idle, Null, To(0), Sleeping, 0)
  {
    var p0 := UntilPolled(d);
    p := PollAndScan(p0, d);
    assert p.states[12] == p0.states[12] && p.states[0] == p0.states[0];
  }

  lemma UntilMissed(p: Path, d: nat) returns (p': Path)
    requires d < MAX && IsPath(p) && p.events == Idled(d)
    requires Shows(End(p), Slot(Word(true, false, true), true, true, d), Idle, Null, To(0), Sleeping, 0)
    ensures Extends(p, Missed(d), p')
    ensures Shown(p', 26, Slot(Word(true, true, false), true, true, d), LoadHead(0), Null, Null, ToSwap, d)
    ensures Shows(End(p'), Slot(Word(true, true, false), true, true, d), LoadHead(0), Null, Null, Scan(Null, MAX), d)
  {
    var p1 := Part10(p, d);
    var p2 := Part11(p1, d);
    var p3 := Part12(p2, d);
    p' := Part13(p3, d);
    assert p'.states[26] == End(p3);
  }

  lemma UntilHeld(d: nat) returns (p: Path)
    requires d < MAX
    ensures IsPath(p) && p.events == Idled(d) + Missed(d) && Init(p.states[0]) && |p.states[0].tasks| == 1
    ensures p.states[12].pc == ToPoll(0, Null) && p.states[13].pc == Polling(0, Null)
    ensures Shown(p, 20, Slot(Word(true, false, true), true, true, d), Idle, Null, To(0), Sleeping, 0)
    ensures Shown(p, 26, Slot(Word(true, true, false), true, true, d), LoadHead(0), Null, Null, ToSwap, d)
    ensures p.states[28].pc == Scan(Null, MAX)
  {
    var idle := UntilIdle(d);
    p := UntilMissed(idle, d);
    assert forall k | 0 <= k <= 20 :: p.states[k] == idle.states[k];
  }

  // For every deadline: entered at i when the deadline has come, run_queued takes the list at w and is through with it
  // at j, while the interrupt holds the task; the task has not been polled.
  lemma {:induction false} HeldTaskIsNotPolled(d: nat) returns (r: Run, i: nat, w: nat, j: nat)
    requires d < MAX
    ensures IsRun(r) && i < w < j < |r.states| && |r.states[0].tasks| == 1
    ensures r.events[i] == Enter(d) && r.states[i].hasAlarm && r.events[w] == Swap && !InBatchLoop(r.states[j].pc)
    ensures forall x | i < x < j && x != w :: r.events[x] != Swap
    ensures SpawnedAt(r, i, 0) && !RunQueuedAt(r, i, 0) && d in Deadlines(r, i, 0)
    ensures InFlight(r.states[w], 0)
    ensures forall k | i <= k < j :: !PollBegins(r.states[k], r.events[k], 0)
  {
    var p := UntilHeld(d);
    r := HistoryExists(p.states, p.events);
    i, w, j := 20, 26, 28;
    RegisteredOnce(r, d);
    assert Holds(r.states[w].agents[1]);
  }

  lemma RegisteredOnce(r: Run, d: nat)
    requires IsRun(r) && r.events == Idled(d) + Missed(d) && |r.states[0].tasks| == 1
    requires r.states[12].pc == ToPoll(0, Null) && r.states[13].pc == Polling(0, Null)
    ensures Deadlines(r, 20, 0) == [d]
  {
    SlotCount(r, 12);
    SlotCount(r, 13);
    RegisteredSteps(r, 12, 0);
    RegisteredSteps(r, 13, 0);
    DeadlinesStay(r, 14, 20, 0);
  }
}
