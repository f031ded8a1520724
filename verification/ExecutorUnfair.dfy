/** The fairness that the project's README promises does not hold of the code: a concrete run.

    Task 1 is pushed while the batch that runs task 0 is in progress; task 0 then wakes itself, is
    pushed after task 1, and so runs first in the next batch. */
module ExecutorUnfair {
  import opened Basics
  import opened ExecutorModel
  import opened ExecutorInv
  import opened ExecutorRuns
  import opened ExecutorFairness

  datatype Path = Path(states: seq<State>, events: seq<Event>)

  ghost predicate IsPath(p: Path) {
    && |p.states| == |p.events| + 1
    && forall i | 0 <= i < |p.events| :: Step(p.states[i], p.events[i]) == Some(p.states[i + 1])
  }

  ghost function End(p: Path): State requires IsPath(p) { p.states[|p.events|] }

  // A state with two tasks, and one agent beside the executor, which has no alarm.
  ghost predicate Shows(s: State, t0: Task, t1: Task, ag: Agent, head: Ptr, pc: Pc) {
    && s.tasks == [t0, t1] && s.agents == [Idle, ag]
    && s.head == head && s.pc == pc && !s.hasAlarm && s.now == 0
  }

  ghost predicate Extends(p: Path, events: seq<Event>, p': Path) {
    IsPath(p) && IsPath(p') && p'.events == p.events + events && p.states <= p'.states
  }

  lemma Go(p: Path, e: Event, t0: Task, t1: Task, ag: Agent, head: Ptr, pc: Pc) returns (p': Path)
    requires IsPath(p) && Step(End(p), e).Some?
    requires var s' := Step(End(p), e).value;
             && |s'.tasks| == |s'.agents| == 2 && s'.tasks[0] == t0 && s'.tasks[1] == t1
             && s'.agents[0] == Idle && s'.agents[1] == ag
             && s'.head == head && s'.pc == pc && !s'.hasAlarm && s'.now == 0
    ensures Extends(p, [e], p') && Shows(End(p'), t0, t1, ag, head, pc)
  {
    var s' := Step(End(p), e).value;
    p' := Path(p.states + [s'], p.events + [e]);
    assert s'.tasks == [t0, t1] && s'.agents == [Idle, ag];
  }

  // The slot of a task: state word, live, executor, next, expires_at.
  function Slot(spawned: bool, runQueued: bool, live: bool, executor: bool, next: Ptr, at: nat): Task {
    Task(Word(spawned, runQueued, false), live, executor, next, at, Null)
  }

  const FREED := Slot(false, false, false, false, Null, 0)

  lemma Part0(p: Path) returns (p': Path)
    requires IsPath(p) && Shows(End(p), FREED, FREED, Idle, Null, Sleeping)
    ensures Extends(p, [AllocSlot(1, 0), WriteFuture(1)], p')
    ensures Shows(End(p'), Slot(true, true, true, false, Null, 0), FREED, Token(0), Null, Sleeping)
  {
    var q1 := Go(p, AllocSlot(1, 0), Slot(true, true, false, false, Null, 0), FREED, Alloc(0), Null, Sleeping);
    p' := Go(q1, WriteFuture(1), Slot(true, true, true, false, Null, 0), FREED, Token(0), Null, Sleeping);
  }

  lemma Part1(p: Path) returns (p': Path)
    requires IsPath(p) && Shows(End(p), Slot(true, true, true, false, Null, 0), FREED, Token(0), Null, Sleeping)
    ensures Extends(p, [SpawnToken(1), HeadLoad(1)], p')
    ensures Shows(End(p'), Slot(true, true, true, true, Null, 0), FREED, Link(0, Null), Null, Sleeping)
  {
    var q1 := Go(p, SpawnToken(1), Slot(true, true, true, true, Null, 0), FREED, LoadHead(0), Null, Sleeping);
    p' := Go(q1, HeadLoad(1), Slot(true, true, true, true, Null, 0), FREED, Link(0, Null), Null, Sleeping);
  }

  lemma Part2(p: Path) returns (p': Path)
    requires IsPath(p) && Shows(End(p), Slot(true, true, true, true, Null, 0), FREED, Link(0, Null), Null, Sleeping)
    ensures Extends(p, [NextStore(1), HeadCas(1, false)], p')
    ensures Shows(End(p'), Slot(true, true, true, true, Null, 0), FREED, Signal, To(0), Sleeping)
  {
    var q1 := Go(p, NextStore(1), Slot(true, true, true, true, Null, 0), FREED, Push(0, Null), Null, Sleeping);
    p' := Go(q1, HeadCas(1, false), Slot(true, true, true, true, Null, 0), FREED, Signal, To(0), Sleeping);
  }

  lemma Part3(p: Path) returns (p': Path)
    requires IsPath(p) && Shows(End(p), Slot(true, true, true, true, Null, 0), FREED, Signal, To(0), Sleeping)
    ensures Extends(p, [SignalCall(1)], p')
    ensures Shows(End(p'), Slot(true, true, true, true, Null, 0), FREED, Idle, To(0), Sleeping)
  {
    p' := Go(p, SignalCall(1), Slot(true, true, true, true, Null, 0), FREED, Idle, To(0), Sleeping);
  }

  lemma Part4(p: Path) returns (p': Path)
    requires IsPath(p) && Shows(End(p), Slot(true, true, true, true, Null, 0), FREED, Idle, To(0), Sleeping)
    ensures Extends(p, [Enter(0), Swap, AllocSlot(1, 1), WriteFuture(1)], p')
    ensures Shows(End(p'), Slot(true, true, true, true, Null, 0), Slot(true, true, true, false, Null, 0), Token(1), Null, Batch(To(0)))
  {
    var q1 := Go(p, Enter(0), Slot(true, true, true, true, Null, 0), FREED, Idle, To(0), ToSwap);
    var q2 := Go(q1, Swap, Slot(true, true, true, true, Null, 0), FREED, Idle, Null, Batch(To(0)));
    var q3 := Go(q2, AllocSlot(1, 1), Slot(true, true, true, true, Null, 0), Slot(true, true, false, false, Null, 0), Alloc(1), Null, Batch(To(0)));
    p' := Go(q3, WriteFuture(1), Slot(true, true, true, true, Null, 0), Slot(true, true, true, false, Null, 0), Token(1), Null, Batch(To(0)));
  }

  lemma Part5(p: Path) returns (p': Path)
    requires IsPath(p) && Shows(End(p), Slot(true, true, true, true, Null, 0), Slot(true, true, true, false, Null, 0), Token(1), Null, Batch(To(0)))
    ensures Extends(p, [SpawnToken(1), HeadLoad(1), NextStore(1)], p')
    ensures Shows(End(p'), Slot(true, true, true, true, Null, 0), Slot(true, true, true, true, Null, 0), Push(1, Null), Null, Batch(To(0)))
  {
    var q1 := Go(p, SpawnToken(1), Slot(true, true, true, true, Null, 0), Slot(true, true, true, true, Null, 0), LoadHead(1), Null, Batch(To(0)));
    var q2 := Go(q1, HeadLoad(1), Slot(true, true, true, true, Null, 0), Slot(true, true, true, true, Null, 0), Link(1, Null), Null, Batch(To(0)));
    p' := Go(q2, NextStore(1), Slot(true, true, true, true, Null, 0), Slot(true, true, true, true, Null, 0), Push(1, Null), Null, Batch(To(0)));
  }

  lemma Part6(p: Path) returns (p': Path)
    requires IsPath(p) && Shows(End(p), Slot(true, true, true, true, Null, 0), Slot(true, true, true, true, Null, 0), Push(1, Null), Null, Batch(To(0)))
    ensures Extends(p, [HeadCas(1, false), SignalCall(1), Take], p')
    ensures Shows(End(p'), Slot(true, true, true, true, Null, MAX), Slot(true, true, true, true, Null, 0), Idle, To(1), Took(0, Null))
  {
    var q1 := Go(p, HeadCas(1, false), Slot(true, true, true, true, Null, 0), Slot(true, true, true, true, Null, 0), Signal, To(1), Batch(To(0)));
    var q2 := Go(q1, SignalCall(1), Slot(true, true, true, true, Null, 0), Slot(true, true, true, true, Null, 0), Idle, To(1), Batch(To(0)));
    p' := Go(q2, Take, Slot(true, true, true, true, Null, MAX), Slot(true, true, true, true, Null, 0), Idle, To(1), Took(0, Null));
  }

  lemma Part7(p: Path) returns (p': Path)
    requires IsPath(p) && Shows(End(p), Slot(true, true, true, true, Null, MAX), Slot(true, true, true, true, Null, 0), Idle, To(1), Took(0, Null))
    ensures Extends(p, [ClearRunQueued], p')
    ensures Shows(End(p'), Slot(true, false, true, true, Null, MAX), Slot(true, true, true, true, Null, 0), Idle, To(1), ToPoll(0, Null))
  {
    p' := Go(p, ClearRunQueued, Slot(true, false, true, true, Null, MAX), Slot(true, true, true, true, Null, 0), Idle, To(1), ToPoll(0, Null));
  }

  lemma Part8(p: Path) returns (p': Path)
    requires IsPath(p) && Shows(End(p), Slot(true, false, true, true, Null, MAX), Slot(true, true, true, true, Null, 0), Idle, To(1), ToPoll(0, Null))
    ensures Extends(p, [BeginPoll, WakeLoad(1, 0), WakeCas(1, false), HeadLoad(1)], p')
    ensures Shows(End(p'), Slot(true, true, true, true, Null, MAX), Slot(true, true, true, true, Null, 0), Link(0, To(1)), To(1), Polling(0, Null))
  {
    var q1 := Go(p, BeginPoll, Slot(true, false, true, true, Null, MAX), Slot(true, true, true, true, Null, 0), Idle, To(1), Polling(0, Null));
    var q2 := Go(q1, WakeLoad(1, 0), Slot(true, false, true, true, Null, MAX), Slot(true, true, true, true, Null, 0), Cas(0, Word(true, false, false)), To(1), Polling(0, Null));
    var q3 := Go(q2, WakeCas(1, false), Slot(true, true, true, true, Null, MAX), Slot(true, true, true, true, Null, 0), LoadHead(0), To(1), Polling(0, Null));
    p' := Go(q3, HeadLoad(1), Slot(true, true, true, true, Null, MAX), Slot(true, true, true, true, Null, 0), Link(0, To(1)), To(1), Polling(0, Null));
  }

  lemma Part9(p: Path) returns (p': Path)
    requires IsPath(p) && Shows(End(p), Slot(true, true, true, true, Null, MAX), Slot(true, true, true, true, Null, 0), Link(0, To(1)), To(1), Polling(0, Null))
    ensures Extends(p, [NextStore(1), HeadCas(1, false), PollPending, UpdateTimer], p')
    ensures Shows(End(p'), Slot(true, true, true, true, To(1), MAX), Slot(true, true, true, true, Null, 0), Idle, To(0), Batch(Null))
  {
    var q1 := Go(p, NextStore(1), Slot(true, true, true, true, To(1), MAX), Slot(true, true, true, true, Null, 0), Push(0, To(1)), To(1), Polling(0, Null));
    var q2 := Go(q1, HeadCas(1, false), Slot(true, true, true, true, To(1), MAX), Slot(true, true, true, true, Null, 0), Idle, To(0), Polling(0, Null));
    var q3 := Go(q2, PollPending, Slot(true, true, true, true, To(1), MAX), Slot(true, true, true, true, Null, 0), Idle, To(0), Updating(0, Null));
    p' := Go(q3, UpdateTimer, Slot(true, true, true, true, To(1), MAX), Slot(true, true, true, true, Null, 0), Idle, To(0), Batch(Null));
  }

  lemma Part10(p: Path) returns (p': Path)
    requires IsPath(p) && Shows(End(p), Slot(true, true, true, true, To(1), MAX), Slot(true, true, true, true, Null, 0), Idle, To(0), Batch(Null))
    ensures Extends(p, [Take, Enter(0), Swap, Take], p')
    ensures Shows(End(p'), Slot(true, true, true, true, To(1), MAX), Slot(true, true, true, true, Null, 0), Idle, Null, Took(0, To(1)))
  {
    var q1 := Go(p, Take, Slot(true, true, true, true, To(1), MAX), Slot(true, true, true, true, Null, 0), Idle, To(0), Sleeping);
    var q2 := Go(q1, Enter(0), Slot(true, true, true, true, To(1), MAX), Slot(true, true, true, true, Null, 0), Idle, To(0), ToSwap);
    var q3 := Go(q2, Swap, Slot(true, true, true, true, To(1), MAX), Slot(true, true, true, true, Null, 0), Idle, Null, Batch(To(0)));
    p' := Go(q3, Take, Slot(true, true, true, true, To(1), MAX), Slot(true, true, true, true, Null, 0), Idle, Null, Took(0, To(1)));
  }

  lemma Part11(p: Path) returns (p': Path)
    requires IsPath(p) && Shows(End(p), Slot(true, true, true, true, To(1), MAX), Slot(true, true, true, true, Null, 0), Idle, Null, Took(0, To(1)))
    ensures Extends(p, [ClearRunQueued], p')
    ensures Shows(End(p'), Slot(true, false, true, true, To(1), MAX), Slot(true, true, true, true, Null, 0), Idle, Null, ToPoll(0, To(1)))
  {
    p' := Go(p, ClearRunQueued, Slot(true, false, true, true, To(1), MAX), Slot(true, true, true, true, Null, 0), Idle, Null, ToPoll(0, To(1)));
  }

  lemma Part12(p: Path) returns (p': Path)
    requires IsPath(p) && Shows(End(p), Slot(true, false, true, true, To(1), MAX), Slot(true, true, true, true, Null, 0), Idle, Null, ToPoll(0, To(1)))
    ensures Extends(p, [BeginPoll], p')
    ensures Shows(End(p'), Slot(true, false, true, true, To(1), MAX), Slot(true, true, true, true, Null, 0), Idle, Null, Polling(0, To(1)))
  {
    p' := Go(p, BeginPoll, Slot(true, false, true, true, To(1), MAX), Slot(true, true, true, true, Null, 0), Idle, Null, Polling(0, To(1)));
  }

  ghost predicate Shown(p: Path, i: nat, t0: Task, t1: Task, ag: Agent, head: Ptr, pc: Pc) {
    i < |p.states| && Shows(p.states[i], t0, t1, ag, head, pc)
  }

  const UNTIL_FIRST: seq<Event> := [
    AllocSlot(1, 0), WriteFuture(1), SpawnToken(1), HeadLoad(1), NextStore(1), HeadCas(1, false), SignalCall(1), Enter(0), Swap,
    AllocSlot(1, 1), WriteFuture(1), SpawnToken(1), HeadLoad(1), NextStore(1), HeadCas(1, false), SignalCall(1), Take, ClearRunQueued]

  const UNTIL_SECOND: seq<Event> := [
    BeginPoll, WakeLoad(1, 0), WakeCas(1, false), HeadLoad(1), NextStore(1), HeadCas(1, false), PollPending, UpdateTimer, Take,
    Enter(0), Swap, Take, ClearRunQueued, BeginPoll]

  lemma UntilSpawned() returns (p: Path)
    ensures IsPath(p) && p.events == UNTIL_FIRST[..7] && Init(p.states[0])
    ensures Shows(End(p), Slot(true, true, true, true, Null, 0), FREED, Idle, To(0), Sleeping)
  {
    var p0 := Path([State([FREED, FREED], [Idle, Idle], Null, Null, Sleeping, false, 0, 0, false, false)], []);
    hide Step;
    var p1 := Part0(p0);
    var p2 := Part1(p1);
    var p3 := Part2(p2);
    p := Part3(p3);
  }

  lemma UntilFirstPoll() returns (p: Path)
    ensures IsPath(p) && p.events == UNTIL_FIRST && Init(p.states[0])
    ensures Shown(p, 14, Slot(true, true, true, true, Null, 0), Slot(true, true, true, true, Null, 0), Push(1, Null), Null, Batch(To(0)))
    ensures Shown(p, 17, Slot(true, true, true, true, Null, MAX), Slot(true, true, true, true, Null, 0), Idle, To(1), Took(0, Null))
    ensures Shows(End(p), Slot(true, false, true, true, Null, MAX), Slot(true, true, true, true, Null, 0), Idle, To(1), ToPoll(0, Null))
  {
    hide Step;
    var p3 := UntilSpawned();
    var p4 := Part4(p3);
    var p5 := Part5(p4);
    var p6 := Part6(p5);
    p := Part7(p6);
  }

  lemma UntilSecondPoll(p: Path) returns (p': Path)
    requires IsPath(p) && p.events == UNTIL_FIRST && Shows(End(p), Slot(true, false, true, true, Null, MAX), Slot(true, true, true, true, Null, 0), Idle, To(1), ToPoll(0, Null))
    ensures Extends(p, UNTIL_SECOND, p')
    ensures Shown(p', 30, Slot(true, true, true, true, To(1), MAX), Slot(true, true, true, true, Null, 0), Idle, Null, Took(0, To(1)))
    ensures Shown(p', 31, Slot(true, false, true, true, To(1), MAX), Slot(true, true, true, true, Null, 0), Idle, Null, ToPoll(0, To(1)))
  {
    var p7 := Part8(p);
    var p8 := Part9(p7);
    var p9 := Part10(p8);
    var p10 := Part11(p9);
    p' := Part12(p10);
  }

  // Task 1 is pushed before a poll of task 0 begins, and is not dequeued before the next poll of
  // task 0 begins.
  lemma {:induction false} ReadmeFairnessFails() returns (r: Run, pushed: nat, first: nat, second: nat)
    ensures IsRun(r) && pushed < first < second < |r.events|
    ensures Pushes(r.states[pushed], r.events[pushed], 1)
    ensures PollBegins(r.states[first], r.events[first], 0) && PollBegins(r.states[second], r.events[second], 0)
    ensures forall k | pushed < k <= second :: !Dequeues(r.states[k], r.events[k], 1)
  {
    hide Step, IsRun;
    var p := UntilFirstPoll();
    var p' := UntilSecondPoll(p);
    assert p'.states[14] == p.states[14] && p'.states[17] == p.states[17] && p'.states[18] == p.states[18];
    r := HistoryExists(p'.states, p'.events);
    pushed, first, second := 14, 18, 31;
  }
}
