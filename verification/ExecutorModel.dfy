/** The executor as a transition system.

    One executor serves a fixed, arbitrarily long array of task slots.  It runs next to an
    arbitrary number of agents: interrupts, other threads, or code called from a task's own poll,
    each of which may wake a task or spawn one.  Every step is one access to memory that agents and
    executor share; accesses to cells that only the executor touches (expires_at and the timer list)
    are joined to the neighbouring shared access.  Pointers are modelled as pointers: nothing in
    Step looks at a list as a whole. */
module ExecutorModel {
  import opened Basics

  datatype Ptr = Null | To(id: nat)

  // The bits STATE_SPAWNED, STATE_RUN_QUEUED and STATE_TIMER_QUEUED of a task's atomic word.
  datatype Word = Word(spawned: bool, runQueued: bool, timerQueued: bool)

  const FREE := Word(false, false, false)

  datatype Task = Task(
    state: Word,
    live: bool,        // a future is stored in the slot
    executor: bool,    // the executor pointer has been set
    runNext: Ptr,
    expiresAt: nat,
    timerNext: Ptr)

  // Where an agent stands inside spawn_allocate / spawn_initialize / Executor::spawn,
  // TaskHeader::enqueue and RunQueue::enqueue.
  datatype Agent =
    | Idle
    | Cas(t: nat, cur: Word)     // about to compare-exchange the state word
    | Alloc(t: nat)              // has allocated the slot, future not written yet
    | Token(t: nat)              // holds the SpawnToken
    | LoadHead(t: nat)           // must push t, about to load head
    | Link(t: nat, prev: Ptr)    // about to store prev into t's next
    | Push(t: nat, prev: Ptr)    // about to compare-exchange head from prev to t
    | Signal                     // pushed onto an empty list, about to call signal_fn

  // Where the executor stands inside run_queued.
  datatype Pc =
    | Sleeping
    | Expire(prev: Ptr)                // dequeue_expired; prev is the task whose cell is the cursor, Null for the head cell
    | ExpireCall(prev: Ptr, p: nat)    // p has expired and is being enqueued by agent 0
    | ToSwap
    | Batch(cur: Ptr)                  // top of the loop in dequeue_all
    | Took(t: nat, nxt: Ptr)           // next has been read, RUN_QUEUED of t is still set
    | ToPoll(t: nat, nxt: Ptr)
    | Polling(t: nat, nxt: Ptr)
    | Dropped(t: nat, nxt: Ptr)        // the future returned Ready and was dropped
    | Updating(t: nat, nxt: Ptr)       // about to call timer_queue.update
    | Scan(prev: Ptr, res: nat)        // next_expiration
    | SetAlarm(res: nat)

  datatype State = State(
    tasks: seq<Task>,
    agents: seq<Agent>,    // agent 0 is the executor itself, enqueueing an expired task
    head: Ptr,
    timerHead: Ptr,
    pc: Pc,
    hasAlarm: bool,
    now: nat,              // the clock as read at the last entry of run_queued
    alarm: nat,            // last value given to alarm.set
    signalled: bool,       // signal_fn was called since the last swap of head
    event: bool)           // what signal_fn sets and waiting consumes

  datatype Event =
    | WakeLoad(a: nat, t: nat)
    | WakeCas(a: nat, spurious: bool)
    | AllocSlot(a: nat, t: nat)
    | WriteFuture(a: nat)
    | SpawnToken(a: nat)
    | HeadLoad(a: nat)
    | NextStore(a: nat)
    | HeadCas(a: nat, spurious: bool)
    | SignalCall(a: nat)
    | Enter(now: nat)
    | ExpireVisit
    | ExpireUnlink
    | Swap
    | Take
    | ClearRunQueued
    | BeginPoll
    | RegisterTimer(at: nat)
    | PollReady
    | ClearSpawned
    | PollPending
    | UpdateTimer
    | ScanVisit
    | AlarmSet

  predicate Init(s: State) {
    && |s.agents| >= 1
    && (forall a | 0 <= a < |s.agents| :: s.agents[a] == Idle)
    && (forall t | 0 <= t < |s.tasks| :: s.tasks[t] == Task(FREE, false, false, Null, 0, Null))
    && s.head == Null && s.timerHead == Null && s.pc == Sleeping
  }

  function SetAgent(s: State, a: nat, ag: Agent): State
    requires a < |s.agents|
  {
    s.(agents := s.agents[a := ag])
  }

  function SetTask(s: State, t: nat, task: Task): State
    requires t < |s.tasks|
  {
    s.(tasks := s.tasks[t := task])
  }

  // The test at the top of the loop in TaskHeader::enqueue.
  function Consider(t: nat, w: Word): Agent {
    if w.runQueued || !w.spawned then Idle else Cas(t, w)
  }

  // The pointer held by the cell that retain's cursor designates.
  function Cell(s: State, prev: Ptr): Ptr {
    match prev
    case Null => s.timerHead
    case To(p) => if p < |s.tasks| then s.tasks[p].timerNext else Null
  }

  // retain removes p: the cursor's cell skips it and TIMER_QUEUED is cleared.
  function Unlink(s: State, prev: Ptr, p: nat): State
    requires p < |s.tasks|
    requires prev.To? ==> prev.id < |s.tasks|
  {
    var after := s.tasks[p].timerNext;
    var s1 := match prev
      case Null => s.(timerHead := after)
      case To(c) => SetTask(s, c, s.tasks[c].(timerNext := after));
    SetTask(s1, p, s1.tasks[p].(state := s1.tasks[p].state.(timerQueued := false)))
  }

  function AgentStep(s: State, e: Event): Option<State>
    requires e.WakeLoad? || e.WakeCas? || e.AllocSlot? || e.WriteFuture? || e.SpawnToken?
          || e.HeadLoad? || e.NextStore? || e.HeadCas? || e.SignalCall?
    requires e.a < |s.agents|
    requires s.agents[e.a] != Idle && s.agents[e.a] != Signal ==> s.agents[e.a].t < |s.tasks|
  {
    var ag := s.agents[e.a];
    match e
    case WakeLoad(a, t) =>
      if !ag.Idle? || a == 0 || t >= |s.tasks| then None else Some(SetAgent(s, a, Consider(t, s.tasks[t].state)))
    case WakeCas(a, spurious) =>
      if !ag.Cas? then None
      else if !spurious && s.tasks[ag.t].state == ag.cur then
        Some(SetAgent(SetTask(s, ag.t, s.tasks[ag.t].(state := ag.cur.(runQueued := true))), a, LoadHead(ag.t)))
      else Some(SetAgent(s, a, Consider(ag.t, s.tasks[ag.t].state)))
    case AllocSlot(a, t) =>
      if !ag.Idle? || a == 0 || t >= |s.tasks| then None
      else if s.tasks[t].state == FREE then
        Some(SetAgent(SetTask(s, t, s.tasks[t].(state := Word(true, true, false))), a, Alloc(t)))
      else Some(s)
    case WriteFuture(a) =>
      if !ag.Alloc? then None
      else Some(SetAgent(SetTask(s, ag.t, s.tasks[ag.t].(live := true)), a, Token(ag.t)))
    case SpawnToken(a) =>
      if !ag.Token? then None
      else Some(SetAgent(SetTask(s, ag.t, s.tasks[ag.t].(executor := true)), a, LoadHead(ag.t)))
    case HeadLoad(a) =>
      if ag.LoadHead? then Some(SetAgent(s, a, Link(ag.t, s.head))) else None
    case NextStore(a) =>
      if !ag.Link? then None
      else Some(SetAgent(SetTask(s, ag.t, s.tasks[ag.t].(runNext := ag.prev)), a, Push(ag.t, ag.prev)))
    case HeadCas(a, spurious) =>
      if !ag.Push? then None
      else if !spurious && s.head == ag.prev then
        Some(SetAgent(s, a, if ag.prev.Null? then Signal else Idle).(head := To(ag.t)))
      else Some(SetAgent(s, a, Link(ag.t, s.head)))
    case SignalCall(a) =>
      if ag.Signal? then Some(SetAgent(s, a, Idle).(signalled := true, event := true)) else None
  }

  // One iteration of retain in dequeue_expired.
  function VisitExpired(s: State, prev: Ptr): Option<State>
    requires |s.agents| >= 1
  {
    match Cell(s, prev)
    case Null => Some(s.(pc := ToSwap))
    case To(p) =>
      if p >= |s.tasks| then None
      else if s.tasks[p].expiresAt <= s.now then
        Some(SetAgent(s, 0, Consider(p, s.tasks[p].state)).(pc := ExpireCall(prev, p)))
      else Some(s.(pc := Expire(To(p))))
  }

  // One iteration of retain in next_expiration.
  function VisitScanned(s: State, prev: Ptr, res: nat): Option<State>
    requires prev.To? ==> prev.id < |s.tasks|
  {
    match Cell(s, prev)
    case Null => Some(s.(pc := SetAlarm(res)))
    case To(p) =>
      if p >= |s.tasks| then None
      else
        var res' := Min(res, s.tasks[p].expiresAt);
        if s.tasks[p].expiresAt != MAX then Some(s.(pc := Scan(To(p), res')))
        else Some(Unlink(s, prev, p).(pc := Scan(prev, res')))
  }

  function ExecutorStep(s: State, e: Event): Option<State>
    requires |s.agents| >= 1
    requires PcInRange(s)
  {
    match e
    case Enter(now) =>
      if !s.pc.Sleeping? || now < s.now then None
      else Some(s.(event := false, now := now, pc := if s.hasAlarm then Expire(Null) else ToSwap))
    case ExpireVisit => if s.pc.Expire? then VisitExpired(s, s.pc.prev) else None
    case ExpireUnlink =>
      if !s.pc.ExpireCall? || s.agents[0] != Idle then None
      else Some(Unlink(s, s.pc.prev, s.pc.p).(pc := Expire(s.pc.prev)))
    case Swap =>
      if s.pc.ToSwap? then Some(s.(head := Null, signalled := false, pc := Batch(s.head))) else None
    case Take =>
      if !s.pc.Batch? then None
      else if s.pc.cur.Null? then Some(s.(pc := if s.hasAlarm then Scan(Null, MAX) else Sleeping))
      else
        var t := s.pc.cur.id;
        Some(SetTask(s, t, s.tasks[t].(expiresAt := MAX)).(pc := Took(t, s.tasks[t].runNext)))
    case ClearRunQueued =>
      if !s.pc.Took? then None
      else
        var w := s.tasks[s.pc.t].state;
        Some(SetTask(s, s.pc.t, s.tasks[s.pc.t].(state := w.(runQueued := false)))
             .(pc := if w.spawned then ToPoll(s.pc.t, s.pc.nxt) else Batch(s.pc.nxt)))
    case BeginPoll =>
      if s.pc.ToPoll? then Some(s.(pc := Polling(s.pc.t, s.pc.nxt))) else None
    case RegisterTimer(at) =>
      if !s.pc.Polling? || at > MAX then None
      else Some(SetTask(s, s.pc.t, s.tasks[s.pc.t].(expiresAt := Min(s.tasks[s.pc.t].expiresAt, at))))
    case PollReady =>
      if !s.pc.Polling? then None
      else Some(SetTask(s, s.pc.t, s.tasks[s.pc.t].(live := false)).(pc := Dropped(s.pc.t, s.pc.nxt)))
    case ClearSpawned =>
      if !s.pc.Dropped? then None
      else
        var w := s.tasks[s.pc.t].state;
        Some(SetTask(s, s.pc.t, s.tasks[s.pc.t].(state := w.(spawned := false))).(pc := Updating(s.pc.t, s.pc.nxt)))
    case PollPending =>
      if s.pc.Polling? then Some(s.(pc := Updating(s.pc.t, s.pc.nxt))) else None
    case UpdateTimer =>
      if !s.pc.Updating? then None
      else
        var task := s.tasks[s.pc.t];
        if task.expiresAt == MAX || task.state.timerQueued then Some(s.(pc := Batch(s.pc.nxt)))
        else Some(SetTask(s, s.pc.t, task.(state := task.state.(timerQueued := true), timerNext := s.timerHead))
                  .(timerHead := To(s.pc.t), pc := Batch(s.pc.nxt)))
    case ScanVisit => if s.pc.Scan? then VisitScanned(s, s.pc.prev, s.pc.res) else None
    case AlarmSet =>
      if s.pc.SetAlarm? then Some(s.(alarm := s.pc.res, pc := Sleeping)) else None
    case _ => None
  }

  // Pointers held by the executor designate task slots.
  predicate PcInRange(s: State) {
    match s.pc
    case Sleeping => true
    case ToSwap => true
    case SetAlarm(_) => true
    case Expire(prev) => prev.To? ==> prev.id < |s.tasks|
    case Scan(prev, _) => prev.To? ==> prev.id < |s.tasks|
    case ExpireCall(prev, p) => p < |s.tasks| && (prev.To? ==> prev.id < |s.tasks|)
    case Batch(cur) => cur.To? ==> cur.id < |s.tasks|
    case Took(t, _) => t < |s.tasks|
    case ToPoll(t, _) => t < |s.tasks|
    case Polling(t, _) => t < |s.tasks|
    case Dropped(t, _) => t < |s.tasks|
    case Updating(t, _) => t < |s.tasks|
  }

  predicate IsAgentEvent(e: Event) {
    e.WakeLoad? || e.WakeCas? || e.AllocSlot? || e.WriteFuture? || e.SpawnToken?
    || e.HeadLoad? || e.NextStore? || e.HeadCas? || e.SignalCall?
  }

  // One step; None when e is not enabled in s.
  function Step(s: State, e: Event): Option<State> {
    if IsAgentEvent(e) then
      if e.a < |s.agents| && (s.agents[e.a] != Idle && s.agents[e.a] != Signal ==> s.agents[e.a].t < |s.tasks|)
      then AgentStep(s, e) else None
    else if |s.agents| >= 1 && PcInRange(s) then ExecutorStep(s, e)
    else None
  }
}
