/** What every step of the executor keeps.

    The invariant speaks about history variables that the steps never read: the two run lists and
    the timer list as sequences, the place that accounts for each RUN_QUEUED bit, and the deadlines
    registered since each task's last poll began. */
module ExecutorInv {
  import opened Basics
  import opened ExecutorModel

  // The one place that accounts for a RUN_QUEUED bit.
  datatype Place =
    | Nowhere
    | InHead(i: nat)     // i-th oldest element of the head list
    | InBatch(i: nat)    // i-th oldest element of the unvisited rest of the batch
    | HeldBy(a: nat)     // an agent that has still to push the task

  datatype History = History(
    q: seq<nat>,            // head list, oldest first
    rest: seq<nat>,         // unvisited rest of the batch, oldest first: visited from the back
    place: seq<Place>,
    tl: seq<nat>,           // timer list, in list order
    k: nat,                 // how many elements of tl retain has passed
    reg: seq<seq<nat>>)     // deadlines registered since the last BeginPoll

  function InitHistory(s: State): History {
    History([], [], seq(|s.tasks|, _ => Nowhere), [], 0, seq(|s.tasks|, _ => []))
  }

  // The history after step e, taken from s.
  function After(s: State, h: History, e: Event): History
    requires |h.place| == |s.tasks| == |h.reg|
    requires Step(s, e).Some?
  {
    match e
    case WakeCas(a, spurious) =>
      var t := s.agents[a].t;
      if !spurious && s.tasks[t].state == s.agents[a].cur then h.(place := h.place[t := HeldBy(a)]) else h
    case AllocSlot(a, t) =>
      if s.tasks[t].state == FREE then h.(place := h.place[t := HeldBy(a)]) else h
    case HeadCas(a, spurious) =>
      var t := s.agents[a].t;
      if !spurious && s.head == s.agents[a].prev
      then h.(q := h.q + [t], place := h.place[t := InHead(|h.q|)]) else h
    case Swap =>
      h.(q := [], rest := h.q,
         place := seq(|h.place|, t requires 0 <= t < |h.place| =>
                    match h.place[t] case InHead(i) => InBatch(i) case p => p))
    case ClearRunQueued =>
      if |h.rest| == 0 then h
      else h.(rest := h.rest[..|h.rest| - 1], place := h.place[s.pc.t := Nowhere])
    case BeginPoll => h.(reg := h.reg[s.pc.t := []])
    case RegisterTimer(at) => h.(reg := h.reg[s.pc.t := h.reg[s.pc.t] + [at]])
    case UpdateTimer =>
      var task := s.tasks[s.pc.t];
      if task.expiresAt != MAX && !task.state.timerQueued then h.(tl := [s.pc.t] + h.tl) else h
    case Enter(_) => h.(k := 0)
    case Take => h.(k := 0)
    case ExpireVisit =>
      if Cell(s, s.pc.prev).To? && s.tasks[Cell(s, s.pc.prev).id].expiresAt > s.now then h.(k := h.k + 1) else h
    case ExpireUnlink => Forget(h)
    case ScanVisit =>
      if Cell(s, s.pc.prev).Null? then h
      else if s.tasks[Cell(s, s.pc.prev).id].expiresAt != MAX then h.(k := h.k + 1)
      else Forget(h)
    case _ => h
  }

  function Forget(h: History): History {
    if h.k < |h.tl| then h.(tl := h.tl[..h.k] + h.tl[h.k + 1..]) else h
  }

  // The pointer to the i-th element counted from the oldest, for a stack kept oldest first.
  function Below(q: seq<nat>, i: nat): Ptr
    requires i <= |q|
  {
    if i == 0 then Null else To(q[i - 1])
  }

  function Top(q: seq<nat>): Ptr { Below(q, |q|) }

  function PtrAt(l: seq<nat>, i: nat): Ptr { if i < |l| then To(l[i]) else Null }

  // The task an agent is bound to put into the run queue.
  predicate Holds(ag: Agent) { ag.Alloc? || ag.Token? || ag.LoadHead? || ag.Link? || ag.Push? }

  predicate Unspawned(ag: Agent) { ag.Alloc? || ag.Token? }

  ghost predicate IsMinimum(m: nat, ds: seq<nat>) {
    && m <= MAX
    && (forall i | 0 <= i < |ds| :: m <= ds[i])
    && (m == MAX || m in ds)
  }

  ghost predicate Shape(s: State, h: History) {
    && |s.agents| >= 1
    && |h.place| == |s.tasks| == |h.reg|
    && PcInRange(s)
  }

  // The next cursor held by dequeue_all, and the task it is processing.
  function Visiting(pc: Pc): Option<nat> {
    match pc
    case ToPoll(t, _) => Some(t)
    case Polling(t, _) => Some(t)
    case Dropped(t, _) => Some(t)
    case Updating(t, _) => Some(t)
    case _ => None
  }

  ghost predicate CursorOk(s: State, h: History) {
    match s.pc
    case Batch(cur) => cur == Top(h.rest)
    case Took(t, nxt) => |h.rest| > 0 && h.rest[|h.rest| - 1] == t && nxt == Below(h.rest, |h.rest| - 1)
    case ToPoll(t, nxt) => nxt == Top(h.rest)
    case Polling(t, nxt) => nxt == Top(h.rest)
    case Dropped(t, nxt) => nxt == Top(h.rest)
    case Updating(t, nxt) => nxt == Top(h.rest)
    case _ => h.rest == []
  }

  // The stack l, kept oldest first, is what the next pointers say, and tag is its kind of place.
  ghost predicate ListOk(s: State, h: History, l: seq<nat>, inBatch: bool)
    requires Shape(s, h)
  {
    && (forall i | 0 <= i < |l| :: l[i] < |s.tasks|)
    && (forall i {:trigger h.place[l[i]]} | 0 <= i < |l| ::
          h.place[l[i]] == if inBatch then InBatch(i) else InHead(i))
    && (forall i {:trigger s.tasks[l[i]]} | 0 <= i < |l| :: s.tasks[l[i]].runNext == Below(l, i))
  }

  ghost predicate PlaceOk(s: State, h: History, t: nat)
    requires Shape(s, h) && t < |s.tasks|
  {
    match h.place[t]
    case Nowhere => !s.tasks[t].state.runQueued
    case InHead(i) => s.tasks[t].state.runQueued && i < |h.q| && h.q[i] == t
    case InBatch(i) => s.tasks[t].state.runQueued && i < |h.rest| && h.rest[i] == t
    case HeldBy(a) =>
      && s.tasks[t].state.runQueued
      && a < |s.agents| && Holds(s.agents[a]) && s.agents[a].t == t
  }

  ghost predicate PlacesOk(s: State, h: History)
    requires Shape(s, h)
  {
    forall t | 0 <= t < |s.tasks| :: PlaceOk(s, h, t)
  }

  ghost predicate AgentOk(s: State, h: History, a: nat)
    requires Shape(s, h) && a < |s.agents|
  {
    var ag := s.agents[a];
    && (ag != Idle && ag != Signal ==> ag.t < |s.tasks|)
    && (Holds(ag) ==> h.place[ag.t] == HeldBy(a))
    && (ag.Push? ==> s.tasks[ag.t].runNext == ag.prev)
    && (ag.Cas? ==> ag.cur.spawned && !ag.cur.runQueued)
  }

  ghost predicate RunInv(s: State, h: History)
    requires Shape(s, h)
  {
    && ListOk(s, h, h.q, false) && ListOk(s, h, h.rest, true)
    && s.head == Top(h.q)
    && CursorOk(s, h)
    && PlacesOk(s, h)
    && (forall a | 0 <= a < |s.agents| :: AgentOk(s, h, a))
    && (Visiting(s.pc).Some? ==> !h.place[Visiting(s.pc).value].InBatch?)
  }

  // Some agent has pushed onto an empty list and is about to call signal_fn.
  ghost predicate SignalDue(s: State) {
    exists a | 0 <= a < |s.agents| :: s.agents[a] == Signal
  }

  // run_queued has been entered and has not yet taken the head list.
  predicate BeforeSwap(pc: Pc) { pc.Expire? || pc.ExpireCall? || pc.ToSwap? }

  ghost predicate SignalInv(s: State, h: History) {
    && (h.q != [] ==> s.signalled || SignalDue(s))
    && (h.q != [] && !BeforeSwap(s.pc) ==> s.event || SignalDue(s))
  }

  // The agent that holds t, Idle if there is none.
  function Holder(s: State, h: History, t: nat): Agent
    requires t < |h.place|
  {
    if h.place[t].HeldBy? && h.place[t].a < |s.agents| then s.agents[h.place[t].a] else Idle
  }

  // The slot of t: its future, and its executor pointer.
  ghost predicate SlotOk(s: State, h: History, t: nat)
    requires Shape(s, h) && t < |s.tasks|
  {
    var task := s.tasks[t];
    var ag := Holder(s, h, t);
    && (task.live <==> task.state.spawned && !ag.Alloc? && !(s.pc.Dropped? && s.pc.t == t))
    && (task.state.spawned && !Unspawned(ag) ==> task.executor)
    && (Holds(ag) && !Unspawned(ag) ==> task.executor)
    && (Unspawned(ag) ==> task.state.spawned)
  }

  ghost predicate LifeInv(s: State, h: History)
    requires Shape(s, h)
  {
    && (forall t | 0 <= t < |s.tasks| :: SlotOk(s, h, t))
    && (s.pc.ToPoll? || s.pc.Polling? || s.pc.Dropped? ==>
          s.tasks[s.pc.t].state.spawned && !Unspawned(Holder(s, h, s.pc.t)))
  }

  ghost predicate InRange(s: State, l: seq<nat>) {
    forall i | 0 <= i < |l| :: l[i] < |s.tasks|
  }

  ghost predicate TimerListOk(s: State, h: History)
    requires Shape(s, h)
  {
    && s.timerHead == PtrAt(h.tl, 0)
    && InRange(s, h.tl)
    && (forall i {:trigger s.tasks[h.tl[i]]} | 0 <= i < |h.tl| :: s.tasks[h.tl[i]].timerNext == PtrAt(h.tl, i + 1))
    && (forall i, j | 0 <= i < j < |h.tl| :: h.tl[i] != h.tl[j])
    && (forall t | 0 <= t < |s.tasks| :: s.tasks[t].state.timerQueued <==> t in h.tl)
  }

  function PrevOf(h: History): Ptr
    requires h.k <= |h.tl|
  {
    if h.k == 0 then Null else To(h.tl[h.k - 1])
  }

  ghost predicate ScanOk(s: State, h: History, res: nat)
    requires Shape(s, h) && InRange(s, h.tl) && h.k <= |h.tl|
  {
    && res <= MAX
    && (forall i | 0 <= i < h.k :: res <= s.tasks[h.tl[i]].expiresAt < MAX)
    && (res == MAX || exists i | 0 <= i < h.k :: s.tasks[h.tl[i]].expiresAt == res)
  }

  ghost predicate RetainOk(s: State, h: History)
    requires Shape(s, h) && InRange(s, h.tl)
  {
    match s.pc
    case Expire(prev) =>
      && h.k <= |h.tl| && prev == PrevOf(h)
      && (forall i | 0 <= i < h.k :: s.tasks[h.tl[i]].expiresAt > s.now)
      && s.agents[0] == Idle
    case ExpireCall(prev, p) =>
      && h.k < |h.tl| && prev == PrevOf(h) && h.tl[h.k] == p
      && (forall i | 0 <= i < h.k :: s.tasks[h.tl[i]].expiresAt > s.now)
      && s.tasks[p].expiresAt <= s.now
      && (s.agents[0].Cas? ==> s.agents[0].t == p)
      && (!s.agents[0].Cas? ==> s.tasks[p].state.runQueued || !s.tasks[p].state.spawned)
    case Scan(prev, res) =>
      && h.k <= |h.tl| && prev == PrevOf(h) && ScanOk(s, h, res) && s.agents[0] == Idle
    case SetAlarm(res) => h.k == |h.tl| && ScanOk(s, h, res) && s.agents[0] == Idle
    case ToSwap =>
      && (s.hasAlarm ==> forall i | 0 <= i < |h.tl| :: s.tasks[h.tl[i]].expiresAt > s.now)
      && s.agents[0] == Idle
    case _ => s.agents[0] == Idle
  }

  // Deadlines registered in the last poll of a live task that has not been woken since.
  ghost predicate DeadlineOk(s: State, h: History, t: nat)
    requires Shape(s, h) && t < |s.tasks|
  {
    var task := s.tasks[t];
    && task.expiresAt <= MAX
    && (task.state.spawned && !task.state.runQueued && !(s.pc.ToPoll? && s.pc.t == t)
        ==> IsMinimum(task.expiresAt, h.reg[t]))
    && (task.state.spawned && !task.state.runQueued && Visiting(s.pc) != Some(t) && task.expiresAt != MAX
        ==> task.state.timerQueued)
  }

  ghost predicate TimerInv(s: State, h: History)
    requires Shape(s, h)
  {
    && TimerListOk(s, h)
    && RetainOk(s, h)
    && (forall t | 0 <= t < |s.tasks| :: DeadlineOk(s, h, t))
    && (s.pc.Took? || s.pc.ToPoll? ==> s.tasks[s.pc.t].expiresAt == MAX)
  }

  ghost predicate Inv(s: State, h: History) {
    && Shape(s, h)
    && RunInv(s, h)
    && SignalInv(s, h)
    && LifeInv(s, h)
    && TimerInv(s, h)
  }
}
