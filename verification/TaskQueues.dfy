/** The executor's two intrusive lists as they are edited in place on heap nodes.

    This is the sequential reading of the code: calls do not interleave, but while a task is polled
    any tasks may be woken, the polled one included.  Interleaving is the business of ExecutorModel. */
module TaskQueues {
  import opened Basics

  type Instant = n: nat | n <= MAX

  class TaskHeader {
    var spawned: bool
    var runQueued: bool
    var timerQueued: bool
    var runNext: TaskHeader?
    var timerNext: TaskHeader?
    var expiresAt: Instant

    constructor ()
      ensures !spawned && !runQueued && !timerQueued && expiresAt == 0
    {
      spawned, runQueued, timerQueued := false, false, false;
      runNext, timerNext, expiresAt := null, null, 0;
    }
  }

  function Nth(l: seq<TaskHeader>, i: nat): TaskHeader? { if i < |l| then l[i] else null }

  function LastOf(l: seq<TaskHeader>): TaskHeader? { if l == [] then null else l[|l| - 1] }

  // No element occurs twice, and members are the elements.
  ghost predicate Distinct(l: seq<TaskHeader>, members: set<TaskHeader>) {
    if l == [] then members == {}
    else l[0] in members && Distinct(l[1..], members - {l[0]})
  }

  lemma MembersOf(l: seq<TaskHeader>, members: set<TaskHeader>)
    requires Distinct(l, members)
    ensures forall t :: t in members <==> t in l
  {
    if l != [] {
      MembersOf(l[1..], members - {l[0]});
      assert l == [l[0]] + l[1..];
    }
  }

  lemma DistinctPrepend(t: TaskHeader, l: seq<TaskHeader>, members: set<TaskHeader>)
    requires Distinct(l, members) && t !in members
    ensures Distinct([t] + l, members + {t})
  {
    assert ([t] + l)[1..] == l && (members + {t}) - {t} == members;
  }

  lemma TailWithout(l: seq<TaskHeader>, k: nat)
    requires 0 < k < |l|
    ensures var w := l[..k] + l[k + 1..]; w != [] && w[0] == l[0] && w[1..] == l[1..][..k - 1] + l[1..][k..]
    ensures forall i | 0 < i < |l| :: l[i] == l[1..][i - 1]
  {
  }

  lemma DistinctFirst(l: seq<TaskHeader>, members: set<TaskHeader>)
    requires Distinct(l, members) && l != []
    ensures Distinct(l[..0] + l[1..], members - {l[0]})
    ensures forall i | 0 < i < |l| :: l[i] != l[0] && l[i] in members
  {
    MembersOf(l[1..], members - {l[0]});
    assert l[..0] + l[1..] == l[1..];
    forall i | 0 < i < |l| ensures l[i] != l[0] && l[i] in members { assert l[i] == l[1..][i - 1]; }
  }

  lemma DistinctWithout(l: seq<TaskHeader>, members: set<TaskHeader>, k: nat)
    requires Distinct(l, members) && k < |l|
    ensures Distinct(l[..k] + l[k + 1..], members - {l[k]})
    ensures forall i | 0 <= i < |l| && i != k :: l[i] != l[k]
    ensures forall i | 0 <= i < |l| :: l[i] in members
  {
    DistinctFirst(l, members);
    if k > 0 {
      TailWithout(l, k);
      DistinctWithout(l[1..], members - {l[0]}, k - 1);
      assert members - {l[0]} - {l[k]} == members - {l[k]} - {l[0]};
    }
  }

  lemma DistinctTail(t: TaskHeader, l: seq<TaskHeader>, members: set<TaskHeader>)
    requires Distinct([t] + l, members)
    ensures t in members && Distinct(l, members - {t})
    ensures forall i | 0 <= i < |l| :: l[i] in members - {t}
  {
    assert ([t] + l)[1..] == l;
    MembersOf(l, members - {t});
  }

  lemma IndicesWithoutFirst(kept: seq<TaskHeader>, todo: seq<TaskHeader>)
    requires todo != []
    ensures (kept + todo)[..|kept|] + (kept + todo)[|kept| + 1..] == kept + todo[1..]
    ensures (kept + todo)[|kept|] == todo[0] && (kept != [] ==> (kept + todo)[|kept| - 1] == kept[|kept| - 1])
    ensures forall i | 0 <= i < |kept| + |todo| - 1 ::
              (kept + todo[1..])[i] == (kept + todo)[if i < |kept| then i else i + 1]
  {
  }

  lemma WithoutFirst(kept: seq<TaskHeader>, todo: seq<TaskHeader>, members: set<TaskHeader>)
    requires Distinct(kept + todo, members) && todo != []
    ensures Distinct(kept + todo[1..], members - {todo[0]})
    ensures forall i | 0 <= i < |kept| + |todo| && i != |kept| :: (kept + todo)[i] != todo[0]
    ensures kept != [] ==> forall i | 0 <= i < |kept| + |todo| && i != |kept| - 1 :: (kept + todo)[i] != kept[|kept| - 1]
    ensures forall i | 0 <= i < |kept| + |todo| - 1 ::
              (kept + todo[1..])[i] == (kept + todo)[if i < |kept| then i else i + 1]
    ensures forall i | 0 <= i < |kept| + |todo| - 1 :: (kept + todo[1..])[i] in members - {todo[0]}
  {
    hide Distinct;
    IndicesWithoutFirst(kept, todo);
    DistinctWithout(kept + todo, members, |kept|);
    if kept != [] { DistinctWithout(kept + todo, members, |kept| - 1); }
  }

  class RunQueue {
    var head: TaskHeader?
    ghost var list: seq<TaskHeader>
    ghost var members: set<TaskHeader>
    ghost const tasks: set<TaskHeader>     // the slots this queue can hold

    ghost predicate Valid()
      reads this, tasks`runNext
    {
      && Distinct(list, members) && members <= tasks && head == Nth(list, 0)
      && (forall i | 0 <= i < |list| :: list[i] in members)
      && (forall i {:trigger list[i].runNext} | 0 <= i < |list| :: list[i].runNext == Nth(list, i + 1))
    }

    constructor (ghost tasks: set<TaskHeader>)
      ensures Valid() && list == [] && this.tasks == tasks
    {
      head, list, members := null, [], {};
      this.tasks := tasks;
    }

    // RunQueue::enqueue, when no compare-exchange fails.
    method Enqueue(item: TaskHeader) returns (wasEmpty: bool)
      requires Valid() && item in tasks && item !in members
      modifies this, item`runNext
      ensures Valid() && list == [item] + old(list) && members == old(members) + {item}
      ensures wasEmpty <==> old(list) == []
    {
      var prev := head;
      item.runNext := prev;
      head := item;
      DistinctPrepend(item, list, members);
      list, members := [item] + list, members + {item};
      wasEmpty := prev == null;
    }

    // head.swap(null)
    method Take() returns (first: TaskHeader?)
      requires Valid()
      modifies this
      ensures Valid() && list == [] && members == {} && first == Nth(old(list), 0)
    {
      first := head;
      head, list, members := null, [], {};
    }
  }

  // TaskHeader::enqueue and Executor::enqueue; true if the executor must be signalled.
  method EnqueueTask(task: TaskHeader, runQueue: RunQueue) returns (signal: bool)
    requires runQueue.Valid() && task in runQueue.tasks && (task in runQueue.members ==> task.runQueued)
    modifies runQueue, task`runQueued, task`runNext
    ensures runQueue.Valid()
    ensures if task.spawned && !old(task.runQueued)
            then task.runQueued && runQueue.list == [task] + old(runQueue.list)
                 && runQueue.members == old(runQueue.members) + {task} && signal == (old(runQueue.list) == [])
            else task.runQueued == old(task.runQueued) && task.runNext == old(task.runNext)
                 && runQueue.list == old(runQueue.list) && runQueue.members == old(runQueue.members) && !signal
  {
    if task.runQueued || !task.spawned { return false; }
    task.runQueued := true;
    signal := runQueue.Enqueue(task);
  }

  /* ---------- the timer queue ---------- */

  // The two closures that are passed to retain.
  datatype Visitor = NextExpiration | Expired(now: nat)

  predicate Keeps(v: Visitor, at: nat) {
    match v
    case NextExpiration => at != MAX
    case Expired(now) => at > now
  }

  // What tasks' cells hold; outside the map nothing is asked.
  function At(at: map<TaskHeader, nat>, t: TaskHeader): nat { if t in at then at[t] else 0 }

  // l without the elements that the visitor does not keep.
  ghost function Kept(l: seq<TaskHeader>, at: map<TaskHeader, nat>, v: Visitor): seq<TaskHeader> {
    if l == [] then []
    else (if Keeps(v, At(at, l[0])) then [l[0]] else []) + Kept(l[1..], at, v)
  }

  ghost function Least(l: seq<TaskHeader>, at: map<TaskHeader, nat>): nat {
    if l == [] then MAX else Min(At(at, l[0]), Least(l[1..], at))
  }

  // base, with those elements of l that have expired, are spawned and not there yet pushed onto it in turn.
  ghost function Pushed(base: seq<TaskHeader>, l: seq<TaskHeader>, at: map<TaskHeader, nat>, v: Visitor, spawned: set<TaskHeader>): seq<TaskHeader>
    decreases |l|
  {
    if l == [] then base
    else Pushed(if v.Expired? && !Keeps(v, At(at, l[0])) && l[0] in spawned && l[0] !in base then [l[0]] + base else base,
                l[1..], at, v, spawned)
  }

  // Kept keeps exactly the elements with the property,
  lemma {:induction false} KeptIsFilter(l: seq<TaskHeader>, at: map<TaskHeader, nat>, v: Visitor)
    ensures forall t :: t in Kept(l, at, v) <==> t in l && Keeps(v, At(at, t))
  {
    if l != [] {
      KeptIsFilter(l[1..], at, v);
      assert l == [l[0]] + l[1..];
    }
  }

  // in their order.
  lemma {:induction false} KeptInOrder(l: seq<TaskHeader>, l': seq<TaskHeader>, at: map<TaskHeader, nat>, v: Visitor)
    ensures Kept(l + l', at, v) == Kept(l, at, v) + Kept(l', at, v)
  {
    if l == [] { assert l + l' == l'; }
    else {
      KeptInOrder(l[1..], l', at, v);
      assert (l + l')[0] == l[0] && (l + l')[1..] == l[1..] + l';
      var first, rest, rest' := if Keeps(v, At(at, l[0])) then [l[0]] else [], Kept(l[1..], at, v), Kept(l', at, v);
      assert first + (rest + rest') == (first + rest) + rest';
    }
  }

  lemma {:induction false} LeastIsMinimum(l: seq<TaskHeader>, at: map<TaskHeader, nat>)
    ensures Least(l, at) <= MAX
    ensures forall t | t in l :: Least(l, at) <= At(at, t)
    ensures Least(l, at) == MAX || exists t :: t in l && At(at, t) == Least(l, at)
    ensures Least(Kept(l, at, NextExpiration), at) == Least(l, at)
  {
    if l != [] {
      LeastIsMinimum(l[1..], at);
      var k := Kept(l[1..], at, NextExpiration);
      assert l == [l[0]] + l[1..];
      if At(at, l[0]) != MAX { assert ([l[0]] + k)[1..] == k; } else { assert Kept(l, at, NextExpiration) == k; }
    }
  }

  // An expired, spawned task ends up in the run queue; nothing leaves it.
  lemma {:induction false} PushedMembers(base: seq<TaskHeader>, l: seq<TaskHeader>, at: map<TaskHeader, nat>, now: nat, spawned: set<TaskHeader>)
    ensures forall t :: t in Pushed(base, l, at, Expired(now), spawned) <==>
              t in base || (t in l && At(at, t) <= now && t in spawned)
    decreases |l|
  {
    if l != [] {
      var base' := if At(at, l[0]) <= now && l[0] in spawned && l[0] !in base then [l[0]] + base else base;
      PushedMembers(base', l[1..], at, now, spawned);
      assert l == [l[0]] + l[1..];
    }
  }

  // Passed elements and those still ahead add up to the results over all.
  ghost predicate Progress(v: Visitor, all: seq<TaskHeader>, at: map<TaskHeader, nat>, spawned: set<TaskHeader>, base: seq<TaskHeader>,
                           visited: seq<TaskHeader>, kept: seq<TaskHeader>, todo: seq<TaskHeader>, res: nat, runList: seq<TaskHeader>)
  {
    && visited + todo == all
    && kept + Kept(todo, at, v) == Kept(all, at, v)
    && (v == NextExpiration ==> Min(res, Least(todo, at)) == Least(all, at) && res <= MAX)
    && Pushed(runList, todo, at, v, spawned) == Pushed(base, all, at, v, spawned)
  }

  lemma ProgressTurn(v: Visitor, all: seq<TaskHeader>, at: map<TaskHeader, nat>, spawned: set<TaskHeader>, base: seq<TaskHeader>,
                     visited: seq<TaskHeader>, kept: seq<TaskHeader>, todo: seq<TaskHeader>, res: nat, runList: seq<TaskHeader>)
    requires Progress(v, all, at, spawned, base, visited, kept, todo, res, runList) && todo != []
    ensures var p := todo[0];
            Progress(v, all, at, spawned, base, visited + todo[..1],
                     if Keeps(v, At(at, p)) then kept + todo[..1] else kept, todo[1..],
                     if v.NextExpiration? then Min(res, At(at, p)) else res,
                     if v.Expired? && !Keeps(v, At(at, p)) && p in spawned && p !in runList then [p] + runList else runList)
  {
    assert visited + todo[..1] + todo[1..] == visited + todo;
  }

  ghost function DeadlinesOf(tasks: set<TaskHeader>): map<TaskHeader, nat>
    reads tasks`expiresAt
  {
    map t | t in tasks :: t.expiresAt
  }

  ghost function SpawnedIn(tasks: set<TaskHeader>): set<TaskHeader>
    reads tasks`spawned
  {
    set t | t in tasks && t.spawned
  }

  class TimerQueue {
    var head: TaskHeader?
    ghost var list: seq<TaskHeader>
    ghost var members: set<TaskHeader>
    ghost const tasks: set<TaskHeader>     // the slots this queue can hold

    // TIMER_QUEUED is set exactly on the elements of the list.
    ghost predicate Valid()
      reads this, tasks`timerNext, tasks`timerQueued
    {
      && Distinct(list, members) && members <= tasks && head == Nth(list, 0)
      && (forall i | 0 <= i < |list| :: list[i] in members)
      && (forall i {:trigger list[i].timerNext} | 0 <= i < |list| :: list[i].timerNext == Nth(list, i + 1))
      && (forall t | t in tasks :: t.timerQueued <==> t in members)
    }

    constructor (ghost tasks: set<TaskHeader>)
      requires forall t | t in tasks :: !t.timerQueued
      ensures Valid() && list == [] && this.tasks == tasks
    {
      head, list, members := null, [], {};
      this.tasks := tasks;
    }

    method Update(task: TaskHeader)
      requires Valid() && task in tasks
      modifies this, task`timerQueued, task`timerNext
      ensures Valid()
      ensures list == if task.expiresAt == MAX || old(task.timerQueued) then old(list) else [task] + old(list)
    {
      if task.expiresAt != MAX {
        var isNew := !task.timerQueued;
        task.timerQueued := true;
        if isNew {
          task.timerNext := head;
          head := task;
          DistinctPrepend(task, list, members);
          list, members := [task] + list, members + {task};
          forall i {:trigger list[i].timerNext} | 0 <= i < |list|
            ensures list[i].timerNext == Nth(list, i + 1) && list[i] in members
          {
            if i > 0 { assert list[i] == old(list)[i - 1] && old(list[i - 1].timerNext) == Nth(old(list), i); }
          }
        }
      }
    }

    // Removes p, the first element of todo; prev is the task before it, null if there is none.
    method Unlink(prev: TaskHeader?, p: TaskHeader, ghost kept: seq<TaskHeader>, ghost todo: seq<TaskHeader>)
      requires Valid() && list == kept + todo && todo != [] && todo[0] == p && prev == LastOf(kept)
      modifies this, tasks`timerNext, p`timerQueued
      ensures Valid() && list == kept + todo[1..]
      ensures (if prev == null then head else prev.timerNext) == Nth(todo, 1)
    {
      ghost var before, k := list, |kept|;
      WithoutFirst(kept, todo, members);
      assert before[k] == p && p.timerNext == Nth(before, k + 1);
      if prev != null { assert before[k - 1] == prev && prev in members; }
      if prev == null { head := p.timerNext; } else { prev.timerNext := p.timerNext; }
      p.timerQueued := false;
      list, members := kept + todo[1..], members - {p};
      forall i {:trigger list[i].timerNext} | 0 <= i < |list|
        ensures list[i].timerNext == Nth(list, i + 1)
      {
        var j := if i < k then i else i + 1;
        assert list[i] == before[j] && old(before[j].timerNext) == Nth(before, j + 1);
      }
    }

    // What the visitor's closure does to p besides answering whether p stays.
    method Visit(v: Visitor, p: TaskHeader, res: nat, runQueue: RunQueue) returns (keep: bool, res': nat)
      requires runQueue.Valid() && p in runQueue.tasks && (p.runQueued <==> p in runQueue.members)
      modifies runQueue, p`runQueued, p`runNext
      ensures keep == Keeps(v, p.expiresAt) && res' == if v.NextExpiration? then Min(res, p.expiresAt) else res
      ensures runQueue.Valid()
      ensures if v.Expired? && !keep && p.spawned && p !in old(runQueue.members)
              then p.runQueued && runQueue.list == [p] + old(runQueue.list) && runQueue.members == old(runQueue.members) + {p}
              else p.runQueued == old(p.runQueued) && runQueue.list == old(runQueue.list)
                   && runQueue.members == old(runQueue.members)
    {
      res' := res;
      match v {
        case NextExpiration =>
          res' := Min(res, p.expiresAt);
          keep := p.expiresAt != MAX;
        case Expired(now) =>
          keep := p.expiresAt > now;
          if !keep { var _ := EnqueueTask(p, runQueue); }
      }
    }

    // retain has passed some elements and kept those in kept; todo is still ahead.
    ghost predicate Midway(kept: seq<TaskHeader>, todo: seq<TaskHeader>, runQueue: RunQueue)
      reads this, runQueue, tasks, runQueue.tasks`runNext
    {
      && Valid() && runQueue.Valid() && list == kept + todo
      && tasks == runQueue.tasks && (forall t | t in tasks :: t.runQueued <==> t in runQueue.members)
    }

    // One turn of retain's loop, prev designating the cell under the cursor.
    method Turn(v: Visitor, prev: TaskHeader?, p: TaskHeader, res: nat, runQueue: RunQueue,
                ghost kept: seq<TaskHeader>, ghost todo: seq<TaskHeader>)
      returns (prev': TaskHeader?, res': nat, ghost kept': seq<TaskHeader>)
      requires Midway(kept, todo, runQueue) && todo != [] && todo[0] == p && prev == LastOf(kept)
      modifies this, runQueue, tasks
      ensures Midway(kept', todo[1..], runQueue) && prev' == LastOf(kept')
      ensures DeadlinesOf(tasks) == old(DeadlinesOf(tasks)) && SpawnedIn(tasks) == old(SpawnedIn(tasks))
      ensures (if prev' == null then head else prev'.timerNext) == Nth(todo, 1)
      ensures kept' == if Keeps(v, p.expiresAt) then kept + todo[..1] else kept
      ensures res' == if v.NextExpiration? then Min(res, p.expiresAt) else res
      ensures runQueue.list == if v.Expired? && !Keeps(v, p.expiresAt) && p.spawned && p !in old(runQueue.list)
                               then [p] + old(runQueue.list) else old(runQueue.list)
    {
      assert list[|kept|] == p && p.timerNext == Nth(list, |kept| + 1);
      MembersOf(runQueue.list, runQueue.members);
      var keep: bool;
      keep, res' := Visit(v, p, res, runQueue);
      if keep {
        prev', kept' := p, kept + todo[..1];
      } else {
        Unlink(prev, p, kept, todo);
        prev', kept' := prev, kept;
      }
    }

    // retain with the visitor's closure.
    method Retain(v: Visitor, runQueue: RunQueue) returns (res: nat, ghost visited: seq<TaskHeader>)
      requires Valid() && runQueue.Valid()
      requires tasks == runQueue.tasks && forall t | t in tasks :: t.runQueued <==> t in runQueue.members
      modifies this, runQueue, tasks
      ensures Valid() && runQueue.Valid()
      ensures visited == old(list)
      ensures list == Kept(old(list), old(DeadlinesOf(tasks)), v)
      ensures v == NextExpiration ==> res == Least(old(list), old(DeadlinesOf(tasks)))
      ensures runQueue.list == Pushed(old(runQueue.list), old(list), old(DeadlinesOf(tasks)), v, old(SpawnedIn(tasks)))
      ensures forall t | t in tasks :: t.runQueued <==> t in runQueue.members
      ensures DeadlinesOf(tasks) == old(DeadlinesOf(tasks)) && SpawnedIn(tasks) == old(SpawnedIn(tasks))
    {
      ghost var all, base, at, spawned := list, runQueue.list, DeadlinesOf(tasks), SpawnedIn(tasks);
      ghost var kept, todo: seq<TaskHeader> := [], list;
      var prev: TaskHeader? := null;     // the task whose cell is the cursor; null for the head cell
      res, visited := MAX, [];
      assert visited + todo == all && kept + Kept(todo, at, v) == Kept(all, at, v);
      LeastIsMinimum(all, at);
      while (if prev == null then head else prev.timerNext) != null
        invariant Midway(kept, todo, runQueue) && prev == LastOf(kept)
        invariant (if prev == null then head else prev.timerNext) == Nth(todo, 0)
        invariant Progress(v, all, at, spawned, base, visited, kept, todo, res, runQueue.list)
        invariant DeadlinesOf(tasks) == at && SpawnedIn(tasks) == spawned
        decreases |todo|
      {
        var p: TaskHeader := if prev == null then head else prev.timerNext;
        ProgressTurn(v, all, at, spawned, base, visited, kept, todo, res, runQueue.list);
        assert list[|kept|] == p && p in at && at[p] == p.expiresAt;
        prev, res, kept := Turn(v, prev, p, res, runQueue, kept, todo);
        visited, todo := visited + todo[..1], todo[1..];
      }
    }
  }

  /* ---------- run_queued ---------- */

  // What one poll does: the tasks it wakes, the deadlines it registers, and whether it finishes.
  datatype Poll = Poll(wakes: seq<TaskHeader>, deadlines: seq<Instant>, ready: bool)

  // The least of the deadlines a poll registers, MAX if there is none.
  function Earliest(deadlines: seq<Instant>): (m: nat)
    ensures m <= MAX
  {
    if deadlines == [] then MAX
    else
      Min(Earliest(deadlines[..|deadlines| - 1]), deadlines[|deadlines| - 1])
  }

  lemma {:induction false} EarliestIsLeast(deadlines: seq<Instant>)
    ensures forall d | d in deadlines :: Earliest(deadlines) <= d
    ensures Earliest(deadlines) == MAX || Earliest(deadlines) in deadlines
  {
    if deadlines != [] {
      EarliestIsLeast(deadlines[..|deadlines| - 1]);
      assert deadlines == deadlines[..|deadlines| - 1] + [deadlines[|deadlines| - 1]];
    }
  }

  // The run list after the wakes in turn, while the tasks of rest are still queued in the batch.
  ghost function Woken(list: seq<TaskHeader>, wakes: seq<TaskHeader>, spawned: set<TaskHeader>, rest: seq<TaskHeader>): seq<TaskHeader> {
    if wakes == [] then list
    else
      var l, w := Woken(list, wakes[..|wakes| - 1], spawned, rest), wakes[|wakes| - 1];
      if w in spawned && w !in l && w !in rest then [w] + l else l
  }

  // What the poll of p leaves of the spawned tasks.
  ghost function StillSpawned(spawned: set<TaskHeader>, p: TaskHeader, poll: Poll): set<TaskHeader> {
    if poll.ready then spawned - {p} else spawned
  }

  ghost function TurnOf(list: seq<TaskHeader>, p: TaskHeader, poll: Poll, spawned: set<TaskHeader>, rest: seq<TaskHeader>): seq<TaskHeader> {
    if p in spawned then Woken(list, poll.wakes, spawned, rest) else list
  }

  // The run list after the turns of the tasks of batch.
  ghost function Requeued(list: seq<TaskHeader>, batch: seq<TaskHeader>, polls: map<TaskHeader, Poll>, spawned: set<TaskHeader>): seq<TaskHeader>
    requires forall t | t in batch :: t in polls
    decreases |batch|
  {
    if batch == [] then list
    else
      var p := batch[0];
      Requeued(TurnOf(list, p, polls[p], spawned, batch[1..]), batch[1..], polls, StillSpawned(spawned, p, polls[p]))
  }

  lemma {:induction false} WokenMembers(list: seq<TaskHeader>, wakes: seq<TaskHeader>, spawned: set<TaskHeader>, rest: seq<TaskHeader>, t: TaskHeader)
    ensures t in Woken(list, wakes, spawned, rest) <==> t in list || (t in wakes && t in spawned && t !in rest)
  {
    if wakes != [] {
      WokenMembers(list, wakes[..|wakes| - 1], spawned, rest, t);
      assert wakes == wakes[..|wakes| - 1] + [wakes[|wakes| - 1]];
    }
  }

  // The poll of the i-th task of the batch queues t for the next call: it is polled and wakes t, which is
  // spawned, has not finished in this batch, and has no turn to come.
  ghost predicate Requeues(batch: seq<TaskHeader>, polls: map<TaskHeader, Poll>, spawned: set<TaskHeader>, i: nat, t: TaskHeader)
    requires i < |batch| && forall b | b in batch :: b in polls
  {
    && batch[i] in spawned && t in polls[batch[i]].wakes && t in spawned
    && t !in batch[i + 1..] && !(t in batch[..i] && polls[t].ready)
  }

  lemma RequeuesLater(batch: seq<TaskHeader>, members: set<TaskHeader>, polls: map<TaskHeader, Poll>, spawned: set<TaskHeader>, i: nat, t: TaskHeader)
    requires Distinct(batch, members) && i + 1 < |batch| && forall b | b in batch :: b in polls
    ensures Requeues(batch[1..], polls, StillSpawned(spawned, batch[0], polls[batch[0]]), i, t) <==> Requeues(batch, polls, spawned, i + 1, t)
  {
    MembersOf(batch[1..], members - {batch[0]});
    assert batch[1..][i] == batch[i + 1] && batch[1..][i + 1..] == batch[i + 2..];
    assert batch[..i + 1] == [batch[0]] + batch[1..][..i];
  }

  // A call of run_queued leaves queued exactly the tasks that a poll of its batch queues again.
  lemma {:induction false} RequeuedExactly(list: seq<TaskHeader>, batch: seq<TaskHeader>, members: set<TaskHeader>, polls: map<TaskHeader, Poll>,
                                           spawned: set<TaskHeader>, t: TaskHeader)
    requires Distinct(batch, members) && forall b | b in batch :: b in polls
    ensures t in Requeued(list, batch, polls, spawned) <==>
              t in list || exists i | 0 <= i < |batch| :: Requeues(batch, polls, spawned, i, t)
    decreases |batch|
  {
    if batch != [] {
      var p, rest := batch[0], batch[1..];
      var spawned' := StillSpawned(spawned, p, polls[p]);
      assert batch[..0] == [];
      WokenMembers(list, polls[p].wakes, spawned, rest, t);
      assert t in TurnOf(list, p, polls[p], spawned, rest) <==> t in list || Requeues(batch, polls, spawned, 0, t);
      RequeuedExactly(TurnOf(list, p, polls[p], spawned, rest), rest, members - {p}, polls, spawned', t);
      LaterPolls(batch, members, polls, spawned, t);
    }
  }

  lemma LaterPolls(batch: seq<TaskHeader>, members: set<TaskHeader>, polls: map<TaskHeader, Poll>, spawned: set<TaskHeader>, t: TaskHeader)
    requires Distinct(batch, members) && batch != [] && forall b | b in batch :: b in polls
    ensures (exists j | 0 <= j < |batch| - 1 :: Requeues(batch[1..], polls, StillSpawned(spawned, batch[0], polls[batch[0]]), j, t))
       <==> (exists i | 1 <= i < |batch| :: Requeues(batch, polls, spawned, i, t))
  {
    forall j | 0 <= j < |batch| - 1
      ensures Requeues(batch[1..], polls, StillSpawned(spawned, batch[0], polls[batch[0]]), j, t) <==> Requeues(batch, polls, spawned, j + 1, t)
    {
      RequeuesLater(batch, members, polls, spawned, j, t);
    }
    if i :| 1 <= i < |batch| && Requeues(batch, polls, spawned, i, t) {
      assert Requeues(batch[1..], polls, StillSpawned(spawned, batch[0], polls[batch[0]]), i - 1, t);
    }
  }

  class Executor {
    const runQueue: RunQueue
    const timerQueue: TimerQueue
    ghost const tasks: set<TaskHeader>

    // RUN_QUEUED is set exactly on the elements of the run list and on rest, the unvisited part of a
    // batch, whose elements make up waiting and are still linked to each other.
    ghost predicate Valid(rest: seq<TaskHeader>, waiting: set<TaskHeader>)
      reads this, runQueue, timerQueue, tasks, runQueue.tasks, timerQueue.tasks
    {
      && runQueue.tasks == timerQueue.tasks == tasks
      && runQueue.Valid() && timerQueue.Valid()
      && Distinct(rest, waiting) && waiting <= tasks && waiting !! runQueue.members
      && (forall i | 0 <= i < |rest| :: rest[i] in waiting)
      && (forall i {:trigger rest[i].runNext} | 0 <= i < |rest| :: rest[i].runNext == Nth(rest, i + 1))
      && (forall t | t in tasks :: t.runQueued <==> t in runQueue.members || t in waiting)
    }

    constructor (ghost tasks: set<TaskHeader>)
      requires forall t | t in tasks :: !t.runQueued && !t.timerQueued
      ensures Valid([], {}) && this.tasks == tasks && runQueue.list == [] && timerQueue.list == []
    {
      runQueue := new RunQueue(tasks);
      timerQueue := new TimerQueue(tasks);
      this.tasks := tasks;
    }

    method WakeOne(task: TaskHeader, ghost rest: seq<TaskHeader>, ghost waiting: set<TaskHeader>)
      requires Valid(rest, waiting) && task in tasks
      modifies runQueue, task`runQueued, task`runNext
      ensures Valid(rest, waiting)
      ensures task.spawned ==> task.runQueued
      ensures old(task.runQueued) ==> task.runQueued
      ensures runQueue.list == if task.spawned && task !in old(runQueue.list) && task !in rest then [task] + old(runQueue.list) else old(runQueue.list)
    {
      MembersOf(rest, waiting);
      MembersOf(runQueue.list, runQueue.members);
      var _ := EnqueueTask(task, runQueue);
    }

    method WakeAll(wakes: seq<TaskHeader>, ghost rest: seq<TaskHeader>, ghost waiting: set<TaskHeader>)
      requires Valid(rest, waiting) && forall t | t in wakes :: t in tasks
      modifies runQueue, tasks`runQueued, tasks`runNext
      ensures Valid(rest, waiting)
      ensures forall t | t in wakes && t.spawned :: t.runQueued
      ensures runQueue.list == Woken(old(runQueue.list), wakes, SpawnedIn(tasks), rest)
    {
      hide Valid, Distinct;
      for i := 0 to |wakes|
        invariant Valid(rest, waiting)
        invariant forall j | 0 <= j < i :: wakes[j].spawned ==> wakes[j].runQueued
        invariant runQueue.list == Woken(old(runQueue.list), wakes[..i], SpawnedIn(tasks), rest)
      {
        assert wakes[i] in tasks && wakes[..i + 1][..i] == wakes[..i];
        WakeOne(wakes[i], rest, waiting);
      }
      assert wakes[..|wakes|] == wakes;
    }

    method RegisterAll(task: TaskHeader, deadlines: seq<Instant>)
      modifies task`expiresAt
      requires task.expiresAt == MAX
      ensures task.expiresAt == Earliest(deadlines)
    {
      for i := 0 to |deadlines|
        invariant task.expiresAt == Earliest(deadlines[..i])
      {
        assert deadlines[..i + 1][..i] == deadlines[..i];
        task.expiresAt := Min(task.expiresAt, deadlines[i]);
      }
      assert deadlines[..|deadlines|] == deadlines;
    }

    // What a turn of the batch has done to t, which was spawned iff wasSpawned.
    ghost predicate Served(t: TaskHeader, poll: Poll, wasSpawned: bool)
      reads t, this, timerQueue
    {
      && t.expiresAt == (if wasSpawned then Earliest(poll.deadlines) else MAX)
      && t.spawned == (wasSpawned && !poll.ready)
      && (t.spawned && t.expiresAt != MAX ==> t in timerQueue.members)
    }

    // The tasks in done have had their turn; the others' deadlines and futures are as they were.
    ghost predicate AllServed(polls: map<TaskHeader, Poll>, done: set<TaskHeader>, at: map<TaskHeader, nat>, spawned: set<TaskHeader>)
      reads this, timerQueue, tasks
    {
      forall t | t in tasks ::
        if t in done then t in polls && Served(t, polls[t], t in spawned)
        else t in at && t.expiresAt == at[t] && (t.spawned <==> t in spawned)
    }

    method BatchTurn(p: TaskHeader, polls: map<TaskHeader, Poll>, ghost rest: seq<TaskHeader>, ghost waiting: set<TaskHeader>,
                     ghost batch: set<TaskHeader>, ghost at: map<TaskHeader, nat>, ghost spawned: set<TaskHeader>)
      returns (next: TaskHeader?)
      requires Valid(rest, waiting) && rest != [] && rest[0] == p && waiting <= batch
      requires p in polls && (forall w | w in polls[p].wakes :: w in tasks) && forall t | t in rest :: t in polls
      requires AllServed(polls, batch - waiting, at, spawned)
      modifies runQueue, timerQueue, tasks
      ensures Valid(rest[1..], waiting - {p}) && AllServed(polls, batch - (waiting - {p}), at, spawned)
      ensures old(timerQueue.members) <= timerQueue.members && next == Nth(rest, 1)
      ensures Requeued(runQueue.list, rest[1..], polls, SpawnedIn(tasks)) == Requeued(old(runQueue.list), rest, polls, old(SpawnedIn(tasks)))
    {
      assert rest == [p] + rest[1..] && rest[0].runNext == Nth(rest, 1);
      next := p.runNext;
      OnTask(p, polls[p], rest[1..], waiting);
    }

    // The fetch_and that takes p out of the batch.
    method ClearRunQueued(p: TaskHeader, ghost rest: seq<TaskHeader>, ghost waiting: set<TaskHeader>)
      requires Valid([p] + rest, waiting)
      modifies p`expiresAt, p`runQueued
      ensures Valid(rest, waiting - {p}) && p in tasks && p.expiresAt == MAX && !p.runQueued
    {
      hide Distinct;
      ghost var l := [p] + rest;
      assert l[0] == p;
      DistinctTail(p, rest, waiting);
      forall i {:trigger rest[i].runNext} | 0 <= i < |rest| ensures rest[i].runNext == Nth(rest, i + 1) {
        assert l[i + 1] == rest[i] && l[i + 1].runNext == Nth(l, i + 2);
      }
      p.expiresAt := MAX;
      p.runQueued := false;
    }

    // The closure that run_queued passes to dequeue_all.
    method OnTask(p: TaskHeader, poll: Poll, ghost rest: seq<TaskHeader>, ghost waiting: set<TaskHeader>)
      requires Valid([p] + rest, waiting) && forall t | t in poll.wakes :: t in tasks
      modifies runQueue, timerQueue, tasks
      ensures Valid(rest, waiting - {p}) && Served(p, poll, old(p.spawned))
      ensures old(p.spawned) ==>
                (forall d | d in poll.deadlines :: p.expiresAt <= d) && (p.expiresAt == MAX || p.expiresAt in poll.deadlines)
      ensures p.spawned && p in poll.wakes ==> p.runQueued
      ensures runQueue.list == TurnOf(old(runQueue.list), p, poll, old(SpawnedIn(tasks)), rest)
      ensures SpawnedIn(tasks) == StillSpawned(old(SpawnedIn(tasks)), p, poll)
      ensures old(timerQueue.members) <= timerQueue.members
      ensures forall t | t in tasks && t != p :: t.expiresAt == old(t.expiresAt) && t.spawned == old(t.spawned)
    {
      EarliestIsLeast(poll.deadlines);
      ClearRunQueued(p, rest, waiting);
      if !p.spawned {
        assert StillSpawned(SpawnedIn(tasks), p, poll) == SpawnedIn(tasks);
        return;
      }
      RunPoll(p, poll, rest, waiting - {p});
      UpdateTimer(p, rest, waiting - {p});
    }

    method RunPoll(p: TaskHeader, poll: Poll, ghost rest: seq<TaskHeader>, ghost waiting: set<TaskHeader>)
      requires Valid(rest, waiting) && p in tasks && p.spawned && p.expiresAt == MAX
      requires forall t | t in poll.wakes :: t in tasks
      modifies runQueue, tasks`runQueued, tasks`runNext, p`expiresAt, p`spawned
      ensures Valid(rest, waiting) && p.expiresAt == Earliest(poll.deadlines) && p.spawned == !poll.ready
      ensures p in poll.wakes ==> p.runQueued
      ensures runQueue.list == Woken(old(runQueue.list), poll.wakes, old(SpawnedIn(tasks)), rest)
      ensures SpawnedIn(tasks) == StillSpawned(old(SpawnedIn(tasks)), p, poll)
    {
      WakeAll(poll.wakes, rest, waiting);
      RegisterAll(p, poll.deadlines);
      if poll.ready {
        p.spawned := false;
        assert SpawnedIn(tasks) == old(SpawnedIn(tasks)) - {p};
      }
    }

    method UpdateTimer(p: TaskHeader, ghost rest: seq<TaskHeader>, ghost waiting: set<TaskHeader>)
      requires Valid(rest, waiting) && p in tasks
      modifies timerQueue, p`timerQueued, p`timerNext
      ensures Valid(rest, waiting) && old(timerQueue.members) <= timerQueue.members
      ensures p.expiresAt != MAX ==> p in timerQueue.members
    {
      MembersOf(timerQueue.list, timerQueue.members);
      timerQueue.Update(p);
      MembersOf(timerQueue.list, timerQueue.members);
    }

    // A batch in progress: taken is the list it took, visited has had its turns, rest is still to come.
    ghost predicate MidBatch(polls: map<TaskHeader, Poll>, taken: seq<TaskHeader>, batch: set<TaskHeader>, at: map<TaskHeader, nat>,
                             spawned: set<TaskHeader>, visited: seq<TaskHeader>, rest: seq<TaskHeader>, waiting: set<TaskHeader>)
      reads this, runQueue, timerQueue, tasks, runQueue.tasks, timerQueue.tasks
    {
      && Valid(rest, waiting) && waiting <= batch && visited + rest == taken
      && AllServed(polls, batch - waiting, at, spawned)
      && (forall t | t in taken :: t in polls) && (forall t | t in rest :: t in polls)
      && Requeued(runQueue.list, rest, polls, SpawnedIn(tasks)) == Requeued([], taken, polls, spawned)
    }

    // The swap: the run list becomes the batch.
    method TakeList(polls: map<TaskHeader, Poll>) returns (first: TaskHeader?)
      requires Valid([], {}) && forall t | t in tasks :: t in polls
      modifies runQueue
      ensures first == Nth(old(runQueue.list), 0)
      ensures MidBatch(polls, old(runQueue.list), old(runQueue.members), DeadlinesOf(tasks), SpawnedIn(tasks),
                       [], old(runQueue.list), old(runQueue.members))
    {
      ghost var rest, waiting := runQueue.list, runQueue.members;
      MembersOf(rest, waiting);
      first := runQueue.Take();
      SameDeadlines(DeadlinesOf(tasks), SpawnedIn(tasks));
      assert waiting - waiting == {} && [] + rest == rest;
    }

    // One turn of dequeue_all's loop.
    method NextTurn(p: TaskHeader, polls: map<TaskHeader, Poll>, ghost taken: seq<TaskHeader>, ghost batch: set<TaskHeader>,
                    ghost at: map<TaskHeader, nat>, ghost spawned: set<TaskHeader>,
                    ghost visited: seq<TaskHeader>, ghost rest: seq<TaskHeader>, ghost waiting: set<TaskHeader>)
      returns (next: TaskHeader?)
      requires MidBatch(polls, taken, batch, at, spawned, visited, rest, waiting) && rest != [] && rest[0] == p
      requires p in polls && forall w | w in polls[p].wakes :: w in tasks
      modifies runQueue, timerQueue, tasks
      ensures MidBatch(polls, taken, batch, at, spawned, visited + rest[..1], rest[1..], waiting - {p})
      ensures old(timerQueue.members) <= timerQueue.members && next == Nth(rest, 1)
    {
      hide Valid, AllServed, Requeued, Distinct;
      MoveOver(visited, rest);
      next := BatchTurn(p, polls, rest, waiting, batch, at, spawned);
    }

    lemma BatchDone(polls: map<TaskHeader, Poll>, taken: seq<TaskHeader>, batch: set<TaskHeader>, at: map<TaskHeader, nat>,
                    spawned: set<TaskHeader>, visited: seq<TaskHeader>, waiting: set<TaskHeader>)
      requires MidBatch(polls, taken, batch, at, spawned, visited, [], waiting)
      ensures Valid([], {}) && visited == taken && AllServed(polls, batch, at, spawned)
      ensures (forall t | t in taken :: t in polls) && runQueue.list == Requeued([], taken, polls, spawned)
    {
      assert visited + [] == visited && batch - {} == batch;
    }

    // A batch: polls says what each task does if it is polled.  Every task of the list taken is visited
    // once, in list order, although callbacks re-enqueue visited tasks and overwrite their next.
    method DequeueAll(polls: map<TaskHeader, Poll>) returns (ghost visited: seq<TaskHeader>)
      requires Valid([], {})
      requires forall t | t in tasks :: t in polls && forall w | w in polls[t].wakes :: w in tasks
      modifies runQueue, timerQueue, tasks
      ensures Valid([], {})
      ensures visited == old(runQueue.list)
      ensures (forall t | t in visited :: t in polls) && runQueue.list == Requeued([], visited, polls, old(SpawnedIn(tasks)))
      ensures AllServed(polls, old(runQueue.members), old(DeadlinesOf(tasks)), old(SpawnedIn(tasks)))
      ensures old(timerQueue.members) <= timerQueue.members
    {
      hide AllServed, Requeued, Distinct;
      ghost var taken, batch, spawned, at := runQueue.list, runQueue.members, SpawnedIn(tasks), DeadlinesOf(tasks);
      ghost var rest, waiting := taken, batch;
      visited := [];
      var task := TakeList(polls);
      while task != null
        invariant MidBatch(polls, taken, batch, at, spawned, visited, rest, waiting) && task == Nth(rest, 0)
        invariant old(timerQueue.members) <= timerQueue.members
        decreases |rest|
      {
        ghost var p := task;
        task := NextTurn(task, polls, taken, batch, at, spawned, visited, rest, waiting);
        visited, rest, waiting := visited + rest[..1], rest[1..], waiting - {p};
      }
      assert rest == [];
      BatchDone(polls, taken, batch, at, spawned, visited, waiting);
    }

    // Each live task that is not to be run has its deadline, if any, in the timer queue.
    ghost predicate Covered()
      reads this, timerQueue, tasks
    {
      forall t | t in tasks && t.spawned && !t.runQueued && t.expiresAt != MAX :: t in timerQueue.members
    }

    method DequeueExpired(now: nat)
      requires Valid([], {}) && Covered()
      modifies runQueue, timerQueue, tasks
      ensures Valid([], {}) && Covered()
      ensures forall t | t in tasks :: t.expiresAt == old(t.expiresAt) && t.spawned == old(t.spawned)
      ensures SpawnedIn(tasks) == old(SpawnedIn(tasks))
      ensures runQueue.list == Pushed(old(runQueue.list), old(timerQueue.list), old(DeadlinesOf(tasks)), Expired(now), old(SpawnedIn(tasks)))
      ensures forall t | t in tasks :: t.runQueued <==> old(t.runQueued) || (t.spawned && t in old(timerQueue.members) && t.expiresAt <= now)
      ensures forall t | t in tasks :: t in timerQueue.members <==> t in old(timerQueue.members) && t.expiresAt > now
    {
      ghost var base, all, at, spawned := runQueue.list, timerQueue.list, DeadlinesOf(tasks), SpawnedIn(tasks);
      MembersOf(base, runQueue.members);
      MembersOf(all, timerQueue.members);
      var _, _ := timerQueue.Retain(Expired(now), runQueue);
      MembersOf(runQueue.list, runQueue.members);
      MembersOf(timerQueue.list, timerQueue.members);
      PushedMembers(base, all, at, now, spawned);
      KeptIsFilter(all, at, Expired(now));
      SameDeadlines(at, spawned);
    }

    // The equations between snapshots, one task at a time.
    lemma SameDeadlines(at: map<TaskHeader, nat>, spawned: set<TaskHeader>)
      requires DeadlinesOf(tasks) == at && SpawnedIn(tasks) == spawned
      ensures forall t | t in tasks :: t in at && t.expiresAt == at[t] && (t.spawned <==> t in spawned)
    {
      forall t | t in tasks ensures t in at && t.expiresAt == at[t] && (t.spawned <==> t in spawned) {
        assert t in DeadlinesOf(tasks) && (t in SpawnedIn(tasks) <==> t.spawned);
      }
    }

    method ScanTimers() returns (alarm: nat)
      requires Valid([], {}) && Covered()
      modifies runQueue, timerQueue, tasks
      ensures Valid([], {}) && Covered()
      ensures forall t | t in tasks :: t.expiresAt == old(t.expiresAt) && t.spawned == old(t.spawned) && t.runQueued == old(t.runQueued)
      ensures runQueue.list == old(runQueue.list)
      ensures forall t | t in tasks :: t in timerQueue.members <==> t in old(timerQueue.members) && t.expiresAt != MAX
      ensures forall t | t in timerQueue.members :: alarm <= t.expiresAt
      ensures alarm == MAX || exists t | t in timerQueue.members :: t.expiresAt == alarm
    {
      ghost var base, all, at, spawned := runQueue.list, timerQueue.list, DeadlinesOf(tasks), SpawnedIn(tasks);
      MembersOf(base, runQueue.members);
      MembersOf(all, timerQueue.members);
      ghost var visited;
      alarm, visited := timerQueue.Retain(NextExpiration, runQueue);
      MembersOf(runQueue.list, runQueue.members);
      MembersOf(timerQueue.list, timerQueue.members);
      NothingPushed(base, all, at, spawned);
      KeptIsFilter(all, at, NextExpiration);
      LeastIsMinimum(all, at);
      SameDeadlines(at, spawned);
    }

    lemma QueuedAgain(visited: seq<TaskHeader>, batch: set<TaskHeader>, polls: map<TaskHeader, Poll>, spawned: set<TaskHeader>)
      requires Valid([], {}) && Distinct(visited, batch) && forall b | b in visited :: b in polls
      requires runQueue.list == Requeued([], visited, polls, spawned)
      ensures forall t | t in tasks :: t.runQueued <==> exists i | 0 <= i < |visited| :: Requeues(visited, polls, spawned, i, t)
    {
      MembersOf(runQueue.list, runQueue.members);
      forall t | t in tasks ensures t.runQueued <==> exists i | 0 <= i < |visited| :: Requeues(visited, polls, spawned, i, t) {
        RequeuedExactly([], visited, batch, polls, spawned, t);
      }
    }

    // The three phases of run_queued.
    method RunPhases(hasAlarm: bool, now: nat, polls: map<TaskHeader, Poll>)
      returns (alarm: nat, ghost visited: seq<TaskHeader>, ghost batch: set<TaskHeader>)
      requires Valid([], {}) && Covered()
      requires forall t | t in tasks :: t in polls && forall w | w in polls[t].wakes :: w in tasks
      modifies runQueue, timerQueue, tasks
      ensures Valid([], {}) && Covered() && Distinct(visited, batch) && batch <= tasks
      ensures visited == if hasAlarm
                         then Pushed(old(runQueue.list), old(timerQueue.list), old(DeadlinesOf(tasks)), Expired(now), old(SpawnedIn(tasks)))
                         else old(runQueue.list)
      ensures (forall t | t in visited :: t in polls) && runQueue.list == Requeued([], visited, polls, old(SpawnedIn(tasks)))
      ensures forall t | t in tasks :: t in batch <==>
                old(t.runQueued) || (hasAlarm && old(t.spawned) && t in old(timerQueue.members) && old(t.expiresAt) <= now)
      ensures AllServed(polls, batch, old(DeadlinesOf(tasks)), old(SpawnedIn(tasks)))
      ensures hasAlarm ==>
                && (forall t | t in timerQueue.members :: alarm <= t.expiresAt < MAX)
                && (alarm == MAX || exists t | t in timerQueue.members :: t.expiresAt == alarm)
    {
      hide Requeued, Pushed, Distinct;
      alarm := MAX;
      if hasAlarm { DequeueExpired(now); }
      batch := runQueue.members;
      visited := DequeueAll(polls);
      if hasAlarm { alarm := ScanTimers(); }
    }

    // run_queued: the due timers, one batch, and the value for the alarm.
    method RunQueued(hasAlarm: bool, now: nat, polls: map<TaskHeader, Poll>) returns (alarm: nat, ghost visited: seq<TaskHeader>)
      requires Valid([], {}) && Covered()
      requires forall t | t in tasks :: t in polls && forall w | w in polls[t].wakes :: w in tasks
      modifies runQueue, timerQueue, tasks
      ensures Valid([], {}) && Covered()
      ensures visited == if hasAlarm
                         then Pushed(old(runQueue.list), old(timerQueue.list), old(DeadlinesOf(tasks)), Expired(now), old(SpawnedIn(tasks)))
                         else old(runQueue.list)
      ensures (forall t | t in visited :: t in polls) && runQueue.list == Requeued([], visited, polls, old(SpawnedIn(tasks)))
      ensures forall t | t in tasks :: t.runQueued <==> exists i | 0 <= i < |visited| :: Requeues(visited, polls, old(SpawnedIn(tasks)), i, t)
      ensures forall t | t in tasks :: t in visited <==>
                old(t.runQueued) || (hasAlarm && old(t.spawned) && t in old(timerQueue.members) && old(t.expiresAt) <= now)
      ensures forall t | t in tasks ::
                && t.expiresAt == (if t !in visited then old(t.expiresAt) else if old(t.spawned) then Earliest(polls[t].deadlines) else MAX)
                && t.spawned == (old(t.spawned) && !(t in visited && polls[t].ready))
      ensures forall t | t in visited && old(t.spawned) ::
                (forall d | d in polls[t].deadlines :: t.expiresAt <= d) && (t.expiresAt == MAX || t.expiresAt in polls[t].deadlines)
      ensures hasAlarm ==> forall t, d | t in visited && t.spawned && !t.runQueued && d in polls[t].deadlines :: alarm <= d
      ensures hasAlarm ==>
                && (forall t | t in timerQueue.members :: alarm <= t.expiresAt < MAX)
                && (alarm == MAX || exists t | t in timerQueue.members :: t.expiresAt == alarm)
                && (forall t | t in tasks && t.spawned && !t.runQueued :: alarm <= t.expiresAt)
    {
      hide Requeued, Requeues, Pushed, Distinct;
      SameDeadlines(DeadlinesOf(tasks), SpawnedIn(tasks));
      ghost var batch;
      alarm, visited, batch := RunPhases(hasAlarm, now, polls);
      MembersOf(visited, batch);
      QueuedAgain(visited, batch, polls, old(SpawnedIn(tasks)));
      forall t | t in visited { EarliestIsLeast(polls[t].deadlines); }
    }
  }

  lemma MoveOver(l: seq<TaskHeader>, l': seq<TaskHeader>)
    requires l' != []
    ensures l + l'[..1] + l'[1..] == l + l'
  {
  }

  lemma NothingPushed(base: seq<TaskHeader>, l: seq<TaskHeader>, at: map<TaskHeader, nat>, spawned: set<TaskHeader>)
    ensures Pushed(base, l, at, NextExpiration, spawned) == base
    decreases |l|
  {
  }
}
