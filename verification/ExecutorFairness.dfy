/** The order in which queued tasks are run: batches, bounded bypass, and when the newest overtakes. */
module ExecutorFairness {
  import opened Basics
  import opened ExecutorModel
  import opened ExecutorInv
  import opened ExecutorSteps
  import opened ExecutorRuns

  // dequeue_all clears RUN_QUEUED of t and goes on to poll it, if it is spawned.
  ghost predicate Dequeues(s: State, e: Event, t: nat) { e.ClearRunQueued? && s.pc.Took? && s.pc.t == t }

  // t is pushed onto the head list.
  ghost predicate Pushes(s: State, e: Event, t: nat) {
    && e.HeadCas? && e.a < |s.agents| && s.agents[e.a].Push? && s.agents[e.a].t == t
    && !e.spurious && s.head == s.agents[e.a].prev
  }

  predicate InBatchLoop(pc: Pc) { pc.Batch? || pc.Took? || Visiting(pc).Some? }

  ghost predicate AboutToPoll(s: State, u: nat) { s.pc.ToPoll? && s.pc.t == u }

  // How the place of one task can change in a step.
  ghost predicate PlaceMoves(s: State, h: History, e: Event, s': State, h': History, t: nat)
    requires t < |h.place| && t < |h'.place|
  {
    && (h'.place[t].InHead? && !h.place[t].InHead? ==> Pushes(s, e, t) && h'.place[t] == InHead(|h.q|))
    && (h.place[t].InHead? ==> h'.place[t] == if e.Swap? then InBatch(h.place[t].i) else h.place[t])
    && (h.place[t].InBatch? && !Dequeues(s, e, t) ==> h'.place[t] == h.place[t])
    && (Dequeues(s, e, t) ==> |h.rest| > 0 && h.place[t] == InBatch(|h.rest| - 1) && h'.place[t] == Nowhere)
    && (h'.place[t].InBatch? && !h.place[t].InBatch? ==> e.Swap? && h.place[t].InHead?)
    && (AboutToPoll(s', t) && !AboutToPoll(s, t) ==> Dequeues(s, e, t))
    && (Pushes(s, e, t) ==> h'.place[t].InHead?)
    && (PollBegins(s, e, t) ==> !AboutToPoll(s', t) && !h.place[t].InBatch?)
    && (e.Swap? ==> !h.place[t].InBatch? && !AboutToPoll(s, t))
    && (h.place[t].InHead? ==> h.place[t].i < |h.q|)
    && (h.place[t].InBatch? ==> h.place[t].i < |h.rest| && InBatchLoop(s.pc))
    && (AboutToPoll(s, t) ==> !h.place[t].InBatch?)
  }

  lemma PlaceStep(s: State, h: History, e: Event, s': State, h': History, t: nat)
    requires Shape(s, h) && RunInv(s, h) && Step(s, e) == Some(s') && h' == After(s, h, e) && t < |s.tasks|
    ensures t < |h'.place| && PlaceMoves(s, h, e, s', h', t)
  {
    if !IsAgentEvent(e) { ExecutorPlaceStep(s, h, e, s', t); }
    else if e.AllocSlot? { AllocPlaceStep(s, h, e, s', t); }
    else if e.WakeCas? { WakePlaceStep(s, h, e, s', t); }
    else { PushPlaceStep(s, h, e, s', t); }
  }

  lemma AllocPlaceStep(s: State, h: History, e: Event, s': State, t: nat)
    requires Shape(s, h) && RunInv(s, h) && Step(s, e) == Some(s') && t < |s.tasks| && e.AllocSlot?
    ensures t < |After(s, h, e).place| && PlaceMoves(s, h, e, s', After(s, h, e), t)
  {
    assert PlaceOk(s, h, t) && AgentOk(s, h, e.a) && PlaceOk(s, h, e.t);
    AgentKeepsPc(s, e, s');
  }

  lemma WakePlaceStep(s: State, h: History, e: Event, s': State, t: nat)
    requires Shape(s, h) && RunInv(s, h) && Step(s, e) == Some(s') && t < |s.tasks| && e.WakeCas?
    ensures t < |After(s, h, e).place| && PlaceMoves(s, h, e, s', After(s, h, e), t)
  {
    assert PlaceOk(s, h, t) && AgentOk(s, h, e.a) && PlaceOk(s, h, s.agents[e.a].t);
    AgentKeepsPc(s, e, s');
  }

  lemma PushPlaceStep(s: State, h: History, e: Event, s': State, t: nat)
    requires Shape(s, h) && RunInv(s, h) && Step(s, e) == Some(s') && t < |s.tasks|
    requires IsAgentEvent(e) && !e.AllocSlot? && !e.WakeCas?
    ensures t < |After(s, h, e).place| && PlaceMoves(s, h, e, s', After(s, h, e), t)
  {
    assert PlaceOk(s, h, t) && AgentOk(s, h, e.a);
    AgentKeepsPc(s, e, s');
    if !e.HeadCas? { PlaceStays(s, h, e, s', t); }
  }

  lemma PlaceStays(s: State, h: History, e: Event, s': State, t: nat)
    requires Shape(s, h) && t < |s.tasks| && PlaceOk(s, h, t) && CursorOk(s, h) && s'.pc == s.pc
    requires Visiting(s.pc).Some? ==> !h.place[Visiting(s.pc).value].InBatch?
    requires IsAgentEvent(e) && !e.HeadCas?
    ensures PlaceMoves(s, h, e, s', h, t)
  {
  }

  lemma AgentKeepsPc(s: State, e: Event, s': State)
    requires Step(s, e) == Some(s') && IsAgentEvent(e)
    ensures s'.pc == s.pc && e.a < |s.agents|
  {
  }

  lemma ExecutorPlaceStep(s: State, h: History, e: Event, s': State, t: nat)
    requires Shape(s, h) && RunInv(s, h) && Step(s, e) == Some(s') && t < |s.tasks| && !IsAgentEvent(e)
    ensures t < |After(s, h, e).place| && PlaceMoves(s, h, e, s', After(s, h, e), t)
  {
    hide Step;
    if e == Swap { SwapPlaceStep(s, h, s', t); }
    else if e == ClearRunQueued { ClearPlaceStep(s, h, s', t); }
    else { MovesPlaceStep(s, h, e, s', t); }
  }

  lemma MovesPlaceStep(s: State, h: History, e: Event, s': State, t: nat)
    requires Shape(s, h) && RunInv(s, h) && Step(s, e) == Some(s') && t < |s.tasks|
    requires !IsAgentEvent(e) && !e.Swap? && !e.ClearRunQueued?
    ensures t < |After(s, h, e).place| && PlaceMoves(s, h, e, s', After(s, h, e), t)
  {
    assert PlaceOk(s, h, t);
    ExecutorMoves(s, h, e, s');
  }

  lemma SwapPlaceStep(s: State, h: History, s': State, t: nat)
    requires Shape(s, h) && RunInv(s, h) && Step(s, Swap) == Some(s') && t < |s.tasks|
    ensures t < |After(s, h, Swap).place| && PlaceMoves(s, h, Swap, s', After(s, h, Swap), t)
  {
    assert PlaceOk(s, h, t);
  }

  lemma ClearPlaceStep(s: State, h: History, s': State, t: nat)
    requires Shape(s, h) && RunInv(s, h) && Step(s, ClearRunQueued) == Some(s') && t < |s.tasks|
    ensures t < |After(s, h, ClearRunQueued).place|
    ensures PlaceMoves(s, h, ClearRunQueued, s', After(s, h, ClearRunQueued), t)
  {
    assert PlaceOk(s, h, t);
    assert h.place[h.rest[|h.rest| - 1]] == InBatch(|h.rest| - 1);
  }

  ghost function PlaceAt(r: Run, i: nat, t: nat): Place
    requires IsRun(r) && i < |r.states| && t < |r.states[0].tasks|
  {
    SlotCount(r, i);
    r.hist[i].place[t]
  }

  lemma RunInvAlways(r: Run, i: nat)
    requires IsRun(r) && i < |r.states|
    ensures Shape(r.states[i], r.hist[i]) && RunInv(r.states[i], r.hist[i])
  {
    InvAlways(r, i);
  }

  lemma PlaceStepAt(r: Run, i: nat, t: nat)
    requires IsRun(r) && i < |r.events| && t < |r.states[0].tasks|
    ensures |r.hist[i].place| == |r.hist[i + 1].place| == |r.states[0].tasks|
    ensures PlaceMoves(r.states[i], r.hist[i], r.events[i], r.states[i + 1], r.hist[i + 1], t)
  {
    SlotCount(r, i);
    SlotCount(r, i + 1);
    NextHistory(r, i);
    RunInvAlways(r, i);
    PlaceStep(r.states[i], r.hist[i], r.events[i], r.states[i + 1], r.hist[i + 1], t);
  }

  predicate Queued(p: Place) { p.InHead? || p.InBatch? }

  /* ---------- bounded bypass ---------- */

  // The polls of u among the events from i up to j.
  ghost function Polls(r: Run, i: nat, j: nat, u: nat): nat
    requires IsRun(r) && i <= j < |r.states|
    decreases j
  {
    if i == j then 0 else Polls(r, i, j - 1, u) + Count(PollBegins(r.states[j - 1], r.events[j - 1], u))
  }

  // How often u can still be polled while t waits.
  ghost function Budget(r: Run, i: nat, t: nat, u: nat): nat
    requires IsRun(r) && i < |r.states| && t < |r.states[0].tasks| && u < |r.states[0].tasks|
  {
    Count(PlaceAt(r, i, u).InBatch? || AboutToPoll(r.states[i], u)) + Count(PlaceAt(r, i, t).InHead?)
  }

  lemma BudgetStep(r: Run, i: nat, t: nat, u: nat)
    requires IsRun(r) && i < |r.events| && t < |r.states[0].tasks| && u < |r.states[0].tasks|
    requires Queued(PlaceAt(r, i, t)) && !Dequeues(r.states[i], r.events[i], t)
    ensures Queued(PlaceAt(r, i + 1, t))
    ensures Budget(r, i + 1, t, u) + Count(PollBegins(r.states[i], r.events[i], u)) <= Budget(r, i, t, u)
  {
    PlaceStepAt(r, i, t);
    PlaceStepAt(r, i, u);
  }

  lemma {:induction false} BypassWhileQueued(r: Run, i: nat, j: nat, t: nat, u: nat)
    requires IsRun(r) && i <= j < |r.states| && t < |r.states[0].tasks| && u < |r.states[0].tasks|
    requires Queued(PlaceAt(r, i, t))
    requires forall k | i <= k < j :: !Dequeues(r.states[k], r.events[k], t)
    ensures Queued(PlaceAt(r, j, t))
    ensures Polls(r, i, j, u) + Budget(r, j, t, u) <= Budget(r, i, t, u)
    decreases j
  {
    if i < j {
      BypassWhileQueued(r, i, j - 1, t, u);
      BudgetStep(r, j - 1, t, u);
    }
  }

  // From its push until it is dequeued, t sees any task polled at most twice,
  // and at most once if it was pushed outside a batch.
  lemma {:induction false} BoundedBypass(r: Run, i: nat, j: nat, t: nat, u: nat)
    requires IsRun(r) && i < j < |r.states| && t < |r.states[0].tasks| && u < |r.states[0].tasks|
    requires Pushes(r.states[i], r.events[i], t)
    requires forall k | i < k < j :: !Dequeues(r.states[k], r.events[k], t)
    ensures Polls(r, i + 1, j, u) <= if InBatchLoop(r.states[i].pc) then 2 else 1
  {
    PlaceStepAt(r, i, t);
    BypassWhileQueued(r, i + 1, j, t, u);
    PlaceStepAt(r, i, u);
  }

  /* ---------- one batch ---------- */

  // The tasks dequeued by the events from i up to j, in order.
  ghost function Dequeued(r: Run, i: nat, j: nat): seq<nat>
    requires IsRun(r) && i <= j < |r.states|
    decreases j
  {
    if i == j then []
    else
      var l := Dequeued(r, i, j - 1);
      if r.events[j - 1].ClearRunQueued? && r.states[j - 1].pc.Took? then l + [r.states[j - 1].pc.t] else l
  }

  function Reverse(l: seq<nat>): seq<nat> {
    if l == [] then [] else [l[|l| - 1]] + Reverse(l[..|l| - 1])
  }

  lemma BatchStep(s: State, h: History, e: Event, s': State, h': History)
    requires Shape(s, h) && RunInv(s, h) && Step(s, e) == Some(s') && h' == After(s, h, e)
    ensures if e.Swap? then h'.rest == h.q
            else if e.ClearRunQueued? then s.pc.Took? && h.rest == h'.rest + [s.pc.t]
            else h'.rest == h.rest
  {
    if !IsAgentEvent(e) && !e.Swap? && !e.ClearRunQueued? { ExecutorMoves(s, h, e, s'); }
  }

  // The tasks dequeued since the swap, followed by the unvisited ones, are the list taken by the swap
  // in reverse push order: each is dequeued once, whatever was re-enqueued in between.
  lemma {:induction false} BatchRunsTheListTaken(r: Run, w: nat, j: nat)
    requires IsRun(r) && w < j < |r.states| && r.events[w] == Swap
    requires forall k | w < k < j :: r.events[k] != Swap
    ensures Dequeued(r, w + 1, j) + Reverse(r.hist[j].rest) == Reverse(r.hist[w].q)
    ensures !InBatchLoop(r.states[j].pc) ==> Dequeued(r, w + 1, j) == Reverse(r.hist[w].q)
    decreases j
  {
    BatchStepAt(r, j - 1);
    if j > w + 1 {
      BatchRunsTheListTaken(r, w, j - 1);
      if r.events[j - 1].ClearRunQueued? { ReverseSnoc(r.hist[j].rest, r.states[j - 1].pc.t); }
    }
    if !InBatchLoop(r.states[j].pc) { RestOutsideBatch(r, j); }
  }

  lemma BatchStepAt(r: Run, i: nat)
    requires IsRun(r) && i < |r.events|
    ensures if r.events[i].Swap? then r.hist[i + 1].rest == r.hist[i].q
            else if r.events[i].ClearRunQueued? then
              r.states[i].pc.Took? && r.hist[i].rest == r.hist[i + 1].rest + [r.states[i].pc.t]
            else r.hist[i + 1].rest == r.hist[i].rest
  {
    NextHistory(r, i);
    RunInvAlways(r, i);
    BatchStep(r.states[i], r.hist[i], r.events[i], r.states[i + 1], r.hist[i + 1]);
  }

  lemma RestOutsideBatch(r: Run, i: nat)
    requires IsRun(r) && i < |r.states| && !InBatchLoop(r.states[i].pc)
    ensures r.hist[i].rest == []
  {
    RunInvAlways(r, i);
  }

  lemma ReverseSnoc(l: seq<nat>, x: nat)
    ensures Reverse(l + [x]) == [x] + Reverse(l)
  {
    assert (l + [x])[..|l|] == l;
  }

  /* ---------- who overtakes ---------- */

  // A task leaves a batch by being dequeued.
  lemma LeavesBatch(r: Run, i: nat, j: nat, u: nat)
    requires IsRun(r) && i <= j < |r.states| && u < |r.states[0].tasks|
    requires PlaceAt(r, i, u).InBatch? && !PlaceAt(r, j, u).InBatch?
    ensures exists k | i <= k < j :: Dequeues(r.states[k], r.events[k], u)
    decreases j - i
  {
    if i < j {
      PlaceStepAt(r, i, u);
      if !Dequeues(r.states[i], r.events[i], u) { LeavesBatch(r, i + 1, j, u); }
    }
  }

  // A task enters a batch by a swap.
  lemma EntersBatch(r: Run, i: nat, j: nat, t: nat) returns (x: nat)
    requires IsRun(r) && i <= j < |r.states| && t < |r.states[0].tasks|
    requires !PlaceAt(r, i, t).InBatch? && PlaceAt(r, j, t).InBatch?
    ensures i <= x < j && r.events[x] == Swap && PlaceAt(r, x, t).InHead?
    ensures forall k | x < k <= j :: PlaceAt(r, k, t).InBatch?
    decreases j
  {
    PlaceStepAt(r, j - 1, t);
    if PlaceAt(r, j - 1, t).InBatch? { x := EntersBatch(r, i, j - 1, t); } else { x := j - 1; }
  }

  lemma NoBatchAtSwap(r: Run, w: nat, u: nat)
    requires IsRun(r) && w < |r.events| && r.events[w] == Swap && u < |r.states[0].tasks|
    ensures !PlaceAt(r, w, u).InBatch?
  {
    PlaceStepAt(r, w, u);
  }

  // Until a swap, a queued task keeps its index, and whoever is pushed after it gets a higher one.
  lemma OrderInHead(r: Run, i: nat, j: nat, t: nat, u: nat)
    requires IsRun(r) && i <= j < |r.states| && t < |r.states[0].tasks| && u < |r.states[0].tasks|
    requires PlaceAt(r, i, u).InHead? && !PlaceAt(r, i, t).InHead?
    requires forall k | i <= k < j :: r.events[k] != Swap
    ensures PlaceAt(r, j, u) == PlaceAt(r, i, u)
    ensures PlaceAt(r, j, t).InHead? ==> PlaceAt(r, j, t).i > PlaceAt(r, j, u).i
    decreases j
  {
    if i < j {
      OrderInHead(r, i, j - 1, t, u);
      PlaceStepAt(r, j - 1, t);
      PlaceStepAt(r, j - 1, u);
    }
  }

  // While the more recently pushed t is unvisited, the older u of the same batch is not dequeued.
  lemma OrderInBatch(r: Run, i: nat, j: nat, t: nat, u: nat)
    requires IsRun(r) && i <= j < |r.states| && t < |r.states[0].tasks| && u < |r.states[0].tasks|
    requires PlaceAt(r, i, u).InBatch? && PlaceAt(r, i, t).InBatch? && PlaceAt(r, i, u).i < PlaceAt(r, i, t).i
    requires forall k | i <= k < j :: !Dequeues(r.states[k], r.events[k], t)
    ensures forall k | i <= k < j :: !Dequeues(r.states[k], r.events[k], u)
    ensures PlaceAt(r, j, u) == PlaceAt(r, i, u) && PlaceAt(r, j, t) == PlaceAt(r, i, t)
    decreases j
  {
    if i < j {
      OrderInBatch(r, i, j - 1, t, u);
      PlaceStepAt(r, j - 1, t);
      PlaceStepAt(r, j - 1, u);
    }
  }

  // Let t be dequeued at i and next at d, let u be queued at i, and let w be the first swap after i.
  // u is dequeued in between unless t is already back in the list that w takes, u having waited there:
  // exactly then t, pushed last, overtakes u.
  lemma {:induction false} OvertakenExactly(r: Run, i: nat, w: nat, d: nat, t: nat, u: nat)
    requires IsRun(r) && i < w < d < |r.events| && t < |r.states[0].tasks| && u < |r.states[0].tasks| && t != u
    requires Dequeues(r.states[i], r.events[i], t) && Dequeues(r.states[d], r.events[d], t)
    requires forall k | i < k < d :: !Dequeues(r.states[k], r.events[k], t)
    requires r.events[w] == Swap && forall k | i < k < w :: r.events[k] != Swap
    requires Queued(PlaceAt(r, i, u))
    ensures (exists k | i < k < d :: Dequeues(r.states[k], r.events[k], u))
            <==> PlaceAt(r, i, u).InBatch? || !PlaceAt(r, w, t).InHead?
  {
    PlaceStepAt(r, i, t);
    PlaceStepAt(r, i, u);
    PlaceStepAt(r, w, t);
    PlaceStepAt(r, w, u);
    PlaceStepAt(r, d, t);
    NoBatchAtSwap(r, w, u);
    NoBatchAtSwap(r, w, t);
    if PlaceAt(r, i, u).InBatch? {
      LeavesBatch(r, i + 1, w, u);
    } else {
      OrderInHead(r, i + 1, w, t, u);
      if PlaceAt(r, w, t).InHead? {
        OrderInBatch(r, w + 1, d, t, u);
        forall k | i < k < d ensures !Dequeues(r.states[k], r.events[k], u) {
          if k <= w {
            if k < w { OrderInHead(r, i + 1, k, t, u); }
            PlaceStepAt(r, k, u);
          }
        }
      } else {
        var x := EntersBatch(r, w + 1, d, t);
        NoBatchAtSwap(r, x, u);
        LeavesBatch(r, w + 1, x, u);
      }
    }
  }
}
