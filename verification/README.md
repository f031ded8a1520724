# Verified models of embassy's executor, clock and byte streams

This project models three parts of the embassy repository in Dafny and proves what their correctness rests on.
`dafny verify dfyconfig.toml` checks everything.

**The executor.** Tasks sit on two intrusive linked lists: a lock-free stack of runnable tasks, pushed by any
interrupt and taken whole by one swap, and an unsorted timer list pruned in place. The claim that carries the rest is
that the `RUN_QUEUED` bit is the right to write a task's `next`.
- `ExecutorModel` is a step relation. Any number of agents stand at program points inside the wake, spawn and push
  code, compare-exchanges may fail spuriously, and pointers are pointers. `ExecutorInv` states the invariant over
  history variables that no step reads, `ExecutorSteps` proves that every step keeps it.
- `ExecutorRuns`, `ExecutorFairness`, `ExecutorTimers`, `ExecutorProgress` prove properties of every run of every length,
  safety in the first and progress in the last; `ExecutorUnfair` and `ExecutorHeld` are concrete runs.
- `TaskQueues` is the same code as methods on heap nodes, read sequentially: the list surgery of `retain`, `update`,
  `dequeue_all`, and `run_queued` on top. `Timers` has the `Timer` and `Ticker` futures.

**The RTC.** `RtcClock` is the 64-bit clock made from a short counter and a half-period count, for any counter width;
`RtcWords` shows that the code's shifts and exclusive-or on machine words compute it. `RtcAlarms` is a timed state
machine of hardware ticks, handler steps and `set_alarm` calls; `RtcOnTime` says when an alarm is on time and constructs
a run that misses it otherwise; `RtcDriver` has the driver's methods and proves that one interrupt is a run of the
machine.

**Byte streams.** `RingBuffer` is the ring whose slices stay in use while the other end moves. `UarteModel`, `UarteRuns`
and `Uarte` are the buffered UARTE on two rings, `Wakers` its waker slots. `UsbSerial` is the write side of the USB
serial port, `UsbInterval` its runs of full packets. `AsyncIo` and `ReadLine` are the stream futures. `Basics` holds shared
types.

Each stateful part is given twice: as functions and invariants on values, over which the run theorems are proved, and as
a class whose methods are proved to compute those functions.

## Assumptions

- Atomic accesses are sequentially consistent. Accesses to cells that only the executor touches are joined to the
  neighbouring shared access. All tasks of a model belong to one executor. No claim is made that a compare-exchange loop
  ends under unbounded interference.
- In `TaskQueues` calls do not interleave; what a poll does (whom it wakes, which deadlines it registers, whether it is
  ready) is a parameter.
- RTC: a period interrupt is served at most `latency` ticks into its half-period (`latency < 2^23`; on-time results need
  `latency <= 0x3FFFFE`); a compare interrupt is served before the counter comes round to the same value; a compare event
  is raised only while its interrupt is enabled and only when the counter reaches the value; a value written as the
  current or the next count may be missed once; the counter advances at most once inside `set_alarm`, between the reading
  of the time and the register write; `next_period` is one step, no tick falling between its increment of the period and
  its register writes, on which the `latency + 2` of `RtcOnTime.OnTimeExactly` rests; in the run theorems real time stays
  below 2^55 ticks, so the 32-bit half-period count does not wrap; `at - t` wraps in 64 bits. That no compare event of a
  channel is outstanding while `set_alarm` runs on it is an assumption of the run theorems; `RtcAlarms.QuietIsExact` shows
  that it is needed exactly, `RtcOnTime.UnsafeSetIsReached` that such states are reached.
- UARTE and USB calls exclude the interrupt handler, as `PeripheralMutex` arranges. The USB endpoint takes a packet whole
  or not at all. A stalled writer is only claimed to make progress when the endpoint refuses packets only while it holds one.
- A reader or writer of the stream futures answers by a script of responses (not ready, so many bytes, a failure); when the
  script has run out it is not ready.
- Wakers are task numbers; waking a task is reported, not performed, outside the executor model.

## Where the code and its documentation differ

- README.md:24 of the repository promises that all other tasks get a chance to run before a task is polled for the second
  time. A batch runs in reverse push order, so a task pushed while a batch is in progress can be overtaken by a task of
  that batch that wakes itself later. `ExecutorUnfair.ReadmeFairnessFails` is such a run, `ExecutorFairness.OvertakenExactly`
  says exactly when it happens, and `ExecutorFairness.BoundedBypass` is the bound that does hold.
- A due task is polled in the call of `run_queued` that finds it due, unless at the swap an interrupt has set its
  `RUN_QUEUED` bit and not pushed it yet; then it waits for the next call (`ExecutorTimers.TimerEndToEnd` is the exact
  condition, `ExecutorHeld.HeldTaskIsNotPolled` such a run for every deadline).
- `now()` is documented to be correct although it races a period boundary between its two reads. It is, exactly as long
  as at most one boundary is passed that the first read does not know (`RtcAlarms.SplitReadIsExactly`).
- `next_period` rewrites compare registers without the three-tick guard that `set_alarm` documents, so an alarm whose
  timestamp lies among the first ticks of a half-period can be missed until the counter comes round
  (`RtcOnTime.OnTimeExactly`).
- The comment in `buffered_uarte.rs` says the length has been checked to fit the count register. It is not checked: a
  transmit ring as long as the register's range loses bytes (`UarteRuns.TransmitIsLosslessExactly`), and a receive ring as
  long can start a transfer of no bytes while there is room (`UarteRuns.ReceptionGoesOnExactly`).
- `WriteState::Full` is documented to force a short packet every `SHORT_PACKET_INTERVAL` (10) full ones. The code allows
  eleven (`UsbInterval.ElevenWithoutRefusal`), which is the bound as long as no short packet of data is refused
  (`UsbInterval.FullPacketsAreBounded`). A refused short packet resets the count, so the bound depends on the buffer:
  `UsbInterval.IntervalHoldsExactly` says for which sizes it holds, `UsbInterval.AnyNumberFollows` that a multiple of the
  packet size has no bound at all.
- `read_line` eats the byte after the carriage returns whatever it is (`ReadLine.LoneReturnEatsAByte`).
- `copy_buf` is documented to flush the writer. Its code has no flush; this is a remark on the documentation, and the
  modelled writer has none either.

## Model

| member | source | states |
|---|---|---|
| ExecutorSteps.StepKeepsInv | embassy/src/executor/raw.rs:46-71 | Every access by any agent or by the executor keeps the ownership invariant of both lists, the signal, slot and timer invariants, in every interleaving and under spurious or stale compare-exchange failure. |
| ExecutorRuns.HistoryExists | embassy/src/executor/raw.rs:46-71 | The history variables restrict nothing: every sequence of steps carries them. |
| ExecutorRuns.RunQueuedHasOneOwner | embassy/src/executor/run_queue.rs:42-70 | In every reachable state a task has RUN_QUEUED set iff it is in exactly one of: the head list, the unvisited rest of the batch, one in-flight enqueuer, allocated but not spawned; both lists follow their next pointers, end, and repeat nothing; no two agents hold one task. |
| ExecutorRuns.NoLostWake | embassy/src/executor/raw.rs:201-220 | After any wake of a spawned task, also during its own poll, the task stays queued or about to be polled until a fresh poll of it begins or it ends. |
| ExecutorRuns.NoLostSignal | embassy/src/executor/raw.rs:182-186 | While the head list is non-empty, signal_fn was called since the last swap or the agent that pushed onto the empty list is about to call it; so the executor never waits unsignalled on queued work. |
| ExecutorRuns.PolledFuturesAreLive | embassy/src/executor/raw.rs:133-150 | A future is polled, and dropped on Ready, only while it is live and its task spawned: never after Ready. |
| ExecutorRuns.FutureLifetime | embassy/src/executor/raw.rs:122-145 | A slot becomes live only by spawn_initialize and ceases to be only by the poll of that task returning Ready. |
| ExecutorRuns.AllocatedSlotsAreFree | embassy/src/executor/raw.rs:90-120 | A slot that spawn_allocate can take holds no future, is in neither queue nor in the batch, and no enqueuer holds it. |
| ExecutorRuns.ExecutorPointerIsSet | embassy/src/executor/raw.rs:68-70 | When an agent is about to push a task, the task's executor pointer has been set. |
| ExecutorRuns.RegisteredSteps | embassy/src/executor/raw.rs:245-250 | The deadlines registered since the last poll began: emptied when a poll begins, extended by register_timer in that poll, unchanged otherwise. |
| ExecutorRuns.AlarmIsNextDeadline | embassy/src/executor/raw.rs:222-228 | When run_queued sets the alarm, each live idle task's expires_at is the least deadline of its last poll and, below MAX, is in the timer queue; the alarm is the least expires_at in that queue, MAX if it is empty, so it is never later than an outstanding deadline. |
| ExecutorProgress.RunQueuedSetsAlarm | embassy/src/executor/raw.rs:194-229 | Over every run each call of run_queued that has returned took the head list exactly once and then, iff there is an alarm, set it exactly once, as the last thing it did. |
| ExecutorProgress.RunQueuedEnds | embassy/src/executor/raw.rs:194-229 | Every step of the executor but the entry and register_timer lowers a well-founded rank that no interrupt raises: a call of run_queued ends however many tasks are woken meanwhile. |
| ExecutorProgress.NeverStuck | embassy/src/executor/raw.rs:46-71 | In every reachable state every agent inside a call has a next step, and so has the executor. |
| ExecutorProgress.SignalFollowsPush | embassy/src/executor/raw.rs:182-186 | In terms of calls: while the head list is non-empty, signal_fn has been called since the last swap and, outside the phases before a swap, since the last entry, or is about to be called. |
| ExecutorProgress.EventIsACall | embassy/src/executor/raw.rs:182-186 | The event that waiting reads is set iff signal_fn was called since the last entry, or it was set from the start. |
| ExecutorProgress.SignalledIsACall | embassy/src/executor/raw.rs:182-186 | The flag in NoLostSignal is set iff signal_fn was called since the last swap, or it was set from the start. |
| ExecutorFairness.BypassWhileQueued | embassy/src/executor/raw.rs:201-220 | While a task is queued, the polls of any other task are at most two while it waits in the head list and one once it is in the batch. |
| ExecutorFairness.BoundedBypass | embassy/src/executor/run_queue.rs:58-70 | From its push until it is dequeued a task sees any other task polled at most twice, at most once if it was pushed outside a batch. |
| ExecutorFairness.BatchRunsTheListTaken | embassy/src/executor/run_queue.rs:58-70 | A batch dequeues exactly the tasks in the list at the swap, once each, in reverse push order, whatever is re-enqueued meanwhile. |
| ExecutorFairness.OvertakenExactly | README.md:24-24 | Between two dequeues of t a queued u is dequeued iff u was in the batch already or t is not back in the list that the next swap takes. |
| ExecutorUnfair.ReadmeFairnessFails | README.md:24-24 | A concrete run in which a task polled for the second time overtakes a task queued since before its first poll. |
| ExecutorTimers.DueTasksAreQueued | embassy/src/executor/timer_queue.rs:57-71 | run_queued entered at or after a deadline of a live idle task has that task RUN_QUEUED by the time it takes the list. |
| ExecutorTimers.TimerEndToEnd | embassy/src/executor/raw.rs:194-220 | At the swap such a task is in the list taken or an enqueuer that has set its bit holds it; it is polled in that same call iff it is in the list, and every such poll comes at a time at which its pending Timer answers Ready. |
| ExecutorHeld.HeldTaskIsNotPolled | embassy/src/executor/raw.rs:194-220 | For every deadline a run in which the task is due when run_queued is entered, an interrupt holds it at the swap, and the call ends without polling it. |
| Timers.Timer.Poll | embassy/src/executor/timer.rs:91-99 | Ready iff it has been polled before and the deadline has come; otherwise the task's expires_at is lowered to the deadline. |
| Timers.TimerReadyExactly | embassy/src/executor/timer.rs:91-99 | Over any sequence of polls the Timer is Ready exactly at the first poll, not counting the first of all, made at the deadline or later. |
| Timers.Ticker.PollNext | embassy/src/executor/timer.rs:171-180 | One tick per poll at or after expires_at, which then advances by the duration; otherwise the deadline is registered. |
| Timers.TickerIsUniform | embassy/src/executor/timer.rs:102-104 | Ticks are due at first, first + duration, ... without drift whatever the delays between polls; none is early and a Pending answer means all elapsed ones were yielded. |
| Timers.Deadline.Register | embassy/src/executor/raw.rs:245-250 | register_timer keeps the least deadline. |
| TaskQueues.RunQueue.Enqueue | embassy/src/executor/run_queue.rs:42-56 | Pushes a task that is not in the list; reports whether the list was empty. |
| TaskQueues.RunQueue.Take | embassy/src/executor/run_queue.rs:58-59 | Takes the whole list and leaves it empty. |
| TaskQueues.EnqueueTask | embassy/src/executor/raw.rs:46-71 | A spawned task that is not queued is marked and pushed, and the executor signalled iff the list was empty; otherwise nothing changes. |
| TaskQueues.TimerQueue.Update | embassy/src/executor/timer_queue.rs:33-44 | A task with a deadline joins the list iff it is not in it; TIMER_QUEUED stays set exactly on the members. |
| TaskQueues.TimerQueue.Unlink | embassy/src/executor/timer_queue.rs:81-85 | Removing an element through the cursor's cell leaves the rest in order and clears its bit alone. |
| TaskQueues.TimerQueue.Retain | embassy/src/executor/timer_queue.rs:73-87 | Visits every element once in order, leaves exactly the filter of the list in order, and pushes the expired spawned ones onto the run queue; the bit stays set exactly on members. |
| TaskQueues.KeptIsFilter | embassy/src/executor/timer_queue.rs:73-87 | What retain leaves is exactly the elements for which the closure answers true. |
| TaskQueues.KeptInOrder | embassy/src/executor/timer_queue.rs:73-87 | Survivors keep their order. |
| TaskQueues.LeastIsMinimum | embassy/src/executor/timer_queue.rs:46-55 | The value accumulated by next_expiration is the least expires_at, MAX if there is none, and dropping the elements at MAX does not change it. |
| TaskQueues.PushedMembers | embassy/src/executor/timer_queue.rs:57-71 | dequeue_expired puts exactly the expired spawned elements into the run queue beside what was there. |
| TaskQueues.Executor.OnTask | embassy/src/executor/raw.rs:201-220 | One task's turn: bit cleared before the poll, so a wake during the poll re-queues it; the run list grows by the woken tasks in order; deadline reset and lowered to the registered minimum; timer queue updated. |
| TaskQueues.Executor.DequeueAll | embassy/src/executor/run_queue.rs:58-70 | Visits exactly the tasks in the list at the start, once, in list order, and ends, although callbacks re-enqueue visited tasks and overwrite their next; the run list afterwards is the fold of their wakes. |
| TaskQueues.Executor.DequeueExpired | embassy/src/executor/timer_queue.rs:57-71 | After it a task is queued to run iff it was, or it is spawned, was in the timer queue and is due; and in the timer queue iff it was and is not due. |
| TaskQueues.Executor.ScanTimers | embassy/src/executor/timer_queue.rs:46-55 | The result is the least deadline in the queue, whose members at MAX are gone; the run list and everything else stay. |
| TaskQueues.Executor.RunQueued | embassy/src/executor/raw.rs:194-229 | Runs the tasks that were queued or due, in list order; each task polled is left at the least deadline it registered, and the alarm is no later than any deadline of a task left idle; a task is queued for the next call iff a poll of this one woke it while it was spawned and had no turn to come. |
| TaskQueues.EarliestIsLeast | embassy/src/executor/raw.rs:245-250 | What a poll leaves in expires_at is a lower bound of the deadlines it registered and one of them, or MAX. |
| TaskQueues.RequeuedExactly | embassy/src/executor/raw.rs:201-220 | The fold of the wakes of a batch holds exactly what was there and the tasks that some poll of the batch wakes while they are spawned, not finished, and without a turn to come. |
| RtcClock.ClockIsExactIff | embassy-nrf/src/rtc.rs:29-31 | For any half-period length and tick count, calc_now of the wrapped counter is the tick count iff the period count is current or one behind. |
| RtcClock.CounterOf | embassy-nrf/src/rtc.rs:11-19 | The wrapped counter is the offset in the half-period, plus one half-period when the period count is odd. |
| RtcWords.CalcNow24IsCalcNow | embassy-nrf/src/rtc.rs:29-31 | For every period count and 24-bit counter the shifts, exclusive-or and sum on 32- and 64-bit words hold the number that the width-independent formula gives. |
| RtcWords.CalcNow16IsCalcNow | embassy-stm32/src/rtc.rs:30-32 | The same for the 16-bit counter. |
| RtcWords.WordClockIsExact24 | embassy-nrf/src/rtc.rs:29-31 | So the word is the tick count iff the 32-bit period count is current or one behind. |
| RtcWords.WordClockIsExact16 | embassy-stm32/src/rtc.rs:30-32 | The same for the 16-bit counter. |
| RtcWords.XorInvertsTopBit24 | embassy-nrf/src/rtc.rs:29-31 | The exclusive-or on the word is the inversion of the top counter bit on numbers. |
| RtcWords.XorInvertsTopBit16 | embassy-stm32/src/rtc.rs:30-32 | The same for the 16-bit counter. |
| RtcAlarms.NowIsExact | embassy-nrf/src/rtc.rs:236-242 | Read at one instant, period count and counter give the real tick count in every reachable state, also while a period interrupt is outstanding. |
| RtcAlarms.SplitReadIsExactly | embassy-nrf/src/rtc.rs:236-242 | With the period count read in one state and the counter after any run from there, now() is the real tick count at the second read iff the period count read is by then at most one behind. |
| RtcAlarms.SplitReadsAreMonotone | embassy-nrf/src/rtc.rs:20-25 | Two such readings, one after the other, do not go backwards, whatever runs inside and between them. |
| RtcAlarms.StepKeepsInv | embassy-nrf/src/rtc.rs:122-222 | Every tick, handler step and set_alarm call keeps the clock and channel invariants. |
| RtcAlarms.AlarmsAreNeverEarly | embassy-nrf/src/rtc.rs:163-174 | Over every run each call of trigger_alarm happens at or after the timestamp it cancels; so none fires twice or after being cleared. |
| RtcAlarms.SetAlarmIsTaken | embassy-nrf/src/rtc.rs:183-222 | set_alarm with a timestamp that has come fires it before it returns; any other timestamp is what the channel waits for; the other channels keep theirs. |
| RtcAlarms.AlarmIsPendingOrFired | embassy-nrf/src/rtc.rs:163-222 | Over every run an alarm that was set is pending, or has fired exactly once, at its timestamp or later, until its channel is set again: none disappears. |
| RtcAlarms.QuietIsExact | embassy-nrf/src/rtc.rs:183-222 | set_alarm on a channel is safe from early firing in every continuation iff no compare event of that channel is raised or being handled while it runs. |
| RtcOnTime.UnsafeSetIsReached | embassy-nrf/src/rtc.rs:183-222 | A run from reset to a state with a compare event outstanding, where set_alarm with any later timestamp can fire early: the excluded states are reached. |
| RtcAlarms.FarAlarmIsHandedOver | embassy-nrf/src/rtc.rs:144-161 | A waiting far alarm is armed at the first boundary t with at - t below 0xC00000, and then at least 0x400000 ticks remain and the match comes at the timestamp. |
| RtcAlarms.NearAlarmIsProgrammed | embassy-nrf/src/rtc.rs:196-215 | A close alarm matches between its timestamp and two ticks later, at least three ticks after the time read and two after the register write. |
| RtcOnTime.StepKeepsOnTime | embassy-nrf/src/rtc.rs:144-222 | Every step keeps a pending alarm's next match within two ticks of its timestamp and impossible to miss, if the timestamp keeps clear of the handler. |
| RtcOnTime.PendingIsNotLate | embassy-nrf/src/rtc.rs:196-220 | An alarm that is still pending is less than two ticks past its timestamp. |
| RtcOnTime.OnTimeExactly | embassy-nrf/src/rtc.rs:144-161 | Alarms of a timestamp are on time over every run iff it lies in the first half-period or at least latency + 2 ticks into its half-period. |
| RtcOnTime.AlarmFiresInTime | embassy-nrf/src/rtc.rs:144-222 | An alarm whose timestamp keeps clear of the handler has fired, once, two ticks past it, unless its compare event is still to be served or the channel was set again. |
| RtcOnTime.LateRun | embassy-nrf/src/rtc.rs:154-158 | For any other timestamp a run in which next_period rewrites the register too late and the alarm is missed. |
| RtcDriver.InterruptIsARun | embassy-nrf/src/rtc.rs:122-142 | One call of on_interrupt is a run of the machine that leaves no event unserved. |
| RtcDriver.Rtc.Now | embassy-nrf/src/rtc.rs:236-242 | Reads the period, then the counter, with any ticks and interrupts in between; the result is calc_now of the two. |
| RtcDriver.NowIsExactWhen | embassy-nrf/src/rtc.rs:236-242 | That result is the real tick count at the second read iff at most one boundary was passed that the first read does not know. |
| RtcDriver.Rtc.NextPeriod | embassy-nrf/src/rtc.rs:144-161 | Computes the machine's period step on all three channels; the 32-bit count wraps. |
| RtcDriver.Rtc.TriggerAlarm | embassy-nrf/src/rtc.rs:163-174 | Disables the interrupt and clears the timestamp before the callback. |
| RtcDriver.Rtc.SetAlarm | embassy-nrf/src/rtc.rs:183-222 | Computes the machine's set_alarm, with a tick between the reading of the time and the register write: a timestamp not after the time read is fired at once, any other is stored, the other channels keep theirs. |
| RtcDriver.Rtc.OnInterrupt | embassy-nrf/src/rtc.rs:122-142 | Serves overflow, half period and the three channels in that order, from any state outside the handler. |
| RingBuffers.PushLen | embassy-extras/src/ring_buffer.rs:20-34 | The free slice lies in the buffer, fits beside the contents, and is empty iff the ring is full. |
| RingBuffers.PopLen | embassy-extras/src/ring_buffer.rs:46-60 | The filled slice is a prefix of the contents and is empty iff the ring is. |
| RingBuffers.PushAppendsExactly | embassy-extras/src/ring_buffer.rs:36-44 | push(n) appends the first n bytes of the free slice, exactly when the slice has n bytes. |
| RingBuffers.PopRemovesExactly | embassy-extras/src/ring_buffer.rs:62-70 | pop(n) removes the first n bytes, exactly when the filled slice has n bytes. |
| RingBuffers.PopKeepsFreeSlice | embassy-extras/src/ring_buffer.rs:62-70 | A slice from push_buf keeps its place and its room across later pops. |
| RingBuffers.PushKeepsFilledSlice | embassy-extras/src/ring_buffer.rs:36-44 | A slice from pop_buf keeps its place across later pushes. |
| RingBuffers.WriteKeepsContents | embassy-extras/src/ring_buffer.rs:20-34 | Writing through a slice from push_buf changes no byte of the contents. |
| RingBuffers.DoRefines | embassy-extras/src/ring_buffer.rs:20-85 | With a slice lent at either end, every call is a step of a bounded queue with staged and lent bytes. |
| RingBuffers.RingIsAFifo | embassy-extras/src/ring_buffer.rs:20-85 | Every sequence of calls that keeps to its slices is a run of the bounded queue. |
| RingBuffers.RingBuffer.PushBuf | embassy-extras/src/ring_buffer.rs:20-34 | Returns the free slice. |
| RingBuffers.RingBuffer.Push | embassy-extras/src/ring_buffer.rs:36-44 | Changes the ring as the push function, or panics where it does not apply. |
| RingBuffers.RingBuffer.PopBuf | embassy-extras/src/ring_buffer.rs:46-60 | Returns the filled slice, whose bytes are a prefix of the contents. |
| RingBuffers.RingBuffer.Pop | embassy-extras/src/ring_buffer.rs:62-70 | Changes the ring as the pop function. |
| RingBuffers.RingBuffer.Clear | embassy-extras/src/ring_buffer.rs:72-76 | Empties the ring. |
| Wakers.WakerRegistration.Register | embassy/src/util/waker.rs:20-41 | Stores the waker and wakes a different one that it displaces. |
| Wakers.WakerRegistration.Wake | embassy/src/util/waker.rs:44-48 | Wakes and removes the stored waker. |
| UarteModel.RxServeOk | embassy-nrf/src/buffered_uarte.rs:296-346 | The receive half of the handler keeps every received byte, leaves no receive work, and wakes whom it unregisters. |
| UarteModel.TxServeOk | embassy-nrf/src/buffered_uarte.rs:348-392 | The transmit half keeps sent plus ring equal to accepted when the ring is shorter than the count register's range, leaves no transmit work, and wakes whom it unregisters. |
| UarteModel.RxStartsWhole | embassy-nrf/src/buffered_uarte.rs:302-327 | When the receive half has work it starts a transfer at the end of the contents whose count is the whole free slice, reduced to the range of the register, or none iff the ring is full. |
| UarteModel.TxStartsWhole | embassy-nrf/src/buffered_uarte.rs:348-379 | The same for the transmit half and the filled slice. |
| UarteRuns.After | embassy-nrf/src/buffered_uarte.rs:198-394 | Every state of every run of polls, consumption, interrupts and DMA keeps the driver's invariant. |
| UarteRuns.DriverIsSound | embassy-nrf/src/buffered_uarte.rs:198-263 | Over every run: received bytes are those consumed, in the ring and in the transfer under way; a task left Pending has nothing to read or no room to write; an idle side with work has the interrupt pended. |
| UarteRuns.TransmitIsLosslessExactly | embassy-nrf/src/buffered_uarte.rs:363-369 | Sent plus ring is what was accepted over every run iff the transmit ring is shorter than the count register's range. |
| UarteRuns.LosingRun | embassy-nrf/src/buffered_uarte.rs:363-386 | For any longer ring a run that loses bytes. |
| UarteRuns.ReceptionGoesOnExactly | embassy-nrf/src/buffered_uarte.rs:311-318 | Over every run, whenever the interrupt is not pended and the receive ring has room, a transfer of at least one byte is running, iff the ring is shorter than the count register's range. |
| UarteRuns.DeafRun | embassy-nrf/src/buffered_uarte.rs:311-318 | For any longer ring a run that starts a receive transfer of no bytes while there is room. |
| Uarte.BufferedUarte.PollFillBuf | embassy-nrf/src/buffered_uarte.rs:198-221 | Pending iff the ring is empty, with the task registered; otherwise the filled slice. |
| Uarte.BufferedUarte.Consume | embassy-nrf/src/buffered_uarte.rs:223-231 | Removes bytes of the slice last returned and pends the interrupt. |
| Uarte.BufferedUarte.PollWrite | embassy-nrf/src/buffered_uarte.rs:235-263 | Pending iff the ring is full, with the task registered; otherwise the ring grows by as much as fits the free slice and the interrupt is pended. |
| Uarte.BufferedUarte.ServeRx | embassy-nrf/src/buffered_uarte.rs:296-346 | The receive loop computes the receive half. |
| Uarte.BufferedUarte.ServeTx | embassy-nrf/src/buffered_uarte.rs:348-392 | The transmit loop computes the transmit half. |
| Uarte.BufferedUarte.OnInterrupt | embassy-nrf/src/buffered_uarte.rs:291-394 | Both halves: whatever has work is started on the whole slice, the interrupt is no longer pended, and no task waits that was woken. |
| UsbSerial.ZeroLengthExactlyWhenOwed | embassy-extras/src/usb/usb_serial.rs:249-257 | A flush offers a zero-length packet iff the ring is empty and the last packet taken was full. |
| UsbSerial.StepKeepsInv | embassy-extras/src/usb/usb_serial.rs:207-274 | Every write, completion and reset, with any answer of the endpoint, keeps the invariant. |
| UsbSerial.TransfersAreTerminated | embassy-extras/src/usb/usb_serial.rs:207-258 | Over every run packets plus ring are the bytes accepted since reset, no packet exceeds 64 bytes, and a zero-length packet is offered exactly when section 5.8.3 of the USB 2.0 specification requires one. |
| UsbSerial.FlushIs | embassy-extras/src/usb/usb_serial.rs:207-258 | A flush by the answer of the endpoint: the longest packet allowed moves from the ring to the endpoint, a refusal changes at most the write state, a failure only sets the error, and nothing happens if nothing is offered. |
| UsbSerial.ErrorIsReported | embassy-extras/src/usb/usb_serial.rs:155-158 | Over every run the next poll_write reports an error iff the endpoint has failed a packet, of data or of no bytes, since the last poll_write; a reset does not forget it. |
| UsbSerial.WouldBlockHidesOwed | embassy-extras/src/usb/usb_serial.rs:234-248 | While the ring is not empty the write state can be wrong: a refused short packet hides that one is owed. |
| UsbSerial.NothingIsStranded | embassy-extras/src/usb/usb_serial.rs:276-282 | On an endpoint that refuses only while it holds a packet, unsent bytes or an owed zero-length packet always have a packet in flight, whose completion flushes again. |
| UsbSerial.CompletionsDrain | embassy-extras/src/usb/usb_serial.rs:276-282 | From there some number of completions sends every accepted byte and ends with a short packet. |
| UsbSerial.After | embassy-extras/src/usb/usb_serial.rs:207-274 | Every state of every run keeps the invariant. |
| UsbInterval.FullPacketsAreBounded | embassy-extras/src/usb/usb_serial.rs:182-222 | Over every run in which no short packet of data is refused, at most eleven full packets follow each other. |
| UsbInterval.IntervalHoldsExactly | embassy-extras/src/usb/usb_serial.rs:182-247 | On an endpoint that refuses only while it holds a packet, at most eleven full packets follow each other in every run iff the buffer is shorter than a packet, or no multiple of it and shorter than six packets. |
| UsbInterval.AnyNumberFollows | embassy-extras/src/usb/usb_serial.rs:182-247 | For a buffer that is a multiple of the packet size, runs with any number of full packets in a row on such an endpoint. |
| UsbInterval.ChainIsBounded | embassy-extras/src/usb/usb_serial.rs:207-258 | For any other buffer at most twice as many full packets as fit into it follow each other, over every run and whatever the endpoint answers. |
| UsbInterval.ElevenWithoutRefusal | embassy-extras/src/usb/usb_serial.rs:182-222 | Every buffer that exceeds the bound also reaches eleven in a run in which the endpoint refuses nothing. |
| UsbSerial.UsbSerial.FlushWrite | embassy-extras/src/usb/usb_serial.rs:207-258 | Computes the flush function; a packet that fails sets the error and changes nothing else. |
| UsbSerial.UsbSerial.PollWrite | embassy-extras/src/usb/usb_serial.rs:147-171 | An error is reported once and nothing else happens; on a full ring the task is stored, a different one that it displaces is woken, and the answer is Pending; otherwise as much as fits the free slice is queued and flushed. |
| UsbSerial.UsbSerial.EndpointInComplete | embassy-extras/src/usb/usb_serial.rs:276-282 | Wakes the writer, then flushes. |
| UsbSerial.UsbSerial.Reset | embassy-extras/src/usb/usb_serial.rs:269-274 | Forgets queued bytes and what was owed. |
| AsyncIo.SkipWhile.Poll | embassy/src/io/util/skip_while.rs:26-44 | Over any number of polls only passing bytes are consumed, none is lost, and it is ready exactly at the first byte that does not pass or at the end of the stream; a failure of the reader comes out at once, and it is Pending only when the reader has nothing, with all that was shown consumed. |
| AsyncIo.ReadWhile.Poll | embassy/src/io/util/read_while.rs:33-60 | The same, the buffer holding as much of what was consumed as fits. |
| AsyncIo.PollRead | embassy/src/io/util/mod.rs:51-65 | The answer is the reader's; otherwise the lesser of the buffer's and the shown slice's length moves from the stream to the buffer. |
| AsyncIo.ReadByte.Poll | embassy/src/io/util/read_byte.rs:24-35 | Consumes exactly the byte it returns. |
| AsyncIo.ReadExact.Poll | embassy/src/io/util/read_exact.rs:30-47 | Filled part plus rest of the stream is the stream; ready with the buffer full or, when the reader shows the end, with an error; a failure of the reader comes out at once, and it is Pending only when the reader has nothing, with all that was shown consumed. |
| AsyncIo.CompleteExact | embassy/src/io/util/read_exact.rs:30-47 | However the stream is cut and delayed, the buffer gets its first bytes and exactly the rest is left, iff the stream is long enough. |
| AsyncIo.CopyBuf.Poll | embassy/src/io/util/copy_buf.rs:64-79 | Written plus unread is constant over any number of polls; a poll makes every round that reader and writer allow, each moving what is shown and taken, and answers by the response that stops it: the end, Pending, or the failure of either side. |
| AsyncIo.CompleteCopy | embassy/src/io/util/copy_buf.rs:64-79 | If nothing fails and reader and writer answer often enough, in any sizes and with any pendings in between, the copy ends with the count and everything written in order. |
| ReadLine.ParseLineExactly | embassy/src/io/util/mod.rs:130-140 | The chunk-free parse of a stream is exactly the grammar (CR or LF)* text CR* last rest. |
| ReadLine.LoneReturnEatsAByte | embassy/src/io/util/mod.rs:136-138 | After a carriage return without line feed the first byte of the next text is lost. |
| ReadLine.ReadLine.Poll | embassy/src/io/util/mod.rs:130-140 | For every chunking: ready with min of line and buffer length, that prefix in the buffer and exactly the rest unread, or with an end-of-stream error iff the stream holds no line; a failure of the reader comes out at once, and it is Pending only when the reader has nothing. |
| ReadLine.Complete | embassy/src/io/util/mod.rs:130-140 | With enough chunks of any sizes and any pendings in between, read_line finishes with the outcome of the stream alone. |

## Left out

- Moving a task slot between executors while its last poll is being finished: one executor owns all slots here.
- Memory orderings, pinning, waker vtables and critical sections: they appear as atomicity only.
- `alarm.set_callback` and the spawn error of a full pool: no state depends on them here.
- The time arithmetic of Instant and Duration: instants are natural numbers, and an overflowing addition is not modelled.
- The stm32 alarms: their compare flags are read without regard to the interrupt enable, so the never-early argument does not apply; only that clock is modelled.
- Register set-up, pins, PPI and baud rate, and dropping a BufferedUarte during a transfer.
- The receive side of UsbSerial and waking a writer across reset: they depend on the usb-device crate or do not hold.
- TaskQueues.RunQueue.Enqueue: the compare-exchange retry is in ExecutorModel only, because the heap model is sequential.
- The other io futures (read, read_to_end, write_all, drain, split): they add no case that the ones here do not have.
- Signal, Portal, Forever, the single-transfer drivers, CDC line coding and the macros: no multi-step state worth a model.
