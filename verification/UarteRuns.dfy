/** Runs of the buffered UARTE: what is conserved, who is woken, and when a transmission loses bytes. */
module UarteRuns {
  import opened Basics
  import opened RingBuffers
  import opened Wakers
  import opened UarteModel

  function Wake(s: State, tasks: set<nat>): State {
    s.(rxWaiting := s.rxWaiting - tasks, txWaiting := s.txWaiting - tasks)
  }

  predicate Can(s: State, e: Event) {
    match e
    case PollFillBuf(task) => true
    case Consume(n) => n <= s.rx.lent
    case PollWrite(task, bytes) => true
    case Irq => s.irq
    case RxByte(b) => s.rx.dma.running && s.rx.dma.done < s.rx.dma.max
    case RxEnd => s.rx.dma.running
    case TxByte => s.tx.dma.running && s.tx.dma.done < s.tx.dma.max
    case TxEnd => s.tx.dma.running && s.tx.dma.done == s.tx.dma.max
  }

  predicate Inv(s: State) {
    && s.limit > 0 && RxOk(s.rx) && TxSafe(s.tx)
    && (RxWork(s.rx) || TxWork(s.tx) ==> s.irq)
    && s.rxWaiting <= Holder(s.rx.waker) && s.txWaiting <= Holder(s.tx.waker)
  }

  function PollFillBufOf(s: State, task: nat): State
    requires Valid(s.rx.ring)
  {
    var n := PopLen(s.rx.ring);
    if n > 0 then s.(rx := s.rx.(lent := n), rxWaiting := s.rxWaiting - {task})
    else
      var s1 := Wake(s, Displaced(s.rx.waker, task));
      s1.(rx := s1.rx.(waker := Some(task)), rxWaiting := s1.rxWaiting + {task})
  }

  function ConsumeOf(s: State, n: nat): State
    requires Valid(s.rx.ring) && n <= s.rx.lent
  {
    s.(rx := RxConsume(s.rx, n), irq := true)
  }

  function PollWriteOf(s: State, task: nat, bytes: seq<Byte>): State
    requires Valid(s.tx.ring)
  {
    if PushLen(s.tx.ring) > 0 then s.(tx := TxWrite(s.tx, bytes), irq := true, txWaiting := s.txWaiting - {task})
    else
      var s1 := Wake(s, Displaced(s.tx.waker, task));
      s1.(tx := s1.tx.(waker := Some(task)), txWaiting := s1.txWaiting + {task})
  }

  function InterruptOf(s: State): State
    requires s.limit > 0 && RxOk(s.rx) && TxSafe(s.tx)
  {
    Wake(s.(rx := RxServe(s.limit, s.rx), tx := TxServe(s.limit, s.tx), irq := false), RxWoken(s.rx) + TxWoken(s.tx))
  }

  function Apply(s: State, e: Event): State
    requires Inv(s) && Can(s, e)
  {
    match e
    case PollFillBuf(task) => PollFillBufOf(s, task)
    case Consume(n) => ConsumeOf(s, n)
    case PollWrite(task, bytes) => PollWriteOf(s, task, bytes)
    case Irq => InterruptOf(s)
    case RxByte(b) => s.(rx := RxReceive(s.rx, b))
    case RxEnd => s.(rx := s.rx.(dma := s.rx.dma.(running := false, ended := true)), irq := true)
    case TxByte => s.(tx := TxTransmit(s.tx))
    case TxEnd => s.(tx := s.tx.(dma := s.tx.dma.(running := false, ended := true)), irq := true)
  }

  lemma InterruptKeepsInv(s: State)
    requires Inv(s)
    ensures Inv(InterruptOf(s))
  {
    RxServeOk(s.limit, s.rx);
    TxServeOk(s.limit, s.tx);
  }

  // Whatever has work when the interrupt is served is started on the whole slice, as far as the register holds its length.
  lemma InterruptStartsWhole(s: State)
    requires Inv(s)
    ensures var s' := InterruptOf(s);
      && !s'.irq
      && (RxWork(s.rx) ==> var n := PushLen(s'.rx.ring);
           if n == 0 then s'.rx.state == RxIdle
           else s'.rx.state == Receiving && s'.rx.dma == Dma(s'.rx.ring.end, n % s.limit, 0, true, false))
      && (TxWork(s.tx) ==> var n := PopLen(s'.tx.ring);
           if n == 0 then s'.tx.state == TxIdle
           else s'.tx.state == Transmitting(n) && s'.tx.dma == Dma(s'.tx.ring.start, n % s.limit, 0, true, false))
  {
    hide RxServe, TxServe;
    InterruptKeepsInv(s);
    if RxWork(s.rx) { RxStartsWhole(s.limit, s.rx); }
    if TxWork(s.tx) { TxStartsWhole(s.limit, s.tx); }
  }

  lemma PollFillBufKeepsInv(s: State, task: nat)
    requires Inv(s)
    ensures Inv(PollFillBufOf(s, task))
  {
    hide Contents, PushLen;
  }

  lemma PollWriteKeepsInv(s: State, task: nat, bytes: seq<Byte>)
    requires Inv(s)
    ensures Inv(PollWriteOf(s, task, bytes))
  {
    if PushLen(s.tx.ring) > 0 { TxWriteOk(s.tx, bytes); }
  }

  lemma StepKeepsInv(s: State, e: Event)
    requires Inv(s) && Can(s, e)
    ensures Inv(Apply(s, e))
  {
    match e
    case PollFillBuf(task) => PollFillBufKeepsInv(s, task);
    case Consume(n) => ConsumeKeepsInv(s, n);
    case PollWrite(task, bytes) => PollWriteKeepsInv(s, task, bytes);
    case Irq => InterruptKeepsInv(s);
    case RxByte(b) => RxByteKeepsInv(s, b);
    case RxEnd => DmaKeepsInv(s, e);
    case TxByte => DmaKeepsInv(s, e);
    case TxEnd => DmaKeepsInv(s, e);
  }

  lemma DmaKeepsInv(s: State, e: Event)
    requires Inv(s) && Can(s, e) && (e.RxEnd? || e.TxByte? || e.TxEnd?)
    ensures Inv(Apply(s, e))
  {
    if e.TxByte? { TxTransmitOk(s.tx); }
  }

  lemma ConsumeKeepsInv(s: State, n: nat)
    requires Inv(s) && n <= s.rx.lent
    ensures Inv(ConsumeOf(s, n))
  {
    RxConsumeOk(s.rx, n);
    PopRemovesExactly(s.rx.ring, n);
  }

  lemma RxByteKeepsInv(s: State, b: Byte)
    requires Inv(s) && Can(s, RxByte(b))
    ensures Inv(Apply(s, RxByte(b)))
  {
    RxReceiveOk(s.rx, b);
    WriteKeepsContents(s.rx.ring, s.rx.dma.done, b);
  }

  predicate Legal(s: State, es: List<Event>)
    requires Inv(s)
    decreases es
  {
    es.Nil? || (Can(s, es.head) && (StepKeepsInv(s, es.head); Legal(Apply(s, es.head), es.tail)))
  }

  function After(s: State, es: List<Event>): (s': State)
    requires Inv(s) && Legal(s, es)
    ensures Inv(s')
    decreases es
  {
    if es.Nil? then s else StepKeepsInv(s, es.head); After(Apply(s, es.head), es.tail)
  }

  function Start(limit: nat, rxBuf: seq<Byte>, txBuf: seq<Byte>): (s: State)
    requires limit > 0
    ensures Inv(s)
  {
    Init(limit, rxBuf, txBuf)
  }

  // Over every run and for every buffer size: the bytes received by DMA are those consumed, those in the ring and
  // those of the transfer under way, in order; a task left Pending has nothing to read, or no room to write; and a
  // side that has work to do and no transfer running has the interrupt pended.
  lemma DriverIsSound(limit: nat, rxBuf: seq<Byte>, txBuf: seq<Byte>, es: List<Event>)
    requires limit > 0 && Legal(Start(limit, rxBuf, txBuf), es)
    ensures var s := After(Start(limit, rxBuf, txBuf), es);
      && s.rx.received == s.rx.consumed + Contents(s.rx.ring) + InDma(s.rx)
      && (s.rxWaiting != {} ==> Contents(s.rx.ring) == [])
      && (s.txWaiting != {} ==> |Contents(s.tx.ring)| == |s.tx.ring.buf|)
      && (!s.irq && s.rx.state == RxIdle ==> |Contents(s.rx.ring)| == |s.rx.ring.buf|)
      && (!s.irq && s.tx.state == TxIdle ==> Contents(s.tx.ring) == [])
  {
    var s := After(Start(limit, rxBuf, txBuf), es);
    if s.rxWaiting != {} { var t :| t in s.rxWaiting; }
    if s.txWaiting != {} { var t :| t in s.txWaiting; }
  }

  /* ---------- reception goes on exactly when the ring is shorter than the count register's range ---------- */

  // A receive transfer that has been started has room for a byte.
  predicate Hears(s: State) {
    s.rx.dma.running ==> s.rx.dma.max > 0
  }

  lemma StepHears(s: State, e: Event)
    requires Inv(s) && Can(s, e) && Hears(s) && |s.rx.ring.buf| < s.limit
    ensures Hears(Apply(s, e)) && |Apply(s, e).rx.ring.buf| == |s.rx.ring.buf| && Apply(s, e).limit == s.limit
  {
    match e
    case Irq => if RxWork(s.rx) { RxStartsWhole(s.limit, s.rx); }
    case _ =>
  }

  lemma {:induction false} HearsAlways(s: State, es: List<Event>)
    requires Inv(s) && Legal(s, es) && Hears(s) && |s.rx.ring.buf| < s.limit
    ensures Hears(After(s, es))
    decreases es
  {
    if es.Cons? {
      StepKeepsInv(s, es.head);
      StepHears(s, es.head);
      HearsAlways(Apply(s, es.head), es.tail);
    }
  }

  // Whenever the interrupt is not pended and the ring has room, a receive transfer is running that can take a byte or
  // has taken as many as it was started for, and it was started for at least one.
  predicate Receives(s: State)
    requires Inv(s)
  {
    !s.irq && |Contents(s.rx.ring)| < |s.rx.ring.buf| ==>
      s.rx.dma.running && s.rx.dma.max > 0 && forall b :: Can(s, RxByte(b)) || s.rx.dma.done == s.rx.dma.max
  }

  ghost predicate AlwaysReceives(s: State) {
    Inv(s) && forall es | Legal(s, es) :: Receives(After(s, es))
  }

  lemma ReceptionGoesOnExactly(limit: nat, rxBuf: seq<Byte>, txBuf: seq<Byte>)
    requires limit > 0
    ensures AlwaysReceives(Start(limit, rxBuf, txBuf)) <==> |rxBuf| < limit
  {
    var s := Start(limit, rxBuf, txBuf);
    if |rxBuf| < limit {
      forall es | Legal(s, es) ensures Receives(After(s, es)) { HearsAlways(s, es); }
    } else {
      var es := DeafRun(limit, rxBuf, txBuf);
    }
  }

  // Bytes arrive until the transfer is full.
  lemma {:induction false} Arrive(s: State) returns (es: List<Event>)
    requires Inv(s) && s.rx.dma.running
    ensures Legal(s, es)
    ensures var s' := After(s, es);
      && s'.rx.dma == s.rx.dma.(done := s.rx.dma.max) && s'.rx.state == s.rx.state && s'.limit == s.limit
      && s'.rx.ring == s.rx.ring.(buf := s'.rx.ring.buf) && |s'.rx.ring.buf| == |s.rx.ring.buf|
    decreases s.rx.dma.max - s.rx.dma.done
  {
    if s.rx.dma.done == s.rx.dma.max {
      es := Nil;
    } else {
      One(s, RxByte(0));
      var rest := Arrive(Apply(s, RxByte(0)));
      es := Cons(RxByte(0), rest);
    }
  }

  // A ring that is too long: after the bytes that the register kept of its length, what is free is a multiple of the
  // register's range, of which the register keeps nothing.
  lemma DeafRun(limit: nat, rxBuf: seq<Byte>, txBuf: seq<Byte>) returns (es: List<Event>)
    requires 0 < limit <= |rxBuf|
    ensures Legal(Start(limit, rxBuf, txBuf), es) && !Receives(After(Start(limit, rxBuf, txBuf), es))
  {
    var s := Start(limit, rxBuf, txBuf);
    var c := |rxBuf| % limit;
    RxStartsWhole(limit, s.rx);
    One(s, Irq);
    var s1 := Apply(s, Irq);
    if c == 0 {
      es := Single(Irq);
    } else {
      var rest := SecondTransferIsEmpty(s1, |rxBuf|);
      es := Cons(Irq, rest);
    }
  }

  lemma SecondTransferIsEmpty(s: State, size: nat) returns (es: List<Event>)
    requires Inv(s) && !s.irq && size == |s.rx.ring.buf| >= s.limit && size % s.limit > 0
    requires s.rx.state == Receiving && s.rx.dma == Dma(0, size % s.limit, 0, true, false)
    requires s.rx.ring.empty && s.rx.ring.start == 0
    ensures Legal(s, es) && !Receives(After(s, es))
  {
    es := Arrive(s);
    var s1 := After(s, es);
    One(s1, RxEnd);
    RestIsDeaf(s1, size);
    Append(s, es, Cons(RxEnd, Single(Irq)));
    es := Concat(es, Cons(RxEnd, Single(Irq)));
  }

  lemma RestIsDeaf(s: State, size: nat)
    requires Inv(s) && size == |s.rx.ring.buf| >= s.limit && size % s.limit > 0
    requires s.rx.state == Receiving && s.rx.dma == Dma(0, size % s.limit, size % s.limit, true, false)
    requires s.rx.ring.empty && s.rx.ring.start == 0
    ensures Legal(s, Cons(RxEnd, Single(Irq))) && !Receives(After(s, Cons(RxEnd, Single(Irq))))
  {
    hide PopLen, TxServe, TxWoken;
    One(s, RxEnd);
    var s1 := Apply(s, RxEnd);
    One(s1, Irq);
    RestIsMultiple(size, s.limit);
    RxCompleteIs(s1.rx);
    RxStartsWhole(s.limit, s1.rx);
  }

  lemma RestIsMultiple(n: nat, limit: nat)
    requires 0 < limit <= n
    ensures n % limit < n && (n - n % limit) % limit == 0
  {
    RemainderIs(n - n % limit, limit, n / limit, 0);
  }

  /* ---------- transmission loses nothing exactly when the ring is shorter than the count register's range ---------- */

  predicate Lossless(s: State) {
    |s.tx.ring.buf| < s.limit && Conserved(s.tx) && Whole(s.tx)
  }

  lemma StepIsLossless(s: State, e: Event)
    requires Inv(s) && Can(s, e) && Lossless(s)
    ensures Lossless(Apply(s, e))
  {
    match e
    case PollWrite(task, bytes) =>
      if PushLen(s.tx.ring) > 0 {
        TxWriteOk(s.tx, bytes);
        TxWriteConserves(s.tx, bytes);
      }
    case Irq => TxServeOk(s.limit, s.tx);
    case TxByte => TxTransmitOk(s.tx);
    case _ =>
  }

  lemma {:induction false} LosslessAlways(s: State, es: List<Event>)
    requires Inv(s) && Legal(s, es) && Lossless(s)
    ensures Lossless(After(s, es))
    decreases es
  {
    if es.Cons? {
      StepKeepsInv(s, es.head);
      StepIsLossless(s, es.head);
      LosslessAlways(Apply(s, es.head), es.tail);
    }
  }

  ghost predicate NeverLoses(s: State)
  {
    Inv(s) && forall es | Legal(s, es) :: Conserved(After(s, es).tx)
  }

  lemma TransmitIsLosslessExactly(limit: nat, rxBuf: seq<Byte>, txBuf: seq<Byte>)
    requires limit > 0
    ensures NeverLoses(Start(limit, rxBuf, txBuf)) <==> |txBuf| < limit
  {
    var s := Start(limit, rxBuf, txBuf);
    if |txBuf| < limit {
      forall es | Legal(s, es) ensures Conserved(After(s, es).tx) { LosslessAlways(s, es); }
    } else {
      var es := LosingRun(limit, rxBuf, txBuf);
    }
  }

  lemma {:induction false} Append(s: State, es: List<Event>, fs: List<Event>)
    requires Inv(s) && Legal(s, es) && Legal(After(s, es), fs)
    ensures Legal(s, Concat(es, fs)) && After(s, Concat(es, fs)) == After(After(s, es), fs)
    decreases es
  {
    if es.Cons? {
      StepKeepsInv(s, es.head);
      Append(Apply(s, es.head), es.tail, fs);
    }
  }

  lemma One(s: State, e: Event)
    requires Inv(s) && Can(s, e)
    ensures Legal(s, Single(e)) && After(s, Single(e)) == Apply(s, e) && Inv(Apply(s, e))
  {
    StepKeepsInv(s, e);
  }

  // The wire takes what the channel was told to send.
  lemma {:induction false} Drain(s: State) returns (es: List<Event>)
    requires Inv(s) && s.tx.dma.running
    ensures Legal(s, es)
    ensures var s' := After(s, es);
      && s'.tx.dma == s.tx.dma.(done := s.tx.dma.max) && s'.tx.state == s.tx.state
      && s'.tx.ring == s.tx.ring && s'.tx.accepted == s.tx.accepted
      && |s'.tx.sent| == |s.tx.sent| + s.tx.dma.max - s.tx.dma.done
    decreases s.tx.dma.max - s.tx.dma.done
  {
    if s.tx.dma.done == s.tx.dma.max {
      es := Nil;
    } else {
      One(s, TxByte);
      var rest := Drain(Apply(s, TxByte));
      es := Cons(TxByte, rest);
    }
  }

  // Fill a ring that is too long, send what the register kept of its length, and all of it is popped.
  lemma LosingRun(limit: nat, rxBuf: seq<Byte>, txBuf: seq<Byte>) returns (es: List<Event>)
    requires 0 < limit <= |txBuf|
    ensures Legal(Start(limit, rxBuf, txBuf), es)
    ensures !Conserved(After(Start(limit, rxBuf, txBuf), es).tx)
  {
    var s := Start(limit, rxBuf, txBuf);
    One(s, PollWrite(0, txBuf));
    var s1 := Apply(s, PollWrite(0, txBuf));
    assert s1.tx.accepted == txBuf && PopLen(s1.tx.ring) == |txBuf| by { TxWriteIs(s.tx, txBuf); }
    One(s1, Irq);
    var s2 := Apply(s1, Irq);
    es := Drain(s2);
    var s3 := After(s2, es);
    One(s3, TxEnd);
    var s4 := Apply(s3, TxEnd);
    One(s4, Irq);
    PopRemovesExactly(s4.tx.ring, |txBuf|);
    Append(s2, es, Cons(TxEnd, Single(Irq)));
    es := Cons(PollWrite(0, txBuf), Cons(Irq, Concat(es, Cons(TxEnd, Single(Irq)))));
  }
}
