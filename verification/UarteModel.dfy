/** The buffered UARTE: two rings, each shared between DMA and the driver's user. */
module UarteModel {
  import opened Basics
  import opened RingBuffers
  import opened Wakers

  datatype RxState = RxIdle | Receiving
  datatype TxState = TxIdle | Transmitting(n: nat)

  // A DMA channel: where it points in the ring's buffer, how far it may go, how far it is; ended is its end event.
  datatype Dma = Dma(ptr: nat, max: nat, done: nat, running: bool, ended: bool)

  // lent: what is left of the slice last returned by poll_fill_buf. received and consumed: all bytes so far.
  datatype Rx = Rx(ring: Ring, state: RxState, dma: Dma, waker: Option<nat>, lent: nat,
                   received: seq<Byte>, consumed: seq<Byte>)
  datatype Tx = Tx(ring: Ring, state: TxState, dma: Dma, waker: Option<nat>, accepted: seq<Byte>, sent: seq<Byte>)

  // limit: one more than the largest count the MAXCNT register holds. rxWaiting, txWaiting: the tasks told
  // Pending by the last poll and not woken since.
  datatype State = State(limit: nat, rx: Rx, tx: Tx, irq: bool, rxWaiting: set<nat>, txWaiting: set<nat>)

  datatype Event =
    | PollFillBuf(task: nat)
    | Consume(n: nat)
    | PollWrite(task: nat, bytes: seq<Byte>)
    | Irq
    | RxByte(b: Byte)
    | RxEnd
    | TxByte
    | TxEnd

  function Off(): Dma { Dma(0, 0, 0, false, false) }

  // The constructor pends the interrupt.
  function Init(limit: nat, rxBuf: seq<Byte>, txBuf: seq<Byte>): State {
    State(limit, Rx(Ring(rxBuf, 0, 0, true), RxIdle, Off(), None, 0, [], []),
          Tx(Ring(txBuf, 0, 0, true), TxIdle, Off(), None, [], []), true, {}, {})
  }

  // MAXCNT keeps the low bits of a count.
  function Truncated(limit: nat, n: nat): (m: nat)
    requires limit > 0
    ensures m <= n && m < limit && (n < limit ==> m == n)
  {
    n % limit
  }

  /* ---------- receive side ---------- */

  function RxComplete(rx: Rx): Rx {
    rx.(ring := PushOf(rx.ring, rx.dma.done), dma := rx.dma.(ended := false), waker := None, state := RxIdle)
  }

  function RxStart(limit: nat, rx: Rx): Rx
    requires limit > 0 && Valid(rx.ring)
  {
    var n := PushLen(rx.ring);
    if n == 0 then rx
    else rx.(state := Receiving, dma := Dma(rx.ring.end, Truncated(limit, n), 0, true, false))
  }

  function RxServe(limit: nat, rx: Rx): Rx
    requires limit > 0 && RxOk(rx)
  {
    if rx.state == RxIdle then RxStart(limit, rx)
    else if rx.dma.ended then PushAppendsExactly(rx.ring, rx.dma.done); RxStart(limit, RxComplete(rx))
    else rx
  }

  function RxWoken(rx: Rx): set<nat> {
    if rx.state == Receiving && rx.dma.ended then Holder(rx.waker) else {}
  }

  function InDma(rx: Rx): seq<Byte> {
    if rx.state == Receiving && rx.dma.ptr + rx.dma.done <= |rx.ring.buf|
    then rx.ring.buf[rx.dma.ptr..rx.dma.ptr + rx.dma.done] else []
  }

  // Nothing received is lost or repeated; a waiting reader has nothing to read.
  predicate RxOk(rx: Rx) {
    && Valid(rx.ring) && rx.lent <= PopLen(rx.ring)
    && (rx.state == RxIdle ==> !rx.dma.running && !rx.dma.ended)
    && (rx.state == Receiving ==> (
      && rx.dma.running == !rx.dma.ended
      && rx.dma.ptr == rx.ring.end && rx.dma.done <= rx.dma.max <= PushLen(rx.ring)))
    && rx.received == rx.consumed + Contents(rx.ring) + InDma(rx)
    && (rx.waker.Some? ==> Contents(rx.ring) == [])
  }

  predicate RxWork(rx: Rx)
    requires Valid(rx.ring)
  {
    rx.dma.ended || (rx.state == RxIdle && |Contents(rx.ring)| < |rx.ring.buf|)
  }

  function RxConsume(rx: Rx, n: nat): Rx
    requires Valid(rx.ring) && n <= rx.lent
  {
    rx.(ring := PopOf(rx.ring, n), lent := rx.lent - n,
        consumed := rx.consumed + if n <= |Contents(rx.ring)| then Contents(rx.ring)[..n] else [])
  }

  function RxReceive(rx: Rx, b: Byte): Rx
    requires rx.ring.end + rx.dma.done < |rx.ring.buf|
  {
    rx.(ring := WriteOf(rx.ring, rx.dma.done, b), dma := rx.dma.(done := rx.dma.done + 1), received := rx.received + [b])
  }

  lemma RxCompleteIs(rx: Rx)
    requires RxOk(rx) && rx.dma.ended
    ensures var r' := RxComplete(rx).ring;
      Valid(r') && Contents(r') == Contents(rx.ring) + InDma(rx) && PopLen(r') >= PopLen(rx.ring)
  {
    PushAppendsExactly(rx.ring, rx.dma.done);
    PushKeepsFilledSlice(rx.ring, rx.dma.done);
  }

  lemma Regroup(a: seq<Byte>, b: seq<Byte>, c: seq<Byte>)
    ensures a + b + c == a + (b + c) + []
  {
  }

  lemma RxCompleteOk(rx: Rx)
    requires RxOk(rx) && rx.dma.ended
    ensures RxOk(RxComplete(rx))
  {
    RxCompleteIs(rx);
    Regroup(rx.consumed, Contents(rx.ring), InDma(rx));
  }

  lemma RxStartOk(limit: nat, rx: Rx)
    requires limit > 0 && RxOk(rx) && rx.state == RxIdle
    ensures RxOk(RxStart(limit, rx)) && !RxWork(RxStart(limit, rx))
  {
  }

  // What the receive half programs when it has work: the whole free slice, as far as the register holds its length.
  lemma RxStartsWhole(limit: nat, rx: Rx)
    requires limit > 0 && RxOk(rx) && RxWork(rx)
    ensures var rx' := RxServe(limit, rx); var n := PushLen(rx'.ring);
      if n == 0 then rx'.state == RxIdle && !rx'.dma.running
      else rx'.state == Receiving && rx'.dma == Dma(rx'.ring.end, n % limit, 0, true, false)
  {
    if rx.dma.ended {
      RxCompleteOk(rx);
    }
  }

  lemma RxServeOk(limit: nat, rx: Rx)
    requires limit > 0 && RxOk(rx)
    ensures RxOk(RxServe(limit, rx)) && !RxWork(RxServe(limit, rx))
    ensures Holder(rx.waker) == Holder(RxServe(limit, rx).waker) + RxWoken(rx)
  {
    if rx.state == RxIdle {
      RxStartOk(limit, rx);
    } else if rx.dma.ended {
      RxCompleteOk(rx);
      RxStartOk(limit, RxComplete(rx));
    }
  }

  lemma RxConsumeIs(rx: Rx, n: nat)
    requires RxOk(rx) && n <= rx.lent
    ensures var r' := RxConsume(rx, n).ring;
      && Valid(r') && Contents(r') == Contents(rx.ring)[n..] && r'.end == rx.ring.end && r'.buf == rx.ring.buf
      && PushLen(r') >= PushLen(rx.ring) && rx.lent - n <= PopLen(r')
  {
    PopRemovesExactly(rx.ring, n);
    PopKeepsFreeSlice(rx.ring, n);
  }

  lemma RxConsumeOk(rx: Rx, n: nat)
    requires RxOk(rx) && n <= rx.lent
    ensures RxOk(RxConsume(rx, n))
  {
    hide Contents, PushLen, PopLen, PopOf;
    RxConsumeIs(rx, n);
    MoveAcross(rx.consumed, Contents(rx.ring), n);
  }

  lemma RxReceiveOk(rx: Rx, b: Byte)
    requires RxOk(rx) && rx.dma.running && rx.dma.done < rx.dma.max
    ensures RxOk(RxReceive(rx, b))
  {
    var rx' := RxReceive(rx, b);
    WriteKeepsContents(rx.ring, rx.dma.done, b);
    assert InDma(rx') == InDma(rx) + [b];
  }

  /* ---------- transmit side ---------- */

  function TxComplete(tx: Tx): Tx
    requires tx.state.Transmitting?
  {
    tx.(ring := PopOf(tx.ring, tx.state.n), dma := tx.dma.(ended := false), waker := None, state := TxIdle)
  }

  function TxStart(limit: nat, tx: Tx): Tx
    requires limit > 0 && Valid(tx.ring)
  {
    var n := PopLen(tx.ring);
    if n == 0 then tx
    else tx.(state := Transmitting(n), dma := Dma(tx.ring.start, Truncated(limit, n), 0, true, false))
  }

  function TxServe(limit: nat, tx: Tx): Tx
    requires limit > 0 && TxSafe(tx)
  {
    if tx.state == TxIdle then TxStart(limit, tx)
    else if tx.dma.ended then PopRemovesExactly(tx.ring, tx.state.n); TxStart(limit, TxComplete(tx))
    else tx
  }

  function TxWoken(tx: Tx): set<nat> {
    if tx.state.Transmitting? && tx.dma.ended then Holder(tx.waker) else {}
  }

  // What of the ring is already on the wire.
  function InFlight(tx: Tx): nat {
    if tx.state.Transmitting? then tx.dma.done else 0
  }

  // True for every buffer size; a waiting writer has no room.
  predicate TxSafe(tx: Tx) {
    && Valid(tx.ring)
    && (tx.state == TxIdle ==> !tx.dma.running && !tx.dma.ended)
    && (tx.state.Transmitting? ==> (
      && tx.dma.running == !tx.dma.ended
      && tx.dma.ptr == tx.ring.start && tx.dma.done <= tx.dma.max <= tx.state.n <= PopLen(tx.ring)
      && (tx.dma.ended ==> tx.dma.done == tx.dma.max)))
    && (tx.waker.Some? ==> |Contents(tx.ring)| == |tx.ring.buf|)
  }

  // What was sent and what the ring still holds is exactly what was accepted.
  predicate Conserved(tx: Tx) {
    && Valid(tx.ring) && InFlight(tx) <= |Contents(tx.ring)|
    && tx.accepted == tx.sent + Contents(tx.ring)[InFlight(tx)..]
  }

  // The whole slice is programmed into the DMA channel.
  predicate Whole(tx: Tx) {
    tx.state.Transmitting? ==> tx.dma.max == tx.state.n
  }

  predicate TxWork(tx: Tx)
    requires Valid(tx.ring)
  {
    tx.dma.ended || (tx.state == TxIdle && Contents(tx.ring) != [])
  }

  function TxWrite(tx: Tx, bytes: seq<Byte>): Tx
    requires Valid(tx.ring)
  {
    var n := Room(tx.ring, bytes);
    tx.(ring := PushOf(WriteAll(tx.ring, bytes[..n]), n), accepted := tx.accepted + bytes[..n])
  }

  function TxTransmit(tx: Tx): Tx
    requires tx.dma.ptr + tx.dma.done < |tx.ring.buf|
  {
    tx.(dma := tx.dma.(done := tx.dma.done + 1), sent := tx.sent + [tx.ring.buf[tx.dma.ptr + tx.dma.done]])
  }

  lemma TxCompleteOk(tx: Tx)
    requires TxSafe(tx) && tx.dma.ended
    ensures TxSafe(TxComplete(tx))
    ensures Conserved(tx) && Whole(tx) ==> Conserved(TxComplete(tx))
  {
    PopRemovesExactly(tx.ring, tx.state.n);
    assert Contents(TxComplete(tx).ring)[0..] == Contents(TxComplete(tx).ring);
  }

  lemma TxStartOk(limit: nat, tx: Tx)
    requires limit > 0 && TxSafe(tx) && tx.state == TxIdle
    ensures TxSafe(TxStart(limit, tx)) && !TxWork(TxStart(limit, tx))
    ensures Conserved(tx) ==> Conserved(TxStart(limit, tx))
    ensures limit > |tx.ring.buf| ==> Whole(TxStart(limit, tx))
  {
  }

  // The same for the transmit half and the filled slice.
  lemma TxStartsWhole(limit: nat, tx: Tx)
    requires limit > 0 && TxSafe(tx) && TxWork(tx)
    ensures var tx' := TxServe(limit, tx); var n := PopLen(tx'.ring);
      if n == 0 then tx'.state == TxIdle && !tx'.dma.running
      else tx'.state == Transmitting(n) && tx'.dma == Dma(tx'.ring.start, n % limit, 0, true, false)
  {
    if tx.dma.ended {
      TxCompleteOk(tx);
    }
  }

  lemma TxServeOk(limit: nat, tx: Tx)
    requires limit > 0 && TxSafe(tx)
    ensures TxSafe(TxServe(limit, tx)) && !TxWork(TxServe(limit, tx))
    ensures |TxServe(limit, tx).ring.buf| == |tx.ring.buf|
    ensures Holder(tx.waker) == Holder(TxServe(limit, tx).waker) + TxWoken(tx)
    ensures limit > |tx.ring.buf| && Conserved(tx) && Whole(tx) ==>
              Conserved(TxServe(limit, tx)) && Whole(TxServe(limit, tx))
  {
    if tx.state == TxIdle {
      TxStartOk(limit, tx);
    } else if tx.dma.ended {
      TxCompleteOk(tx);
      TxStartOk(limit, TxComplete(tx));
    }
  }

  lemma TxWriteIs(tx: Tx, bytes: seq<Byte>)
    requires Valid(tx.ring)
    ensures var n, r' := Room(tx.ring, bytes), TxWrite(tx, bytes).ring;
      && Valid(r') && Contents(r') == Contents(tx.ring) + bytes[..n] && |r'.buf| == |tx.ring.buf|
      && r'.start == tx.ring.start && PopLen(r') >= PopLen(tx.ring)
  {
    var n := Room(tx.ring, bytes);
    var r1 := WriteAll(tx.ring, bytes[..n]);
    WriteAllKeepsContents(tx.ring, bytes[..n]);
    PushAppendsExactly(r1, n);
    PushKeepsFilledSlice(r1, n);
  }

  lemma TxWriteOk(tx: Tx, bytes: seq<Byte>)
    requires TxSafe(tx) && PushLen(tx.ring) > 0
    ensures TxSafe(TxWrite(tx, bytes)) && |TxWrite(tx, bytes).ring.buf| == |tx.ring.buf|
  {
    TxWriteIs(tx, bytes);
  }

  lemma TxWriteConserves(tx: Tx, bytes: seq<Byte>)
    requires Conserved(tx)
    ensures Conserved(TxWrite(tx, bytes))
  {
    TxWriteIs(tx, bytes);
    AppendToRest(tx.sent, Contents(tx.ring), InFlight(tx), bytes[..Room(tx.ring, bytes)]);
  }

  lemma AppendToRest(a: seq<Byte>, c: seq<Byte>, i: nat, m: seq<Byte>)
    requires i <= |c|
    ensures a + c[i..] + m == a + (c + m)[i..]
  {
    assert (c + m)[i..] == c[i..] + m;
  }

  lemma TxTransmitOk(tx: Tx)
    requires TxSafe(tx) && tx.dma.running && tx.dma.done < tx.dma.max
    ensures TxSafe(TxTransmit(tx))
    ensures Conserved(tx) ==> Conserved(TxTransmit(tx))
  {
    var c, i := Contents(tx.ring), tx.dma.done;
    assert tx.ring.buf[tx.dma.ptr + i] == tx.ring.buf[tx.ring.start..tx.ring.start + PopLen(tx.ring)][i] == c[i];
    assert c[i..] == [c[i]] + c[i + 1..];
  }
}
