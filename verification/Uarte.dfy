/** The UARTE driver's methods over its two rings in memory. */
module Uarte {
  import opened Basics
  import opened RingBuffers
  import opened Wakers
  import UarteModel
  import UarteRuns

  class BufferedUarte {
    const limit: nat
    const rx: RingBuffer
    const tx: RingBuffer
    const rxWaker: WakerRegistration
    const txWaker: WakerRegistration
    var rxState: UarteModel.RxState
    var txState: UarteModel.TxState
    var irq: bool
    // Registers of the two DMA channels.
    var rxDma: UarteModel.Dma
    var txDma: UarteModel.Dma
    // History.
    ghost var lent: nat
    ghost var received: seq<Byte>
    ghost var consumed: seq<Byte>
    ghost var accepted: seq<Byte>
    ghost var sent: seq<Byte>
    ghost var rxWaiting: set<nat>
    ghost var txWaiting: set<nat>

    ghost function Repr(): set<object> {
      {this, rx, tx, rx.buf, tx.buf, rxWaker, txWaker}
    }

    ghost predicate Separate() {
      rx != tx && rx.buf != tx.buf && rxWaker != txWaker
    }

    ghost function RxView(): UarteModel.Rx
      reads this`rxState, this`rxDma, this`lent, this`received, this`consumed, rx, rx.buf, rxWaker
    {
      UarteModel.Rx(rx.View(), rxState, rxDma, rxWaker.waker, lent, received, consumed)
    }

    ghost function TxView(): UarteModel.Tx
      reads this`txState, this`txDma, this`accepted, this`sent, tx, tx.buf, txWaker
    {
      UarteModel.Tx(tx.View(), txState, txDma, txWaker.waker, accepted, sent)
    }

    ghost function View(): UarteModel.State
      reads Repr()
    {
      UarteModel.State(limit, RxView(), TxView(), irq, rxWaiting, txWaiting)
    }

    ghost predicate Valid()
      reads Repr()
    {
      Separate() && UarteRuns.Inv(View())
    }

    constructor (limit: nat, rxBuffer: array<Byte>, txBuffer: array<Byte>)
      requires limit > 0 && rxBuffer != txBuffer
      ensures Valid() && rx.buf == rxBuffer && tx.buf == txBuffer
      ensures View() == UarteRuns.Start(limit, rxBuffer[..], txBuffer[..])
    {
      this.limit := limit;
      rx := new RingBuffer(rxBuffer);
      tx := new RingBuffer(txBuffer);
      rxWaker := new WakerRegistration();
      txWaker := new WakerRegistration();
      rxState, txState := UarteModel.RxIdle, UarteModel.TxIdle;
      rxDma, txDma := UarteModel.Off(), UarteModel.Off();
      lent, received, consumed, accepted, sent := 0, [], [], [], [];
      rxWaiting, txWaiting := {}, {};
      // The interrupt is pended before the driver is handed out.
      irq := true;
    }

    // A slice of the ring's buffer, valid until it is consumed.
    method PollFillBuf(task: nat) returns (r: Poll<(nat, nat)>)
      requires Valid()
      modifies this, rxWaker
      ensures View() == UarteRuns.PollFillBufOf(old(View()), task) && Valid()
      ensures r.Pending? <==> Contents(rx.View()) == []
      ensures r.Ready? ==> r.value.1 == PopLen(rx.View()) && r.value.0 == rx.start
    {
      UarteRuns.PollFillBufKeepsInv(View(), task);
      r := Fill(task);
    }

    method Fill(task: nat) returns (r: Poll<(nat, nat)>)
      requires Separate() && RingBuffers.Valid(rx.View())
      modifies this, rxWaker
      ensures View() == UarteRuns.PollFillBufOf(old(View()), task)
      ensures r == if PopLen(rx.View()) == 0 then Pending else Ready((rx.start, PopLen(rx.View())))
    {
      var at, len := rx.PopBuf();
      if len != 0 {
        lent, rxWaiting := len, rxWaiting - {task};
        return Ready((at, len));
      }
      AwaitRx(task);
      return Pending;
    }

    method AwaitRx(task: nat)
      modifies this`rxWaiting, this`txWaiting, rxWaker
      ensures rxWaker.waker == Some(task)
      ensures rxWaiting == old(rxWaiting) - Displaced(old(rxWaker.waker), task) + {task}
      ensures txWaiting == old(txWaiting) - Displaced(old(rxWaker.waker), task)
    {
      var woken := rxWaker.Register(task);
      rxWaiting, txWaiting := rxWaiting - woken + {task}, txWaiting - woken;
    }

    method Consume(amt: nat)
      requires Valid() && amt <= lent
      modifies this, rx
      ensures View() == UarteRuns.ConsumeOf(old(View()), amt) && Valid()
      ensures Contents(rx.View()) == old(Contents(rx.View()))[amt..] && irq
    {
      UarteModel.RxConsumeIs(RxView(), amt);
      UarteRuns.ConsumeKeepsInv(View(), amt);
      Release(amt);
    }

    method Release(amt: nat)
      requires Separate() && RingBuffers.Valid(rx.View()) && amt <= lent <= PopLen(rx.View())
      modifies this, rx
      ensures View() == UarteRuns.ConsumeOf(old(View()), amt)
    {
      consumed := consumed + Contents(rx.View())[..amt];
      rx.Pop(amt);
      lent := lent - amt;
      irq := true;
    }

    method PollWrite(task: nat, buf: seq<Byte>) returns (r: Poll<nat>)
      requires Valid()
      modifies this, tx, tx.buf, txWaker
      ensures View() == UarteRuns.PollWriteOf(old(View()), task, buf) && Valid()
      ensures r.Pending? <==> |Contents(old(tx.View()))| == tx.buf.Length
      ensures r.Ready? ==> r.value == Min(PushLen(old(tx.View())), |buf|) && accepted == old(accepted) + buf[..r.value]
      ensures r.Ready? ==> Contents(tx.View()) == old(Contents(tx.View())) + buf[..r.value] && irq
    {
      UarteModel.TxWriteIs(TxView(), buf);
      UarteRuns.PollWriteKeepsInv(View(), task, buf);
      r := Write(task, buf);
    }

    method Write(task: nat, buf: seq<Byte>) returns (r: Poll<nat>)
      requires Separate() && RingBuffers.Valid(tx.View())
      modifies this, tx, tx.buf, txWaker
      ensures View() == UarteRuns.PollWriteOf(old(View()), task, buf)
      ensures r == if PushLen(old(tx.View())) == 0 then Pending else Ready(Room(old(tx.View()), buf))
      ensures r.Ready? ==> accepted == old(accepted) + buf[..r.value]
    {
      var at, len := tx.PushBuf();
      if len == 0 {
        AwaitTx(task);
        return Pending;
      }
      var n := if len < |buf| then len else |buf|;
      Queue(at, buf, n);
      txWaiting := txWaiting - {task};
      irq := true;
      return Ready(n);
    }

    method AwaitTx(task: nat)
      modifies this`rxWaiting, this`txWaiting, txWaker
      ensures txWaker.waker == Some(task)
      ensures rxWaiting == old(rxWaiting) - Displaced(old(txWaker.waker), task)
      ensures txWaiting == old(txWaiting) - Displaced(old(txWaker.waker), task) + {task}
    {
      var woken := txWaker.Register(task);
      rxWaiting, txWaiting := rxWaiting - woken, txWaiting - woken + {task};
    }

    method Queue(at: nat, buf: seq<Byte>, n: nat)
      requires Separate() && RingBuffers.Valid(tx.View()) && n == Room(tx.View(), buf) && at == tx.end
      modifies this`accepted, tx, tx.buf
      ensures TxView() == UarteModel.TxWrite(old(TxView()), buf)
    {
      WriteAllKeepsContents(tx.View(), buf[..n]);
      tx.CopyIn(at, buf[..n]);
      tx.Push(n);
      accepted := accepted + buf[..n];
    }

    // The receive half of the handler.
    method ServeRx() returns (woken: set<nat>)
      requires Separate() && UarteModel.RxOk(RxView()) && limit > 0
      modifies this`rxState, this`rxDma, rx, rxWaker
      ensures RxView() == UarteModel.RxServe(limit, old(RxView())) && woken == UarteModel.RxWoken(old(RxView()))
    {
      ghost var before := RxView();
      woken := {};
      while true
        invariant (RxView() == before && woken == {})
          || (before.dma.ended && UarteModel.RxOk(before) && RxView() == UarteModel.RxComplete(before) && woken == Holder(before.waker))
        invariant RingBuffers.Valid(rx.View())
        decreases if rxState == UarteModel.Receiving then 1 else 0
      {
        match rxState
        case RxIdle =>
          var at, len := rx.PushBuf();
          if len != 0 {
            rxState := UarteModel.Receiving;
            rxDma := UarteModel.Dma(at, UarteModel.Truncated(limit, len), 0, true, false);
          }
          break;
        case Receiving =>
          if rxDma.ended {
            PushAppendsExactly(rx.View(), rxDma.done);
            rx.Push(rxDma.done);
            rxDma := rxDma.(ended := false);
            woken := rxWaker.Wake();
            rxState := UarteModel.RxIdle;
          } else {
            break;
          }
      }
    }

    // The transmit half.
    method ServeTx() returns (woken: set<nat>)
      requires Separate() && UarteModel.TxSafe(TxView()) && limit > 0
      modifies this`txState, this`txDma, tx, txWaker
      ensures TxView() == UarteModel.TxServe(limit, old(TxView())) && woken == UarteModel.TxWoken(old(TxView()))
    {
      ghost var before := TxView();
      woken := {};
      while true
        invariant (TxView() == before && woken == {})
          || (before.dma.ended && UarteModel.TxSafe(before) && TxView() == UarteModel.TxComplete(before) && woken == Holder(before.waker))
        invariant RingBuffers.Valid(tx.View())
        decreases if txState.Transmitting? then 1 else 0
      {
        match txState
        case TxIdle =>
          var at, len := tx.PopBuf();
          if len != 0 {
            txState := UarteModel.Transmitting(len);
            txDma := UarteModel.Dma(at, UarteModel.Truncated(limit, len), 0, true, false);
          }
          break;
        case Transmitting(n) =>
          if txDma.ended {
            txDma := txDma.(ended := false);
            PopRemovesExactly(tx.View(), n);
            tx.Pop(n);
            woken := txWaker.Wake();
            txState := UarteModel.TxIdle;
          } else {
            break;
          }
      }
    }

    method OnInterrupt()
      requires Valid()
      modifies this, rx, tx, rxWaker, txWaker
      ensures View() == UarteRuns.InterruptOf(old(View())) && Valid() && !irq
      ensures old(UarteModel.RxWork(RxView())) ==>
                var n := PushLen(rx.View());
                if n == 0 then rxState == UarteModel.RxIdle
                else rxState == UarteModel.Receiving && rxDma == UarteModel.Dma(rx.end, n % limit, 0, true, false)
      ensures old(UarteModel.TxWork(TxView())) ==>
                var n := PopLen(tx.View());
                if n == 0 then txState == UarteModel.TxIdle
                else txState == UarteModel.Transmitting(n) && txDma == UarteModel.Dma(tx.start, n % limit, 0, true, false)
    {
      UarteRuns.InterruptKeepsInv(View());
      UarteRuns.InterruptStartsWhole(View());
      Serve();
    }

    method Serve()
      requires Separate() && limit > 0 && UarteModel.RxOk(RxView()) && UarteModel.TxSafe(TxView())
      modifies this, rx, tx, rxWaker, txWaker
      ensures View() == UarteRuns.InterruptOf(old(View()))
    {
      irq := false;
      var woken := ServeBoth();
      rxWaiting, txWaiting := rxWaiting - woken, txWaiting - woken;
    }

    method ServeBoth() returns (woken: set<nat>)
      requires Separate() && limit > 0 && UarteModel.RxOk(RxView()) && UarteModel.TxSafe(TxView())
      modifies this`rxState, this`rxDma, rx, rxWaker, this`txState, this`txDma, tx, txWaker
      ensures RxView() == UarteModel.RxServe(limit, old(RxView())) && TxView() == UarteModel.TxServe(limit, old(TxView()))
      ensures woken == UarteModel.RxWoken(old(RxView())) + UarteModel.TxWoken(old(TxView()))
    {
      var rxWoken := ServeRx();
      var txWoken := ServeTx();
      woken := rxWoken + txWoken;
    }
  }
}
