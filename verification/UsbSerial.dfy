/** The USB serial port's write side: packets, and the short packet that ends a transfer. */
module UsbSerial {
  import opened Basics
  import opened RingBuffers
  import opened Wakers

  // The endpoint's maximum packet size, and how many full packets may follow each other.
  const EP_SIZE: nat := 64
  const SHORT_PACKET_INTERVAL: nat := 10

  datatype WriteState = Idle | Short | Full(count: nat)

  // What the endpoint answers to a packet; it takes all of it or nothing.
  datatype Outcome = Accepted | WouldBlock | Failed

  // accepted: bytes taken by poll_write since reset; packets: packets taken by the endpoint since reset.
  datatype State = State(ring: Ring, writeState: WriteState, writeError: bool, waker: Option<nat>,
                         accepted: seq<Byte>, packets: seq<seq<Byte>>, inFlight: nat)

  datatype Event =
    | PollWrite(task: nat, bytes: seq<Byte>, outcome: Outcome)
    | InComplete(outcome: Outcome)
    | Reset

  function FullPackets(s: State): nat {
    match s.writeState
    case Full(c) => c
    case _ => 0
  }

  // The length of the packet flush_write offers when the ring is not empty.
  function NextLen(s: State): (n: nat)
    requires Valid(s.ring)
    ensures n <= EP_SIZE && n <= PopLen(s.ring) && (n == 0 <==> Contents(s.ring) == [])
  {
    var max := if FullPackets(s) > SHORT_PACKET_INTERVAL then EP_SIZE - 1 else EP_SIZE;
    if PopLen(s.ring) > max then max else PopLen(s.ring)
  }

  // The packet of the next n bytes. The write state changes even when the endpoint refuses it.
  function SendOf(s: State, n: nat, outcome: Outcome): State
    requires s.ring.start + n <= |s.ring.buf|
  {
    var state := if n == EP_SIZE then Full(FullPackets(s) + 1) else Short;
    match outcome
    case Failed => s.(writeError := true)
    case WouldBlock => s.(writeState := state)
    case Accepted =>
      s.(writeState := state, ring := PopOf(s.ring, n), inFlight := s.inFlight + 1,
         packets := s.packets + [s.ring.buf[s.ring.start..s.ring.start + n]])
  }

  function SendNothingOf(s: State, outcome: Outcome): State {
    match outcome
    case Failed => s.(writeError := true)
    case WouldBlock => s
    case Accepted => s.(writeState := Idle, inFlight := s.inFlight + 1, packets := s.packets + [[]])
  }

  function FlushOf(s: State, outcome: Outcome): State
    requires Valid(s.ring)
  {
    if NextLen(s) > 0 then SendOf(s, NextLen(s), outcome)
    else if FullPackets(s) > 0 then SendNothingOf(s, outcome)
    else s
  }

  function Enqueue(s: State, bytes: seq<Byte>): (s': State)
    requires Valid(s.ring)
    ensures Valid(s'.ring) && |s'.ring.buf| == |s.ring.buf|
    ensures Contents(s'.ring) == Contents(s.ring) + bytes[..Room(s.ring, bytes)]
  {
    var n := Room(s.ring, bytes);
    var r1 := WriteAll(s.ring, bytes[..n]);
    WriteAllKeepsContents(s.ring, bytes[..n]);
    PushAppendsExactly(r1, n);
    s.(ring := PushOf(r1, n), accepted := s.accepted + bytes[..n])
  }

  function PollWriteOf(s: State, task: nat, bytes: seq<Byte>, outcome: Outcome): State
    requires Valid(s.ring)
  {
    if s.writeError then s.(writeError := false)
    else if PushLen(s.ring) == 0 then s.(waker := Some(task))
    else FlushOf(Enqueue(s, bytes), outcome)
  }

  function InCompleteOf(s: State, outcome: Outcome): State
    requires Valid(s.ring) && s.inFlight > 0
  {
    FlushOf(s.(waker := None, inFlight := s.inFlight - 1), outcome)
  }

  // The bus reset also drops what the endpoint holds.
  function ResetOf(s: State): State {
    s.(ring := ClearOf(s.ring), writeState := Idle, accepted := [], packets := [], inFlight := 0)
  }

  predicate Can(s: State, e: Event) {
    e.InComplete? ==> s.inFlight > 0
  }

  function Apply(s: State, e: Event): State
    requires Valid(s.ring) && Can(s, e)
  {
    match e
    case PollWrite(task, bytes, outcome) => PollWriteOf(s, task, bytes, outcome)
    case InComplete(outcome) => InCompleteOf(s, outcome)
    case Reset => ResetOf(s)
  }

  function Init(buf: seq<Byte>): State {
    State(Ring(buf, 0, 0, true), Idle, false, None, [], [], 0)
  }

  /* ---------- the invariant ---------- */

  function Flatten(packets: seq<seq<Byte>>): seq<Byte> {
    if packets == [] then [] else Flatten(packets[..|packets| - 1]) + packets[|packets| - 1]
  }

  // The host waits for the end of a transfer while the last packet it got was full.
  predicate Owed(packets: seq<seq<Byte>>) {
    packets != [] && |packets[|packets| - 1]| == EP_SIZE
  }

  predicate Inv(s: State) {
    && Valid(s.ring)
    && s.accepted == Flatten(s.packets) + Contents(s.ring)
    && (s.writeState.Full? ==> s.writeState.count >= 1)
    && (Contents(s.ring) == [] ==> (s.writeState.Full? <==> Owed(s.packets)))
    && (forall i | 0 <= i < |s.packets| :: |s.packets[i]| <= EP_SIZE)
  }

  // flush_write offers a zero-length packet exactly when the ring is empty and one is owed.
  predicate OffersZeroLength(s: State)
    requires Valid(s.ring)
  {
    NextLen(s) == 0 && FullPackets(s) > 0
  }

  lemma ZeroLengthExactlyWhenOwed(s: State)
    requires Inv(s)
    ensures OffersZeroLength(s) <==> Contents(s.ring) == [] && Owed(s.packets)
  {
  }

  lemma FlattenAdd(packets: seq<seq<Byte>>, p: seq<Byte>)
    ensures Flatten(packets + [p]) == Flatten(packets) + p
  {
    assert (packets + [p])[..|packets|] == packets;
  }

  lemma EnqueueKeepsInv(s: State, bytes: seq<Byte>)
    requires Inv(s)
    ensures Inv(Enqueue(s, bytes))
  {
    var m := bytes[..Room(s.ring, bytes)];
    assert Flatten(s.packets) + Contents(s.ring) + m == Flatten(s.packets) + (Contents(s.ring) + m);
  }

  lemma SendIs(s: State)
    requires Valid(s.ring)
    ensures var n := NextLen(s); var r' := PopOf(s.ring, n);
      && Valid(r') && Contents(r') == Contents(s.ring)[n..]
      && s.ring.buf[s.ring.start..s.ring.start + n] == Contents(s.ring)[..n]
  {
    var n := NextLen(s);
    assert s.ring.buf[s.ring.start..s.ring.start + n] == s.ring.buf[s.ring.start..s.ring.start + PopLen(s.ring)][..n];
    PopRemovesExactly(s.ring, n);
  }

  lemma SendKeepsBytes(s: State)
    requires Inv(s)
    ensures var s' := SendOf(s, NextLen(s), Accepted);
      && Valid(s'.ring) && s'.accepted == Flatten(s'.packets) + Contents(s'.ring)
      && s'.packets == s.packets + [Contents(s.ring)[..NextLen(s)]]
      && Contents(s'.ring) == Contents(s.ring)[NextLen(s)..]
  {
    var n, c := NextLen(s), Contents(s.ring);
    SendIs(s);
    FlattenAdd(s.packets, c[..n]);
    MoveAcross(Flatten(s.packets), c, n);
  }

  lemma SendKeepsInv(s: State)
    requires Inv(s) && NextLen(s) > 0
    ensures Inv(SendOf(s, NextLen(s), Accepted))
  {
    hide Contents, PopLen, PopOf, Flatten;
    SendKeepsBytes(s);
    var p := Contents(s.ring)[..NextLen(s)];
    assert (s.packets + [p])[|s.packets|] == p;
  }

  lemma RefusedKeepsInv(s: State, outcome: Outcome)
    requires Inv(s) && NextLen(s) > 0 && outcome != Accepted
    ensures Inv(SendOf(s, NextLen(s), outcome))
  {
    hide Contents, PopLen, Flatten;
  }

  lemma NothingKeepsInv(s: State, outcome: Outcome)
    requires Inv(s) && NextLen(s) == 0
    ensures Inv(SendNothingOf(s, outcome))
  {
    hide Contents, PopLen;
    FlattenAdd(s.packets, []);
  }

  lemma FlushKeepsInv(s: State, outcome: Outcome)
    requires Inv(s)
    ensures Inv(FlushOf(s, outcome))
  {
    hide Contents, PopLen, Flatten, SendOf, SendNothingOf;
    if NextLen(s) > 0 && outcome == Accepted { SendKeepsInv(s); }
    else if NextLen(s) > 0 { RefusedKeepsInv(s, outcome); }
    else { NothingKeepsInv(s, outcome); }
  }

  lemma PollWriteKeepsInv(s: State, task: nat, bytes: seq<Byte>, outcome: Outcome)
    requires Inv(s)
    ensures Inv(PollWriteOf(s, task, bytes, outcome))
  {
    if !s.writeError && PushLen(s.ring) > 0 {
      EnqueueKeepsInv(s, bytes);
      FlushKeepsInv(Enqueue(s, bytes), outcome);
    }
  }

  lemma StepKeepsInv(s: State, e: Event)
    requires Inv(s) && Can(s, e)
    ensures Inv(Apply(s, e))
  {
    match e
    case PollWrite(task, bytes, outcome) => PollWriteKeepsInv(s, task, bytes, outcome);
    case InComplete(outcome) => InCompleteKeepsInv(s, outcome);
    case Reset => ResetKeepsInv(s);
  }

  lemma InCompleteKeepsInv(s: State, outcome: Outcome)
    requires Inv(s) && s.inFlight > 0
    ensures Inv(InCompleteOf(s, outcome))
  {
    FlushKeepsInv(s.(waker := None, inFlight := s.inFlight - 1), outcome);
  }

  lemma ResetKeepsInv(s: State)
    requires Inv(s)
    ensures Inv(ResetOf(s))
  {
    assert Flatten([]) == [] && Contents(ResetOf(s).ring) == [];
  }

  predicate Legal(s: State, es: List<Event>)
    requires Inv(s)
    decreases es
  {
    es.Nil? || (Can(s, es.head) && (StepKeepsInv(s, es.head); Legal(Apply(s, es.head), es.tail)))
  }

  function After(s: State, es: List<Event>): (s': State)
    requires Inv(s) && Legal(s, es)
    ensures Inv(s')
    decreases es
  {
    if es.Nil? then s else StepKeepsInv(s, es.head); After(Apply(s, es.head), es.tail)
  }

  function Start(buf: seq<Byte>): (s: State)
    ensures Inv(s)
  {
    Init(buf)
  }

  // Over every run and whatever the endpoint answers: the packets sent since reset and the ring are exactly the
  // bytes accepted, no packet is too long, and a flush offers a zero-length packet exactly when one is owed.
  lemma TransfersAreTerminated(buf: seq<Byte>, es: List<Event>)
    requires Legal(Start(buf), es)
    ensures var s := After(Start(buf), es);
      && s.accepted == Flatten(s.packets) + Contents(s.ring)
      && (forall i | 0 <= i < |s.packets| :: |s.packets[i]| <= 64)
      && (Contents(s.ring) == [] ==> (s.writeState.Full? <==> Owed(s.packets)))
      && (OffersZeroLength(s) <==> Contents(s.ring) == [] && Owed(s.packets))
  {
    ZeroLengthExactlyWhenOwed(After(Start(buf), es));
  }

  lemma FullPacketSent(full: seq<Byte>, buf: seq<Byte>)
    requires |full| == EP_SIZE && |buf| == EP_SIZE + EP_SIZE
    ensures var s := PollWriteOf(Start(buf), 0, full, Accepted);
      && Inv(s) && s.writeState == Full(1) && !s.writeError && s.packets == [full] && Contents(s.ring) == []
      && s.ring.start == s.ring.end == EP_SIZE && |s.ring.buf| == |buf|
  {
    var e := Enqueue(Start(buf), full);
    assert Contents(e.ring) == full && NextLen(e) == EP_SIZE;
    SendIs(e);
    PollWriteKeepsInv(Start(buf), 0, full, Accepted);
  }

  // While the ring is not empty the write state can be wrong: a refused short packet hides that one is owed.
  lemma WouldBlockHidesOwed(full: seq<Byte>, rest: seq<Byte>, buf: seq<Byte>)
    requires |full| == EP_SIZE && 0 < |rest| < EP_SIZE && |buf| == EP_SIZE + EP_SIZE
    ensures Inv(PollWriteOf(Start(buf), 0, full, Accepted))
    ensures var s := PollWriteOf(PollWriteOf(Start(buf), 0, full, Accepted), 0, rest, WouldBlock);
      Inv(s) && s.writeState == Short && Owed(s.packets) && Contents(s.ring) == rest
  {
    FullPacketSent(full, buf);
    var s1 := PollWriteOf(Start(buf), 0, full, Accepted);
    PollWriteKeepsInv(s1, 0, rest, WouldBlock);
    assert rest[..Room(s1.ring, rest)] == rest;
  }

  /* ---------- what a flush does, and whether a failure is reported ---------- */

  // The state that flush_write starts from in an event, if it is called.
  function Flushed(s: State, e: Event): Option<State>
    requires Inv(s) && Can(s, e)
  {
    match e
    case PollWrite(_, bytes, _) => if s.writeError || PushLen(s.ring) == 0 then None else Some(Enqueue(s, bytes))
    case InComplete(_) => Some(s.(waker := None, inFlight := s.inFlight - 1))
    case Reset => None
  }

  // The endpoint is offered a packet of data, or the zero-length packet.
  predicate Offers(s: State)
    requires Valid(s.ring)
  {
    Contents(s.ring) != [] || OffersZeroLength(s)
  }

  // A packet is as long as the filled slice and the packet size allow; one byte less when a short packet is due.
  function Longest(s: State): nat
    requires Valid(s.ring)
  {
    Min(PopLen(s.ring), if s.writeState.Full? && s.writeState.count > 10 then 63 else 64)
  }

  // Full packets in a row are counted; a short one ends the row.
  function StateAfter(s: State): WriteState
    requires Valid(s.ring)
  {
    if Longest(s) == 64 then Full(1 + if s.writeState.Full? then s.writeState.count else 0) else Short
  }

  // A flush by the endpoint's answer: a packet taken leaves the ring and joins the packets, a failure only sets the
  // error, and a refusal changes at most the write state.
  lemma FlushIs(s: State, outcome: Outcome)
    requires Inv(s)
    ensures var s' := FlushOf(s, outcome);
      if !Offers(s) then s' == s
      else match outcome
        case Failed => s' == s.(writeError := true)
        case WouldBlock => s' == s.(writeState := if Contents(s.ring) == [] then s.writeState else StateAfter(s))
        case Accepted =>
          && s'.writeState == (if Contents(s.ring) == [] then Idle else StateAfter(s))
          && s'.packets == s.packets + [Contents(s.ring)[..Longest(s)]] && Contents(s'.ring) == Contents(s.ring)[Longest(s)..]
          && s'.inFlight == s.inFlight + 1 && s'.writeError == s.writeError
  {
    hide Contents, Flatten, PopLen, PopOf;
    SendIs(s);
  }

  lemma FlushFailure(s: State, outcome: Outcome)
    requires Valid(s.ring)
    ensures var s' := FlushOf(s, outcome);
      && (s'.writeError <==> s.writeError || (outcome == Failed && Offers(s)))
      && (outcome == Failed ==> s' == s.(writeError := s'.writeError))
  {
  }

  predicate FailsPacket(s: State, e: Event)
    requires Inv(s) && Can(s, e)
  {
    var f := Flushed(s, e);
    f.Some? && Valid(f.value.ring) && Offers(f.value) && e.outcome == Failed
  }

  lemma ErrorStep(s: State, e: Event)
    requires Inv(s) && Can(s, e)
    ensures Apply(s, e).writeError <==> FailsPacket(s, e) || (s.writeError && !e.PollWrite?)
  {
    match e
    case PollWrite(_, bytes, outcome) =>
      if Flushed(s, e).Some? {
        EnqueueKeepsInv(s, bytes);
        FlushIs(Enqueue(s, bytes), outcome);
      }
    case InComplete(outcome) => FlushIs(s.(waker := None, inFlight := s.inFlight - 1), outcome);
    case Reset =>
  }

  predicate NoWrite(es: List<Event>) {
    es.Cons? ==> !es.head.PollWrite? && NoWrite(es.tail)
  }

  // The endpoint failed a packet somewhere in es, and poll_write has not been called since.
  ghost predicate FailedSince(s: State, es: List<Event>)
    requires Inv(s)
  {
    exists pre, e, post :: es == Concat(pre, Cons(e, post)) && FailsAfter(s, pre, e) && NoWrite(post)
  }

  ghost predicate FailsAfter(s: State, pre: List<Event>, e: Event)
    requires Inv(s)
  {
    Legal(s, pre) && Can(After(s, pre), e) && FailsPacket(After(s, pre), e)
  }

  // Over every run: the next poll_write reports an error exactly when the endpoint has failed a packet, of data or of
  // no bytes, since the last call of poll_write.
  lemma {:induction false} ErrorIsReported(s: State, es: List<Event>)
    requires Inv(s) && Legal(s, es)
    ensures After(s, es).writeError <==> FailedSince(s, es) || (s.writeError && NoWrite(es))
    decreases es
  {
    if es.Nil? {
      NothingFailed(s);
    } else {
      var s1 := Apply(s, es.head);
      StepKeepsInv(s, es.head);
      ErrorStep(s, es.head);
      ErrorIsReported(s1, es.tail);
      FailedFirstOrLater(s, es.head, es.tail);
    }
  }

  lemma NothingFailed(s: State)
    requires Inv(s)
    ensures !FailedSince(s, Nil)
  {
  }

  lemma FailedFirstOrLater(s: State, e: Event, rest: List<Event>)
    requires Inv(s) && Can(s, e) && Inv(Apply(s, e))
    ensures FailedSince(s, Cons(e, rest)) <==> (FailsPacket(s, e) && NoWrite(rest)) || FailedSince(Apply(s, e), rest)
  {
    hide Apply, FailsPacket, Can, Contents, Flatten;
    if FailsPacket(s, e) && NoWrite(rest) {
      assert Cons(e, rest) == Concat(Nil, Cons(e, rest)) && FailsAfter(s, Nil, e);
    }
    if FailedSince(Apply(s, e), rest) {
      var pre, f, post :| rest == Concat(pre, Cons(f, post)) && FailsAfter(Apply(s, e), pre, f) && NoWrite(post);
      assert Cons(e, rest) == Concat(Cons(e, pre), Cons(f, post)) && FailsAfter(s, Cons(e, pre), f);
    }
    if FailedSince(s, Cons(e, rest)) { FailedFirstOrLaterOnly(s, e, rest); }
  }

  lemma FailedFirstOrLaterOnly(s: State, e: Event, rest: List<Event>)
    requires Inv(s) && Can(s, e) && Inv(Apply(s, e)) && FailedSince(s, Cons(e, rest))
    ensures (FailsPacket(s, e) && NoWrite(rest)) || FailedSince(Apply(s, e), rest)
  {
    hide Apply, FailsPacket, Can, Contents, Flatten;
    var pre, f, post :| Cons(e, rest) == Concat(pre, Cons(f, post)) && FailsAfter(s, pre, f) && NoWrite(post);
    if pre.Cons? { assert rest == Concat(pre.tail, Cons(f, post)) && FailsAfter(Apply(s, e), pre.tail, f); }
  }

  /* ---------- nothing is stranded ---------- */

  predicate HasWork(s: State)
    requires Valid(s.ring)
  {
    Contents(s.ring) != [] || Owed(s.packets)
  }

  // The endpoint refuses a packet only while it holds another, and does not fail.
  predicate Reliable(s: State, e: Event) {
    match e
    case PollWrite(task, bytes, outcome) => outcome != Failed && (outcome == WouldBlock ==> s.inFlight > 0)
    case InComplete(outcome) => outcome != Failed && (outcome == WouldBlock ==> s.inFlight > 1)
    case Reset => true
  }

  // A step on a reliable endpoint leaves unsent work only with a packet in flight, whose completion will flush again.
  lemma WorkIsInFlight(s: State, e: Event)
    requires Inv(s) && Can(s, e) && Reliable(s, e) && !s.writeError
    requires HasWork(s) ==> s.inFlight > 0
    ensures var s' := Apply(s, e); Inv(s') && !s'.writeError && (HasWork(s') ==> s'.inFlight > 0)
  {
    StepKeepsInv(s, e);
    match e
    case PollWrite(task, bytes, outcome) =>
      if PushLen(s.ring) > 0 {
        EnqueueKeepsInv(s, bytes);
        ZeroLengthExactlyWhenOwed(Enqueue(s, bytes));
      }
    case InComplete(outcome) => ZeroLengthExactlyWhenOwed(s.(waker := None, inFlight := s.inFlight - 1));
    case Reset =>
  }

  // es leads from s to t on an endpoint that refuses a packet only while it holds another.
  predicate Leads(s: State, es: List<Event>, t: State)
    requires Inv(s)
    decreases es
  {
    if es.Nil? then s == t
    else Can(s, es.head) && Reliable(s, es.head) && (StepKeepsInv(s, es.head); Leads(Apply(s, es.head), es.tail, t))
  }

  lemma LeadsFirst(s: State, e: Event, rest: List<Event>, t: State)
    requires Inv(s) && Can(s, e) && Reliable(s, e) && Inv(Apply(s, e)) && Leads(Apply(s, e), rest, t)
    ensures Leads(s, Cons(e, rest), t)
  {
  }

  lemma {:induction false} LeadsOn(s: State, es: List<Event>, m: State, fs: List<Event>, t: State)
    requires Inv(s) && Inv(m) && Leads(s, es, m) && Leads(m, fs, t)
    ensures Leads(s, Concat(es, fs), t)
    decreases es
  {
    if es.Cons? {
      StepKeepsInv(s, es.head);
      LeadsOn(Apply(s, es.head), es.tail, m, fs, t);
    }
  }

  lemma {:induction false} LeadsIsARun(s: State, es: List<Event>, t: State)
    requires Inv(s) && Leads(s, es, t)
    ensures Legal(s, es) && After(s, es) == t
    decreases es
  {
    if es.Cons? {
      StepKeepsInv(s, es.head);
      LeadsIsARun(Apply(s, es.head), es.tail, t);
    }
  }

  lemma One(s: State, e: Event)
    requires Inv(s) && Can(s, e) && Reliable(s, e)
    ensures Inv(Apply(s, e)) && Leads(s, Single(e), Apply(s, e))
  {
    StepKeepsInv(s, e);
  }

  lemma {:induction false} NothingIsStranded(s: State, es: List<Event>, t: State)
    requires Inv(s) && !s.writeError && (HasWork(s) ==> s.inFlight > 0) && Leads(s, es, t)
    ensures Inv(t) && (HasWork(t) ==> t.inFlight > 0)
    decreases es
  {
    if es.Cons? {
      WorkIsInFlight(s, es.head);
      NothingIsStranded(Apply(s, es.head), es.tail, t);
    }
  }

  // What is left to do: bytes to send, and the zero-length packet.
  function Work(s: State): nat
    requires Valid(s.ring)
  {
    2 * |Contents(s.ring)| + if Owed(s.packets) then 1 else 0
  }

  // k completions, at each of which the endpoint takes what it is offered, lead from s to t.
  predicate Complete(s: State, k: nat, t: State)
    requires Inv(s)
    decreases k
  {
    if k == 0 then s == t
    else s.inFlight > 0 && (InCompleteKeepsInv(s, Accepted); Complete(InCompleteOf(s, Accepted), k - 1, t))
  }

  // One completion that takes the next packet.
  lemma CompletionDrains(s: State)
    requires Inv(s) && !s.writeError && s.inFlight > 0 && HasWork(s)
    ensures var s' := InCompleteOf(s, Accepted);
      && Inv(s') && !s'.writeError && s'.accepted == s.accepted && (HasWork(s') ==> s'.inFlight > 0)
      && Work(s') < Work(s)
  {
    var s1 := s.(waker := None, inFlight := s.inFlight - 1);
    InCompleteKeepsInv(s, Accepted);
    ZeroLengthExactlyWhenOwed(s1);
    SendIs(s1);
  }

  lemma NothingLeft(s: State)
    requires Inv(s) && !HasWork(s)
    ensures Flatten(s.packets) == s.accepted && !Owed(s.packets)
  {
  }

  // From there enough completions send everything and end the transfer with a short packet.
  lemma {:induction false} CompletionsDrain(s: State) returns (k: nat, t: State)
    requires Inv(s) && !s.writeError && (HasWork(s) ==> s.inFlight > 0)
    ensures Complete(s, k, t)
    ensures Inv(t) && t.accepted == s.accepted == Flatten(t.packets) && !HasWork(t)
    decreases Work(s)
  {
    if HasWork(s) {
      CompletionDrains(s);
      k, t := CompletionsDrain(InCompleteOf(s, Accepted));
      k := k + 1;
    } else {
      k, t := 0, s;
      NothingLeft(s);
    }
  }

  /* ---------- the port ---------- */

  // The history that State carries.
  datatype Log = Log(accepted: seq<Byte>, packets: seq<seq<Byte>>, inFlight: nat)

  class UsbSerial {
    const writeBuf: RingBuffer
    const writeWaker: WakerRegistration
    var writeState: WriteState
    var writeError: bool
    ghost var log: Log

    ghost function Repr(): set<object> {
      {this, writeBuf, writeBuf.buf, writeWaker}
    }

    ghost function View(): State
      reads Repr()
    {
      State(writeBuf.View(), writeState, writeError, writeWaker.waker, log.accepted, log.packets, log.inFlight)
    }

    constructor (buffer: array<Byte>)
      ensures writeBuf.buf == buffer && View() == Start(buffer[..])
    {
      writeBuf := new RingBuffer(buffer);
      writeWaker := new WakerRegistration();
      writeState, writeError := Idle, false;
      log := Log([], [], 0);
    }

    // outcome is what the endpoint answers to write_packet, if it is called.
    method FlushWrite(outcome: Outcome)
      requires Valid(writeBuf.View())
      modifies this, writeBuf
      ensures View() == FlushOf(old(View()), outcome)
      ensures writeError <==> old(writeError) || (outcome == Failed && old(Offers(View())))
      ensures outcome == Failed ==> View() == old(View()).(writeError := writeError)
    {
      FlushFailure(View(), outcome);
      Flush(outcome);
    }

    method Flush(outcome: Outcome)
      requires Valid(writeBuf.View())
      modifies this, writeBuf
      ensures View() == FlushOf(old(View()), outcome)
    {
      var fullSizePackets := match writeState case Full(c) => c case _ => 0;
      var maxSize := if fullSizePackets > SHORT_PACKET_INTERVAL then EP_SIZE - 1 else EP_SIZE;
      var at, len := writeBuf.PopBuf();
      if len > maxSize {
        len := maxSize;
      }
      assert len == NextLen(View()) && fullSizePackets == FullPackets(View());
      if len != 0 {
        SendData(at, len, fullSizePackets, outcome);
      } else if fullSizePackets > 0 {
        SendZeroLength(outcome);
      }
    }

    method SendData(at: nat, len: nat, fullSizePackets: nat, outcome: Outcome)
      requires Valid(writeBuf.View()) && len <= EP_SIZE && len <= PopLen(writeBuf.View()) && at == writeBuf.start
      requires fullSizePackets == FullPackets(View())
      modifies this`log, this`writeState, this`writeError, writeBuf
      ensures View() == SendOf(old(View()), len, outcome)
    {
      var packet := writeBuf.buf[at..at + len];
      assert packet == writeBuf.buf[..][at..at + len];
      match outcome
      case Failed =>
        writeError := true;
      case WouldBlock =>
        writeState := if len == EP_SIZE then Full(fullSizePackets + 1) else Short;
        writeBuf.Pop(0);
      case Accepted =>
        log := log.(packets := log.packets + [packet], inFlight := log.inFlight + 1);
        writeState := if len == EP_SIZE then Full(fullSizePackets + 1) else Short;
        writeBuf.Pop(len);
    }

    method SendZeroLength(outcome: Outcome)
      modifies this
      ensures View() == SendNothingOf(old(View()), outcome)
    {
      match outcome
      case Failed =>
        writeError := true;
      case WouldBlock =>
      case Accepted =>
        log := log.(packets := log.packets + [[]], inFlight := log.inFlight + 1);
        writeState := Idle;
    }

    method PollWrite(task: nat, buf: seq<Byte>, outcome: Outcome) returns (r: Poll<Result<nat>>, woken: set<nat>)
      requires Inv(View())
      modifies Repr()
      ensures View() == PollWriteOf(old(View()), task, buf, outcome) && Inv(View())
      ensures r == Ready(Err(Other)) <==> old(writeError)
      ensures old(writeError) ==> View() == old(View()).(writeError := false)
      ensures r.Pending? <==> !old(writeError) && |old(Contents(writeBuf.View()))| == writeBuf.buf.Length
      ensures r.Ready? && r.value.Ok? ==> r.value.value == Min(PushLen(old(writeBuf.View())), |buf|) && log.accepted == old(log.accepted) + buf[..r.value.value]
      ensures woken == if r.Pending? then Displaced(old(writeWaker.waker), task) else {}
    {
      hide Inv;
      PollWriteKeepsInv(View(), task, buf, outcome);
      r, woken := Write(task, buf, outcome);
    }

    method Write(task: nat, buf: seq<Byte>, outcome: Outcome) returns (r: Poll<Result<nat>>, woken: set<nat>)
      requires Valid(writeBuf.View())
      modifies Repr()
      ensures View() == PollWriteOf(old(View()), task, buf, outcome)
      ensures r == if old(writeError) then Ready(Err(Other)) else if PushLen(old(writeBuf.View())) == 0 then Pending
                   else Ready(Ok(Room(old(writeBuf.View()), buf)))
      ensures woken == if r.Pending? then Displaced(old(writeWaker.waker), task) else {}
    {
      if writeError {
        writeError := false;
        return Ready(Err(Other)), {};
      }
      var at, len := writeBuf.PushBuf();
      if len == 0 {
        woken := writeWaker.Register(task);
        return Pending, woken;
      }
      var count := if len < |buf| then len else |buf|;
      QueueAndFlush(at, buf, count, outcome);
      return Ready(Ok(count)), {};
    }

    method QueueAndFlush(at: nat, buf: seq<Byte>, count: nat, outcome: Outcome)
      requires Valid(writeBuf.View()) && count == Room(writeBuf.View(), buf) && at == writeBuf.end
      modifies this, writeBuf, writeBuf.buf
      ensures View() == FlushOf(Enqueue(old(View()), buf), outcome)
    {
      Queue(at, buf, count);
      FlushWrite(outcome);
    }

    method Queue(at: nat, buf: seq<Byte>, count: nat)
      requires Valid(writeBuf.View()) && count == Room(writeBuf.View(), buf) && at == writeBuf.end
      modifies this`log, writeBuf, writeBuf.buf
      ensures View() == Enqueue(old(View()), buf)
    {
      WriteAllKeepsContents(writeBuf.View(), buf[..count]);
      writeBuf.CopyIn(at, buf[..count]);
      writeBuf.Push(count);
      log := log.(accepted := log.accepted + buf[..count]);
    }

    method EndpointInComplete(outcome: Outcome) returns (woken: set<nat>)
      requires Inv(View()) && log.inFlight > 0
      modifies Repr()
      ensures View() == InCompleteOf(old(View()), outcome) && Inv(View())
      ensures woken == Holder(old(writeWaker.waker))
    {
      InCompleteKeepsInv(View(), outcome);
      woken := WakeAndFlush(outcome);
    }

    method WakeAndFlush(outcome: Outcome) returns (woken: set<nat>)
      requires Valid(writeBuf.View()) && log.inFlight > 0
      modifies Repr()
      ensures View() == InCompleteOf(old(View()), outcome)
      ensures woken == Holder(old(writeWaker.waker))
    {
      hide FlushOf, Contents;
      log := log.(inFlight := log.inFlight - 1);
      woken := writeWaker.Wake();
      FlushWrite(outcome);
    }

    method Reset()
      requires Inv(View())
      modifies Repr()
      ensures View() == ResetOf(old(View())) && Inv(View())
    {
      ResetKeepsInv(View());
      writeBuf.Clear();
      writeState := Idle;
      log := Log([], [], 0);
    }
  }
}
