/** How many full packets follow each other: the short packet that SHORT_PACKET_INTERVAL forces. */
module UsbInterval {
  import opened Basics
  import opened RingBuffers
  import opened UsbSerial

  // The full packets at the end of what the endpoint has taken.
  function TrailingFull(packets: seq<seq<Byte>>): nat {
    if packets == [] || |packets[|packets| - 1]| != EP_SIZE then 0
    else 1 + TrailingFull(packets[..|packets| - 1])
  }

  lemma TrailingAdd(packets: seq<seq<Byte>>, p: seq<Byte>)
    ensures TrailingFull(packets + [p]) == if |p| == EP_SIZE then 1 + TrailingFull(packets) else 0
  {
    assert (packets + [p])[..|packets|] == packets;
  }

  // The endpoint refuses a packet of data that is not full.
  predicate RefusesShort(s: State, e: Event)
    requires Inv(s) && Can(s, e)
  {
    var f := Flushed(s, e);
    f.Some? && Valid(f.value.ring) && 0 < NextLen(f.value) < EP_SIZE && e.outcome == WouldBlock
  }

  // The write state counts at least the full packets at the end.
  predicate Counted(s: State) {
    TrailingFull(s.packets) <= FullPackets(s) && TrailingFull(s.packets) <= SHORT_PACKET_INTERVAL + 1
  }

  lemma FlushCounts(s: State, outcome: Outcome)
    requires Inv(s) && Counted(s) && !(outcome == WouldBlock && 0 < NextLen(s) < EP_SIZE)
    ensures Counted(FlushOf(s, outcome))
  {
    if outcome == Accepted {
      SendIs(s);
      TrailingAdd(s.packets, Contents(s.ring)[..NextLen(s)]);
      TrailingAdd(s.packets, []);
    }
  }

  lemma PollWriteCounts(s: State, task: nat, bytes: seq<Byte>, outcome: Outcome)
    requires Inv(s) && Counted(s) && !RefusesShort(s, PollWrite(task, bytes, outcome))
    ensures Counted(PollWriteOf(s, task, bytes, outcome))
  {
    if !s.writeError && PushLen(s.ring) > 0 {
      EnqueueKeepsInv(s, bytes);
      FlushCounts(Enqueue(s, bytes), outcome);
    }
  }

  lemma InCompleteCounts(s: State, outcome: Outcome)
    requires Inv(s) && Counted(s) && s.inFlight > 0 && !RefusesShort(s, InComplete(outcome))
    ensures Counted(InCompleteOf(s, outcome))
  {
    FlushCounts(s.(waker := None, inFlight := s.inFlight - 1), outcome);
  }

  lemma StepCounts(s: State, e: Event)
    requires Inv(s) && Can(s, e) && Counted(s) && !RefusesShort(s, e)
    ensures Counted(Apply(s, e))
  {
    match e
    case PollWrite(task, bytes, outcome) => PollWriteCounts(s, task, bytes, outcome);
    case InComplete(outcome) => InCompleteCounts(s, outcome);
    case Reset =>
  }

  predicate NeverRefusesShort(s: State, es: List<Event>)
    requires Inv(s) && Legal(s, es)
    decreases es
  {
    es.Nil? || (!RefusesShort(s, es.head) && (StepKeepsInv(s, es.head); NeverRefusesShort(Apply(s, es.head), es.tail)))
  }

  // Over every run in which no short packet of data is refused, at most eleven full packets follow each other.
  lemma {:induction false} FullPacketsAreBounded(s: State, es: List<Event>)
    requires Inv(s) && Counted(s) && Legal(s, es) && NeverRefusesShort(s, es)
    ensures Counted(After(s, es))
    decreases es
  {
    if es.Cons? {
      StepKeepsInv(s, es.head);
      StepCounts(s, es.head);
      FullPacketsAreBounded(Apply(s, es.head), es.tail);
    }
  }

  /* ---------- for which buffers the bound holds ---------- */

  // Packets do not cross the end of the buffer, so where the next one starts limits the full packets before it:
  // they all lie before it, or before the end of the buffer and after its start.
  predicate Placed(size: nat, start: nat, full: nat) {
    EP_SIZE * full <= start || (start % EP_SIZE == 0 && start / EP_SIZE <= full <= size / EP_SIZE + start / EP_SIZE)
  }

  predicate ChainPlaced(s: State) {
    Placed(|s.ring.buf|, s.ring.start, TrailingFull(s.packets))
  }

  lemma FullPlaces(size: nat, start: nat, full: nat)
    requires size % EP_SIZE != 0 && start + EP_SIZE <= size && Placed(size, start, full)
    ensures Placed(size, if start + EP_SIZE == size then 0 else start + EP_SIZE, full + 1)
  {
  }

  lemma NonePlaces(size: nat, start: nat)
    ensures Placed(size, start, 0)
  {
  }

  lemma PlacedIsBounded(size: nat, start: nat, full: nat)
    requires Placed(size, start, full) && start < size
    ensures full <= 2 * (size / EP_SIZE)
  {
  }

  lemma SendPlaces(s: State)
    requires Inv(s) && NextLen(s) > 0 && |s.ring.buf| % EP_SIZE != 0 && ChainPlaced(s)
    ensures ChainPlaced(SendOf(s, NextLen(s), Accepted))
  {
    hide Contents, Flatten, TrailingFull, Placed;
    SendIs(s);
    TrailingAdd(s.packets, Contents(s.ring)[..NextLen(s)]);
    if NextLen(s) == EP_SIZE { FullPlaces(|s.ring.buf|, s.ring.start, TrailingFull(s.packets)); }
    else { NonePlaces(|s.ring.buf|, PopOf(s.ring, NextLen(s)).start); }
  }

  lemma FlushPlaces(s: State, outcome: Outcome)
    requires Inv(s) && |s.ring.buf| % EP_SIZE != 0 && ChainPlaced(s)
    ensures ChainPlaced(FlushOf(s, outcome)) && |FlushOf(s, outcome).ring.buf| == |s.ring.buf|
  {
    TrailingAdd(s.packets, []);
    if outcome == Accepted && NextLen(s) > 0 { SendPlaces(s); }
  }

  lemma EnqueuePlaces(s: State, bytes: seq<Byte>)
    requires Inv(s) && ChainPlaced(s)
    ensures Inv(Enqueue(s, bytes)) && ChainPlaced(Enqueue(s, bytes)) && |Enqueue(s, bytes).ring.buf| == |s.ring.buf|
  {
    EnqueueKeepsInv(s, bytes);
  }

  lemma PollWritePlaces(s: State, task: nat, bytes: seq<Byte>, outcome: Outcome)
    requires Inv(s) && |s.ring.buf| % EP_SIZE != 0 && ChainPlaced(s)
    ensures ChainPlaced(PollWriteOf(s, task, bytes, outcome)) && |PollWriteOf(s, task, bytes, outcome).ring.buf| == |s.ring.buf|
  {
    if !s.writeError && PushLen(s.ring) > 0 {
      EnqueuePlaces(s, bytes);
      FlushPlaces(Enqueue(s, bytes), outcome);
    }
  }

  lemma InCompletePlaces(s: State, outcome: Outcome)
    requires Inv(s) && s.inFlight > 0 && |s.ring.buf| % EP_SIZE != 0 && ChainPlaced(s)
    ensures ChainPlaced(InCompleteOf(s, outcome)) && |InCompleteOf(s, outcome).ring.buf| == |s.ring.buf|
  {
    FlushPlaces(s.(waker := None, inFlight := s.inFlight - 1), outcome);
  }

  lemma StepPlaces(s: State, e: Event)
    requires Inv(s) && Can(s, e) && |s.ring.buf| % EP_SIZE != 0 && ChainPlaced(s)
    ensures ChainPlaced(Apply(s, e)) && |Apply(s, e).ring.buf| == |s.ring.buf|
  {
    match e
    case PollWrite(task, bytes, outcome) => PollWritePlaces(s, task, bytes, outcome);
    case InComplete(outcome) => InCompletePlaces(s, outcome);
    case Reset =>
  }

  // Over every run, whatever the endpoint answers.
  lemma {:induction false} ChainIsBounded(s: State, es: List<Event>)
    requires Inv(s) && |s.ring.buf| % EP_SIZE != 0 && ChainPlaced(s) && Legal(s, es)
    ensures TrailingFull(After(s, es).packets) <= 2 * (|s.ring.buf| / EP_SIZE)
    decreases es
  {
    if es.Nil? {
      PlacedIsBounded(|s.ring.buf|, s.ring.start, TrailingFull(s.packets));
    } else {
      StepKeepsInv(s, es.head);
      StepPlaces(s, es.head);
      ChainIsBounded(Apply(s, es.head), es.tail);
    }
  }

  /* ---------- the runs that exceed it ---------- */

  // An empty ring at place, the last packet still in flight.
  predicate Drained(s: State, size: nat, place: nat, full: nat) {
    && Inv(s) && !s.writeError && s.inFlight > 0 && |s.ring.buf| == size
    && s.ring.empty && s.ring.start == s.ring.end == place && TrailingFull(s.packets) == full
  }

  function Next(size: nat, place: nat): nat {
    if place + EP_SIZE == size then 0 else place + EP_SIZE
  }

  // What enqueueing does to an empty ring with room before the end of the buffer.
  lemma EnqueueIs(s: State, bytes: seq<Byte>)
    requires Valid(s.ring) && s.ring.end + |bytes| <= |s.ring.buf| && |bytes| > 0
    requires s.ring.empty || s.ring.start < s.ring.end
    ensures var r := Enqueue(s, bytes).ring;
      && Enqueue(s, bytes) == s.(ring := r, accepted := s.accepted + bytes)
      && r.start == s.ring.start && r.end == Wrap(s.ring, s.ring.end + |bytes|) && !r.empty && |r.buf| == |s.ring.buf|
  {
    assert bytes[..|bytes|] == bytes;
  }

  // A write refused because a packet is in flight only grows the ring and sets the write state.
  lemma RefusedWrite(s: State, bytes: seq<Byte>)
    requires Inv(s) && !s.writeError && s.inFlight > 0 && s.ring.end + |bytes| <= |s.ring.buf| && |bytes| > 0
    requires s.ring.empty || s.ring.start < s.ring.end
    ensures var e := PollWrite(0, bytes, WouldBlock); var t := Apply(s, e); var f := Enqueue(s, bytes);
      && Inv(t) && Leads(s, Single(e), t) && t.ring == f.ring && t.packets == s.packets && t.inFlight == s.inFlight && !t.writeError
      && t.writeState == if NextLen(f) == EP_SIZE then Full(FullPackets(s) + 1) else Short
  {
    hide Contents, Enqueue, Flatten, TrailingFull, Leads;
    EnqueueIs(s, bytes);
    One(s, PollWrite(0, bytes, WouldBlock));
  }

  // The last piece of the ring, taken by the endpoint.
  lemma SendLast(s: State)
    requires Valid(s.ring) && 0 < NextLen(s) && !s.ring.empty && s.ring.end == Wrap(s.ring, s.ring.start + NextLen(s))
    ensures var t := FlushOf(s, Accepted);
      && t.ring == s.ring.(start := s.ring.end, empty := true) && t.inFlight == s.inFlight + 1 && t.writeError == s.writeError
      && t.writeState == (if NextLen(s) == EP_SIZE then Full(FullPackets(s) + 1) else Short)
      && TrailingFull(t.packets) == if NextLen(s) == EP_SIZE then TrailingFull(s.packets) + 1 else 0
  {
    SendIs(s);
    TrailingAdd(s.packets, Contents(s.ring)[..NextLen(s)]);
  }

  // A packet's worth of bytes written to an empty ring and taken at once.
  lemma WriteThrough(s: State, bytes: seq<Byte>) returns (t: State)
    requires Inv(s) && !s.writeError && s.ring.empty && s.ring.end + |bytes| <= |s.ring.buf| && 0 < |bytes| <= EP_SIZE
    requires FullPackets(s) <= SHORT_PACKET_INTERVAL
    ensures Leads(s, Single(PollWrite(0, bytes, Accepted)), t) && t.inFlight == s.inFlight + 1
    ensures Drained(t, |s.ring.buf|, Wrap(s.ring, s.ring.end + |bytes|), if |bytes| == EP_SIZE then TrailingFull(s.packets) + 1 else 0)
    ensures FullPackets(t) == if |bytes| == EP_SIZE then FullPackets(s) + 1 else 0
  {
    hide Contents, Enqueue, Flatten, FlushOf, TrailingFull, Leads;
    t := Apply(s, PollWrite(0, bytes, Accepted));
    EnqueueIs(s, bytes);
    One(s, PollWrite(0, bytes, Accepted));
    SendLast(Enqueue(s, bytes));
  }

  // The packet is collected while the last one is in flight. The refusal of its first byte resets the count.
  function Collected(packet: seq<Byte>): List<Event>
    requires |packet| == EP_SIZE
  {
    Cons(PollWrite(0, packet[..1], WouldBlock), Cons(PollWrite(0, packet[1..], WouldBlock), Single(InComplete(Accepted))))
  }

  lemma Collect(s: State, size: nat, place: nat, full: nat, packet: seq<Byte>) returns (t: State)
    requires Drained(s, size, place, full) && place + EP_SIZE <= size && |packet| == EP_SIZE
    ensures Leads(s, Collected(packet), t) && Drained(t, size, Next(size, place), full + 1)
  {
    hide Contents, Enqueue, Flatten, FlushOf, TrailingFull;
    RefusedWrite(s, packet[..1]);
    EnqueueIs(s, packet[..1]);
    var s1 := Apply(s, PollWrite(0, packet[..1], WouldBlock));
    RefusedWrite(s1, packet[1..]);
    EnqueueIs(s1, packet[1..]);
    var s2 := Apply(s1, PollWrite(0, packet[1..], WouldBlock));
    assert NextLen(s2) == EP_SIZE;
    t := CompleteLast(s2, size, place, full);
    LeadsFirst(s1, PollWrite(0, packet[1..], WouldBlock), Single(InComplete(Accepted)), t);
    LeadsFirst(s, PollWrite(0, packet[..1], WouldBlock), Cons(PollWrite(0, packet[1..], WouldBlock), Single(InComplete(Accepted))), t);
  }

  lemma CompleteLast(s: State, size: nat, place: nat, full: nat) returns (t: State)
    requires Inv(s) && !s.writeError && s.inFlight > 0 && |s.ring.buf| == size && TrailingFull(s.packets) == full
    requires !s.ring.empty && s.ring.start == place && place + EP_SIZE <= size && s.ring.end == Next(size, place)
    requires NextLen(s) == EP_SIZE
    ensures Leads(s, Single(InComplete(Accepted)), t) && Drained(t, size, Next(size, place), full + 1)
  {
    hide Contents, Flatten, FlushOf, TrailingFull, Leads;
    One(s, InComplete(Accepted));
    t := Apply(s, InComplete(Accepted));
    SendLast(s.(waker := None, inFlight := s.inFlight - 1));
  }

  // k packets before the end of the buffer.
  lemma {:induction false} CollectAhead(s: State, size: nat, place: nat, full: nat, packet: seq<Byte>, k: nat)
    returns (es: List<Event>, t: State)
    requires Drained(s, size, place, full) && place + k * EP_SIZE <= size && |packet| == EP_SIZE
    ensures Leads(s, es, t)
    ensures Drained(t, size, if place + k * EP_SIZE == size then 0 else place + k * EP_SIZE, full + k)
    decreases k
  {
    if k == 0 {
      es, t := Nil, s;
    } else {
      var m := Collect(s, size, place, full, packet);
      if k == 1 {
        es, t := Collected(packet), m;
      } else {
        var rest;
        rest, t := CollectAhead(m, size, place + EP_SIZE, full + 1, packet, k - 1);
        LeadsOn(s, Collected(packet), m, rest, t);
        es := Concat(Collected(packet), rest);
      }
    }
  }

  lemma RoomAhead(size: nat, place: nat)
    requires place < size && size % EP_SIZE == 0 && place % EP_SIZE == 0
    ensures place + EP_SIZE <= size && Next(size, place) % EP_SIZE == 0
  {
  }

  // Any number of packets around a buffer that is a multiple of the packet size.
  lemma {:induction false} CollectAround(s: State, size: nat, place: nat, full: nat, packet: seq<Byte>, k: nat)
    returns (es: List<Event>, t: State)
    requires Drained(s, size, place, full) && |packet| == EP_SIZE
    requires size > 0 && size % EP_SIZE == 0 && place % EP_SIZE == 0
    ensures Leads(s, es, t) && TrailingFull(t.packets) == full + k
    decreases k
  {
    if k == 0 {
      es, t := Nil, s;
    } else {
      RoomAhead(size, place);
      var m := Collect(s, size, place, full, packet);
      var rest;
      rest, t := CollectAround(m, size, Next(size, place), full + 1, packet, k - 1);
      LeadsOn(s, Collected(packet), m, rest, t);
      es := Concat(Collected(packet), rest);
    }
  }

  // The first packet brings the ring to a place from which full packets end at the end of the buffer.
  lemma FirstPacket(buf: seq<Byte>, packet: seq<Byte>) returns (es: List<Event>, t: State)
    requires |buf| >= EP_SIZE && |packet| == if |buf| % EP_SIZE == 0 then EP_SIZE else |buf| % EP_SIZE
    ensures es == Single(PollWrite(0, packet, Accepted)) && Leads(Start(buf), es, t)
    ensures var full := if |packet| == EP_SIZE then 1 else 0;
      Drained(t, |buf|, if |packet| == |buf| then 0 else |packet|, full) && FullPackets(t) == full
  {
    hide Inv, Leads;
    es := Single(PollWrite(0, packet, Accepted));
    t := WriteThrough(Start(buf), packet);
  }

  // On an endpoint that refuses only while it holds a packet, a buffer that is a multiple of the packet size lets any
  // number of full packets follow each other.
  lemma AnyNumberFollows(buf: seq<Byte>, k: nat) returns (es: List<Event>, t: State)
    requires |buf| >= EP_SIZE && |buf| % EP_SIZE == 0
    ensures Leads(Start(buf), es, t) && TrailingFull(t.packets) == k + 1
  {
    var packet := seq(EP_SIZE, _ => 0);
    var s;
    es, s := FirstPacket(buf, packet);
    var more;
    more, t := CollectAround(s, |buf|, if EP_SIZE == |buf| then 0 else EP_SIZE, 1, packet, k);
    LeadsOn(Start(buf), es, s, more, t);
    es := Concat(es, more);
  }

  // Any other buffer lets as many follow as fit before and after its end.
  lemma TwiceAround(buf: seq<Byte>) returns (es: List<Event>, t: State)
    requires |buf| >= EP_SIZE && |buf| % EP_SIZE != 0
    ensures Leads(Start(buf), es, t) && TrailingFull(t.packets) == 2 * (|buf| / EP_SIZE)
  {
    var r, q := |buf| % EP_SIZE, |buf| / EP_SIZE;
    var packet := seq(EP_SIZE, _ => 0);
    var s0;
    es, s0 := FirstPacket(buf, seq(r, _ => 0));
    var more, s1 := CollectAhead(s0, |buf|, r, 0, packet, q);
    LeadsOn(Start(buf), es, s0, more, s1);
    var last;
    last, t := CollectAhead(s1, |buf|, 0, q, packet, q);
    LeadsOn(Start(buf), Concat(es, more), s1, last, t);
    es := Concat(Concat(es, more), last);
  }

  // No more than eleven full packets ever follow each other on an endpoint that refuses only while it holds one.
  ghost predicate IntervalHolds(buf: seq<Byte>) {
    forall es, t | Leads(Start(buf), es, t) :: TrailingFull(t.packets) <= 11
  }

  lemma IntervalHoldsExactly(buf: seq<Byte>)
    ensures IntervalHolds(buf)
       <==> |buf| < 64 || (|buf| % 64 != 0 && 2 * (|buf| / 64) <= 11)
  {
    if |buf| == 0 {
      forall es, t | Leads(Start(buf), es, t) ensures TrailingFull(t.packets) <= SHORT_PACKET_INTERVAL + 1 {
        NothingSent(Start(buf), es, t);
      }
    } else if |buf| % EP_SIZE == 0 {
      var es, t := AnyNumberFollows(buf, SHORT_PACKET_INTERVAL + 1);
    } else {
      forall es, t | Leads(Start(buf), es, t) ensures TrailingFull(t.packets) <= 2 * (|buf| / EP_SIZE) {
        LeadsIsARun(Start(buf), es, t);
        ChainIsBounded(Start(buf), es);
      }
      if |buf| >= EP_SIZE { var es, t := TwiceAround(buf); }
    }
  }

  // A ring of no bytes sends nothing.
  lemma {:induction false} NothingSent(s: State, es: List<Event>, t: State)
    requires Inv(s) && |s.ring.buf| == 0 && s.packets == [] && s.writeState == Idle && Leads(s, es, t)
    ensures t.packets == []
    decreases es
  {
    if es.Cons? {
      StepKeepsInv(s, es.head);
      NothingSent(Apply(s, es.head), es.tail, t);
    }
  }

  /* ---------- eleven are reached without any refusal ---------- */

  predicate WritesTaken(es: List<Event>) {
    es.Cons? ==> es.head.PollWrite? && es.head.outcome == Accepted && WritesTaken(es.tail)
  }

  lemma WritesOn(s: State, es: List<Event>, m: State, fs: List<Event>, t: State)
    requires Inv(s) && Inv(m) && Leads(s, es, m) && Leads(m, fs, t) && WritesTaken(es) && WritesTaken(fs)
    ensures Leads(s, Concat(es, fs), t) && WritesTaken(Concat(es, fs))
  {
    LeadsOn(s, es, m, fs, t);
    TakenOn(es, fs);
  }

  lemma {:induction false} TakenOn(es: List<Event>, fs: List<Event>)
    requires WritesTaken(es) && WritesTaken(fs)
    ensures WritesTaken(Concat(es, fs))
    decreases es
  {
    if es.Cons? { TakenOn(es.tail, fs); }
  }

  lemma WriteFull(s: State, size: nat, place: nat, full: nat, packet: seq<Byte>) returns (t: State)
    requires Drained(s, size, place, full) && FullPackets(s) == full <= SHORT_PACKET_INTERVAL
    requires place + EP_SIZE <= size && |packet| == EP_SIZE
    ensures Inv(s) && Inv(t) && Leads(s, Single(PollWrite(0, packet, Accepted)), t)
    ensures Drained(t, size, Next(size, place), full + 1) && FullPackets(t) == full + 1
  {
    hide Inv, Leads;
    t := WriteThrough(s, packet);
  }

  lemma PlaceInside(s: State, size: nat, place: nat, full: nat)
    requires Drained(s, size, place, full) && size > 0
    ensures place < size
  {
  }

  // k packets written and taken at once, before the end of the buffer.
  lemma {:induction false} WriteAhead(s: State, size: nat, place: nat, full: nat, packet: seq<Byte>, k: nat)
    returns (es: List<Event>, t: State)
    requires Drained(s, size, place, full) && FullPackets(s) == full && full + k <= SHORT_PACKET_INTERVAL + 1
    requires size > 0 && place + k * EP_SIZE <= size && |packet| == EP_SIZE
    ensures Leads(s, es, t) && WritesTaken(es)
    ensures Drained(t, size, if place + k * EP_SIZE == size then 0 else place + k * EP_SIZE, full + k) && FullPackets(t) == full + k
    decreases k
  {
    hide Inv, FullPackets;
    PlaceInside(s, size, place, full);
    if k == 0 {
      es, t := Nil, s;
    } else {
      var e := PollWrite(0, packet, Accepted);
      var m := WriteFull(s, size, place, full, packet);
      if k == 1 {
        es, t := Single(e), m;
      } else {
        var rest;
        rest, t := WriteAhead(m, size, place + EP_SIZE, full + 1, packet, k - 1);
        WritesOn(s, Single(e), m, rest, t);
        es := Concat(Single(e), rest);
      }
    }
  }

  lemma {:induction false} WriteAround(s: State, size: nat, place: nat, full: nat, packet: seq<Byte>, k: nat)
    returns (es: List<Event>, t: State)
    requires Drained(s, size, place, full) && FullPackets(s) == full && full + k <= SHORT_PACKET_INTERVAL + 1
    requires size > 0 && size % EP_SIZE == 0 && place % EP_SIZE == 0 && |packet| == EP_SIZE
    ensures Leads(s, es, t) && WritesTaken(es) && TrailingFull(t.packets) == full + k
    decreases k
  {
    hide Inv, FullPackets;
    PlaceInside(s, size, place, full);
    if k == 0 {
      es, t := Nil, s;
    } else {
      RoomAhead(size, place);
      var e := PollWrite(0, packet, Accepted);
      var m := WriteFull(s, size, place, full, packet);
      var rest;
      rest, t := WriteAround(m, size, Next(size, place), full + 1, packet, k - 1);
      WritesOn(s, Single(e), m, rest, t);
      es := Concat(Single(e), rest);
    }
  }

  // So the code's bound is one more than the constant: every buffer that can reach it reaches it in a run in which the
  // endpoint refuses nothing.
  lemma ElevenWithoutRefusal(buf: seq<Byte>) returns (es: List<Event>, t: State)
    requires !IntervalHolds(buf)
    ensures Leads(Start(buf), es, t) && WritesTaken(es) && TrailingFull(t.packets) == 11
  {
    IntervalHoldsExactly(buf);
    var packet := seq(EP_SIZE, _ => 0);
    if |buf| % EP_SIZE == 0 {
      var first, s := FirstPacket(buf, packet);
      var more;
      more, t := WriteAround(s, |buf|, if EP_SIZE == |buf| then 0 else EP_SIZE, 1, packet, SHORT_PACKET_INTERVAL);
      WritesOn(Start(buf), first, s, more, t);
      es := Concat(first, more);
    } else {
      es, t := ElevenAhead(buf, packet);
    }
  }

  lemma ElevenAhead(buf: seq<Byte>, packet: seq<Byte>) returns (es: List<Event>, t: State)
    requires |buf| % EP_SIZE != 0 && 2 * (|buf| / EP_SIZE) > SHORT_PACKET_INTERVAL + 1 && |packet| == EP_SIZE
    ensures Leads(Start(buf), es, t) && WritesTaken(es) && TrailingFull(t.packets) == SHORT_PACKET_INTERVAL + 1
  {
    var r, q := |buf| % EP_SIZE, |buf| / EP_SIZE;
    var first, s := FirstPacket(buf, seq(r, _ => 0));
    var more;
    if q > SHORT_PACKET_INTERVAL {
      more, t := WriteAhead(s, |buf|, r, 0, packet, SHORT_PACKET_INTERVAL + 1);
    } else {
      more, t := ElevenAcross(s, |buf|, r, q, packet);
    }
    WritesOn(Start(buf), first, s, more, t);
    es := Concat(first, more);
  }

  // q packets up to the end of the buffer, and what is missing to eleven from its start.
  lemma ElevenAcross(s: State, size: nat, place: nat, q: nat, packet: seq<Byte>) returns (es: List<Event>, t: State)
    requires Drained(s, size, place, 0) && FullPackets(s) == 0 && |packet| == EP_SIZE
    requires place + q * EP_SIZE == size && SHORT_PACKET_INTERVAL + 1 < 2 * q && q <= SHORT_PACKET_INTERVAL
    ensures Leads(s, es, t) && WritesTaken(es) && TrailingFull(t.packets) == SHORT_PACKET_INTERVAL + 1
  {
    var m;
    es, m := WriteAhead(s, size, place, 0, packet, q);
    var last;
    last, t := WriteAhead(m, size, 0, q, packet, SHORT_PACKET_INTERVAL + 1 - q);
    WritesOn(s, es, m, last, t);
    es := Concat(es, last);
  }
}
