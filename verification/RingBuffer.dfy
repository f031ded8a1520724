/** The byte ring: slices of one buffer, lent to a producer and to a consumer at the same time. */
module RingBuffers {

  import opened Basics

  datatype Ring = Ring(buf: seq<Byte>, start: nat, end: nat, empty: bool)

  predicate Valid(r: Ring) {
    if |r.buf| == 0 then r.start == 0 && r.end == 0 && r.empty
    else r.start < |r.buf| && r.end < |r.buf| && (r.empty ==> r.start == r.end)
  }

  // Oldest byte first.
  function Contents(r: Ring): (c: seq<Byte>)
    requires Valid(r)
    ensures |c| <= |r.buf|
  {
    if r.empty then [] else if r.start < r.end then r.buf[r.start..r.end] else r.buf[r.start..] + r.buf[..r.end]
  }

  // Length of the free slice at end, and of the filled slice at start.
  function PushLen(r: Ring): (n: nat)
    requires Valid(r)
    ensures r.end + n <= |r.buf|
    ensures n == 0 <==> |Contents(r)| == |r.buf|
    ensures |Contents(r)| + n <= |r.buf|
  {
    if r.start == r.end && !r.empty then 0
    else if r.start <= r.end then |r.buf| - r.end
    else r.start - r.end
  }

  function PopLen(r: Ring): (n: nat)
    requires Valid(r)
    ensures r.start + n <= |r.buf|
    ensures n == 0 <==> Contents(r) == []
    ensures n <= |Contents(r)| && r.buf[r.start..r.start + n] == Contents(r)[..n]
  {
    if r.empty then 0
    else if r.end <= r.start then |r.buf| - r.start
    else r.end - r.start
  }

  function Wrap(r: Ring, n: nat): nat {
    if n == |r.buf| then 0 else n
  }

  // push and pop panic when the index would pass the end of the buffer.
  predicate PushFits(r: Ring, n: nat) {
    n == 0 || r.end + n <= |r.buf|
  }

  predicate PopFits(r: Ring, n: nat) {
    n == 0 || r.start + n <= |r.buf|
  }

  function PushOf(r: Ring, n: nat): Ring {
    if n == 0 then r else r.(end := Wrap(r, r.end + n), empty := false)
  }

  function PopOf(r: Ring, n: nat): Ring {
    if n == 0 then r
    else var start := Wrap(r, r.start + n); r.(start := start, empty := start == r.end)
  }

  function ClearOf(r: Ring): Ring {
    r.(start := 0, end := 0, empty := true)
  }

  // A write into the free slice.
  function WriteOf(r: Ring, i: nat, b: Byte): Ring
    requires r.end + i < |r.buf|
  {
    r.(buf := r.buf[r.end + i := b])
  }

  // push(n) appends the first n bytes of the free slice, exactly when the slice has them; a longer push
  // that does not panic never adds n bytes.
  lemma PushAppendsExactly(r: Ring, n: nat)
    requires Valid(r) && PushFits(r, n)
    ensures Valid(PushOf(r, n))
    ensures n <= PushLen(r) ==> Contents(PushOf(r, n)) == Contents(r) + r.buf[r.end..r.end + n]
    ensures |Contents(PushOf(r, n))| == |Contents(r)| + n <==> n <= PushLen(r)
  {
    if n <= PushLen(r) {
      var c, s := Contents(r), r.buf[r.end..r.end + n];
      var c' := Contents(PushOf(r, n));
      assert |c'| == |c| + n;
      assert c' == c + s;
    }
  }

  lemma PopRemovesExactly(r: Ring, n: nat)
    requires Valid(r) && PopFits(r, n)
    ensures Valid(PopOf(r, n))
    ensures n <= PopLen(r) ==> Contents(PopOf(r, n)) == Contents(r)[n..]
    ensures |Contents(PopOf(r, n))| == |Contents(r)| - n <==> n <= PopLen(r)
  {
    if n <= PopLen(r) {
      assert Contents(PopOf(r, n)) == Contents(r)[n..];
    }
  }

  // Each end leaves the other's slice alone: it keeps its place and may only grow.
  lemma PopKeepsFreeSlice(r: Ring, n: nat)
    requires Valid(r) && n <= PopLen(r)
    ensures Valid(PopOf(r, n)) && PushLen(PopOf(r, n)) >= PushLen(r)
    ensures PopOf(r, n).end == r.end && PopOf(r, n).buf == r.buf
  {
  }

  lemma PushKeepsFilledSlice(r: Ring, n: nat)
    requires Valid(r) && n <= PushLen(r)
    ensures Valid(PushOf(r, n)) && PopLen(PushOf(r, n)) >= PopLen(r)
    ensures PushOf(r, n).start == r.start && PushOf(r, n).buf == r.buf
  {
  }

  // A write into the free slice does not touch the contents.
  lemma WriteKeepsContents(r: Ring, i: nat, b: Byte)
    requires Valid(r) && i < PushLen(r)
    ensures Valid(WriteOf(r, i, b)) && Contents(WriteOf(r, i, b)) == Contents(r)
    ensures PushLen(WriteOf(r, i, b)) == PushLen(r) && PopLen(WriteOf(r, i, b)) == PopLen(r)
  {
    assert Contents(WriteOf(r, i, b)) == Contents(r);
  }

  // copy_from_slice into the free slice.
  function WriteAll(r: Ring, bytes: seq<Byte>): Ring
    requires r.end + |bytes| <= |r.buf|
  {
    r.(buf := r.buf[..r.end] + bytes + r.buf[r.end + |bytes|..])
  }

  function Room(r: Ring, bytes: seq<Byte>): nat
    requires Valid(r)
  {
    Min(PushLen(r), |bytes|)
  }

  lemma WriteAllKeepsContents(r: Ring, bytes: seq<Byte>)
    requires Valid(r) && |bytes| <= PushLen(r)
    ensures var r' := WriteAll(r, bytes);
      && Valid(r') && Contents(r') == Contents(r) && PushLen(r') == PushLen(r) && PopLen(r') == PopLen(r)
      && |r'.buf| == |r.buf| && r'.buf[r.end..r.end + |bytes|] == bytes
  {
    assert Contents(WriteAll(r, bytes)) == Contents(r);
  }

  /* ---------- lending both ends at once ---------- */

  // The lengths of the slices handed out and still in use.
  datatype Lender = Lender(ring: Ring, push: Option<nat>, pop: Option<nat>)

  datatype Op =
    | LendPush
    | Write(i: nat, b: Byte)
    | Push(n: nat)
    | LendPop
    | Pop(n: nat)
    | Clear

  // A user keeps to the slice it was given, and nothing is cleared under a slice.
  predicate CanDo(l: Lender, op: Op)
  {
    match op
    case LendPush => true
    case Write(i, b) => l.push.Some? && i < l.push.value
    case Push(n) => l.push.Some? && n <= l.push.value
    case LendPop => true
    case Pop(n) => l.pop.Some? && n <= l.pop.value
    case Clear => l.push.None? && l.pop.None?
  }

  predicate LenderOk(l: Lender) {
    && Valid(l.ring)
    && (l.push.Some? ==> l.push.value <= PushLen(l.ring))
    && (l.pop.Some? ==> l.pop.value <= PopLen(l.ring))
  }

  function Do(l: Lender, op: Op): Lender
    requires LenderOk(l) && CanDo(l, op)
  {
    match op
    case LendPush => l.(push := Some(PushLen(l.ring)))
    case Write(i, b) => l.(ring := WriteOf(l.ring, i, b))
    case Push(n) => l.(ring := PushOf(l.ring, n), push := None)
    case LendPop => l.(pop := Some(PopLen(l.ring)))
    case Pop(n) => l.(ring := PopOf(l.ring, n), pop := None)
    case Clear => l.(ring := ClearOf(l.ring))
  }

  // The specification: a bounded queue, the bytes staged for it, and a prefix of it on loan.
  datatype Fifo = Fifo(capacity: nat, queue: seq<Byte>, staged: Option<seq<Byte>>, lent: Option<seq<Byte>>)

  function Abstract(l: Lender): Fifo
    requires LenderOk(l)
  {
    var r := l.ring;
    Fifo(|r.buf|, Contents(r),
         if l.push.Some? then Some(r.buf[r.end..r.end + l.push.value]) else None,
         if l.pop.Some? then Some(r.buf[r.start..r.start + l.pop.value]) else None)
  }

  // A step of the queue. Slices are as long as the implementation likes, but empty only when they must be.
  predicate FifoStep(f: Fifo, op: Op, f': Fifo) {
    match op
    case LendPush =>
      f'.staged.Some? && f' == f.(staged := f'.staged) && |f.queue| + |f'.staged.value| <= f.capacity
      && (f'.staged.value == [] <==> |f.queue| == f.capacity)
    case Write(i, b) => f.staged.Some? && i < |f.staged.value| && f' == f.(staged := Some(f.staged.value[i := b]))
    case Push(n) =>
      f.staged.Some? && n <= |f.staged.value| && f' == f.(queue := f.queue + f.staged.value[..n], staged := None)
    case LendPop =>
      f'.lent.Some? && f' == f.(lent := f'.lent) && f'.lent.value <= f.queue && (f'.lent.value == [] <==> f.queue == [])
    case Pop(n) => f.lent.Some? && n <= |f.lent.value| && n <= |f.queue| && f' == f.(queue := f.queue[n..], lent := None)
    case Clear => f.staged.None? && f.lent.None? && f' == f.(queue := [])
  }

  predicate FifoOk(f: Fifo) {
    && |f.queue| + (if f.staged.Some? then |f.staged.value| else 0) <= f.capacity
    && (f.lent.Some? ==> f.lent.value <= f.queue)
  }

  // A write changes one byte of the free slice and none of the filled one.
  lemma WriteSlices(r: Ring, i: nat, b: Byte, k: nat, n: nat)
    requires Valid(r) && i < k <= PushLen(r) && n <= PopLen(r)
    ensures WriteOf(r, i, b).buf[r.end..r.end + k] == r.buf[r.end..r.end + k][i := b]
    ensures WriteOf(r, i, b).buf[r.start..r.start + n] == r.buf[r.start..r.start + n]
  {
  }

  lemma WriteRefines(l: Lender, i: nat, b: Byte)
    requires LenderOk(l) && CanDo(l, Write(i, b))
    ensures LenderOk(Do(l, Write(i, b)))
    ensures FifoStep(Abstract(l), Write(i, b), Abstract(Do(l, Write(i, b))))
  {
    hide Contents, PushLen, PopLen;
    WriteKeepsContents(l.ring, i, b);
    WriteSlices(l.ring, i, b, l.push.value, if l.pop.Some? then l.pop.value else 0);
  }

  lemma PushQueue(r: Ring, k: nat, n: nat)
    requires Valid(r) && n <= k <= PushLen(r)
    ensures Valid(PushOf(r, n)) && Contents(PushOf(r, n)) == Contents(r) + r.buf[r.end..r.end + k][..n]
  {
    PushAppendsExactly(r, n);
    assert r.buf[r.end..r.end + k][..n] == r.buf[r.end..r.end + n];
  }

  lemma PushRefines(l: Lender, n: nat)
    requires LenderOk(l) && CanDo(l, Push(n))
    ensures LenderOk(Do(l, Push(n)))
    ensures FifoStep(Abstract(l), Push(n), Abstract(Do(l, Push(n))))
  {
    hide Contents, PushLen, PopLen, PushOf;
    PushKeepsFilledSlice(l.ring, n);
    PushQueue(l.ring, l.push.value, n);
  }

  lemma PopRefines(l: Lender, n: nat)
    requires LenderOk(l) && CanDo(l, Pop(n))
    ensures LenderOk(Do(l, Pop(n)))
    ensures FifoStep(Abstract(l), Pop(n), Abstract(Do(l, Pop(n))))
  {
    PopRemovesExactly(l.ring, n);
    PopKeepsFreeSlice(l.ring, n);
  }

  lemma DoRefines(l: Lender, op: Op)
    requires LenderOk(l) && CanDo(l, op)
    ensures LenderOk(Do(l, op))
    ensures FifoStep(Abstract(l), op, Abstract(Do(l, op)))
  {
    match op
    case LendPush =>
    case Write(i, b) => WriteRefines(l, i, b);
    case Push(n) => PushRefines(l, n);
    case LendPop =>
    case Pop(n) => PopRefines(l, n);
    case Clear =>
  }

  // Both slices fit the queue: what is staged has room, what is lent is a prefix.
  lemma AbstractIsOk(l: Lender)
    requires LenderOk(l)
    ensures FifoOk(Abstract(l))
  {
    var r := l.ring;
    if l.pop.Some? {
      assert r.buf[r.start..r.start + l.pop.value] == r.buf[r.start..r.start + PopLen(r)][..l.pop.value];
    }
  }

  /* ---------- runs ---------- */

  predicate Runs(l: Lender, ops: seq<Op>)
    requires LenderOk(l)
    decreases |ops|
  {
    ops == [] || (CanDo(l, ops[0]) && (DoRefines(l, ops[0]); Runs(Do(l, ops[0]), ops[1..])))
  }

  function RunOf(l: Lender, ops: seq<Op>): (l': Lender)
    requires LenderOk(l) && Runs(l, ops)
    ensures LenderOk(l')
    decreases |ops|
  {
    if ops == [] then l else DoRefines(l, ops[0]); RunOf(Do(l, ops[0]), ops[1..])
  }

  ghost predicate FifoRuns(f: Fifo, ops: seq<Op>, f': Fifo)
    decreases |ops|
  {
    if ops == [] then f' == f
    else exists mid :: FifoStep(f, ops[0], mid) && FifoOk(mid) && FifoRuns(mid, ops[1..], f')
  }

  // Every sequence of calls is a run of the bounded queue.
  lemma {:induction false} RingIsAFifo(l: Lender, ops: seq<Op>)
    requires LenderOk(l) && Runs(l, ops)
    ensures FifoRuns(Abstract(l), ops, Abstract(RunOf(l, ops)))
    decreases |ops|
  {
    if ops != [] {
      var mid := Do(l, ops[0]);
      DoRefines(l, ops[0]);
      AbstractIsOk(mid);
      RingIsAFifo(mid, ops[1..]);
      assert FifoStep(Abstract(l), ops[0], Abstract(mid)) && FifoOk(Abstract(mid));
    }
  }

  /* ---------- the buffer in memory ---------- */

  class RingBuffer {
    const buf: array<Byte>
    var start: nat
    var end: nat
    var empty: bool

    function View(): Ring
      reads this, buf
    {
      Ring(buf[..], start, end, empty)
    }

    constructor (buf: array<Byte>)
      ensures this.buf == buf && View() == Ring(buf[..], 0, 0, true)
      ensures Valid(View()) && Contents(View()) == []
    {
      this.buf := buf;
      start, end, empty := 0, 0, true;
    }

    // The slice buf[at..at + len] to write into.
    method PushBuf() returns (at: nat, len: nat)
      requires Valid(View())
      ensures len == PushLen(View()) && (len > 0 ==> at == end)
      ensures at + len <= buf.Length && (len == 0 <==> |Contents(View())| == buf.Length)
    {
      if start == end && !empty {
        return 0, 0;
      }
      var n := if start <= end then buf.Length - end else start - end;
      return end, n;
    }

    // PushAppendsExactly and PopRemovesExactly say what these do to the contents.
    method Push(n: nat)
      requires Valid(View()) && PushFits(View(), n)
      modifies this
      ensures View() == PushOf(old(View()), n) && Valid(View())
    {
      PushAppendsExactly(View(), n);
      if n == 0 {
        return;
      }
      end := WrapIndex(end + n);
      empty := false;
    }

    // The slice buf[at..at + len] to read from.
    method PopBuf() returns (at: nat, len: nat)
      requires Valid(View())
      ensures len == PopLen(View()) && (len > 0 ==> at == start)
      ensures at + len <= buf.Length && buf[at..at + len] == Contents(View())[..len]
      ensures len == 0 <==> Contents(View()) == []
    {
      if empty {
        return 0, 0;
      }
      var n := if end <= start then buf.Length - start else end - start;
      return start, n;
    }

    method Pop(n: nat)
      requires Valid(View()) && PopFits(View(), n)
      modifies this
      ensures View() == PopOf(old(View()), n) && Valid(View())
    {
      PopRemovesExactly(View(), n);
      if n == 0 {
        return;
      }
      start := WrapIndex(start + n);
      empty := start == end;
    }

    method Clear()
      modifies this
      ensures View() == ClearOf(old(View())) && Valid(View()) && Contents(View()) == []
    {
      start, end, empty := 0, 0, true;
    }

    method WrapIndex(n: nat) returns (i: nat)
      requires n <= buf.Length
      ensures i == Wrap(View(), n)
    {
      if n == buf.Length {
        return 0;
      } else {
        return n;
      }
    }

    // copy_from_slice into the free slice.
    method CopyIn(at: nat, bytes: seq<Byte>)
      requires at == end && at + |bytes| <= buf.Length
      modifies buf
      ensures View() == WriteAll(old(View()), bytes)
    {
      CopyFromSlice(buf, at, bytes);
    }
  }
}
