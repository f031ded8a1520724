/** The io::util futures: stream parsers that resume where the last poll stopped. */
module AsyncIo {
  import opened Basics

  const CR: Byte := 13
  const LF: Byte := 10

  // What a reader does when its buffer is asked for: nothing yet, show up to k more bytes, or fail.
  datatype Response = NotYet | Chunk(k: nat) | Fail

  // How many responses of a script show bytes.
  function Chunks(script: seq<Response>): nat {
    if script == [] then 0 else (if script[0].Chunk? then 1 else 0) + Chunks(script[1..])
  }

  // The bytes yet to be consumed, and how the reader will show them. The stream ends after data.
  class Reader {
    var data: seq<Byte>
    var script: seq<Response>
    var lent: nat

    constructor (data: seq<Byte>, script: seq<Response>)
      ensures this.data == data && this.script == script && lent == 0
    {
      this.data, this.script, lent := data, script, 0;
    }

    // The buffer is empty only at the end of the stream; a reader whose script has run out has nothing yet.
    method PollFillBuf() returns (r: Poll<Result<seq<Byte>>>)
      modifies this
      ensures data == old(data)
      ensures old(script) == [] ==> r == Pending && script == []
      ensures old(script) != [] ==> script == old(script)[1..]
      ensures Chunks(script) + (if r.Ready? && r.value.Ok? then 1 else 0) == Chunks(old(script))
      ensures old(script) != [] && old(script)[0] == NotYet ==> r == Pending
      ensures old(script) != [] && old(script)[0] == Fail ==> r == Ready(Err(Other))
      ensures old(script) != [] && old(script)[0].Chunk? ==> r.Ready? && r.value.Ok?
      ensures r.Ready? && r.value.Ok? ==> lent == |r.value.value| <= |data| && r.value.value == data[..lent]
      ensures r.Ready? && r.value.Ok? ==> (lent == 0 <==> data == [])
      ensures old(script) != [] && old(script)[0].Chunk? ==> lent == Min(old(script)[0].k + 1, |data|)
      ensures r.Pending? ==> lent == 0
    {
      lent := 0;
      if script == [] {
        return Pending;
      }
      var response := script[0];
      script := script[1..];
      match response
      case NotYet => return Pending;
      case Fail => return Ready(Err(Other));
      case Chunk(k) =>
        lent := Min(k + 1, |data|);
        return Ready(Ok(data[..lent]));
    }

    method Consume(amt: nat)
      requires amt <= lent <= |data|
      modifies this
      ensures data == old(data)[amt..] && script == old(script) && lent == old(lent) - amt
    {
      data, lent := data[amt..], lent - amt;
    }
  }

  ghost predicate AllPass(bytes: seq<Byte>, f: Byte -> bool) {
    forall i | 0 <= i < |bytes| :: f(bytes[i])
  }

  // Where the first byte failing f is.
  function Span(bytes: seq<Byte>, f: Byte -> bool): (p: nat)
    ensures p <= |bytes| && AllPass(bytes[..p], f) && (p < |bytes| ==> !f(bytes[p]))
  {
    if bytes == [] || !f(bytes[0]) then 0 else
      var p := Span(bytes[1..], f);
      assert bytes[..p + 1] == [bytes[0]] + bytes[1..][..p];
      p + 1
  }

  // Responses used up against bytes consumed: all but spare of the chunks shown made progress.
  ghost predicate Progress(data0: seq<Byte>, script0: seq<Response>, data1: seq<Byte>, script1: seq<Response>, spare: nat) {
    && |script1| <= |script0|
    && Chunks(script0) + |data1| <= Chunks(script1) + |data0| + spare
    && (Fail !in script0 ==> Fail !in script1)
  }

  // How many of n bytes are left when everything that the first u responses show has been consumed.
  function LeftAfter(n: nat, script: seq<Response>, u: nat): nat
    requires u <= |script|
  {
    if u == 0 then n
    else
      var m := LeftAfter(n, script, u - 1);
      if script[u - 1].Chunk? then m - Min(script[u - 1].k + 1, m) else m
  }

  // The responses used up between two moments, of which all but the last few showed bytes.
  ghost predicate Shown(script0: seq<Response>, script1: seq<Response>, last: nat) {
    && |script1| <= |script0| && script1 == script0[|script0| - |script1|..]
    && forall i | 0 <= i < |script0| - |script1| - last :: script0[i].Chunk?
  }

  // The answer of a poll from the responses it has used up: nothing yet makes it Pending and a failure comes out, at
  // once in both cases; otherwise it is Pending only when the script has run out.
  ghost predicate Answered<T>(script0: seq<Response>, r: Poll<Result<T>>, script1: seq<Response>) {
    && Shown(script0, script1, 1)
    && var u := |script0| - |script1|;
       if u == 0 then (if r.Pending? then script0 == [] else r.value.Ok?)
       else match script0[u - 1]
         case NotYet => r.Pending?
         case Fail => r.Ready? && r.value == Err(Other)
         case Chunk(_) => if r.Pending? then script1 == [] else r.value != Err(Other)
  }

  // A poll that gives up has consumed all it was shown; it sees the end of the stream when a chunk shows nothing.
  ghost predicate TookAll<T>(n0: nat, script0: seq<Response>, r: Poll<Result<T>>, n1: nat, script1: seq<Response>) {
    && |script1| <= |script0|
    && var u := |script0| - |script1|;
       && (r.Pending? || r.value == Err(Other) ==> n1 == LeftAfter(n0, script0, u))
       && (r.Ready? && r.value == Err(UnexpectedEof) <==>
             u > 0 && script0[u - 1].Chunk? && LeftAfter(n0, script0, u - 1) == 0)
  }

  // What every future here guarantees of a poll.
  ghost predicate Polled<T>(data0: seq<Byte>, script0: seq<Response>, r: Poll<Result<T>>, data1: seq<Byte>, script1: seq<Response>) {
    && Progress(data0, script0, data1, script1, if r.Pending? then 0 else 1)
    && Answered(script0, r, script1) && TookAll(|data0|, script0, r, |data1|, script1)
    && (r.Ready? && r.value.Err? ==> r.value.error == UnexpectedEof || (r.value.error == Other && Fail in script0))
  }

  // A poll under way: every response so far has shown some bytes, and they have been consumed.
  ghost predicate Going(data0: seq<Byte>, script0: seq<Response>, data1: seq<Byte>, script1: seq<Response>) {
    && Shown(script0, script1, 0) && |data1| == LeftAfter(|data0|, script0, |script0| - |script1|)
    && (|script1| < |script0| ==> LeftAfter(|data0|, script0, |script0| - |script1| - 1) > 0)
    && Chunks(script0) + |data1| <= Chunks(script1) + |data0|
  }

  lemma GoesFrom(data: seq<Byte>, script: seq<Response>)
    ensures Going(data, script, data, script)
  {
  }

  lemma GoesOn(data0: seq<Byte>, script0: seq<Response>, data1: seq<Byte>, script1: seq<Response>, data2: seq<Byte>, script2: seq<Response>)
    requires Going(data0, script0, data1, script1) && script1 != [] && script1[0].Chunk? && script2 == script1[1..]
    requires data1 != [] && |data2| == |data1| - Min(script1[0].k + 1, |data1|)
    ensures Going(data0, script0, data2, script2)
  {
  }

  // The next response ends the poll.
  lemma PollEnds<T>(data0: seq<Byte>, script0: seq<Response>, data1: seq<Byte>, script1: seq<Response>,
                    r: Poll<Result<T>>, data2: seq<Byte>, script2: seq<Response>)
    requires Going(data0, script0, data1, script1) && script2 == if script1 == [] then [] else script1[1..]
    requires match if script1 == [] then NotYet else script1[0]
      case NotYet => r.Pending? && data2 == data1
      case Fail => r == Ready(Err(Other)) && data2 == data1
      case Chunk(_) =>
        r.Ready? && |data2| <= |data1| && (r.value.Err? ==> r.value.error == UnexpectedEof) && (r.value.Err? <==> data1 == [])
    ensures Polled(data0, script0, r, data2, script2)
  {
  }

  // Or it ends without another.
  lemma PollDone<T>(data0: seq<Byte>, script0: seq<Response>, data1: seq<Byte>, script1: seq<Response>, r: Poll<Result<T>>)
    requires Going(data0, script0, data1, script1) && r.Ready? && r.value.Ok?
    ensures Polled(data0, script0, r, data1, script1)
  {
  }

  lemma AnsweredOn<T>(script0: seq<Response>, script1: seq<Response>, r: Poll<Result<T>>, script2: seq<Response>)
    requires Shown(script0, script1, 0) && Answered(script1, r, script2)
    ensures Answered(script0, r, script2)
  {
    var k := |script0| - |script1|;
    assert script1 == script0[k..] && script2 == script0[|script0| - |script2|..];
    assert forall i | k <= i < |script0| :: script0[i] == script1[i - k];
  }

  lemma PassOn(a: seq<Byte>, b: seq<Byte>, f: Byte -> bool)
    requires AllPass(a, f) && AllPass(b, f)
    ensures AllPass(a + b, f)
  {
  }

  // taken: all bytes this future has consumed.
  class SkipWhile {
    const reader: Reader
    const f: Byte -> bool
    ghost var taken: seq<Byte>

    constructor (reader: Reader, f: Byte -> bool)
      ensures this.reader == reader && this.f == f && taken == []
    {
      this.reader, this.f, taken := reader, f, [];
    }

    // Over any number of polls: only bytes passing f are consumed, none is lost, and the future is ready
    // exactly at the first byte that does not pass.
    method Poll() returns (r: Poll<Result<()>>)
      requires AllPass(taken, f)
      modifies this, reader
      ensures AllPass(taken, f) && taken + reader.data == old(taken + reader.data)
      ensures r.Ready? && r.value.Ok? ==> reader.data != [] && !f(reader.data[0])
      ensures r == Ready(Err(UnexpectedEof)) ==> reader.data == []
      ensures Polled(old(reader.data), old(reader.script), r, reader.data, reader.script)
    {
      hide Polled, Going, AllPass;
      ghost var data0, script0 := reader.data, reader.script;
      ghost var data1, script1 := data0, script0;
      GoesFrom(data0, script0);
      while true
        invariant AllPass(taken, f) && taken + reader.data == old(taken) + data0
        invariant Going(data0, script0, reader.data, reader.script)
        decreases |reader.script|
      {
        data1, script1 := reader.data, reader.script;
        var rbuf := reader.PollFillBuf();
        match rbuf
        case Pending =>
          r := Pending;
          break;
        case Ready(Err(e)) =>
          r := Ready(Err(e));
          break;
        case Ready(Ok(buf)) =>
          if |buf| == 0 {
            r := Ready(Err(UnexpectedEof));
            break;
          }
          var p := Span(buf, f);
          reader.Consume(p);
          PassOn(taken, buf[..p], f);
          taken := taken + buf[..p];
          if p < |buf| {
            r := Ready(Ok(()));
            break;
          }
          GoesOn(data0, script0, data1, script1, reader.data, reader.script);
      }
      PollEnds(data0, script0, data1, script1, r, reader.data, reader.script);
    }
  }

  class ReadWhile {
    const reader: Reader
    const f: Byte -> bool
    const buf: array<Byte>
    var n: nat
    ghost var taken: seq<Byte>

    constructor (reader: Reader, f: Byte -> bool, buf: array<Byte>)
      ensures this.reader == reader && this.f == f && this.buf == buf && taken == [] && Valid()
    {
      this.reader, this.f, this.buf, n, taken := reader, f, buf, 0, [];
    }

    // The buffer holds as much of what was consumed as fits.
    ghost predicate Valid()
      reads this, buf
    {
      AllPass(taken, f) && n == Min(|taken|, buf.Length) && buf[..n] == taken[..n]
    }

    method Poll() returns (r: Poll<Result<nat>>)
      requires Valid()
      modifies this, reader, buf
      ensures Valid() && taken + reader.data == old(taken + reader.data)
      ensures r.Ready? && r.value.Ok? ==> r.value.value == n && reader.data != [] && !f(reader.data[0])
      ensures r == Ready(Err(UnexpectedEof)) ==> reader.data == []
      ensures Polled(old(reader.data), old(reader.script), r, reader.data, reader.script)
    {
      hide Polled, Going, AllPass;
      ghost var data0, script0 := reader.data, reader.script;
      ghost var data1, script1 := data0, script0;
      GoesFrom(data0, script0);
      while true
        invariant Valid() && taken + reader.data == old(taken) + data0
        invariant Going(data0, script0, reader.data, reader.script)
        decreases |reader.script|
      {
        data1, script1 := reader.data, reader.script;
        var shown := reader.PollFillBuf();
        match shown
        case Pending =>
          r := Pending;
          break;
        case Ready(Err(e)) =>
          r := Ready(Err(e));
          break;
        case Ready(Ok(rbuf)) =>
          if |rbuf| == 0 {
            r := Ready(Err(UnexpectedEof));
            break;
          }
          var p := Span(rbuf, f);
          Keep(rbuf, p);
          reader.Consume(p);
          if p < |rbuf| {
            r := Ready(Ok(n));
            break;
          }
          GoesOn(data0, script0, data1, script1, reader.data, reader.script);
      }
      PollEnds(data0, script0, data1, script1, r, reader.data, reader.script);
    }

    // What does not fit is taken all the same.
    method Keep(rbuf: seq<Byte>, p: nat)
      requires Valid() && p <= |rbuf| && AllPass(rbuf[..p], f)
      modifies this, buf
      ensures Valid() && taken == old(taken) + rbuf[..p]
    {
      var p2 := Min(p, buf.Length - n);
      CopyFromSlice(buf, n, rbuf[..p2]);
      n := n + p2;
      taken := taken + rbuf[..p];
      assert rbuf[..p][..p2] == rbuf[..p2];
    }
  }

  class ReadByte {
    const reader: Reader
    ghost var taken: seq<Byte>

    constructor (reader: Reader)
      ensures this.reader == reader && taken == []
    {
      this.reader, taken := reader, [];
    }

    method Poll() returns (r: Poll<Result<Byte>>)
      modifies this, reader
      ensures taken + reader.data == old(taken + reader.data)
      ensures r.Ready? && r.value.Ok? ==> taken == old(taken) + [r.value.value]
      ensures !(r.Ready? && r.value.Ok?) ==> taken == old(taken)
      ensures r == Ready(Err(UnexpectedEof)) ==> reader.data == []
      ensures Polled(old(reader.data), old(reader.script), r, reader.data, reader.script)
    {
      var shown := reader.PollFillBuf();
      match shown
      case Pending => return Pending;
      case Ready(Err(e)) => return Ready(Err(e));
      case Ready(Ok(rbuf)) =>
        if |rbuf| == 0 {
          return Ready(Err(UnexpectedEof));
        }
        var b := rbuf[0];
        reader.Consume(1);
        taken := taken + [b];
        return Ready(Ok(b));
    }
  }

  // poll_read: of what is shown, as much as fits moves from the stream to the buffer.
  method PollRead(reader: Reader, buf: array<Byte>) returns (r: Poll<Result<nat>>)
    modifies reader, buf
    ensures match if old(reader.script) == [] then NotYet else old(reader.script)[0]
      case NotYet => r == Pending
      case Fail => r == Ready(Err(Other))
      case Chunk(k) => r == Ready(Ok(Min(buf.Length, Min(k + 1, |old(reader.data)|))))
    ensures reader.script == if old(reader.script) == [] then [] else old(reader.script)[1..]
    ensures r.Ready? && r.value.Ok? ==> buf[..r.value.value] + reader.data == old(reader.data)
    ensures r.Ready? && r.value.Ok? ==> buf[r.value.value..] == old(buf[..])[r.value.value..]
    ensures r == Ready(Ok(0)) ==> buf.Length == 0 || reader.data == []
    ensures !(r.Ready? && r.value.Ok?) ==> reader.data == old(reader.data) && buf[..] == old(buf[..])
  {
    var shown := reader.PollFillBuf();
    match shown
    case Pending => return Pending;
    case Ready(Err(e)) => return Ready(Err(e));
    case Ready(Ok(rbuf)) =>
      var n := Min(buf.Length, |rbuf|);
      CopyFromSlice(buf, 0, rbuf[..n]);
      reader.Consume(n);
      return Ready(Ok(n));
  }

  // from: where the part of the buffer that is still to be filled begins.
  class ReadExact {
    const reader: Reader
    const buf: array<Byte>
    var from: nat

    constructor (reader: Reader, buf: array<Byte>)
      ensures this.reader == reader && this.buf == buf && from == 0
    {
      this.reader, this.buf, from := reader, buf, 0;
    }

    // Over any number of polls the filled part and the rest of the stream are the stream; ready with the buffer
    // full, or at the end of a stream that is too short.
    method Poll() returns (r: Poll<Result<()>>)
      requires from <= buf.Length
      modifies this, reader, buf
      ensures from <= buf.Length && buf[..from] + reader.data == old(buf[..from] + reader.data)
      ensures r.Ready? && r.value.Ok? ==> from == buf.Length
      ensures r.Pending? ==> from < buf.Length
      ensures r == Ready(Err(UnexpectedEof)) ==> from < buf.Length && reader.data == []
      ensures Polled(old(reader.data), old(reader.script), r, reader.data, reader.script)
    {
      hide Polled, Going;
      ghost var data0, script0 := reader.data, reader.script;
      ghost var data1, script1 := data0, script0;
      r := Ready(Ok(()));
      GoesFrom(data0, script0);
      PollDone(data0, script0, data1, script1, r);
      while from < buf.Length
        invariant from <= buf.Length && buf[..from] + reader.data == old(buf[..from]) + data0 && r == Ready(Ok(()))
        invariant if from < buf.Length then Going(data0, script0, reader.data, reader.script)
                  else Polled(data0, script0, r, reader.data, reader.script)
        decreases |reader.script|
      {
        data1, script1 := reader.data, reader.script;
        var shown := reader.PollFillBuf();
        match shown
        case Pending =>
          r := Pending;
          break;
        case Ready(Err(e)) =>
          r := Ready(Err(e));
          break;
        case Ready(Ok(rbuf)) =>
          if |rbuf| == 0 {
            r := Ready(Err(UnexpectedEof));
            break;
          }
          var n := Min(buf.Length - from, |rbuf|);
          CopyFromSlice(buf, from, rbuf[..n]);
          reader.Consume(n);
          from := from + n;
          if from < buf.Length { GoesOn(data0, script0, data1, script1, reader.data, reader.script); }
          else { PollEnds(data0, script0, data1, script1, r, reader.data, reader.script); }
      }
      if from < buf.Length { PollEnds(data0, script0, data1, script1, r, reader.data, reader.script); }
    }
  }

  // Polled until it is ready: with enough chunks in the script, cut and delayed in any way, the buffer gets the first
  // bytes of the stream and exactly the rest is left; it fails exactly when the stream is too short.
  method CompleteExact(future: ReadExact) returns (r: Poll<Result<()>>)
    requires future.from == 0
    requires Fail !in future.reader.script && Chunks(future.reader.script) > |future.reader.data|
    modifies future, future.reader, future.buf
    ensures r.Ready? && (r.value.Ok? <==> future.buf.Length <= |old(future.reader.data)|)
    ensures r.value.Ok? ==> future.buf[..] + future.reader.data == old(future.reader.data)
    ensures r.value.Err? ==> r.value.error == UnexpectedEof && future.reader.data == []
  {
    r := future.Poll();
    while r.Pending?
      invariant future.from <= future.buf.Length
      invariant future.buf[..future.from] + future.reader.data == old(future.reader.data)
      invariant r.Ready? && r.value.Ok? ==> future.from == future.buf.Length
      invariant r.Ready? && r.value.Err? ==>
        r.value.error == UnexpectedEof && future.from < future.buf.Length && future.reader.data == []
      invariant r.Pending? ==>
        Progress(old(future.reader.data), old(future.reader.script), future.reader.data, future.reader.script, 0)
      invariant Fail !in future.reader.script
      decreases |future.reader.script|, r.Pending?
    {
      assert future.reader.script != [];
      r := future.Poll();
    }
  }

  /* ---------- copying between streams ---------- */

  // What a writer does with the bytes it is offered: not ready, take at most k, or fail.
  datatype Answer = NotReady | Take(k: nat) | Broken

  // How many answers of a script take bytes, and how many make the caller wait.
  function Takes(script: seq<Answer>): nat {
    if script == [] then 0 else (if script[0].Take? then 1 else 0) + Takes(script[1..])
  }

  function Waits(script: seq<Answer>): nat {
    if script == [] then 0 else (if script[0].NotReady? then 1 else 0) + Waits(script[1..])
  }

  class Writer {
    var written: seq<Byte>
    var script: seq<Answer>

    constructor (script: seq<Answer>)
      ensures this.script == script && written == []
    {
      this.script, written := script, [];
    }

    // A writer whose script has run out is not ready.
    method PollWrite(buf: seq<Byte>) returns (r: Poll<Result<nat>>)
      modifies this
      ensures script == if old(script) == [] then [] else old(script)[1..]
      ensures r.Pending? <==> old(script) == [] || old(script)[0] == NotReady
      ensures r.Ready? ==> r.value == if old(script)[0] == Broken then Err(Other) else Ok(Min(old(script)[0].k, |buf|))
      ensures Takes(script) + (if r.Ready? && r.value.Ok? then 1 else 0) == Takes(old(script))
      ensures Waits(script) + (if r.Pending? && old(script) != [] then 1 else 0) == Waits(old(script))
      ensures written == old(written) + if r.Ready? && r.value.Ok? then buf[..r.value.value] else []
    {
      if script == [] {
        return Pending;
      }
      var answer := script[0];
      script := script[1..];
      match answer
      case NotReady => return Pending;
      case Broken => return Ready(Err(Other));
      case Take(k) =>
        var n := Min(k, |buf|);
        written := written + buf[..n];
        return Ready(Ok(n));
    }
  }

  // What is left of the reader's and of the writer's script, and how many bytes are left to copy.
  datatype Supply = Supply(left: nat, shows: seq<Response>, answers: seq<Answer>)

  // Between two moments every chunk shown, but for spare of them, has moved a byte or met a writer that was not
  // ready, and every answer that takes bytes has taken one.
  ghost predicate Spent(s0: Supply, s1: Supply, spare: int) {
    && |s1.shows| <= |s0.shows|
    && Chunks(s0.shows) + s1.left + Waits(s1.answers) <= Chunks(s1.shows) + s0.left + Waits(s0.answers) + spare
    && Takes(s0.answers) + s1.left <= Takes(s1.answers) + s0.left
    && (forall x | x in s1.shows :: x in s0.shows)
    && (forall a | a in s1.answers :: a in s0.answers)
  }

  lemma SpentOn(s0: Supply, s1: Supply, s2: Supply, spare1: int, spare2: int)
    requires Spent(s0, s1, spare1) && Spent(s1, s2, spare2)
    ensures Spent(s0, s2, spare1 + spare2)
  {
  }

  lemma SpentLess(s0: Supply, s1: Supply, spare: int, more: int)
    requires Spent(s0, s1, spare) && spare <= more
    ensures Spent(s0, s1, more)
  {
  }

  // How many of n bytes are left after m rounds, each of which moves what the reader shows and the writer takes.
  function LeftCopied(n: nat, shows: seq<Response>, answers: seq<Answer>, m: nat): nat
    requires m <= |shows| && m <= |answers|
  {
    if m == 0 then n
    else
      var l := LeftCopied(n, shows, answers, m - 1);
      if shows[m - 1].Chunk? && answers[m - 1].Take? then l - Min(Min(shows[m - 1].k + 1, l), answers[m - 1].k) else l
  }

  // Rounds that each moved something lead from s0 to s1.
  ghost predicate Rounds(s0: Supply, s1: Supply) {
    var m := |s0.shows| - |s1.shows|;
    && 0 <= m <= |s0.answers| && s1.shows == s0.shows[m..] && s1.answers == s0.answers[m..]
    && (forall i | 0 <= i < m :: s0.shows[i].Chunk? && s0.answers[i].Take? && s0.answers[i].k > 0)
    && s1.left == LeftCopied(s0.left, s0.shows, s0.answers, m)
  }

  // What ends a poll of the copy, and its answer.
  ghost predicate CopyEnds(s0: Supply, r: Poll<Result<nat>>, s1: Supply) {
    && s1.left == s0.left
    && if s0.shows == [] then r.Pending? && s1 == s0
       else s1.shows == s0.shows[1..] && match s0.shows[0]
         case NotYet => r.Pending? && s1.answers == s0.answers
         case Fail => r == Ready(Err(Other)) && s1.answers == s0.answers
         case Chunk(_) =>
           if s0.left == 0 then r.Ready? && r.value.Ok? && s1.answers == s0.answers
           else if s0.answers == [] then r.Pending? && s1.answers == s0.answers
           else s1.answers == s0.answers[1..] && match s0.answers[0]
             case NotReady => r.Pending?
             case Broken => r == Ready(Err(Other))
             case Take(k) => k == 0 && r == Ready(Err(WriteZero))
  }

  // A poll of the copy makes all the rounds it can, and answers by what stops it.
  ghost predicate AnsweredCopy(s0: Supply, r: Poll<Result<nat>>, s1: Supply) {
    exists mid :: Rounds(s0, mid) && CopyEnds(mid, r, s1)
  }

  lemma RoundsOn(s0: Supply, s1: Supply, s2: Supply)
    requires Rounds(s0, s1) && s1.shows != [] && s1.answers != [] && s2.shows == s1.shows[1..] && s2.answers == s1.answers[1..]
    requires s1.shows[0].Chunk? && s1.answers[0].Take? && s1.answers[0].k > 0
    requires s2.left == s1.left - Min(Min(s1.shows[0].k + 1, s1.left), s1.answers[0].k)
    ensures Rounds(s0, s2)
  {
  }

  lemma StartsCopy(s0: Supply)
    ensures Spent(s0, s0, 0) && Rounds(s0, s0)
  {
  }

  lemma ReaderSpends(s0: Supply, s1: Supply, spare: nat)
    requires s1.left == s0.left && s1.answers == s0.answers && s1.shows == if s0.shows == [] then [] else s0.shows[1..]
    requires Chunks(s1.shows) + spare == Chunks(s0.shows)
    ensures Spent(s0, s1, spare)
  {
  }

  // A chunk is shown in vain to a writer whose script has run out.
  predicate Wasted<T>(r: Poll<Result<T>>, s1: Supply) {
    r.Pending? && |s1.answers| == 0 && s1.left > 0
  }

  predicate Failed<T>(r: Poll<Result<T>>) { r.Ready? && r.value.Err? }

  // What a poll of the copy guarantees.
  ghost predicate PolledCopy(s0: Supply, r: Poll<Result<nat>>, s1: Supply) {
    && (!Failed(r) ==> Spent(s0, s1, if r.Ready? || Wasted(r, s1) then 1 else 0))
    && AnsweredCopy(s0, r, s1)
    && (r.Pending? && |s0.shows| > 0 ==> |s1.shows| < |s0.shows|)
    && (Failed(r) ==>
          match r.value.error
          case WriteZero => s1.left > 0 && Take(0) in s0.answers
          case Other => Fail in s0.shows || Broken in s0.answers
          case UnexpectedEof => false)
  }

  lemma CopyAnswered(s0: Supply, s1: Supply, r: Poll<Result<nat>>, s2: Supply)
    requires Rounds(s0, s1) && CopyEnds(s1, r, s2)
    requires !Failed(r) ==> Spent(s0, s2, if r.Ready? || Wasted(r, s2) then 1 else 0)
    ensures PolledCopy(s0, r, s2)
  {
    hide Spent, LeftCopied;
    assert forall x | x in s1.shows :: x in s0.shows;
    assert forall a | a in s1.answers :: a in s0.answers;
  }

  // amt: how many bytes this future has moved.
  class CopyBuf {
    const reader: Reader
    const writer: Writer
    var amt: nat

    constructor (reader: Reader, writer: Writer)
      ensures this.reader == reader && this.writer == writer && amt == 0
    {
      this.reader, this.writer, amt := reader, writer, 0;
    }

    ghost function Left(): Supply
      reads reader, writer
    {
      Supply(|reader.data|, reader.script, writer.script)
    }

    // Over any number of polls each byte is at every moment in exactly one of the two streams, in order;
    // ready with the count moved at the end of the input.
    method Poll() returns (r: Poll<Result<nat>>)
      modifies this, reader, writer
      ensures writer.written + reader.data == old(writer.written + reader.data)
      ensures amt - old(amt) == |writer.written| - |old(writer.written)|
      ensures r.Ready? && r.value.Ok? ==> r.value.value == amt && reader.data == []
      ensures PolledCopy(old(Left()), r, Left())
    {
      hide Spent, Rounds, PolledCopy;
      ghost var s0, s1, s2 := Left(), Left(), Left();
      StartsCopy(s0);
      while true
        invariant writer.written + reader.data == old(writer.written + reader.data)
        invariant amt - old(amt) == |writer.written| - |old(writer.written)|
        invariant Spent(s0, Left(), 0) && Rounds(s0, Left()) && |reader.script| <= |s0.shows|
        decreases |reader.script|
      {
        s1 := Left();
        var shown := reader.PollFillBuf();
        s2 := Left();
        ReaderSpends(s1, s2, if shown.Ready? && shown.value.Ok? then 1 else 0);
        SpentOn(s0, s1, s2, 0, if shown.Ready? && shown.value.Ok? then 1 else 0);
        match shown
        case Pending =>
          r := Pending;
          SpentLess(s0, s2, 0, if Wasted(r, s2) then 1 else 0);
          break;
        case Ready(Err(e)) =>
          r := Ready(Err(e));
          break;
        case Ready(Ok(buffer)) =>
          if |buffer| == 0 {
            r := Ready(Ok(amt));
            break;
          }
          var taken := Offer(buffer);
          match taken
          case Pending =>
            SpentOn(s0, s2, Left(), 1, if Wasted(taken, Left()) then 0 else -1);
            r := Pending;
            break;
          case Ready(Err(e)) =>
            r := Ready(Err(e));
            break;
          case Ready(Ok(_)) =>
            SpentOn(s0, s2, Left(), 1, -1);
            RoundsOn(s0, s1, Left());
      }
      CopyAnswered(s0, s1, r, Left());
    }

    // The bytes shown are offered to the writer, and what it takes is consumed.
    method Offer(buffer: seq<Byte>) returns (r: Poll<Result<()>>)
      requires reader.lent == |buffer| <= |reader.data| && buffer == reader.data[..|buffer|] != []
      modifies this, reader, writer
      ensures writer.written + reader.data == old(writer.written + reader.data)
      ensures amt - old(amt) == |writer.written| - |old(writer.written)|
      ensures reader.script == old(reader.script)
      ensures !Failed(r) ==> Spent(old(Left()), Left(), if Wasted(r, Left()) then 0 else -1)
      ensures r.Pending? ==> |reader.data| > 0
      ensures writer.script == if old(writer.script) == [] then [] else old(writer.script)[1..]
      ensures match if old(writer.script) == [] then NotReady else old(writer.script)[0]
        case NotReady => r == Pending && reader.data == old(reader.data)
        case Broken => r == Ready(Err(Other)) && reader.data == old(reader.data)
        case Take(k) =>
          if k == 0 then r == Ready(Err(WriteZero)) && reader.data == old(reader.data)
          else r == Ready(Ok(())) && |reader.data| == |old(reader.data)| - Min(|buffer|, k)
    {
      var taken := writer.PollWrite(buffer);
      match taken
      case Pending => return Pending;
      case Ready(Err(e)) => return Ready(Err(e));
      case Ready(Ok(i)) =>
        if i == 0 {
          return Ready(Err(WriteZero));
        }
        amt := amt + i;
        reader.Consume(i);
        return Ready(Ok(()));
    }
  }

  // Polled until it is ready: if nothing fails, the writer takes often enough, and the reader shows a chunk for every
  // byte, for every time the writer is not ready, and one more, then the copy ends with everything written, in order.
  method CompleteCopy(future: CopyBuf) returns (r: Poll<Result<nat>>)
    requires future.amt == 0
    requires Fail !in future.reader.script && Broken !in future.writer.script && Take(0) !in future.writer.script
    requires Takes(future.writer.script) >= |future.reader.data|
    requires Chunks(future.reader.script) > |future.reader.data| + Waits(future.writer.script)
    modifies future, future.reader, future.writer
    ensures r == Ready(Ok(|old(future.reader.data)|)) && future.reader.data == []
    ensures future.writer.written == old(future.writer.written + future.reader.data)
  {
    r := future.Poll();
    while r.Pending?
      invariant future.writer.written + future.reader.data == old(future.writer.written + future.reader.data)
      invariant future.amt == |future.writer.written| - |old(future.writer.written)|
      invariant r.Ready? ==> r == Ready(Ok(future.amt)) && future.reader.data == []
      invariant r.Pending? ==> Spent(old(future.Left()), future.Left(), 0)
      decreases |future.reader.script|, r.Pending?
    {
      assert future.reader.script != [];
      r := future.Poll();
    }
  }
}
