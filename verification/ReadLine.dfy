/** read_line: four futures in a row, and what they make of a stream however it is cut into chunks. */
module ReadLine {
  import opened Basics
  import opened AsyncIo

  predicate IsEol(b: Byte) { b == CR || b == LF }

  predicate NotEol(b: Byte) { b != CR && b != LF }

  predicate IsCr(b: Byte) { b == CR }

  // A stream taken apart: leading line ends, the line, carriage returns, the byte after them, and what is left.
  datatype Line = Line(eols: seq<Byte>, text: seq<Byte>, crs: seq<Byte>, last: Byte, rest: seq<Byte>)

  // What read_line makes of a whole stream, with no mention of chunks.
  function ParseLine(s: seq<Byte>): Option<Line> {
    var a := Span(s, IsEol);
    var s1 := s[a..];
    var b := Span(s1, NotEol);
    var s2 := s1[b..];
    var c := Span(s2, IsCr);
    if c == |s2| then None else Some(Line(s[..a], s1[..b], s2[..c], s2[c], s2[c + 1..]))
  }

  // The grammar: (CR | LF)* text CR* last rest.
  ghost predicate IsLine(s: seq<Byte>, l: Line) {
    && s == l.eols + l.text + l.crs + [l.last] + l.rest
    && AllPass(l.eols, IsEol) && l.text != [] && AllPass(l.text, NotEol)
    && AllPass(l.crs, IsCr) && l.last != 13 && (l.crs == [] ==> l.last == 10)
  }

  lemma {:induction false} SpanIs(x: seq<Byte>, y: seq<Byte>, f: Byte -> bool)
    requires AllPass(x, f) && (y != [] ==> !f(y[0]))
    ensures Span(x + y, f) == |x|
  {
    if x == [] {
      assert x + y == y;
    } else {
      assert (x + y)[1..] == x[1..] + y;
      SpanIs(x[1..], y, f);
    }
  }

  lemma Cut(x: seq<Byte>, y: seq<Byte>)
    ensures (x + y)[..|x|] == x && (x + y)[|x|..] == y
  {
  }

  // The stream that has been consumed as far as the given pieces.
  lemma ParseIs(eols: seq<Byte>, text: seq<Byte>, crs: seq<Byte>, rest: seq<Byte>)
    requires AllPass(eols, IsEol) && AllPass(text, NotEol) && AllPass(crs, IsCr)
    requires text + (crs + rest) != [] ==> NotEol((text + (crs + rest))[0])
    requires crs + rest != [] ==> IsEol((crs + rest)[0])
    requires rest != [] ==> rest[0] != CR
    ensures ParseLine(eols + (text + (crs + rest)))
         == if rest == [] then None else Some(Line(eols, text, crs, rest[0], rest[1..]))
  {
    SpanIs(eols, text + (crs + rest), IsEol);
    Cut(eols, text + (crs + rest));
    SpanIs(text, crs + rest, NotEol);
    Cut(text, crs + rest);
    SpanIs(crs, rest, IsCr);
    Cut(crs, rest);
  }

  lemma Regroup(a: seq<Byte>, b: seq<Byte>, c: seq<Byte>, d: seq<Byte>, e: seq<Byte>)
    ensures a + b + c + d + e == a + (b + (c + (d + e)))
  {
  }

  lemma LinesAreParsed(s: seq<Byte>, l: Line)
    requires IsLine(s, l)
    ensures ParseLine(s) == Some(l)
  {
    var rest := [l.last] + l.rest;
    Regroup(l.eols, l.text, l.crs, [l.last], l.rest);
    assert (l.crs + rest)[0] == if l.crs == [] then l.last else l.crs[0];
    assert (l.text + (l.crs + rest))[0] == l.text[0];
    ParseIs(l.eols, l.text, l.crs, rest);
  }

  // What the three spans leave, put together again.
  lemma Rejoined(l: Line, s: seq<Byte>, s1: seq<Byte>, s2: seq<Byte>)
    requires s == l.eols + s1 && s1 == l.text + s2 && s2 == l.crs + ([l.last] + l.rest)
    ensures s == l.eols + l.text + l.crs + [l.last] + l.rest
  {
    Regroup(l.eols, l.text, l.crs, [l.last], l.rest);
  }

  lemma SplitAt(s: seq<Byte>, n: nat)
    requires n <= |s|
    ensures s == s[..n] + s[n..]
    ensures n < |s| ==> s[n..][0] == s[n] && s[n..] == [s[n]] + s[n + 1..]
  {
  }

  lemma ParsedAreLines(s: seq<Byte>, l: Line)
    requires ParseLine(s) == Some(l)
    ensures IsLine(s, l)
  {
    hide Span;
    var a := Span(s, IsEol);
    var s1 := s[a..];
    var b := Span(s1, NotEol);
    var s2 := s1[b..];
    var c := Span(s2, IsCr);
    SplitAt(s, a);
    SplitAt(s1, b);
    SplitAt(s2, c);
    Rejoined(l, s, s1, s2);
  }

  // The parser finds exactly the lines of the grammar.
  lemma ParseLineExactly(s: seq<Byte>, l: Line)
    ensures IsLine(s, l) <==> ParseLine(s) == Some(l)
  {
    if IsLine(s, l) { LinesAreParsed(s, l); }
    if ParseLine(s) == Some(l) { ParsedAreLines(s, l); }
  }

  // The byte after the carriage returns is eaten whatever it is: it is a line feed unless a carriage return
  // stood alone, and then the following text loses its first byte.
  lemma LoneReturnEatsAByte(text: seq<Byte>, crs: seq<Byte>, b: Byte, rest: seq<Byte>)
    requires text != [] && AllPass(text, NotEol) && crs != [] && AllPass(crs, IsCr) && NotEol(b)
    ensures ParseLine(text + crs + ([b] + rest)) == Some(Line([], text, crs, b, rest))
  {
    assert text + crs + ([b] + rest) == [] + text + crs + [b] + rest;
    ParseLineExactly(text + crs + ([b] + rest), Line([], text, crs, b, rest));
  }

  // The answer of one future in the row is that of the row, after futures that used up only chunks.
  lemma StageEnds<T, U>(s0: seq<Response>, s1: seq<Response>, done: Poll<Result<T>>, s2: seq<Response>, r: Poll<Result<U>>)
    requires Shown(s0, s1, 0) && Answered(s1, done, s2)
    requires r.Pending? == done.Pending?
    requires r.Ready? ==> r.value.Ok? == done.value.Ok? && (r.value.Err? ==> r.value.error == done.value.error)
    ensures Answered(s0, r, s2) && (r.Pending? && s0 != [] ==> |s2| < |s0|)
  {
    AnsweredOn(s0, s1, done, s2);
  }

  lemma StagePasses<T>(s0: seq<Response>, s1: seq<Response>, done: Poll<Result<T>>, s2: seq<Response>)
    requires Shown(s0, s1, 0) && Answered(s1, done, s2) && done.Ready? && done.value.Ok?
    ensures Shown(s0, s2, 0)
  {
    AnsweredOn(s0, s1, done, s2);
  }

  lemma RowPasses(s0: seq<Response>, s1: seq<Response>)
    requires Shown(s0, s1, 0)
    ensures Answered(s0, Poll<Result<()>>.Ready(Ok(())), s1)
  {
  }

  lemma NothingUsed(s0: seq<Response>)
    ensures Shown(s0, s0, 0)
  {
  }

  class ReadLine {
    const reader: Reader
    const skip: SkipWhile
    const read: ReadWhile
    const skipCr: SkipWhile
    const end: ReadByte
    // How many of the four futures are done.
    var stage: nat

    constructor (reader: Reader, buf: array<Byte>)
      ensures Valid() && stage == 0 && this.reader == reader && read.buf == buf && fresh(Futures())
      ensures Stream() == reader.data
    {
      this.reader := reader;
      skip := new SkipWhile(reader, IsEol);
      read := new ReadWhile(reader, NotEol, buf);
      skipCr := new SkipWhile(reader, IsCr);
      end := new ReadByte(reader);
      stage := 0;
    }

    ghost function Futures(): set<object> {
      {this, skip, read, skipCr, end}
    }

    ghost function Repr(): set<object> {
      Futures() + {read.buf, reader}
    }

    // All bytes consumed so far and all still to come: no poll changes this.
    ghost function Stream(): seq<Byte>
      reads Repr()
    {
      skip.taken + (read.taken + (skipCr.taken + (end.taken + reader.data)))
    }

    ghost predicate Valid()
      reads Repr()
    {
      && skip != skipCr && skip.reader == reader && read.reader == reader && skipCr.reader == reader && end.reader == reader
      && skip.f == IsEol && read.f == NotEol && skipCr.f == IsCr
      && AllPass(skip.taken, IsEol) && read.Valid() && AllPass(skipCr.taken, IsCr)
      && stage <= 4
      && (stage < 1 ==> read.taken == []) && (stage < 2 ==> skipCr.taken == []) && (stage < 4 ==> end.taken == [])
      && (stage >= 1 ==> var s := read.taken + (skipCr.taken + (end.taken + reader.data)); s != [] && NotEol(s[0]))
      && (stage >= 2 ==> var s := skipCr.taken + (end.taken + reader.data); s != [] && IsEol(s[0]))
      && (stage >= 3 ==> var s := end.taken + reader.data; s != [] && s[0] != CR)
    }

    method PollSkip() returns (r: Poll<Result<()>>)
      requires Valid() && stage == 0
      modifies Repr()
      ensures Valid() && Stream() == old(Stream())
      ensures stage == if r.Ready? && r.value.Ok? then 1 else 0
      ensures r == Ready(Err(UnexpectedEof)) ==> ParseLine(Stream()) == None
      ensures Polled(old(reader.data), old(reader.script), r, reader.data, reader.script)
    {
      assert Stream() == skip.taken + reader.data;
      r := skip.Poll();
      assert Stream() == skip.taken + reader.data;
      if r.Ready? && r.value.Ok? {
        stage := 1;
        assert read.taken + (skipCr.taken + (end.taken + reader.data)) == reader.data;
      } else if r == Ready(Err(UnexpectedEof)) {
        ParseIs(skip.taken, [], [], []);
      }
    }

    method PollRead() returns (r: Poll<Result<nat>>)
      requires Valid() && stage == 1
      modifies Repr()
      ensures Valid() && Stream() == old(Stream())
      ensures stage == if r.Ready? && r.value.Ok? then 2 else 1
      ensures r.Ready? && r.value.Ok? ==> r.value.value == read.n
      ensures r == Ready(Err(UnexpectedEof)) ==> ParseLine(Stream()) == None
      ensures Polled(old(reader.data), old(reader.script), r, reader.data, reader.script)
    {
      assert read.taken + (skipCr.taken + (end.taken + reader.data)) == read.taken + reader.data;
      r := read.Poll();
      assert read.taken + (skipCr.taken + (end.taken + reader.data)) == read.taken + reader.data;
      if r.Ready? && r.value.Ok? {
        stage := 2;
        assert skipCr.taken + (end.taken + reader.data) == reader.data;
      } else if r == Ready(Err(UnexpectedEof)) {
        ParseIs(skip.taken, read.taken, [], []);
      }
    }

    method PollSkipCr() returns (r: Poll<Result<()>>)
      requires Valid() && stage == 2
      modifies Repr()
      ensures Valid() && Stream() == old(Stream())
      ensures stage == if r.Ready? && r.value.Ok? then 3 else 2
      ensures r == Ready(Err(UnexpectedEof)) ==> ParseLine(Stream()) == None
      ensures Polled(old(reader.data), old(reader.script), r, reader.data, reader.script)
    {
      assert skipCr.taken + (end.taken + reader.data) == skipCr.taken + reader.data;
      r := skipCr.Poll();
      assert skipCr.taken + (end.taken + reader.data) == skipCr.taken + reader.data;
      if r.Ready? && r.value.Ok? {
        stage := 3;
        assert end.taken + reader.data == reader.data;
      } else if r == Ready(Err(UnexpectedEof)) {
        ParseIs(skip.taken, read.taken, skipCr.taken, []);
      }
    }

    method PollEnd() returns (r: Poll<Result<Byte>>)
      requires Valid() && stage == 3
      modifies Repr()
      ensures Valid() && Stream() == old(Stream())
      ensures stage == if r.Ready? && r.value.Ok? then 4 else 3
      ensures r.Ready? && r.value.Ok? ==>
        ParseLine(Stream()) == Some(Line(skip.taken, read.taken, skipCr.taken, r.value.value, reader.data))
      ensures r != Ready(Err(UnexpectedEof))
      ensures Polled(old(reader.data), old(reader.script), r, reader.data, reader.script)
    {
      assert end.taken + reader.data == reader.data;
      r := end.Poll();
      if r.Ready? && r.value.Ok? {
        stage := 4;
        assert end.taken + reader.data == [r.value.value] + reader.data;
        ParseIs(skip.taken, read.taken, skipCr.taken, end.taken + reader.data);
      }
    }

    // The first three futures.
    method PollThree() returns (r: Poll<Result<()>>)
      requires Valid() && stage < 4
      modifies Repr()
      ensures Valid() && Stream() == old(Stream()) && old(stage) <= stage
      ensures stage <= 3 && (stage == 3 <==> r.Ready? && r.value.Ok?)
      ensures r == Ready(Err(UnexpectedEof)) ==> ParseLine(Stream()) == None
      ensures r.Ready? && r.value.Err? ==> r.value.error == UnexpectedEof || Fail in old(reader.script)
      ensures Progress(old(reader.data), old(reader.script), reader.data, reader.script,
        stage - old(stage) + if r.Ready? && r.value.Err? then 1 else 0)
      ensures Answered(old(reader.script), r, reader.script)
    {
      hide Answered, Shown, TookAll, ParseLine, Chunks, AllPass;
      ghost var s0 := reader.script;
      ghost var s1 := s0;
      NothingUsed(s0);
      if stage == 0 {
        var done := PollSkip();
        match done
        case Pending =>
          r := Pending;
          StageEnds(s0, s1, done, reader.script, r);
          return;
        case Ready(Err(e)) =>
          r := Ready(Err(e));
          StageEnds(s0, s1, done, reader.script, r);
          return;
        case Ready(Ok(_)) => StagePasses(s0, s1, done, reader.script);
        s1 := reader.script;
      }
      if stage == 1 {
        var done := PollRead();
        match done
        case Pending =>
          r := Pending;
          StageEnds(s0, s1, done, reader.script, r);
          return;
        case Ready(Err(e)) =>
          r := Ready(Err(e));
          StageEnds(s0, s1, done, reader.script, r);
          return;
        case Ready(Ok(_)) => StagePasses(s0, s1, done, reader.script);
        s1 := reader.script;
      }
      if stage == 2 {
        var done := PollSkipCr();
        match done
        case Pending =>
          r := Pending;
          StageEnds(s0, s1, done, reader.script, r);
          return;
        case Ready(Err(e)) =>
          r := Ready(Err(e));
          StageEnds(s0, s1, done, reader.script, r);
          return;
        case Ready(Ok(_)) => StagePasses(s0, s1, done, reader.script);
        s1 := reader.script;
      }
      r := Ready(Ok(()));
      RowPasses(s0, reader.script);
    }

    // Whatever the chunks and wherever the polls were pending: ready with a line exactly when the stream holds one,
    // with as much of its text as fits in the buffer and with exactly its rest unread.
    method Poll() returns (r: Poll<Result<nat>>)
      requires Valid() && stage < 4
      modifies Repr()
      ensures Valid() && Stream() == old(Stream()) && old(stage) <= stage
      ensures r.Ready? && r.value.Ok? ==> ParseLine(Stream()).Some?
      ensures r.Ready? && r.value.Ok? ==> (
        var l := ParseLine(Stream()).value;
        r.value.value == Min(|l.text|, read.buf.Length) && read.buf[..r.value.value] == l.text[..r.value.value]
        && reader.data == l.rest)
      ensures r == Ready(Err(UnexpectedEof)) ==> ParseLine(Stream()) == None
      ensures r.Pending? ==> stage < 4
      ensures r.Ready? && r.value.Err? ==> r.value.error == UnexpectedEof || Fail in old(reader.script)
      ensures Progress(old(reader.data), old(reader.script), reader.data, reader.script,
        stage - old(stage) + if r.Ready? && r.value.Err? then 1 else 0)
      ensures r.Pending? && old(reader.script) != [] ==> |reader.script| < |old(reader.script)|
      ensures Answered(old(reader.script), r, reader.script)
    {
      hide Answered, Shown, TookAll, ParseLine, Chunks, AllPass;
      ghost var s0 := reader.script;
      var three := PollThree();
      ghost var s1 := reader.script;
      NothingUsed(s0);
      match three
      case Pending =>
        r := Pending;
        StageEnds(s0, s0, three, s1, r);
      case Ready(Err(e)) =>
        r := Ready(Err(e));
        StageEnds(s0, s0, three, s1, r);
      case Ready(Ok(_)) =>
        StagePasses(s0, s0, three, s1);
        var done := PollEnd();
        r := match done
          case Pending => Pending
          case Ready(Err(e)) => Ready(Err(e))
          case Ready(Ok(_)) => Ready(Ok(read.n));
        StageEnds(s0, s1, done, reader.script, r);
    }
  }

  // Polled until it is ready: with enough chunks in the script, in any sizes and with anything pending in between,
  // the outcome is that of the stream alone.
  method Complete(line: ReadLine) returns (r: Poll<Result<nat>>)
    requires line.Valid() && line.stage == 0
    requires Fail !in line.reader.script && Chunks(line.reader.script) >= |line.reader.data| + 4
    modifies line.Repr()
    ensures r.Ready? && (r.value.Ok? <==> ParseLine(old(line.Stream())).Some?)
    ensures r.value.Ok? ==> (
      var l := ParseLine(old(line.Stream())).value;
      r.value.value == Min(|l.text|, line.read.buf.Length) && line.read.buf[..r.value.value] == l.text[..r.value.value]
      && line.reader.data == l.rest)
    ensures r.value.Err? ==> r.value.error == UnexpectedEof
  {
    r := line.Poll();
    while r.Pending?
      invariant line.Valid() && line.Stream() == old(line.Stream()) && (r.Pending? ==> line.stage < 4)
      invariant r.Ready? && r.value.Ok? ==> ParseLine(line.Stream()).Some?
      invariant r.Ready? && r.value.Ok? ==> (
        var l := ParseLine(line.Stream()).value;
        r.value.value == Min(|l.text|, line.read.buf.Length) && line.read.buf[..r.value.value] == l.text[..r.value.value]
        && line.reader.data == l.rest)
      invariant r.Ready? && r.value.Err? ==> r.value.error == UnexpectedEof && ParseLine(line.Stream()) == None
      invariant r.Pending? ==> Progress(old(line.reader.data), old(line.reader.script), line.reader.data, line.reader.script, line.stage)
      invariant Fail !in line.reader.script
      decreases |line.reader.script|, r.Pending?
    {
      assert line.reader.script != [];
      r := line.Poll();
    }
  }
}
