/** The incremental decoder against the one-shot reading of the whole message. */
module ResponseDecoding {
  import opened Bytes
  import opened ResponseSpec
  import opened ResponseFragments

  // ---------------------------------------------------------------- lines and events

  function TakeLines(read: Reader, e: Events, lines: seq<bytes>): Option<Events>
    decreases |lines|
  {
    if lines == [] then Some(e)
    else
      match read.takeLine(e, lines[0])
      case None => None
      case Some(f) => TakeLines(read, f, lines[1..])
  }

  lemma {:induction false} DrainSplit(read: Reader, c: Content)
    ensures var lines := Split(c.body, LF);
            Drain(read, c) ==
            match TakeLines(read, c.events, lines[..|lines| - 1])
            case None => None
            case Some(e) => Some(Content(lines[|lines| - 1], e))
    decreases |c.body|
  {
    var i := Index(c.body, LF);
    if i == |c.body| {
    } else {
      var lines, more := Split(c.body, LF), Split(c.body[i + 1..], LF);
      assert lines == [c.body[..i]] + more;
      assert lines[..|lines| - 1][0] == c.body[..i];
      assert lines[..|lines| - 1][1..] == more[..|more| - 1];
      var e := read.takeLine(c.events, c.body[..i]);
      if e.Some? {
        DrainSplit(read, Content(c.body[i + 1..], e.value));
      }
    }
  }

  /** The models after a list of complete lines, if no event is left open. */
  function Closed(e: Option<Events>): Option<seq<string>> {
    if e.Some? && e.value.data == [] then Some(e.value.models) else None
  }

  function ReadLines(parse: Parser, data: seq<bytes>, models: seq<string>, lines: seq<bytes>): Option<seq<string>> {
    match Group(lines, data)
    case None => None
    case Some(events) =>
      match ModelsOf(parse, events)
      case None => None
      case Some(more) => if |models + more| > MAX_MODELS then None else Some(models + more)
  }

  lemma TotalSizeGrows(data: seq<bytes>, value: bytes)
    ensures TotalSize(data + [value]) == TotalSize(data) + |value| + 1
  {
  }

  lemma {:induction false} ReadBlank(parse: Parser, data: seq<bytes>, models: seq<string>, lines: seq<bytes>)
    requires lines != [] && DropCR(lines[0]) == []
    ensures ReadLines(parse, data, models, lines) ==
            if data == [] then ReadLines(parse, [], models, lines[1..])
            else
              match Reported(parse, EventStream, Join(data, [LF]))
              case None => None
              case Some(m) => ReadLines(parse, [], models + (if m.Some? then [m.value] else []), lines[1..])
  {
    var more := Group(lines[1..], []);
    if more.Some? {
      if data == [] {
        assert [] + more.value == more.value;
      } else {
        var events := [data] + more.value;
        assert events[0] == data && events[1..] == more.value;
        var m, rest := Reported(parse, EventStream, Join(data, [LF])), ModelsOf(parse, more.value);
        if m.Some? && rest.Some? {
          var here := if m.value.Some? then [m.value.value] else [];
          assert models + (here + rest.value) == models + here + rest.value;
        }
      }
    }
  }

  predicate Counted(e: Events) {
    e.size == TotalSize(e.data) && |e.models| <= MAX_MODELS
  }

  lemma TooMany(parse: Parser, models: seq<string>, lines: seq<bytes>)
    requires |models| > MAX_MODELS
    ensures ReadLines(parse, [], models, lines) == None
  {
  }

  lemma ReadEvent(parse: Parser, models: seq<string>, raw: bytes, lines: seq<bytes>)
    requires |models| <= MAX_MODELS
    ensures (match AddEvent(parse, EventStream, models, raw)
             case None => None
             case Some(grown) => ReadLines(parse, [], grown, lines)) ==
            match Reported(parse, EventStream, raw)
            case None => None
            case Some(m) => ReadLines(parse, [], models + (if m.Some? then [m.value] else []), lines)
  {
    var m := Reported(parse, EventStream, raw);
    if m.Some? && m.value.None? { assert models + [] == models; }
    if m.Some? && m.value.Some? && |models| == MAX_MODELS { TooMany(parse, models + [m.value.value], lines); }
  }

  /** One line, taken now or read later with the lines after it. */
  lemma TakeLineReads(parse: Parser, e: Events, lines: seq<bytes>)
    requires Counted(e) && lines != []
    ensures ReadLines(parse, e.data, e.models, lines) ==
            match TakeLine(parse, e, lines[0])
            case None => None
            case Some(f) => ReadLines(parse, f.data, f.models, lines[1..])
    ensures TakeLine(parse, e, lines[0]).Some? ==> Counted(TakeLine(parse, e, lines[0]).value)
  {
    var text := DropCR(lines[0]);
    if text == [] {
      ReadBlank(parse, e.data, e.models, lines);
      if e.data != [] { ReadEvent(parse, e.models, Join(e.data, [LF]), lines[1..]); }
    } else if IsData(text) {
      TotalSizeGrows(e.data, DataValue(text));
    }
  }

  /** Taking lines one at a time reads the same models as grouping them first. */
  lemma {:induction false} TakeLinesReads(parse: Parser, e: Events, lines: seq<bytes>)
    requires Counted(e)
    ensures Closed(TakeLines(ReaderOf(parse), e, lines)) == ReadLines(parse, e.data, e.models, lines)
    decreases |lines|
  {
    if lines == [] {
      assert e.models + [] == e.models;
    } else {
      TakeLineReads(parse, e, lines);
      var f := TakeLine(parse, e, lines[0]);
      if f.Some? {
        TakeLinesReads(parse, f.value, lines[1..]);
      }
    }
  }

  lemma ReadFromNothing(parse: Parser, lines: seq<bytes>)
    ensures ReadLines(parse, [], [], lines) ==
            match Group(lines, [])
            case None => None
            case Some(events) =>
              match ModelsOf(parse, events)
              case None => None
              case Some(models) => if |models| > MAX_MODELS then None else Some(models)
  {
    var events := Group(lines, []);
    if events.Some? && ModelsOf(parse, events.value).Some? {
      var models := ModelsOf(parse, events.value).value;
      assert [] + models == models;
    }
  }

  /** What a reader reports of a complete body. */
  function ReadWith(read: Reader, kind: Kind, body: bytes): Option<seq<string>> {
    match Absorb(read, kind, NO_CONTENT, body)
    case None => None
    case Some(c) =>
      if kind == Document then read.takeDocument(c.body)
      else if c.body == [] then Closed(Some(c.events))
      else None
  }

  lemma StreamReads(read: Reader, body: bytes)
    ensures var lines := Split(body, LF);
            ReadWith(read, EventStream, body) ==
            if lines[|lines| - 1] == [] then Closed(TakeLines(read, NO_EVENTS, lines[..|lines| - 1])) else None
  {
    assert [] + body == body;
    DrainSplit(read, Content(body, NO_EVENTS));
  }

  lemma DocumentReads(parse: Parser, body: bytes)
    ensures ReadWith(ReaderOf(parse), Document, body) == ReadBody(parse, Document, body)
  {
    assert [] + body == body;
    var m := Reported(parse, Document, body);
    if m.Some? && m.value.Some? { assert [] + [m.value.value] == [m.value.value]; }
  }

  /** Reading a body line by line reports what reading it whole reports. */
  lemma BodyReads(parse: Parser, kind: Kind, body: bytes)
    ensures ReadWith(ReaderOf(parse), kind, body) == ReadBody(parse, kind, body)
  {
    if kind == Document {
      DocumentReads(parse, body);
    } else {
      var lines := Split(body, LF);
      StreamReads(ReaderOf(parse), body);
      TakeLinesReads(parse, NO_EVENTS, lines[..|lines| - 1]);
      ReadFromNothing(parse, lines[..|lines| - 1]);
    }
  }

  // ---------------------------------------------------------------- what is left over

  predicate Drained(kind: Kind, c: Content) {
    kind == EventStream ==> LF !in c.body
  }

  /** `t` is the end of `b` after its last line feed. */
  ghost predicate IsTail(t: bytes, b: bytes) {
    |t| <= |b| && b[|b| - |t|..] == t && LF !in t
  }

  lemma TailOfRest(t: bytes, b: bytes, k: nat)
    requires k <= |b| && IsTail(t, b[k..])
    ensures IsTail(t, b)
  {
  }

  lemma {:induction false} DrainTail(read: Reader, c: Content)
    requires Drain(read, c).Some?
    ensures IsTail(Drain(read, c).value.body, c.body)
    decreases |c.body|
  {
    var i := Index(c.body, LF);
    if i == |c.body| {
      assert c.body[0..] == c.body;
      IndexAbsent(c.body, LF);
    } else {
      DrainTail(read, Content(c.body[i + 1..], read.takeLine(c.events, c.body[..i]).value));
      TailOfRest(Drain(read, c).value.body, c.body, i + 1);
    }
  }

  lemma TailFits(t: bytes, x: bytes, y: bytes)
    requires IsTail(t, x) && ShortLines(x + y)
    ensures |t| <= MAX_EVENT
  {
    var i := |x| - |t|;
    assert (x + y)[i..|x|] == x[i..];
    assert 0 <= i <= |x| <= |x + y| && LF !in (x + y)[i..|x|];
  }

  lemma AbsorbDrains(read: Reader, kind: Kind, c: Content, x: bytes)
    requires Absorb(read, kind, c, x).Some?
    ensures Drained(kind, Absorb(read, kind, c, x).value)
  {
    if kind == EventStream { DrainTail(read, c.(body := c.body + x)); }
  }

  lemma AbsorbNothing(read: Reader, kind: Kind, c: Content)
    requires Drained(kind, c)
    ensures Absorb(read, kind, c, []) == Some(c)
  {
    assert c.body + [] == c.body;
    if kind == EventStream { assert Index(c.body, LF) == |c.body|; }
  }

  /** The bytes waiting for a line feed are a stretch of the body without one. */
  lemma LeftoverFits(read: Reader, kind: Kind, x: bytes, y: bytes)
    requires BodyFits(kind, x + y) && Absorb(read, kind, NO_CONTENT, x).Some?
    ensures |Absorb(read, kind, NO_CONTENT, x).value.body| <= MAX_EVENT
  {
    assert [] + x == x;
    if kind == EventStream {
      DrainTail(read, Content(x, NO_EVENTS));
      TailFits(Absorb(read, kind, NO_CONTENT, x).value.body, x, y);
    }
  }

  // ---------------------------------------------------------------- the chunk loop

  /** The body still to come when `w` holds all the bytes that remain. */
  function DechunkFrom(w: Wire): Option<bytes> {
    if w.done then
      if w.buf == [] then Some([]) else None
    else if w.ending then
      if w.buf == CRLF then Some([]) else None
    else
      match w.left
      case None => Dechunk(w.buf)
      case Some(n) => AfterSize(w.buf, n)
  }

  lemma DechunkSizeLine(buf: bytes)
    requires SizeLine(buf).Some?
    ensures var (n, rest) := SizeLine(buf).value;
            Dechunk(buf) == DechunkFrom(Wire(rest, Some(n), n == 0, false))
  {
  }

  lemma SizeLineProgress(buf: bytes, more: bytes)
    requires SizeLine(buf).Some?
    ensures var (n, rest) := SizeLine(buf).value;
            DechunkFrom(Wire(buf + more, None, false, false)) ==
            DechunkFrom(Wire(rest + more, Some(n), n == 0, false))
  {
    SizeLineKept(buf, more);
    DechunkSizeLine(buf + more);
  }

  lemma ChunkEndProgress(buf: bytes, more: bytes)
    requires |buf| >= 2 && buf[..2] == CRLF
    ensures DechunkFrom(Wire(buf + more, Some(0), false, false)) ==
            DechunkFrom(Wire(buf[2..] + more, None, false, false))
  {
    var longer := buf + more;
    assert longer[..0] == [] && longer[0..2] == buf[..2] && longer[2..] == buf[2..] + more;
    PrependEnds([], Dechunk(longer[2..]));
  }

  lemma UnchunkSizeLine(read: Reader, kind: Kind, buf: bytes, c: Content)
    requires SizeLine(buf).Some?
    ensures var (n, rest) := SizeLine(buf).value;
            Unchunk(read, kind, Wire(buf, None, false, false), c) ==
            Unchunk(read, kind, Wire(rest, Some(n), n == 0, false), c)
  {
  }

  lemma UnchunkChunkEnd(read: Reader, kind: Kind, buf: bytes, c: Content)
    requires |buf| >= 2 && buf[..2] == CRLF
    ensures Unchunk(read, kind, Wire(buf, Some(0), false, false), c) ==
            Unchunk(read, kind, Wire(buf[2..], None, false, false), c)
  {
  }

  /** The loop has nothing it can do before more bytes arrive. */
  predicate Stuck(w: Wire) {
    || w.buf == []
    || (!w.done && w.ending && |w.buf| < 2)
    || (!w.done && !w.ending && w.left.None? && Find(w.buf, CRLF) < 0)
    || (!w.done && !w.ending && w.left == Some(0) && |w.buf| < 2)
  }

  lemma StuckStops(read: Reader, kind: Kind, w: Wire, c: Content)
    requires Unchunk(read, kind, w, c).Some?
    ensures Stuck(w) ==> Unchunk(read, kind, w, c) == Some((w, c))
    ensures !Stuck(w) ==> !w.done
    ensures !Stuck(w) && w.ending ==> Unchunk(read, kind, w, c) == Some((w.(buf := [], done := true), c)) && w.buf == CRLF
    ensures !Stuck(w) && !w.ending && w.left.None? ==> SizeLine(w.buf).Some?
    ensures !Stuck(w) && !w.ending && w.left == Some(0) ==> w.buf[..2] == CRLF
  {
  }

  /** What the loop turned into content is exactly what it took off the remaining body. */
  lemma {:induction false} UnchunkProgress(read: Reader, kind: Kind, w: Wire, c: Content, more: bytes) returns (x: bytes)
    requires Unchunk(read, kind, w, c).Some? && Drained(kind, c)
    ensures var (v, d) := Unchunk(read, kind, w, c).value;
            && Absorb(read, kind, c, x) == Some(d)
            && DechunkFrom(w.(buf := w.buf + more)) == Prepend(x, DechunkFrom(v.(buf := v.buf + more)))
    decreases |w.buf|
  {
    StuckStops(read, kind, w, c);
    if Stuck(w) || w.ending {
      x := [];
      AbsorbNothing(read, kind, c);
      PrependEnds([], DechunkFrom(w.(buf := w.buf + more)));
      assert w.buf == CRLF ==> (w.buf + more == CRLF <==> more == []);
    } else if w.left.None? {
      x := SizeLineTaken(read, kind, w.buf, c, more);
    } else if w.left.value == 0 {
      UnchunkChunkEnd(read, kind, w.buf, c);
      ChunkEndProgress(w.buf, more);
      x := UnchunkProgress(read, kind, Wire(w.buf[2..], None, false, false), c, more);
    } else if w.left.value <= |w.buf| {
      x := WholeChunkProgress(read, kind, w.buf, w.left.value, c, more);
    } else {
      x := w.buf;
      PartialChunk(read, kind, w.buf, w.left.value, c);
      PartialProgress(w.buf, w.left.value, more);
      assert [] + more == more;
    }
  }

  lemma {:induction false} SizeLineTaken(read: Reader, kind: Kind, buf: bytes, c: Content, more: bytes) returns (x: bytes)
    requires SizeLine(buf).Some? && Drained(kind, c)
    requires Unchunk(read, kind, Wire(buf, None, false, false), c).Some?
    ensures var (v, d) := Unchunk(read, kind, Wire(buf, None, false, false), c).value;
            && Absorb(read, kind, c, x) == Some(d)
            && DechunkFrom(Wire(buf + more, None, false, false)) == Prepend(x, DechunkFrom(v.(buf := v.buf + more)))
    decreases |buf|, 0
  {
    var (n, rest) := SizeLine(buf).value;
    UnchunkSizeLine(read, kind, buf, c);
    SizeLineProgress(buf, more);
    x := UnchunkProgress(read, kind, Wire(rest, Some(n), n == 0, false), c, more);
  }

  lemma PartialProgress(buf: bytes, left: nat, more: bytes)
    requires left > |buf|
    ensures DechunkFrom(Wire(buf + more, Some(left), false, false)) ==
            Prepend(buf, DechunkFrom(Wire(more, Some(left - |buf|), false, false)))
  {
    var k := left - |buf|;
    if |more| >= k + 2 {
      assert (buf + more)[left..left + 2] == more[k..k + 2];
      assert (buf + more)[..left] == buf + more[..k];
      assert (buf + more)[left + 2..] == more[k + 2..];
      PrependTwice(buf, more[..k], Dechunk(more[k + 2..]));
    }
  }

  lemma WholeProgress(buf: bytes, left: nat, more: bytes)
    requires left <= |buf|
    ensures DechunkFrom(Wire(buf + more, Some(left), false, false)) ==
            Prepend(buf[..left], DechunkFrom(Wire(buf[left..] + more, Some(0), false, false)))
  {
    var longer, rest := buf + more, buf[left..] + more;
    if |rest| >= 2 {
      assert longer[left..left + 2] == rest[0..2];
      assert longer[..left] == buf[..left] && rest[..0] == [];
      assert longer[left + 2..] == rest[2..];
      PrependEnds([], Dechunk(rest[2..]));
    }
  }

  lemma {:induction false} WholeChunkProgress(read: Reader, kind: Kind, buf: bytes, left: nat, c: Content, more: bytes)
    returns (x: bytes)
    requires buf != [] && 0 < left <= |buf|
    requires Unchunk(read, kind, Wire(buf, Some(left), false, false), c).Some?
    ensures var (v, d) := Unchunk(read, kind, Wire(buf, Some(left), false, false), c).value;
            && Absorb(read, kind, c, x) == Some(d)
            && DechunkFrom(Wire(buf + more, Some(left), false, false)) ==
               Prepend(x, DechunkFrom(v.(buf := v.buf + more)))
    decreases |buf|, 0
  {
    PieceStep(read, kind, buf, left, c, left);
    var e := Absorb(read, kind, c, buf[..left]).value;
    AbsorbDrains(read, kind, c, buf[..left]);
    var rest := UnchunkProgress(read, kind, Wire(buf[left..], Some(0), false, false), e, more);
    x := buf[..left] + rest;
    AbsorbAppend(read, kind, c, buf[..left], rest);
    WholeProgress(buf, left, more);
    var (v, d) := Unchunk(read, kind, Wire(buf, Some(left), false, false), c).value;
    PrependTwice(buf[..left], rest, DechunkFrom(v.(buf := v.buf + more)));
  }

  /** Every stretch of `x` can be absorbed without keeping too much. */
  ghost predicate Modest(read: Reader, kind: Kind, c: Content, x: bytes) {
    forall k :: 0 <= k <= |x| ==>
      var d := Absorb(read, kind, c, x[..k]);
      d.Some? && |d.value.body| <= MAX_EVENT
  }

  lemma ModestRest(read: Reader, kind: Kind, c: Content, x: bytes, y: bytes)
    requires Modest(read, kind, c, x + y)
    ensures Absorb(read, kind, c, x).Some? && |Absorb(read, kind, c, x).value.body| <= MAX_EVENT
    ensures Modest(read, kind, Absorb(read, kind, c, x).value, y)
  {
    assert (x + y)[..|x|] == x;
    var d := Absorb(read, kind, c, x).value;
    forall k | 0 <= k <= |y|
      ensures Absorb(read, kind, d, y[..k]) == Absorb(read, kind, c, (x + y)[..|x| + k])
    {
      assert (x + y)[..|x| + k] == x + y[..k];
      AbsorbAppend(read, kind, c, x, y[..k]);
    }
  }

  /** The loop reads a complete chunked body to its end. */
  ghost predicate Finishes(read: Reader, kind: Kind, w: Wire, c: Content, body: bytes) {
    var r := Unchunk(read, kind, w, c);
    r.Some? && r.value.0.done && Absorb(read, kind, c, body) == Some(r.value.1)
  }

  lemma LastChunk(read: Reader, kind: Kind, payload: bytes, c: Content)
    requires SizeLine(payload) == Some((0, CRLF)) && Drained(kind, c)
    ensures Finishes(read, kind, Wire(payload, None, false, false), c, [])
  {
    UnchunkSizeLine(read, kind, payload, c);
    AbsorbNothing(read, kind, c);
  }

  /** A size line, its chunk and the line end after it, in one step. */
  lemma UnchunkWhole(read: Reader, kind: Kind, payload: bytes, n: nat, rest: bytes, c: Content, d: Content)
    requires SizeLine(payload) == Some((n, rest)) && n > 0
    requires |rest| >= n + 2 && rest[n..n + 2] == CRLF
    requires Absorb(read, kind, c, rest[..n]) == Some(d) && |d.body| <= MAX_EVENT
    ensures Unchunk(read, kind, Wire(payload, None, false, false), c) ==
            Unchunk(read, kind, Wire(rest[n + 2..], None, false, false), d)
  {
    UnchunkSizeLine(read, kind, payload, c);
    PieceStep(read, kind, rest, n, c, n);
    assert rest[n..][..2] == rest[n..n + 2] && rest[n..][2..] == rest[n + 2..];
    UnchunkChunkEnd(read, kind, rest[n..], d);
  }

  lemma {:induction false} UnchunkAccepts(read: Reader, kind: Kind, payload: bytes, c: Content)
    requires Dechunk(payload).Some? && Drained(kind, c) && Modest(read, kind, c, Dechunk(payload).value)
    ensures Finishes(read, kind, Wire(payload, None, false, false), c, Dechunk(payload).value)
    decreases |payload|
  {
    var (n, rest) := SizeLine(payload).value;
    if n == 0 {
      LastChunk(read, kind, payload, c);
    } else {
      var tail := rest[n + 2..];
      var more := Dechunk(tail).value;
      ModestRest(read, kind, c, rest[..n], more);
      var d := Absorb(read, kind, c, rest[..n]).value;
      UnchunkWhole(read, kind, payload, n, rest, c, d);
      AbsorbDrains(read, kind, c, rest[..n]);
      UnchunkAccepts(read, kind, tail, d);
      AbsorbAppend(read, kind, c, rest[..n], more);
    }
  }

  // ---------------------------------------------------------------- whole messages

  lemma IdealDivides(read: Reader, message: bytes)
    ensures Ideal(read, START, message) ==
            match Divide(message)
            case Growing => InHead(message)
            case TooLong => Off
            case Ready(header, payload) => Enter(read, header, payload)
  {
    assert [] + message == message;
  }

  lemma ChunkedSound(read: Reader, frame: Frame, payload: bytes)
    requires frame.framing.Chunked?
    requires var s := Extend(read, InBody(frame, NO_WIRE, 0, NO_CONTENT), payload); s.InBody? && s.wire.done
    ensures var s := Extend(read, InBody(frame, NO_WIRE, 0, NO_CONTENT), payload);
            && Dechunk(payload).Some?
            && Absorb(read, frame.kind, NO_CONTENT, Dechunk(payload).value) == Some(s.content)
  {
    var s := Extend(read, InBody(frame, NO_WIRE, 0, NO_CONTENT), payload);
    var w := Wire(payload, None, false, false);
    assert NO_WIRE.buf + payload == payload;
    UnchunkDone(read, frame.kind, w, NO_CONTENT);
    var body := UnchunkProgress(read, frame.kind, w, NO_CONTENT, []);
    assert payload + [] == payload && s.wire.buf + [] == s.wire.buf && body + [] == body;
  }

  lemma IdealSound(read: Reader, message: bytes)
    requires Conclude(read, Ideal(read, START, message)).Some?
    ensures Decoded(read.head, message).Some?
    ensures var (frame, body) := Decoded(read.head, message).value;
            ReadWith(read, frame.kind, body) == Conclude(read, Ideal(read, START, message))
  {
    IdealDivides(read, message);
    var s := Ideal(read, START, message);
    if s.frame.framing.Chunked? {
      ChunkedSound(read, s.frame, Divide(message).rest);
    }
  }

  lemma {:induction false} UnchunkDone(read: Reader, kind: Kind, w: Wire, c: Content)
    requires Unchunk(read, kind, w, c).Some? && !w.done && Unchunk(read, kind, w, c).value.0.done
    ensures Unchunk(read, kind, w, c).value.0.buf == []
    decreases |w.buf|
  {
    if w.ending {
    } else {
      match w.left {
        case None =>
          var (n, rest) := SizeLine(w.buf).value;
          UnchunkDone(read, kind, Wire(rest, Some(n), n == 0, false), c);
        case Some(left) =>
          if left == 0 {
            UnchunkDone(read, kind, Wire(w.buf[2..], None, false, false), c);
          } else {
            var amount := if left < |w.buf| then left else |w.buf|;
            UnchunkDone(read, kind, Wire(w.buf[amount..], Some(left - amount), false, false),
                        Absorb(read, kind, c, w.buf[..amount]).value);
          }
      }
    }
  }

  /**
   Soundness: whatever way a message was cut into blocks, the models a finished
   observer records are those the one-shot reading of the whole message gives.
   */
  lemma RecordedIsOneShot(parse: Parser, blocks: seq<bytes>)
    requires Observed(parse, blocks).Some?
    ensures OneShot(parse, Concat(blocks)) == Observed(parse, blocks)
  {
    var read, message := ReaderOf(parse), Concat(blocks);
    StartSettled(read);
    RunExactly(read, START, blocks);
    IdealSound(read, message);
    BodyReads(parse, Decoded(read.head, message).value.0.kind, Decoded(read.head, message).value.1);
  }

  // ---------------------------------------------------------------- completeness

  lemma BodyIsModest(read: Reader, kind: Kind, body: bytes)
    requires BodyFits(kind, body) && Absorb(read, kind, NO_CONTENT, body).Some?
    ensures Modest(read, kind, NO_CONTENT, body)
  {
    forall k | 0 <= k <= |body|
      ensures Absorb(read, kind, NO_CONTENT, body[..k]).Some?
      ensures |Absorb(read, kind, NO_CONTENT, body[..k]).value.body| <= MAX_EVENT
    {
      assert body == body[..k] + body[k..];
      AbsorbAppend(read, kind, NO_CONTENT, body[..k], body[k..]);
      LeftoverFits(read, kind, body[..k], body[k..]);
    }
  }

  lemma ExtendComplete(read: Reader, frame: Frame, payload: bytes)
    requires BodyOf(frame.framing, payload).Some? && Absorb(read, frame.kind, NO_CONTENT, BodyOf(frame.framing, payload).value).Some?
    requires BodyFits(frame.kind, BodyOf(frame.framing, payload).value)
    ensures var s := Extend(read, InBody(frame, NO_WIRE, 0, NO_CONTENT), payload);
            && s.InBody? && s.frame == frame
            && (if frame.framing.Chunked? then s.wire.done else s.received == |payload|)
            && Some(s.content) == Absorb(read, frame.kind, NO_CONTENT, BodyOf(frame.framing, payload).value)
  {
    if frame.framing.Chunked? {
      BodyIsModest(read, frame.kind, Dechunk(payload).value);
      UnchunkAccepts(read, frame.kind, payload, NO_CONTENT);
      ChunkedComplete(read, frame, payload);
    }
  }

  lemma FrameComplete(read: Reader, frame: Frame, payload: bytes)
    requires BodyOf(frame.framing, payload).Some? && ReadWith(read, frame.kind, BodyOf(frame.framing, payload).value).Some?
    requires BodyFits(frame.kind, BodyOf(frame.framing, payload).value)
    ensures Conclude(read, Extend(read, InBody(frame, NO_WIRE, 0, NO_CONTENT), payload)) ==
            ReadWith(read, frame.kind, BodyOf(frame.framing, payload).value)
  {
    ExtendComplete(read, frame, payload);
  }

  lemma ChunkedComplete(read: Reader, frame: Frame, payload: bytes)
    requires frame.framing.Chunked? && Dechunk(payload).Some?
    requires Finishes(read, frame.kind, Wire(payload, None, false, false), NO_CONTENT, Dechunk(payload).value)
    ensures var s := Extend(read, InBody(frame, NO_WIRE, 0, NO_CONTENT), payload);
            && s.InBody? && s.frame == frame && s.wire.done && s.received == 0
            && Absorb(read, frame.kind, NO_CONTENT, Dechunk(payload).value) == Some(s.content)
  {
    assert NO_WIRE.buf + payload == payload;
  }

  lemma IdealComplete(read: Reader, message: bytes)
    requires Decoded(read.head, message).Some? && WithinBounds(read.head, message)
    requires var (frame, body) := Decoded(read.head, message).value; ReadWith(read, frame.kind, body).Some?
    ensures var (frame, body) := Decoded(read.head, message).value;
            Conclude(read, Ideal(read, START, message)) == ReadWith(read, frame.kind, body)
  {
    IdealDivides(read, message);
    FrameComplete(read, Decoded(read.head, message).value.0, Divide(message).rest);
  }

  /** What the content holds midway through a body the message goes on to complete. */
  lemma MidwayFits(read: Reader, frame: Frame, a: bytes, b: bytes)
    requires BodyOf(frame.framing, a + b).Some? && BodyFits(frame.kind, BodyOf(frame.framing, a + b).value)
    ensures Fits(Extend(read, InBody(frame, NO_WIRE, 0, NO_CONTENT), a))
  {
    var s := Extend(read, InBody(frame, NO_WIRE, 0, NO_CONTENT), a);
    assert NO_WIRE.buf + a == a;
    if s.InBody? {
      if frame.framing.Chunked? {
        var x := UnchunkProgress(read, frame.kind, Wire(a, None, false, false), NO_CONTENT, b);
        var y := DechunkFrom(s.wire.(buf := s.wire.buf + b)).value;
        LeftoverFits(read, frame.kind, x, y);
      } else {
        LeftoverFits(read, frame.kind, a, b);
      }
    }
  }

  lemma PrefixFits(read: Reader, a: bytes, b: bytes)
    requires Decoded(read.head, a + b).Some? && WithinBounds(read.head, a + b)
    ensures Fits(Ideal(read, START, a))
  {
    IdealDivides(read, a);
    if Divide(a) == Growing {
      FindLate(a, b, BLANK_LINE);
    } else {
      DividePrefix(a, b);
      if Divide(a).Ready? {
        MidwayFits(read, read.head(Divide(a).head).value, Divide(a).rest, b);
      }
    }
  }

  lemma PrefixOfMessageFits(read: Reader, message: bytes, a: bytes, b: bytes)
    requires message == a + b && Decoded(read.head, message).Some? && WithinBounds(read.head, message)
    ensures Fits(Ideal(read, START, a))
  {
    PrefixFits(read, a, b);
  }

  lemma ConcatSplit(blocks: seq<bytes>, i: nat)
    requires i <= |blocks|
    ensures Concat(blocks) == Concat(blocks[..i]) + Concat(blocks[i..])
  {
    assert blocks == blocks[..i] + blocks[i..];
    ConcatAppend(blocks[..i], blocks[i..]);
  }

  lemma AllCutsFit(read: Reader, blocks: seq<bytes>)
    requires Decoded(read.head, Concat(blocks)).Some? && WithinBounds(read.head, Concat(blocks))
    ensures CutsFit(read, START, blocks)
  {
    forall i | 0 <= i <= |blocks| ensures Fits(Ideal(read, START, Concat(blocks[..i]))) {
      ConcatSplit(blocks, i);
      PrefixOfMessageFits(read, Concat(blocks), Concat(blocks[..i]), Concat(blocks[i..]));
    }
  }

  /**
   Full equality: a message within the size bounds is recorded exactly as the
   one-shot reading says, however it was cut into blocks.
   */
  lemma ObservedIsOneShot(parse: Parser, blocks: seq<bytes>)
    requires var message := Concat(blocks);
             Decoded(ParseHead, message).Some? ==> WithinBounds(ParseHead, message)
    ensures Observed(parse, blocks) == OneShot(parse, Concat(blocks))
  {
    var read, message := ReaderOf(parse), Concat(blocks);
    if Observed(parse, blocks).Some? {
      RecordedIsOneShot(parse, blocks);
    } else if OneShot(parse, message).Some? {
      BodyReads(parse, Decoded(read.head, message).value.0.kind, Decoded(read.head, message).value.1);
      AllCutsFit(read, blocks);
      StartSettled(read);
      RunExactly(read, START, blocks);
      IdealComplete(read, message);
    }
  }

  // ---------------------------------------------------------------- truncation

  lemma ChunkThenMore(rest: bytes, n: nat, more: bytes)
    requires |rest| >= n + 2 && Dechunk(rest[n + 2..] + more) == None
    ensures AfterSize(rest + more, n) == None
  {
    assert (rest + more)[n + 2..] == rest[n + 2..] + more;
  }

  lemma {:induction false} DechunkPrefixFree(payload: bytes, more: bytes)
    requires Dechunk(payload).Some? && more != []
    ensures Dechunk(payload + more) == None
    decreases |payload|
  {
    var (n, rest) := SizeLine(payload).value;
    SizeLineKept(payload, more);
    if n == 0 {
      assert |rest + more| > 2;
    } else {
      DechunkPrefixFree(rest[n + 2..], more);
      ChunkThenMore(rest, n, more);
    }
  }

  lemma BodyPrefixFree(framing: Framing, payload: bytes, more: bytes)
    requires framing != UntilClose && BodyOf(framing, payload).Some? && more != []
    ensures BodyOf(framing, payload + more) == None
  {
    if framing.Chunked? { DechunkPrefixFree(payload, more); }
  }

  lemma DecodedPrefixFree(head: HeadParser, message: bytes, more: bytes)
    requires Decoded(head, message).Some? && Decoded(head, message).value.0.framing != UntilClose && more != []
    ensures Decoded(head, message + more) == None
  {
    DividePrefix(message, more);
    BodyPrefixFree(Decoded(head, message).value.0.framing, Divide(message).rest, more);
  }

  lemma DecodedPrefix(head: HeadParser, message: bytes, more: bytes)
    requires Decoded(head, message).Some? && Decoded(head, message + more).Some?
    ensures Decoded(head, message).value.0 == Decoded(head, message + more).value.0
  {
    DividePrefix(message, more);
  }

  /**
   Fail closed: a strict prefix of a message that is chunked or has a length
   records nothing, however it was cut, even if `finish` is called on it.
   */
  lemma TruncatedIsSilent(parse: Parser, blocks: seq<bytes>, missing: bytes)
    requires missing != [] && Decoded(ParseHead, Concat(blocks) + missing).Some?
    requires Decoded(ParseHead, Concat(blocks) + missing).value.0.framing != UntilClose
    ensures Observed(parse, blocks) == None
  {
    if Observed(parse, blocks).Some? {
      RecordedIsOneShot(parse, blocks);
      DecodedPrefix(ParseHead, Concat(blocks), missing);
      DecodedPrefixFree(ParseHead, Concat(blocks), missing);
      assert false;
    }
  }
}
