/** Which messages are recorded however they are cut, and the cuts that refuse the others. */
module ResponseCuts {
  import opened Bytes
  import opened ByteLines
  import opened ResponseSpec
  import opened ResponseFragments
  import opened ResponseDecoding

  /** One cut after which the observer is disabled, or holds too much, is enough to lose the evidence. */
  lemma CutRefuses(parse: Parser, a: bytes, b: bytes)
    requires var s := Ideal(ReaderOf(parse), START, a); s == Off || !Fits(s)
    ensures Concat([a, b]) == a + b && Observed(parse, [a, b]) == None
  {
    var read, blocks := ReaderOf(parse), [a, b];
    assert Concat([a]) == a && Concat([b]) == b;
    assert blocks[1..] == [b] && Concat(blocks) == a + b;
    assert blocks[..1] == [a];
    StartSettled(read);
    RunExactly(read, START, blocks);
    IdealAppend(read, START, a, b);
    assert Fits(Ideal(read, START, a)) <==> Fits(Ideal(read, START, Concat(blocks[..1])));
  }

  // ---------------------------------------------------------------- a long header

  /** Past the header limit without having seen the blank line. */
  lemma HeaderCut(parse: Parser, message: bytes)
    requires Decoded(ParseHead, message).Some? && Find(message, BLANK_LINE) + 3 > MAX_HEADER
    ensures MAX_HEADER < |message|
    ensures var a := message[..MAX_HEADER + 1]; !Fits(Ideal(ReaderOf(parse), START, a))
  {
    var a, b := message[..MAX_HEADER + 1], message[MAX_HEADER + 1..];
    assert message == a + b;
    if Find(a, BLANK_LINE) >= 0 {
      FindAppend(a, b, BLANK_LINE);
      assert false;
    }
    IdealDivides(ReaderOf(parse), a);
  }

  // ---------------------------------------------------------------- a long line

  /** `t` is everything after the last line feed of `b`. */
  predicate IsRest(t: bytes, b: bytes) {
    |t| <= |b| && b[|b| - |t|..] == t && (|t| < |b| ==> b[|b| - |t| - 1] == LF)
  }

  lemma RestOfRest(t: bytes, b: bytes, k: nat)
    requires 0 < k <= |b| && b[k - 1] == LF && IsRest(t, b[k..])
    ensures IsRest(t, b)
  {
  }

  lemma {:induction false} DrainKeepsAll(read: Reader, c: Content)
    requires Drain(read, c).Some?
    ensures IsRest(Drain(read, c).value.body, c.body)
    decreases |c.body|
  {
    var i := Index(c.body, LF);
    if i == |c.body| {
      assert c.body[0..] == c.body;
    } else {
      DrainKeepsAll(read, Content(c.body[i + 1..], read.takeLine(c.events, c.body[..i]).value));
      RestOfRest(Drain(read, c).value.body, c.body, i + 1);
    }
  }

  /** A stretch without a line feed up to where the body is cut is kept whole. */
  lemma StretchKept(read: Reader, body: bytes, i: nat, j: nat)
    requires i <= j <= |body| && LF !in body[i..j] && Absorb(read, EventStream, NO_CONTENT, body[..j]).Some?
    ensures |Absorb(read, EventStream, NO_CONTENT, body[..j]).value.body| >= j - i
  {
    var c := Content(body[..j], NO_EVENTS);
    assert [] + body[..j] == body[..j];
    DrainKeepsAll(read, c);
    var t := Drain(read, c).value.body;
    forall k | i <= k < j ensures body[k] != LF { assert body[i..j][k - i] == body[k]; }
  }

  /** On these bytes the chunk loop fails, or has taken exactly this much of the body. */
  ghost predicate Takes(read: Reader, kind: Kind, buf: bytes, c: Content, body: bytes) {
    var r := Unchunk(read, kind, Wire(buf, None, false, false), c);
    r.Some? ==> Absorb(read, kind, c, body) == Some(r.value.1)
  }

  /** A size line and what it says, apart from what follows it. */
  lemma LineApart(payload: bytes) returns (line: bytes)
    requires SizeLine(payload).Some?
    ensures payload == line + SizeLine(payload).value.1
    ensures SizeLine(line) == Some((SizeLine(payload).value.0, []))
  {
    var end := Find(payload, CRLF);
    line := payload[..end + 2];
    assert line[end..end + 2] == payload[end..end + 2];
    assert At(line, CRLF, end);
    SizeLineKept(line, payload[end + 2..]);
    assert payload == line + payload[end + 2..];
  }

  lemma LineReads(line: bytes, n: nat, more: bytes)
    requires SizeLine(line) == Some((n, []))
    ensures SizeLine(line + more) == Some((n, more))
  {
    SizeLineKept(line, more);
    assert [] + more == more;
  }

  /** Cut inside a chunk. */
  lemma TakesPart(read: Reader, kind: Kind, line: bytes, n: nat, data: bytes, c: Content)
    requires SizeLine(line) == Some((n, [])) && 0 < |data| <= n
    ensures Takes(read, kind, line + data, c, data)
  {
    LineReads(line, n, data);
    UnchunkSizeLine(read, kind, line + data, c);
    PieceStep(read, kind, data, n, c, |data|);
    assert data[..|data|] == data && data[|data|..] == [];
  }

  /** A whole chunk that is too long for what it leaves over stops the loop. */
  lemma ChunkRefused(read: Reader, kind: Kind, payload: bytes, n: nat, rest: bytes, c: Content)
    requires SizeLine(payload) == Some((n, rest)) && 0 < n <= |rest|
    requires Absorb(read, kind, c, rest[..n]).Some? ==> |Absorb(read, kind, c, rest[..n]).value.body| > MAX_EVENT
    ensures Unchunk(read, kind, Wire(payload, None, false, false), c) == None
  {
    UnchunkSizeLine(read, kind, payload, c);
    PieceStep(read, kind, rest, n, c, n);
  }

  lemma ChunkParts(data: bytes, more: bytes)
    ensures var rest := data + CRLF + more;
            rest[..|data|] == data && rest[|data|..|data| + 2] == CRLF && rest[|data| + 2..] == more
  {
  }

  /** What is taken of a whole chunk, and then of the bytes after it. */
  lemma TakesOn(read: Reader, kind: Kind, line: bytes, data: bytes, more: bytes, c: Content, body: bytes)
    requires SizeLine(line) == Some((|data|, [])) && data != []
    requires Absorb(read, kind, c, data).Some? ==> Takes(read, kind, more, Absorb(read, kind, c, data).value, body)
    ensures Takes(read, kind, line + (data + CRLF + more), c, data + body)
  {
    var rest := data + CRLF + more;
    LineReads(line, |data|, rest);
    ChunkParts(data, more);
    var d := Absorb(read, kind, c, data);
    if d.Some? && |d.value.body| <= MAX_EVENT {
      UnchunkWhole(read, kind, line + rest, |data|, rest, c, d.value);
      AbsorbAppend(read, kind, c, data, body);
    } else {
      ChunkRefused(read, kind, line + rest, |data|, rest, c);
    }
  }

  /** The first chunk of a complete payload, the line before it and the payload after it. */
  lemma FirstChunk(payload: bytes) returns (line: bytes, data: bytes, tail: bytes)
    requires Dechunk(payload).Some? && SizeLine(payload).value.0 > 0
    ensures SizeLine(line) == Some((|data|, [])) && data != [] && |tail| < |payload|
    ensures payload == line + (data + CRLF + tail)
    ensures Dechunk(tail).Some? && Dechunk(payload) == Some(data + Dechunk(tail).value)
  {
    var (n, rest) := SizeLine(payload).value;
    line := LineApart(payload);
    data, tail := rest[..n], rest[n + 2..];
    assert rest == data + rest[n..n + 2] + tail;
  }

  lemma TakeAppend(x: bytes, y: bytes, j: nat)
    requires |x| <= j <= |x| + |y|
    ensures (x + y)[..j] == x + y[..j - |x|]
  {
  }

  lemma CutInside(read: Reader, kind: Kind, line: bytes, data: bytes, tail: bytes, more: bytes, j: nat, c: Content)
    returns (a: bytes, b: bytes)
    requires SizeLine(line) == Some((|data|, [])) && 0 < j <= |data|
    ensures line + (data + CRLF + tail) == a + b && Takes(read, kind, a, c, (data + more)[..j])
  {
    a, b := line + data[..j], data[j..] + CRLF + tail;
    SplitChunk(line, data, tail, j);
    TakesPart(read, kind, line, |data|, data[..j], c);
    assert (data + more)[..j] == data[..j];
  }

  lemma SplitChunk(line: bytes, data: bytes, tail: bytes, j: nat)
    requires j <= |data|
    ensures line + (data + CRLF + tail) == line + data[..j] + (data[j..] + CRLF + tail)
  {
    assert data == data[..j] + data[j..];
  }

  lemma JoinChunk(line: bytes, data: bytes, a: bytes, b: bytes)
    ensures line + (data + CRLF + (a + b)) == line + (data + CRLF + a) + b
  {
  }

  lemma NothingCut(read: Reader, kind: Kind, payload: bytes, body: bytes, c: Content)
    requires Drained(kind, c)
    ensures payload == [] + payload && Takes(read, kind, [], c, body[..0])
  {
    AbsorbNothing(read, kind, c);
  }

  /** A payload can be cut so that exactly the first `j` bytes of its body have arrived. */
  lemma {:induction false} CutTakes(read: Reader, kind: Kind, payload: bytes, body: bytes, j: nat, c: Content)
    returns (a: bytes, b: bytes)
    requires Dechunk(payload) == Some(body) && j <= |body| && Drained(kind, c)
    ensures payload == a + b && Takes(read, kind, a, c, body[..j])
    decreases |payload|, 0
  {
    if j == 0 {
      a, b := [], payload;
      NothingCut(read, kind, payload, body, c);
    } else {
      var line, data, tail := FirstChunk(payload);
      var more := Dechunk(tail).value;
      if j <= |data| {
        a, b := CutInside(read, kind, line, data, tail, more, j, c);
      } else {
        a, b := CutAfter(read, kind, line, data, tail, more, j, c);
      }
    }
  }

  lemma {:induction false} CutAfter(read: Reader, kind: Kind, line: bytes, data: bytes, tail: bytes, body: bytes, j: nat,
                                    c: Content)
    returns (a: bytes, b: bytes)
    requires SizeLine(line) == Some((|data|, [])) && data != []
    requires Dechunk(tail) == Some(body) && |data| <= j <= |data + body| && Drained(kind, c)
    ensures line + (data + CRLF + tail) == a + b && Takes(read, kind, a, c, (data + body)[..j])
    decreases |tail|, 1
  {
    var d := Absorb(read, kind, c, data);
    var more: bytes := [];
    b := tail;
    if d.Some? {
      AbsorbDrains(read, kind, c, data);
      more, b := CutTakes(read, kind, tail, body, j - |data|, d.value);
    } else {
      assert more + b == tail;
    }
    a := line + (data + CRLF + more);
    JoinChunk(line, data, more, b);
    TakesOn(read, kind, line, data, more, c, body[..j - |data|]);
    TakeAppend(data, body, j);
  }

  lemma PayloadCut(read: Reader, frame: Frame, payload: bytes, j: nat) returns (a: bytes, b: bytes)
    requires BodyOf(frame.framing, payload).Some? && j <= |BodyOf(frame.framing, payload).value|
    ensures payload == a + b
    ensures var s := Extend(read, InBody(frame, NO_WIRE, 0, NO_CONTENT), a);
            s.InBody? ==> Absorb(read, frame.kind, NO_CONTENT, BodyOf(frame.framing, payload).value[..j]) == Some(s.content)
  {
    if frame.framing.Chunked? {
      a, b := CutTakes(read, frame.kind, payload, Dechunk(payload).value, j, NO_CONTENT);
      assert NO_WIRE.buf + a == a;
    } else {
      a, b := payload[..j], payload[j..];
    }
  }

  lemma DividePayload(message: bytes, a: bytes, b: bytes) returns (front: bytes)
    requires Divide(message).Ready? && Divide(message).rest == a + b
    ensures message == front + b && Divide(front) == Ready(Divide(message).head, a)
  {
    var k := Find(message, BLANK_LINE);
    var begin := message[..k + 4];
    front := begin + a;
    assert message == begin + (a + b);
    assert begin[k..k + 4] == message[k..k + 4];
    assert At(begin, BLANK_LINE, k);
    FindAppend(begin, a + b, BLANK_LINE);
    FindAppend(begin, a, BLANK_LINE);
    assert front[..k] == message[..k] && front[k + 4..] == a;
  }

  /** The cut of a message after the first `j` bytes of its body. */
  lemma BodyCut(parse: Parser, message: bytes, j: nat) returns (a: bytes, b: bytes)
    requires Decoded(ParseHead, message).Some? && j <= |Decoded(ParseHead, message).value.1|
    ensures message == a + b
    ensures var (frame, body) := Decoded(ParseHead, message).value;
            var s := Ideal(ReaderOf(parse), START, a);
            s == Off || (s.InBody? && Absorb(ReaderOf(parse), frame.kind, NO_CONTENT, body[..j]) == Some(s.content))
  {
    var read := ReaderOf(parse);
    var frame := Decoded(ParseHead, message).value.0;
    a, b := PayloadCut(read, frame, Divide(message).rest, j);
    a := DividePayload(message, a, b);
    IdealDivides(read, a);
  }

  /** At the end of an over-long stretch the observer holds too much, if it is not disabled already. */
  lemma StretchCut(parse: Parser, message: bytes, i: nat, j: nat) returns (a: bytes, b: bytes)
    requires Decoded(ParseHead, message).Some? && Decoded(ParseHead, message).value.0.kind == EventStream
    requires var body := Decoded(ParseHead, message).value.1;
             i <= j <= |body| && LF !in body[i..j] && j - i > MAX_EVENT
    ensures message == a + b
    ensures var s := Ideal(ReaderOf(parse), START, a); s == Off || !Fits(s)
  {
    a, b := BodyCut(parse, message, j);
    if Ideal(ReaderOf(parse), START, a).InBody? {
      StretchKept(ReaderOf(parse), Decoded(ParseHead, message).value.1, i, j);
    }
  }

  // ---------------------------------------------------------------- exactly the bounds

  /** The cut after the last byte of the body of a document that is too long. */
  lemma DocumentCut(parse: Parser, message: bytes) returns (a: bytes, b: bytes)
    requires Decoded(ParseHead, message).Some? && Decoded(ParseHead, message).value.0.kind == Document
    requires |Decoded(ParseHead, message).value.1| > MAX_EVENT
    ensures message == a + b
    ensures var s := Ideal(ReaderOf(parse), START, a); s == Off || !Fits(s)
  {
    var body := Decoded(ParseHead, message).value.1;
    a, b := BodyCut(parse, message, |body|);
    assert body[..|body|] == body && [] + body == body;
  }

  /** Outside the bounds some way of cutting the message in two refuses it. */
  lemma SomeCutRefuses(parse: Parser, message: bytes) returns (blocks: seq<bytes>)
    requires Decoded(ParseHead, message).Some? && !WithinBounds(ParseHead, message)
    ensures |blocks| == 2 && Concat(blocks) == message && Observed(parse, blocks) == None
  {
    var (frame, body) := Decoded(ParseHead, message).value;
    var a, b;
    if Find(message, BLANK_LINE) + 3 > MAX_HEADER {
      HeaderCut(parse, message);
      a, b := message[..MAX_HEADER + 1], message[MAX_HEADER + 1..];
      assert message == a + b;
    } else if frame.kind == Document {
      a, b := DocumentCut(parse, message);
    } else {
      var i: nat, j: nat :| i <= j <= |body| && LF !in body[i..j] && j - i > MAX_EVENT;
      a, b := StretchCut(parse, message, i, j);
    }
    blocks := [a, b];
    CutRefuses(parse, a, b);
  }

  /** Every way to cut the message records what reading it in one piece gives. */
  ghost predicate AlwaysRecorded(parse: Parser, message: bytes) {
    forall blocks :: Concat(blocks) == message ==> Observed(parse, blocks) == OneShot(parse, message)
  }

  /** For a message that reports something, exactly the bounds decide whether every cut records it. */
  lemma AlwaysRecordedExactly(parse: Parser, message: bytes)
    requires OneShot(parse, message).Some?
    ensures AlwaysRecorded(parse, message) <==> WithinBounds(ParseHead, message)
  {
    if WithinBounds(ParseHead, message) {
      forall blocks | Concat(blocks) == message ensures Observed(parse, blocks) == OneShot(parse, message) {
        ObservedIsOneShot(parse, blocks);
      }
    } else {
      var blocks := SomeCutRefuses(parse, message);
    }
  }

  // ---------------------------------------------------------------- one message, cut in two ways

  lemma Version() returns (s: bytes)
    ensures s == Ascii("HTTP/1.1") && s != [] && CR !in s && SP !in s
  {
    s := [72, 84, 84, 80, 47, 49, 46, 49];
  }

  lemma Code() returns (s: bytes)
    ensures s == Ascii("200") && CR !in s && SP !in s
  {
    s := [50, 48, 48];
  }

  lemma ContentType() returns (s: bytes)
    ensures s == Ascii("content-type") && s != [] && CR !in s && 58 !in s && Lower(s) == s
  {
    s := [99, 111, 110, 116, 101, 110, 116, 45, 116, 121, 112, 101];
  }

  lemma Media() returns (s: bytes)
    ensures s == Ascii("application/json") && CR !in s && 59 !in s && Lower(s) == s
    ensures s != [] && !IsSpace(s[0]) && !IsSpace(s[|s| - 1])
  {
    s := [97, 112, 112, 108, 105, 99, 97, 116, 105, 111, 110, 47, 106, 115, 111, 110];
  }

  lemma StripKeeps(s: bytes)
    requires s != [] && !IsSpace(s[0]) && !IsSpace(s[|s| - 1])
    ensures Strip(s) == s
  {
  }

  lemma HeaderRead(headers: map<bytes, bytes>, name: bytes, value: bytes)
    requires 58 !in name && Lower(name) == name && name !in headers
    ensures AddHeader(headers, name + [58] + value) == Some(headers[name := Lower(Strip(value))])
  {
    IndexMiddle(name, value, 58);
    var line := name + [58] + value;
    assert line[..|name|] == name && line[|name| + 1..] == value;
  }

  lemma FirstHeader(name: bytes, value: bytes)
    requires 58 !in name && Lower(name) == name && Lower(value) == value
    requires value != [] && !IsSpace(value[0]) && !IsSpace(value[|value| - 1])
    ensures AddHeader(map[], name + [58] + value) == Some(map[name := value])
  {
    StripKeeps(value);
    HeaderRead(map[], name, value);
  }

  lemma StatusRead(version: bytes, code: bytes)
    requires version == Ascii("HTTP/1.1") && code == Ascii("200") && SP !in version && SP !in code
    ensures StatusAccepted(version + [SP] + code)
  {
    SplitTwo(version, code, SP);
  }

  lemma TypeFrames(name: bytes, media: bytes, other: bytes, value: bytes)
    requires name == Ascii("content-type") && media == Ascii("application/json") && 59 !in media && |other| == 1
    ensures FrameOf(map[name := media, other := value]) == Some(Frame(Document, UntilClose))
  {
    SplitWhole(media, 59);
  }

  lemma OneHeader(headers: map<bytes, bytes>, line: bytes)
    ensures AddHeaders(headers, [line]) == AddHeader(headers, line)
  {
    assert [line][1..] == [];
  }

  lemma TwoHeaders(headers: map<bytes, bytes>, a: bytes, b: bytes)
    requires AddHeader(headers, a).Some?
    ensures AddHeaders(headers, [a, b]) == AddHeader(AddHeader(headers, a).value, b)
  {
    var rest := [a, b][1..];
    assert rest == [b];
    OneHeader(AddHeader(headers, a).value, b);
  }

  lemma HeadBySplit(header: bytes, lines: seq<bytes>)
    requires SplitOn(header, CRLF) == lines && lines != [] && StatusAccepted(lines[0]) && AddHeaders(map[], lines[1..]).Some?
    ensures ParseHead(header) == FrameOf(AddHeaders(map[], lines[1..]).value)
  {
  }

  lemma HeadOf(status: bytes, a: bytes, b: bytes, one: map<bytes, bytes>, two: map<bytes, bytes>)
    requires AllLines([status, a, b]) && StatusAccepted(status)
    requires AddHeader(map[], a) == Some(one) && AddHeader(one, b) == Some(two)
    ensures ParseHead(Join([status, a, b], CRLF)) == FrameOf(two)
  {
    var lines := [status, a, b];
    SplitLines(lines);
    TwoHeaders(map[], a, b);
    assert lines[1..] == [a, b];
    HeadBySplit(Join(lines, CRLF), lines);
  }

  lemma JoinThree(a: bytes, b: bytes, c: bytes)
    ensures Join([a, b, c], CRLF) == a + CRLF + (b + CRLF + c)
  {
    assert [a, b, c][1..] == [b, c] && [b, c][1..] == [c];
    assert Join([b, c], CRLF) == b + CRLF + Join([c], CRLF);
  }

  lemma ThreeLines(a: bytes, b: bytes, c: bytes)
    requires Line(a) && Line(b) && Line(c)
    ensures AllLines([a, b, c])
  {
    assert [c][1..] == [] && AllLines([c]);
    assert [b, c][1..] == [c] && AllLines([b, c]);
    assert [a, b, c][1..] == [b, c];
  }

  lemma StatusLine() returns (line: bytes)
    ensures StatusAccepted(line) && Line(line) && |line| == 12
  {
    var version := Version();
    var code := Code();
    line := version + [SP] + code;
    StatusRead(version, code);
  }

  /** The type of the body; one more short header does not change how it is read. */
  lemma TypeLine(other: bytes, value: bytes) returns (line: bytes, headers: map<bytes, bytes>)
    requires |other| == 1
    ensures Line(line) && |line| == 29 && AddHeader(map[], line) == Some(headers)
    ensures other !in headers && FrameOf(headers[other := value]) == Some(Frame(Document, UntilClose))
  {
    var name := ContentType();
    var media := Media();
    line, headers := name + [58] + media, map[name := media];
    FirstHeader(name, media);
    TypeFrames(name, media, other, value);
  }

  lemma ShortName() returns (name: bytes)
    ensures |name| == 1 && 58 !in name && CR !in name && Lower(name) == name
  {
    name := [120];
  }

  lemma Pad(size: nat) returns (pad: bytes)
    ensures |pad| == size && CR !in pad
  {
    pad := seq(size, i => 97);
  }

  /** The header of a document, padded to a given size. */
  lemma PaddedHeader(size: nat) returns (lines: seq<bytes>)
    requires size >= 100
    ensures lines != [] && AllLines(lines) && |Join(lines, CRLF)| == size
    ensures ParseHead(Join(lines, CRLF)) == Some(Frame(Document, UntilClose))
  {
    var status := StatusLine();
    var name := ShortName();
    var pad := Pad(size - 47);
    var value := Lower(Strip(pad));
    var first, headers := TypeLine(name, value);
    HeaderRead(headers, name, pad);
    var second := name + [58] + pad;
    ThreeLines(status, first, second);
    JoinThree(status, first, second);
    HeadOf(status, first, second, headers, headers[name := value]);
    lines := [status, first, second];
  }

  lemma DividedAt(header: bytes, body: bytes)
    requires Find(header + BLANK_LINE + body, BLANK_LINE) == |header| <= MAX_HEADER
    ensures Divide(header + BLANK_LINE + body) == Ready(header, body)
  {
    var m := header + BLANK_LINE + body;
    assert m[..|header|] == header && m[|header| + 4..] == body;
  }

  lemma DecodedByParts(m: bytes, header: bytes, frame: Frame, body: bytes)
    requires Divide(m) == Ready(header, body) && ParseHead(header) == Some(frame) && frame.framing == UntilClose
    ensures Decoded(ParseHead, m) == Some((frame, body))
  {
  }

  lemma PaddedMessage(body: bytes) returns (m: bytes)
    ensures Find(m, BLANK_LINE) == MAX_HEADER && |m| == MAX_HEADER + 4 + |body|
    ensures Decoded(ParseHead, m) == Some((Frame(Document, UntilClose), body))
  {
    var lines := PaddedHeader(MAX_HEADER);
    var header := Join(lines, CRLF);
    m := header + BLANK_LINE + body;
    BlankAfter(lines, body);
    DividedAt(header, body);
    DecodedByParts(m, header, Frame(Document, UntilClose), body);
  }

  /**
   The bounds matter: every body that reports a model makes a message that reports it in one block, and
   reports nothing when the same bytes are cut in two one byte past the header limit.
   */
  lemma CutDecides(parse: Parser, body: bytes, model: string) returns (m: bytes)
    requires Reported(parse, Document, body) == Some(Some(model)) && |body| <= MAX_EVENT
    ensures |m| == MAX_HEADER + 4 + |body|
    ensures Observed(parse, [m]) == Some([model])
    ensures Observed(parse, [m[..MAX_HEADER + 1], m[MAX_HEADER + 1..]]) == None
  {
    m := PaddedMessage(body);
    HeaderCut(parse, m);
    CutRefuses(parse, m[..MAX_HEADER + 1], m[MAX_HEADER + 1..]);
    WholeRecords(parse, m, body, model);
  }

  /** One such message: an empty document, which this parser reads as a completed response. */
  lemma OneMessageTwoCuts() returns (parse: Parser, m: bytes)
    ensures |m| == MAX_HEADER + 4
    ensures Observed(parse, [m]) == Some(["m"]) && Observed(parse, [m[..MAX_HEADER + 1], m[MAX_HEADER + 1..]]) == None
  {
    parse := raw => Some(Object(map["status" := Text("completed"), "model" := Text("m")]));
    assert Ascii("[DONE]") != [] && IsModel("m");
    m := CutDecides(parse, [], "m");
  }

  /** The observer holding a whole document. */
  lemma WholeDocument(read: Reader, body: bytes)
    requires |body| <= MAX_EVENT
    ensures var s := Extend(read, InBody(Frame(Document, UntilClose), NO_WIRE, 0, NO_CONTENT), body);
            s.InBody? && Fits(s) && Conclude(read, s) == read.takeDocument(body)
  {
    assert [] + body == body;
  }

  lemma OneModel(parse: Parser, body: bytes, model: string)
    requires Reported(parse, Document, body) == Some(Some(model))
    ensures ReaderOf(parse).takeDocument(body) == Some([model])
  {
    assert [] + [model] == [model];
  }

  lemma RunOnce(read: Reader, block: bytes)
    ensures Run(read, START, [block]) == Feed(read, START, block)
  {
    assert [block][1..] == [];
    assert Run(read, Feed(read, START, block), []) == Feed(read, START, block);
  }

  /** A document within the limit is recorded in one block. */
  lemma WholeRecords(parse: Parser, message: bytes, body: bytes, model: string)
    requires Decoded(ParseHead, message) == Some((Frame(Document, UntilClose), body))
    requires Reported(parse, Document, body) == Some(Some(model)) && |body| <= MAX_EVENT
    ensures Observed(parse, [message]) == Some([model])
  {
    var read := ReaderOf(parse);
    IdealDivides(read, message);
    WholeDocument(read, body);
    OneModel(parse, body, model);
    RunOnce(read, message);
  }
}
