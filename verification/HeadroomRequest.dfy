/** The one request a worker may send to the local model proxy, reframed before it is forwarded. */
module HeadroomRequest {
  import opened Bytes
  import opened ByteLines

  const MAX_HEADER := 8192
  const MAX_BODY := 16 * 1024 * 1024
  const COLON: byte := 58

  datatype Header = Header(name: bytes, value: bytes)

  /** The request line with its three parts, and the headers in the order they were added. */
  datatype Request = Request(line: bytes, verb: bytes, target: bytes, version: bytes, headers: seq<Header>)

  // ---------------------------------------------------------------- reading the header

  predicate NameByte(c: byte) {
    IsDigit(c) || 97 <= c <= 122 || c == 45
  }

  predicate AllNameBytes(s: bytes) {
    s == [] || (NameByte(s[0]) && AllNameBytes(s[1..]))
  }

  /** No control character. */
  predicate AllClean(s: bytes) {
    s == [] || (32 <= s[0] && s[0] != 127 && AllClean(s[1..]))
  }

  predicate Named(headers: seq<Header>, name: bytes) {
    headers != [] && (headers[0].name == name || Named(headers[1..], name))
  }

  function Get(headers: seq<Header>, name: bytes, default: bytes): bytes {
    if headers == [] then default
    else if headers[0].name == name then headers[0].value
    else Get(headers[1..], name, default)
  }

  function AddHeader(headers: seq<Header>, name: bytes, value: bytes): Option<seq<Header>> {
    if name == [] || !AllNameBytes(name) || Named(headers, name) || !AllClean(value) then None
    else Some(headers + [Header(name, value)])
  }

  function AddLine(headers: seq<Header>, line: bytes): Option<seq<Header>> {
    match Field(line, COLON) case None => None case Some((name, value)) => AddHeader(headers, Lower(name), Strip(value))
  }

  type LineReader = (seq<Header>, bytes) -> Option<seq<Header>>

  /** The loop over the header lines, each added by `add`. */
  function AddLines(add: LineReader, headers: seq<Header>, lines: seq<bytes>): Option<seq<Header>>
    decreases |lines|
  {
    if lines == [] then Some(headers)
    else match add(headers, lines[0]) case None => None case Some(more) => AddLines(add, more, lines[1..])
  }

  function ParseHead(head: bytes): Option<Request> {
    var lines := SplitOn(head, CRLF);
    var parts := Split(lines[0], SP);
    if |parts| != 3 then None
    else match AddLines(AddLine, [], lines[1..])
         case None => None
         case Some(headers) => Some(Request(lines[0], parts[0], parts[1], parts[2], headers))
  }

  // ---------------------------------------------------------------- what is approved

  predicate Upgrading(headers: seq<Header>) {
    Lower(Get(headers, Ascii("upgrade"), [])) == Ascii("websocket")
  }

  predicate Target(verb: bytes, target: bytes, upgrading: bool) {
    if upgrading then verb == Ascii("GET") && target == Ascii("/v1/responses")
    else
      || (verb == Ascii("POST") && (target == Ascii("/v1/responses") || target == Ascii("/v1/responses/compact")))
      || (verb == Ascii("GET") && target == Ascii("/v1/models"))
  }

  predicate Approved(r: Request, host: bytes) {
    && r.version == Ascii("HTTP/1.1") && Named(r.headers, Ascii("host")) && Get(r.headers, Ascii("host"), []) == host
    && !Named(r.headers, Ascii("transfer-encoding")) && Target(r.verb, r.target, Upgrading(r.headers))
  }

  function BodyLength(headers: seq<Header>): Option<nat> {
    var s := Get(headers, Ascii("content-length"), [48]);
    if !(1 <= |s| <= 8) || !AllDigits(s) || DecimalValue(s) > MAX_BODY then None else Some(DecimalValue(s))
  }

  /** The handshake of an upgrade; `validKey` is the check of the encoded key. */
  predicate Handshake(headers: seq<Header>, validKey: bytes -> bool) {
    && BodyLength(headers) == Some(0) && validKey(Get(headers, Ascii("sec-websocket-key"), []))
    && Lower(Get(headers, Ascii("connection"), [])) == Ascii("upgrade")
  }

  /** `headers[name] = value`: in its old place, or at the end. */
  function Set(headers: seq<Header>, name: bytes, value: bytes): seq<Header> {
    if headers == [] then [Header(name, value)]
    else if headers[0].name == name then [Header(name, value)] + headers[1..]
    else [headers[0]] + Set(headers[1..], name, value)
  }

  function Final(headers: seq<Header>): seq<Header> {
    if Upgrading(headers) then headers else Set(headers, Ascii("connection"), Ascii("close"))
  }

  function HeaderLine(h: Header): bytes {
    h.name + [COLON, SP] + h.value
  }

  function HeaderLines(headers: seq<Header>): (lines: seq<bytes>)
    ensures |lines| == |headers|
  {
    if headers == [] then [] else [HeaderLine(headers[0])] + HeaderLines(headers[1..])
  }

  function Rebuilt(r: Request): bytes {
    Join([r.line] + HeaderLines(Final(r.headers)), CRLF) + BLANK_LINE
  }

  /** A request whose header is read and whose body is at the front of `rest`, as it is forwarded. */
  function Forwarded(r: Request, rest: bytes, host: bytes, validKey: bytes -> bool): Option<(bytes, bool)> {
    if !Approved(r, host) || BodyLength(r.headers).None? then None
    else if Upgrading(r.headers) then
      if Handshake(r.headers, validKey) then Some((Rebuilt(r), true)) else None
    else
      var length := BodyLength(r.headers).value;
      if |rest| < length then None else Some((Rebuilt(r) + rest[..length], false))
  }

  /** The request at the front of a stream, as it is forwarded, however the stream arrives. */
  function Framed(stream: bytes, host: bytes, validKey: bytes -> bool): Option<(bytes, bool)> {
    var boundary := Find(stream, BLANK_LINE);
    if boundary < 0 then None
    else
      match ParseHead(stream[..boundary])
      case None => None
      case Some(r) => Forwarded(r, stream[boundary + 4..], host, validKey)
  }

  // ---------------------------------------------------------------- headers

  predicate Stripped(v: bytes) {
    v == [] || (!IsSpace(v[0]) && !IsSpace(v[|v| - 1]))
  }

  predicate HeaderOK(h: Header) {
    h.name != [] && AllNameBytes(h.name) && AllClean(h.value) && Stripped(h.value)
  }

  /** Headers as the loop leaves them: names valid and never repeated, values clean and stripped. */
  predicate HeadersOK(headers: seq<Header>) {
    headers == [] || (HeaderOK(headers[0]) && !Named(headers[1..], headers[0].name) && HeadersOK(headers[1..]))
  }

  lemma {:induction false} NamedAppend(a: seq<Header>, b: seq<Header>, name: bytes)
    ensures Named(a + b, name) <==> Named(a, name) || Named(b, name)
  {
    if a == [] {
      assert a + b == b;
    } else {
      assert (a + b)[1..] == a[1..] + b;
      NamedAppend(a[1..], b, name);
    }
  }

  lemma {:induction false} HeadersAppend(headers: seq<Header>, h: Header)
    requires HeadersOK(headers) && HeaderOK(h) && !Named(headers, h.name)
    ensures HeadersOK(headers + [h])
  {
    var one := [h];
    assert one[1..] == [];
    if headers == [] {
      assert headers + [h] == [h];
    } else {
      assert (headers + [h])[1..] == headers[1..] + [h];
      HeadersAppend(headers[1..], h);
      NamedAppend(headers[1..], [h], headers[0].name);
    }
  }

  /** Stripping a value that was stripped, with or without the space printed before it. */
  lemma StripSpace(v: bytes)
    requires Stripped(v)
    ensures Strip([SP] + v) == v
  {
    var s := [SP] + v;
    assert s[1..] == v;
    assert StripLeft(s) == StripLeft(v) == v;
    assert StripRight(v) == v;
  }

  lemma AddLineOK(headers: seq<Header>, line: bytes)
    requires HeadersOK(headers) && AddLine(headers, line).Some?
    ensures HeadersOK(AddLine(headers, line).value)
  {
    var (name, value) := Field(line, COLON).value;
    HeadersAppend(headers, Header(Lower(name), Strip(value)));
  }

  lemma {:induction false} AddLinesOK(headers: seq<Header>, lines: seq<bytes>)
    requires HeadersOK(headers) && AddLines(AddLine, headers, lines).Some?
    ensures HeadersOK(AddLines(AddLine, headers, lines).value)
    decreases |lines|
  {
    if lines == [] {
    } else {
      AddLineOK(headers, lines[0]);
      AddLinesOK(AddLine(headers, lines[0]).value, lines[1..]);
    }
  }

  lemma {:induction false} NameBytesHave(s: bytes, c: byte)
    requires AllNameBytes(s) && c in s
    ensures NameByte(c)
  {
    if c == s[0] {
    } else {
      NameBytesHave(s[1..], c);
    }
  }

  lemma {:induction false} CleanHas(s: bytes, c: byte)
    requires AllClean(s) && c in s
    ensures 32 <= c && c != 127
  {
    if c == s[0] {
    } else {
      CleanHas(s[1..], c);
    }
  }

  lemma LowerName(s: bytes)
    requires AllNameBytes(s)
    ensures Lower(s) == s
  {
  }

  lemma LinePlain(h: Header)
    requires HeaderOK(h)
    ensures Line(HeaderLine(h)) && COLON !in h.name
  {
    forall c | c in h.name ensures c != CR && c != COLON { NameBytesHave(h.name, c); }
    forall c | c in h.value ensures c != CR { CleanHas(h.value, c); }
  }

  lemma LineSplits(h: Header)
    requires HeaderOK(h)
    ensures Field(HeaderLine(h), COLON) == Some((h.name, [SP] + h.value))
  {
    LinePlain(h);
    FieldTaken(h.name, COLON, [SP] + h.value);
    assert HeaderLine(h) == h.name + [COLON] + ([SP] + h.value);
  }

  /** A printed header line is read back as the header it was printed for. */
  lemma LineRead(headers: seq<Header>, h: Header)
    requires HeaderOK(h) && !Named(headers, h.name)
    ensures AddLine(headers, HeaderLine(h)) == Some(headers + [h])
  {
    LineSplits(h);
    LowerName(h.name);
    StripSpace(h.value);
  }

  /** None of the headers is named in `done` yet. */
  predicate Apart(done: seq<Header>, headers: seq<Header>) {
    headers == [] || (!Named(done, headers[0].name) && Apart(done, headers[1..]))
  }

  lemma {:induction false} ApartFromMore(done: seq<Header>, h: Header, headers: seq<Header>)
    requires Apart(done, headers) && !Named(headers, h.name)
    ensures Apart(done + [h], headers)
  {
    if headers == [] {
    } else {
      var one := [h];
      assert one[1..] == [];
      NamedAppend(done, one, headers[0].name);
      ApartFromMore(done, h, headers[1..]);
    }
  }

  lemma {:induction false} ApartFromNothing(headers: seq<Header>)
    ensures Apart([], headers)
  {
    if headers == [] {
    } else {
      ApartFromNothing(headers[1..]);
    }
  }

  /** `add` reads printed header lines back. */
  ghost predicate ReadsBack(add: LineReader) {
    forall done, h {:trigger add(done, HeaderLine(h))} ::
      HeaderOK(h) && !Named(done, h.name) ==> add(done, HeaderLine(h)) == Some(done + [h])
  }

  lemma AddLineReadsBack()
    ensures ReadsBack(AddLine)
  {
    forall done, h | HeaderOK(h) && !Named(done, h.name) ensures AddLine(done, HeaderLine(h)) == Some(done + [h]) {
      LineRead(done, h);
    }
  }

  lemma FirstApart(done: seq<Header>, headers: seq<Header>)
    requires headers != []
    ensures done + headers == done + [headers[0]] + headers[1..]
  {
  }

  lemma FirstPrinted(headers: seq<Header>)
    requires headers != []
    ensures HeaderLines(headers)[0] == HeaderLine(headers[0]) && HeaderLines(headers)[1..] == HeaderLines(headers[1..])
  {
  }

  lemma {:induction false} LinesRead(add: LineReader, done: seq<Header>, headers: seq<Header>)
    requires ReadsBack(add) && HeadersOK(headers) && Apart(done, headers)
    ensures AddLines(add, done, HeaderLines(headers)) == Some(done + headers)
    decreases |headers|
  {
    if headers == [] {
      assert done + headers == done;
    } else {
      var more, rest := done + [headers[0]], headers[1..];
      assert add(done, HeaderLine(headers[0])) == Some(more);
      FirstApart(done, headers);
      FirstPrinted(headers);
      ApartFromMore(done, headers[0], rest);
      LinesRead(add, more, rest);
    }
  }

  lemma {:induction false} LinesPlain(headers: seq<Header>)
    requires HeadersOK(headers)
    ensures AllLines(HeaderLines(headers))
  {
    if headers == [] {
    } else {
      LinePlain(headers[0]);
      LinesPlain(headers[1..]);
      assert HeaderLines(headers)[1..] == HeaderLines(headers[1..]);
    }
  }

  // ---------------------------------------------------------------- one header set

  lemma {:induction false} SetNamed(headers: seq<Header>, name: bytes, value: bytes, other: bytes)
    ensures Named(Set(headers, name, value), other) <==> other == name || Named(headers, other)
    ensures Get(Set(headers, name, value), other, []) == if other == name then value else Get(headers, other, [])
  {
    if headers == [] {
      var one := [Header(name, value)];
      assert one[1..] == [];
    } else if headers[0].name == name {
      assert ([Header(name, value)] + headers[1..])[1..] == headers[1..];
    } else {
      var rest := Set(headers[1..], name, value);
      SetNamed(headers[1..], name, value, other);
      assert ([headers[0]] + rest)[1..] == rest;
    }
  }

  lemma {:induction false} SetOK(headers: seq<Header>, name: bytes, value: bytes)
    requires HeadersOK(headers) && HeaderOK(Header(name, value))
    ensures HeadersOK(Set(headers, name, value))
  {
    if headers == [] {
      var one := [Header(name, value)];
      assert one[1..] == [];
    } else if headers[0].name == name {
      assert ([Header(name, value)] + headers[1..])[1..] == headers[1..];
    } else {
      var rest := Set(headers[1..], name, value);
      SetOK(headers[1..], name, value);
      SetNamed(headers[1..], name, value, headers[0].name);
      assert ([headers[0]] + rest)[1..] == rest;
    }
  }

  lemma {:induction false} SetTwice(headers: seq<Header>, name: bytes, value: bytes)
    ensures Set(Set(headers, name, value), name, value) == Set(headers, name, value)
  {
    if headers == [] {
      var one := [Header(name, value)];
      assert one[1..] == [] && [Header(name, value)] + one[1..] == one;
    } else if headers[0].name == name {
      var s := [Header(name, value)] + headers[1..];
      assert s[1..] == headers[1..];
    } else {
      var rest := Set(headers[1..], name, value);
      SetTwice(headers[1..], name, value);
      assert ([headers[0]] + rest)[1..] == rest;
    }
  }

  // ---------------------------------------------------------------- reading the result again

  lemma JoinFirst(a: bytes, parts: seq<bytes>)
    requires parts != []
    ensures Join([a] + parts, [SP]) == a + [SP] + Join(parts, [SP])
  {
    assert ([a] + parts)[1..] == parts;
  }

  lemma {:induction false} JoinSplit(s: bytes)
    ensures Join(Split(s, SP), [SP]) == s
  {
    var i := Index(s, SP);
    if i == |s| {
    } else {
      JoinSplit(s[i + 1..]);
      JoinFirst(s[..i], Split(s[i + 1..], SP));
      assert s == s[..i] + [SP] + s[i + 1..];
    }
  }

  lemma JoinThree(a: bytes, b: bytes, c: bytes)
    ensures Join([a, b, c], [SP]) == a + [SP] + (b + [SP] + c)
  {
    assert [a, b, c][1..] == [b, c] && [b, c][1..] == [c];
    assert Join([b, c], [SP]) == b + [SP] + c;
  }

  /** The approved request lines, word by word, hold no line end. */
  lemma WordsPlain(r: Request, host: bytes, c: byte)
    requires Approved(r, host) && (c in r.verb || c in r.target || c in r.version)
    ensures c != CR
  {
  }

  lemma RequestLine(line: bytes, r: Request, host: bytes)
    requires Split(line, SP) == [r.verb, r.target, r.version] && Approved(r, host)
    ensures Line(line)
  {
    JoinSplit(line);
    JoinThree(r.verb, r.target, r.version);
    forall c | c in line ensures c != CR {
      if c != SP { WordsPlain(r, host, c); }
    }
    assert |r.verb| > 0;
  }

  lemma BodyAfter(head: bytes, body: bytes)
    ensures var out := head + BLANK_LINE + body; out[..|head|] == head && out[|head| + 4..] == body
  {
  }

  /** A rebuilt header is read back as the same line and the same headers. */
  lemma RebuiltRead(line: bytes, headers: seq<Header>, body: bytes)
    requires Line(line) && HeadersOK(headers) && |Split(line, SP)| == 3
    ensures var out := Join([line] + HeaderLines(headers), CRLF) + BLANK_LINE + body;
            var parts := Split(line, SP);
            var b := Find(out, BLANK_LINE);
            && b == |out| - |body| - 4 && out[b + 4..] == body
            && ParseHead(out[..b]) == Some(Request(line, parts[0], parts[1], parts[2], headers))
  {
    var lines := [line] + HeaderLines(headers);
    var head := Join(lines, CRLF);
    assert [] + headers == headers;
    ApartFromNothing(headers);
    AddLineReadsBack();
    LinesRead(AddLine, [], headers);
    LinesPlain(headers);
    assert lines[1..] == HeaderLines(headers);
    SplitLines(lines);
    BlankAfter(lines, body);
    BodyAfter(head, body);
  }

  lemma {:induction false} GetDefault(headers: seq<Header>, name: bytes, default: bytes)
    ensures Get(headers, name, default) == if Named(headers, name) then Get(headers, name, []) else default
  {
    if headers == [] || headers[0].name == name {
    } else {
      GetDefault(headers[1..], name, default);
    }
  }

  lemma GetFinal(headers: seq<Header>, name: bytes, default: bytes)
    requires name != Ascii("connection")
    ensures Get(Final(headers), name, default) == Get(headers, name, default)
    ensures Named(Final(headers), name) == Named(headers, name)
  {
    SetNamed(headers, Ascii("connection"), Ascii("close"), name);
    GetDefault(headers, name, default);
    GetDefault(Set(headers, Ascii("connection"), Ascii("close")), name, default);
  }

  lemma FinalTwice(headers: seq<Header>)
    ensures Final(Final(headers)) == Final(headers) && Upgrading(Final(headers)) == Upgrading(headers)
  {
    NotConnection();
    GetFinal(headers, Ascii("upgrade"), []);
    SetTwice(headers, Ascii("connection"), Ascii("close"));
  }

  lemma NotConnection()
    ensures Ascii("upgrade") != Ascii("connection") && Ascii("host") != Ascii("connection")
    ensures Ascii("transfer-encoding") != Ascii("connection") && Ascii("content-length") != Ascii("connection")
  {
  }

  lemma FinalOK(headers: seq<Header>)
    requires HeadersOK(headers)
    ensures HeadersOK(Final(headers))
  {
    CloseOK();
    SetOK(headers, Ascii("connection"), Ascii("close"));
  }

  lemma CloseOK()
    ensures HeaderOK(Header(Ascii("connection"), Ascii("close")))
  {
    NameBytesAscii("connection");
    CleanAscii("close");
  }

  lemma {:induction false} NameBytesAscii(s: string)
    requires forall c :: c in s ==> 'a' <= c <= 'z'
    ensures AllNameBytes(Ascii(s))
  {
    if s == [] {
    } else {
      assert forall c :: c in s[1..] ==> c in s;
      NameBytesAscii(s[1..]);
      assert Ascii(s)[1..] == Ascii(s[1..]);
      assert s[0] in s;
    }
  }

  lemma {:induction false} CleanAscii(s: string)
    requires forall c :: c in s ==> 'a' <= c <= 'z'
    ensures AllClean(Ascii(s)) && Stripped(Ascii(s))
  {
    if s == [] {
    } else {
      assert forall c :: c in s[1..] ==> c in s;
      CleanAscii(s[1..]);
      assert Ascii(s)[1..] == Ascii(s[1..]);
      assert s[0] in s && s[|s| - 1] in s;
    }
  }

  /** Changing the connection header alters nothing that approval depends on. */
  lemma FinalApproved(r: Request, host: bytes)
    requires Approved(r, host)
    ensures Approved(r.(headers := Final(r.headers)), host) && BodyLength(Final(r.headers)) == BodyLength(r.headers)
  {
    NotConnection();
    FinalTwice(r.headers);
    GetFinal(r.headers, Ascii("host"), []);
    GetFinal(r.headers, Ascii("transfer-encoding"), []);
    GetFinal(r.headers, Ascii("content-length"), [48]);
  }

  /**
   What is forwarded, read again, is the same request line, the same headers but for the
   connection, and the same body; forwarding it again changes nothing.
   */
  lemma FramedAgain(stream: bytes, host: bytes, validKey: bytes -> bool)
    requires Framed(stream, host, validKey).Some?
    ensures Framed(Framed(stream, host, validKey).value.0, host, validKey) == Framed(stream, host, validKey)
    ensures var (out, upgrading) := Framed(stream, host, validKey).value;
            var r := ParseHead(stream[..Find(stream, BLANK_LINE)]).value;
            var b := Find(out, BLANK_LINE);
            && b >= 0 && ParseHead(out[..b]) == Some(r.(headers := Final(r.headers)))
            && out[b + 4..] == (if upgrading then []
                                else stream[Find(stream, BLANK_LINE) + 4..][..BodyLength(r.headers).value])
  {
    var boundary := Find(stream, BLANK_LINE);
    var r := ParseHead(stream[..boundary]).value;
    var (out, upgrading) := Framed(stream, host, validKey).value;
    var body := if upgrading then [] else stream[boundary + 4..][..BodyLength(r.headers).value];
    assert out == Rebuilt(r) + body;
    HeadRead(stream[..boundary], host);
    FinalOK(r.headers);
    RebuiltRead(r.line, Final(r.headers), body);
    FinalApproved(r, host);
    FinalTwice(r.headers);
    FramedFrom(out, host, validKey, r.(headers := Final(r.headers)), body);
    assert body[..|body|] == body;
  }

  lemma HeadRead(head: bytes, host: bytes)
    requires ParseHead(head).Some? && Approved(ParseHead(head).value, host)
    ensures var r := ParseHead(head).value;
            Line(r.line) && HeadersOK(r.headers) && Split(r.line, SP) == [r.verb, r.target, r.version]
  {
    var r := ParseHead(head).value;
    AddLinesOK([], SplitOn(head, CRLF)[1..]);
    RequestLine(r.line, r, host);
  }

  /** Framing a stream of which the header and the body are known. */
  lemma FramedFrom(stream: bytes, host: bytes, validKey: bytes -> bool, r: Request, body: bytes)
    requires var b := Find(stream, BLANK_LINE); b >= 0 && ParseHead(stream[..b]) == Some(r) && stream[b + 4..] == body
    requires Approved(r, host) && BodyLength(r.headers).Some?
    requires if Upgrading(r.headers) then Handshake(r.headers, validKey) && body == []
             else |body| == BodyLength(r.headers).value
    ensures Framed(stream, host, validKey) == Some((Rebuilt(r) + body, Upgrading(r.headers)))
  {
    ForwardedWhole(r, body, host, validKey);
  }

  lemma ForwardedWhole(r: Request, body: bytes, host: bytes, validKey: bytes -> bool)
    requires Approved(r, host) && BodyLength(r.headers).Some?
    requires if Upgrading(r.headers) then Handshake(r.headers, validKey) && body == []
             else |body| == BodyLength(r.headers).value
    ensures Forwarded(r, body, host, validKey) == Some((Rebuilt(r) + body, Upgrading(r.headers)))
  {
    assert body[..|body|] == body;
    var out := Rebuilt(r);
    assert out + [] == out;
  }

  // ---------------------------------------------------------------- receiving

  /** Nothing follows a request whose body begins at `start`. */
  predicate Ends(r: Request, start: nat, size: nat) {
    if Upgrading(r.headers) then size == start
    else BodyLength(r.headers).Some? ==> size <= start + BodyLength(r.headers).value
  }

  /** The header is within the limit and nothing follows the request. */
  predicate Exact(stream: bytes) {
    var boundary := Find(stream, BLANK_LINE);
    && 0 <= boundary <= MAX_HEADER - 4
    && match ParseHead(stream[..boundary]) case None => true case Some(r) => Ends(r, boundary + 4, |stream|)
  }

  /** The framing of a stream, from its header. */
  lemma FramedByHead(stream: bytes, head: bytes, start: nat, host: bytes, validKey: bytes -> bool)
    requires start == Find(stream, BLANK_LINE) + 4 && 4 <= start <= |stream| && head == stream[..start - 4]
    ensures Framed(stream, host, validKey) ==
            match ParseHead(head) case None => None case Some(r) => Forwarded(r, stream[start..], host, validKey)
    ensures Exact(stream) ==> match ParseHead(head) case None => true case Some(r) => Ends(r, start, |stream|)
  {
  }

  class Client {
    const stream: bytes
    var position: nat

    ghost predicate Valid()
      reads this
    {
      position <= |stream|
    }

    constructor (stream: bytes)
      ensures Valid() && this.stream == stream && position == 0
    {
      this.stream, position := stream, 0;
    }

    /** `recv`: some of the bytes that come next, at least one unless the stream has ended. */
    method Receive(limit: nat) returns (block: bytes)
      requires Valid() && limit > 0
      modifies this
      ensures Valid() && old(position) <= position <= old(position) + limit
      ensures block == stream[old(position)..position]
      ensures block == [] <==> old(position) == |stream|
    {
      var left := |stream| - position;
      var most := if limit < left then limit else left;
      if most == 0 { return []; }
      var n: nat :| 1 <= n <= most;
      block := stream[position..position + n];
      position := position + n;
    }

    /** Reads until the header is complete; what comes with it belongs to the body. */
    method ReceiveHeader() returns (data: Option<bytes>)
      requires Valid() && position == 0
      modifies this
      ensures Valid() && position <= MAX_HEADER + 1
      ensures data.Some? ==> data.value == stream[..position] && Find(data.value, BLANK_LINE) >= 0
      ensures data.None? ==> Find(stream, BLANK_LINE) < 0 || Find(stream, BLANK_LINE) + 4 > MAX_HEADER
    {
      var read: bytes := [];
      while Find(read, BLANK_LINE) < 0
        invariant Valid() && position <= MAX_HEADER + 1 && read == stream[..position]
        decreases |stream| - position
      {
        var room := MAX_HEADER + 1 - |read|;
        if room == 0 { NotYet(stream, position); return None; }
        var block := Receive(if room < 4096 then room else 4096);
        if block == [] || |read| >= MAX_HEADER {
          NotYet(stream, |read|);
          return None;
        }
        assert read + block == stream[..position];
        read := read + block;
      }
      return Some(read);
    }

    /** The header, and where the body begins. */
    method SplitHeader() returns (head: Option<bytes>, start: nat)
      requires Valid() && position == 0
      modifies this
      ensures Valid()
      ensures head.Some? ==>
                && start == Find(stream, BLANK_LINE) + 4 && 4 <= start <= position
                && head.value == stream[..start - 4]
      ensures head.None? ==> Find(stream, BLANK_LINE) < 0 || Find(stream, BLANK_LINE) + 4 > MAX_HEADER
    {
      var data := ReceiveHeader();
      if data.None? { return None, 0; }
      var boundary := Find(data.value, BLANK_LINE);
      FindGrown(stream, position);
      assert data.value[..boundary] == stream[..boundary];
      return Some(data.value[..boundary]), boundary + 4;
    }

    /** Reads the rest of the body, and nothing beyond it. */
    method ReceiveBody(start: nat, length: nat) returns (body: Option<bytes>)
      requires Valid() && start <= position <= start + length
      modifies this
      ensures Valid()
      ensures body == if start + length <= |stream| then Some(stream[start..start + length]) else None
    {
      var remainder := stream[start..position];
      while |remainder| < length
        invariant Valid() && start <= position <= start + length && remainder == stream[start..position]
        decreases |stream| - position
      {
        var block := Receive(if length - |remainder| < 65536 then length - |remainder| else 65536);
        if block == [] { return None; }
        assert remainder + block == stream[start..position];
        remainder := remainder + block;
      }
      return Some(remainder);
    }

    /**
     `_headroom_request`. Whatever the blocks, an accepted request is forwarded as the one
     framing of the stream; and it is accepted whenever nothing follows it and its header
     fits the limit.
     */
    method ReadRequest(host: bytes, validKey: bytes -> bool) returns (result: Option<(bytes, bool)>)
      requires Valid() && position == 0
      modifies this
      ensures Valid()
      ensures result.Some? ==> result == Framed(stream, host, validKey)
      ensures Exact(stream) ==> result == Framed(stream, host, validKey)
    {
      var head, start := SplitHeader();
      if head.None? { return None; }
      FramedByHead(stream, head.value, start, host, validKey);
      var parsed := ParseHead(head.value);
      if parsed.None? { return None; }
      result := Forward(parsed.value, start, host, validKey);
    }

    /** What follows once the header is read; `start` is where the body begins. */
    method Forward(r: Request, start: nat, host: bytes, validKey: bytes -> bool) returns (result: Option<(bytes, bool)>)
      requires Valid() && start <= position
      modifies this
      ensures Valid()
      ensures result.Some? ==> result == Forwarded(r, stream[start..], host, validKey)
      ensures Ends(r, start, |stream|) ==> result == Forwarded(r, stream[start..], host, validKey)
    {
      if !Approved(r, host) { return None; }
      var length := BodyLength(r.headers);
      if length.None? { return None; }
      if Upgrading(r.headers) {
        if position > start || !Handshake(r.headers, validKey) { return None; }
        return Some((Rebuilt(r), true));
      }
      if position - start > length.value { return None; }
      var body := ReceiveBody(start, length.value);
      if body.None? { return None; }
      BodyAt(stream, start, length.value);
      return Some((Rebuilt(r) + body.value, false));
    }
  }

  lemma BodyAt(stream: bytes, start: nat, length: nat)
    requires start + length <= |stream|
    ensures stream[start..][..length] == stream[start..start + length]
  {
  }

  lemma NotYet(stream: bytes, n: nat)
    requires n <= |stream| && Find(stream[..n], BLANK_LINE) < 0
    ensures Find(stream, BLANK_LINE) < 0 || Find(stream, BLANK_LINE) + 4 > n
  {
    assert stream == stream[..n] + stream[n..];
    FindLate(stream[..n], stream[n..], BLANK_LINE);
  }

  lemma FindGrown(stream: bytes, n: nat)
    requires n <= |stream| && Find(stream[..n], BLANK_LINE) >= 0
    ensures Find(stream, BLANK_LINE) == Find(stream[..n], BLANK_LINE)
  {
    assert stream == stream[..n] + stream[n..];
    FindAppend(stream[..n], stream[n..], BLANK_LINE);
  }
}
