/**
 The provider response decoder of `provenance.py` as functions on values: header
 parsing, the chunk loop, the event-stream lines, and the two specifications the
 decoder is proved against (`Ideal`, which ignores where blocks are cut, and
 `OneShot`, which reads the whole message at once).
 */
module ResponseSpec {
  import opened Bytes

  const MAX_HEADER := 8192
  const MAX_EVENT := 262144
  const MAX_SIZE_LINE := 128
  const MAX_MODELS := 128

  /** A decoded JSON value; members are unique because duplicates are refused. */
  datatype Json = Text(text: string) | Object(members: map<string, Json>) | OtherJson

  /** `json.loads` with the source's hooks; `None` is any exception it raises. */
  type Parser = bytes -> Option<Json>

  datatype Kind = EventStream | Document

  datatype Framing = Chunked | Counted(length: nat) | UntilClose

  datatype Frame = Frame(kind: Kind, framing: Framing)

  // ---------------------------------------------------------------- header

  /** Python refuses to read a number of more digits than this. */
  const MAX_DIGITS := 4300

  /** `int(...)` on decimal digits: single underscores may separate digits. */
  function DigitRun(s: bytes, value: nat, seen: nat): Option<nat> {
    if s == [] || !IsDigit(s[0]) || seen >= MAX_DIGITS then None
    else
      var v: nat := value * 10 + (s[0] as int - 48);
      if |s| == 1 then Some(v)
      else if s[1] == 95 then DigitRun(s[2..], v, seen + 1)
      else DigitRun(s[1..], v, seen + 1)
  }

  /** Python's `int` on a byte string. */
  function ReadInt(s: bytes): Option<int> {
    var t := Strip(s);
    if t != [] && t[0] == 45 then
      match DigitRun(t[1..], 0, 0)
      case None => None
      case Some(v) => Some(0 - (v as int))
    else if t != [] && t[0] == 43 then DigitRun(t[1..], 0, 0)
    else DigitRun(t, 0, 0)
  }

  /** One `name: value` line: the name is lowered, the value stripped and lowered. */
  function AddHeader(headers: map<bytes, bytes>, line: bytes): Option<map<bytes, bytes>> {
    var i := Index(line, 58);
    if i == |line| then None
    else
      var key := Lower(line[..i]);
      if key in headers then None else Some(headers[key := Lower(Strip(line[i + 1..]))])
  }

  function AddHeaders(headers: map<bytes, bytes>, lines: seq<bytes>): Option<map<bytes, bytes>>
    decreases |lines|
  {
    if lines == [] then Some(headers)
    else
      match AddHeader(headers, lines[0])
      case None => None
      case Some(h) => AddHeaders(h, lines[1..])
  }

  function Header(headers: map<bytes, bytes>, name: string, default: bytes): bytes {
    if Ascii(name) in headers then headers[Ascii(name)] else default
  }

  /** What the accepted headers say about the body. */
  function FrameOf(headers: map<bytes, bytes>): Option<Frame> {
    var media := Split(Header(headers, "content-type", []), 59)[0];
    var encoded := Ascii("transfer-encoding") in headers;
    var sized := Ascii("content-length") in headers;
    if Header(headers, "content-encoding", Ascii("identity")) != Ascii("identity") then None
    else if media != Ascii("text/event-stream") && media != Ascii("application/json") then None
    else if encoded && (headers[Ascii("transfer-encoding")] != Ascii("chunked") || sized) then None
    else
      var kind := if media == Ascii("text/event-stream") then EventStream else Document;
      if encoded then Some(Frame(kind, Chunked))
      else if !sized then Some(Frame(kind, UntilClose))
      else
        match ReadInt(headers[Ascii("content-length")])
        case None => None
        case Some(n) => if n < 0 then None else Some(Frame(kind, Counted(n)))
  }

  predicate StatusAccepted(line: bytes) {
    var status := Split(line, SP);
    |status| >= 2 && (status[0] == Ascii("HTTP/1.1") || status[0] == Ascii("HTTP/1.0")) && status[1] == Ascii("200")
  }

  function ParseHead(header: bytes): Option<Frame> {
    var lines := SplitOn(header, CRLF);
    if !StatusAccepted(lines[0]) then None
    else
      match AddHeaders(map[], lines[1..])
      case None => None
      case Some(headers) => FrameOf(headers)
  }

  // ---------------------------------------------------------------- events

  predicate IsAlnum(c: char) {
    'A' <= c <= 'Z' || 'a' <= c <= 'z' || '0' <= c <= '9'
  }

  predicate IsModel(s: string) {
    && 1 <= |s| <= 128 && IsAlnum(s[0])
    && forall i :: 1 <= i < |s| ==> IsAlnum(s[i]) || s[i] in "_.:/+-"
  }

  /** The model one event or document reports: `None` is an error, `Some(None)` nothing. */
  function Reported(parse: Parser, kind: Kind, raw: bytes): Option<Option<string>> {
    if raw == Ascii("[DONE]") then Some(None)
    else
      match parse(raw)
      case None => None
      case Some(json) =>
        if !json.Object? then None
        else if kind == EventStream && !("type" in json.members && json.members["type"] == Text("response.completed")) then
          Some(None)
        else
          var response := if kind == Document then json
                          else if "response" in json.members then json.members["response"] else OtherJson;
          if !(response.Object? && "status" in response.members && response.members["status"] == Text("completed")) then
            Some(None)
          else if "model" in response.members && response.members["model"].Text? && IsModel(response.members["model"].text) then
            Some(Some(response.members["model"].text))
          else None
  }

  function AddEvent(parse: Parser, kind: Kind, models: seq<string>, raw: bytes): (r: Option<seq<string>>)
    ensures r.Some? && |models| <= MAX_MODELS ==> |r.value| <= MAX_MODELS
  {
    match Reported(parse, kind, raw)
    case None => None
    case Some(None) => Some(models)
    case Some(Some(m)) => if |models| + 1 > MAX_MODELS then None else Some(models + [m])
  }

  /** The `data:` values of the event being collected, and the models so far. */
  datatype Events = Events(data: seq<bytes>, size: nat, models: seq<string>)

  const NO_EVENTS := Events([], 0, [])

  /** `removesuffix(b"\r")`. */
  function DropCR(line: bytes): bytes {
    if line != [] && line[|line| - 1] == CR then line[..|line| - 1] else line
  }

  predicate IsData(text: bytes) {
    StartsWith(text, Ascii("data:"))
  }

  function DataValue(text: bytes): bytes
    requires IsData(text)
  {
    if |text| > 5 && text[5] == SP then text[6..] else text[5..]
  }

  /** One event-stream line without its line feed. */
  function TakeLine(parse: Parser, e: Events, line: bytes): Option<Events> {
    var text := DropCR(line);
    if text == [] then
      if e.data == [] then Some(e.(size := 0))
      else
        match AddEvent(parse, EventStream, e.models, Join(e.data, [LF]))
        case None => None
        case Some(models) => Some(Events([], 0, models))
    else if IsData(text) then
      var value := DataValue(text);
      if e.size + |value| + 1 > MAX_EVENT then None
      else Some(Events(e.data + [value], e.size + |value| + 1, e.models))
    else Some(e)
  }

  type HeadParser = bytes -> Option<Frame>

  /** How a header is read, and how body bytes become models: line by line, or a document at once. */
  datatype Reader = Reader(
    head: HeadParser,
    takeLine: (Events, bytes) -> Option<Events>,
    takeDocument: bytes -> Option<seq<string>>)

  function ReaderOf(parse: Parser): Reader {
    Reader(ParseHead, (e, line) => TakeLine(parse, e, line), raw => AddEvent(parse, Document, [], raw))
  }

  /** Body bytes not yet consumed, beside the events read from the others. */
  datatype Content = Content(body: bytes, events: Events)

  const NO_CONTENT := Content([], NO_EVENTS)

  function Drain(read: Reader, c: Content): Option<Content>
    decreases |c.body|
  {
    var i := Index(c.body, LF);
    if i == |c.body| then Some(c)
    else
      match read.takeLine(c.events, c.body[..i])
      case None => None
      case Some(e) => Drain(read, Content(c.body[i + 1..], e))
  }

  /** `_content` without its closing size check. */
  function Absorb(read: Reader, kind: Kind, c: Content, piece: bytes): Option<Content> {
    var d := c.(body := c.body + piece);
    if kind == Document then Some(d) else Drain(read, d)
  }

  // ---------------------------------------------------------------- framing

  /** Chunked transfer state: undecoded bytes and the position inside a chunk. */
  datatype Wire = Wire(buf: bytes, left: Option<nat>, ending: bool, done: bool)

  const NO_WIRE := Wire([], None, false, false)

  predicate IsSizeToken(token: bytes) {
    1 <= |token| <= 16 && AllHex(token)
  }

  /** A complete size line at the front: the size it spells and the bytes after it. */
  function SizeLine(buf: bytes): (r: Option<(nat, bytes)>)
    ensures r.Some? ==> |r.value.1| < |buf| && 0 <= Find(buf, CRLF) <= 16
  {
    var end := Find(buf, CRLF);
    if end < 0 || !IsSizeToken(buf[..end]) then None else Some((HexValue(buf[..end]), buf[end + 2..]))
  }

  /** The chunk loop, run until it needs more bytes. A chunk's content is checked when the chunk ends. */
  function Unchunk(read: Reader, kind: Kind, w: Wire, c: Content): Option<(Wire, Content)>
    decreases |w.buf|
  {
    if w.buf == [] then Some((w, c))
    else if w.done then None
    else if w.ending then
      if |w.buf| < 2 then Some((w, c))
      else if w.buf != CRLF then None
      else Some((w.(buf := [], done := true), c))
    else
      match w.left
      case None =>
        if Find(w.buf, CRLF) < 0 then
          if |w.buf| > MAX_SIZE_LINE then None else Some((w, c))
        else if Find(w.buf, CRLF) > MAX_SIZE_LINE then None
        else
          (match SizeLine(w.buf)
           case None => None
           case Some((n, rest)) => Unchunk(read, kind, Wire(rest, Some(n), n == 0, false), c))
      case Some(left) =>
        if left == 0 then
          if |w.buf| < 2 then Some((w, c))
          else if w.buf[..2] != CRLF then None
          else Unchunk(read, kind, Wire(w.buf[2..], None, false, false), c)
        else
          var amount := if left < |w.buf| then left else |w.buf|;
          match Absorb(read, kind, c, w.buf[..amount])
          case None => None
          case Some(d) =>
            if amount == left && |d.body| > MAX_EVENT then None
            else Unchunk(read, kind, Wire(w.buf[amount..], Some(left - amount), false, false), d)
  }

  // ---------------------------------------------------------------- decoder state

  /** The observer between two blocks: disabled, reading the header, or reading the body. */
  datatype State =
    | Off
    | InHead(header: bytes)
    | InBody(frame: Frame, wire: Wire, received: nat, content: Content)

  const START := InHead([])

  predicate Complete(s: State)
    requires s.InBody?
  {
    if s.frame.framing.Chunked? then s.wire.done else s.frame.framing == Counted(s.received)
  }

  /** More body bytes for a message whose header is known. */
  function Extend(read: Reader, s: State, block: bytes): State
    requires s.InBody?
  {
    if s.frame.framing.Chunked? then
      match Unchunk(read, s.frame.kind, s.wire.(buf := s.wire.buf + block), s.content)
      case None => Off
      case Some((wire, content)) => s.(wire := wire, content := content)
    else
      var received := s.received + |block|;
      if s.frame.framing.Counted? && received > s.frame.framing.length then Off
      else
        match Absorb(read, s.frame.kind, s.content, block)
        case None => Off
        case Some(content) => s.(received := received, content := content)
  }

  function Enter(read: Reader, header: bytes, rest: bytes): State {
    match read.head(header)
    case None => Off
    case Some(frame) => Extend(read, InBody(frame, NO_WIRE, 0, NO_CONTENT), rest)
  }

  datatype Division = Growing | TooLong | Ready(head: bytes, rest: bytes)

  /** The header of a message, and the bytes after its blank line, once that has arrived. */
  function Divide(message: bytes): Division {
    var end := Find(message, BLANK_LINE);
    if end < 0 then Growing
    else if end > MAX_HEADER then TooLong
    else Ready(message[..end], message[end + 4..])
  }

  /** Decoding with no limit that depends on where a block ends. */
  function Ideal(read: Reader, s: State, block: bytes): State {
    match s
    case Off => Off
    case InHead(header) =>
      (match Divide(header + block)
       case Growing => InHead(header + block)
       case TooLong => Off
       case Ready(head, rest) => Enter(read, head, rest))
    case InBody(_, _, _, _) => Extend(read, s, block)
  }

  /** What the observer may hold between two blocks. */
  predicate Fits(s: State) {
    match s
    case Off => true
    case InHead(header) => |header| <= MAX_HEADER
    case InBody(_, _, _, content) => |content.body| <= MAX_EVENT
  }

  /** One `feed` call. */
  function Feed(read: Reader, s: State, block: bytes): State {
    var t := Ideal(read, s, block);
    if Fits(t) then t else Off
  }

  function Run(read: Reader, s: State, blocks: seq<bytes>): State
    decreases |blocks|
  {
    if blocks == [] then s else Run(read, Feed(read, s, blocks[0]), blocks[1..])
  }

  /** The models `finish` records, or `None` when the response is no evidence. */
  function Conclude(read: Reader, s: State): Option<seq<string>> {
    if !s.InBody? then None
    else if s.frame.framing.Chunked? && !s.wire.done then None
    else if s.frame.framing.Counted? && s.frame.framing.length != s.received then None
    else if s.frame.kind == Document then read.takeDocument(s.content.body)
    else if s.content.body != [] || s.content.events.data != [] then None
    else Some(s.content.events.models)
  }

  function Observed(parse: Parser, blocks: seq<bytes>): Option<seq<string>> {
    Conclude(ReaderOf(parse), Run(ReaderOf(parse), START, blocks))
  }

  // ---------------------------------------------------------------- one-shot reading

  /** A complete chunked body (RFC 9112 section 7.1, no trailers), decoded at once. */
  function Dechunk(payload: bytes): Option<bytes>
    decreases |payload|
  {
    match SizeLine(payload)
    case None => None
    case Some((n, rest)) =>
      if n > 0 then AfterSize(rest, n)
      else if rest == CRLF then Some([])
      else None
  }

  /** The rest of a chunked body whose current chunk still has `n` bytes. */
  function AfterSize(rest: bytes, n: nat): Option<bytes>
    decreases |rest|
  {
    if |rest| < n + 2 || rest[n..n + 2] != CRLF then None
    else Prepend(rest[..n], Dechunk(rest[n + 2..]))
  }

  function BodyOf(framing: Framing, payload: bytes): Option<bytes> {
    match framing
    case Chunked => Dechunk(payload)
    case Counted(n) => if n == |payload| then Some(payload) else None
    case UntilClose => Some(payload)
  }

  function TotalSize(data: seq<bytes>): nat {
    if data == [] then 0 else TotalSize(data[..|data| - 1]) + |data[|data| - 1]| + 1
  }

  /** Complete lines grouped into events: the `data:` values between blank lines. */
  function Group(lines: seq<bytes>, data: seq<bytes>): Option<seq<seq<bytes>>> {
    if lines == [] then
      if data == [] then Some([]) else None
    else
      var text := DropCR(lines[0]);
      if text == [] then
        match Group(lines[1..], [])
        case None => None
        case Some(more) => Some((if data == [] then [] else [data]) + more)
      else if IsData(text) then
        var grown := data + [DataValue(text)];
        if TotalSize(grown) > MAX_EVENT then None else Group(lines[1..], grown)
      else Group(lines[1..], data)
  }

  /** The models of a list of events; one malformed event spoils all of them. */
  function ModelsOf(parse: Parser, events: seq<seq<bytes>>): Option<seq<string>> {
    if events == [] then Some([])
    else
      match Reported(parse, EventStream, Join(events[0], [LF]))
      case None => None
      case Some(m) =>
        match ModelsOf(parse, events[1..])
        case None => None
        case Some(more) => Some((if m.Some? then [m.value] else []) + more)
  }

  function ReadStream(parse: Parser, body: bytes): Option<seq<string>> {
    var lines := Split(body, LF);
    if lines[|lines| - 1] != [] then None
    else
      match Group(lines[..|lines| - 1], [])
      case None => None
      case Some(events) =>
        match ModelsOf(parse, events)
        case None => None
        case Some(models) => if |models| > MAX_MODELS then None else Some(models)
  }

  function ReadBody(parse: Parser, kind: Kind, body: bytes): Option<seq<string>> {
    if kind == Document then
      match Reported(parse, Document, body)
      case None => None
      case Some(m) => Some(if m.Some? then [m.value] else [])
    else ReadStream(parse, body)
  }

  /** Header fields and decoded body of a whole message. */
  function Decoded(head: HeadParser, message: bytes): Option<(Frame, bytes)> {
    match Divide(message)
    case Growing => None
    case TooLong => None
    case Ready(header, payload) =>
      match head(header)
      case None => None
      case Some(frame) =>
        match BodyOf(frame.framing, payload)
        case None => None
        case Some(body) => Some((frame, body))
  }

  /** The models a complete message reports, read in one piece. */
  function OneShot(parse: Parser, message: bytes): Option<seq<string>> {
    match Decoded(ParseHead, message)
    case None => None
    case Some((frame, body)) => ReadBody(parse, frame.kind, body)
  }

  /** Every stretch of `b` without a line feed is within the event bound. */
  ghost predicate ShortLines(b: bytes) {
    forall i, j :: 0 <= i <= j <= |b| && LF !in b[i..j] ==> j - i <= MAX_EVENT
  }

  ghost predicate BodyFits(kind: Kind, body: bytes) {
    if kind == Document then |body| <= MAX_EVENT else ShortLines(body)
  }

  /** Within these bounds no cut of the message into blocks can disable the observer. */
  ghost predicate WithinBounds(head: HeadParser, message: bytes)
    requires Decoded(head, message).Some?
  {
    && Find(message, BLANK_LINE) + 3 <= MAX_HEADER
    && BodyFits(Decoded(head, message).value.0.kind, Decoded(head, message).value.1)
  }
}
