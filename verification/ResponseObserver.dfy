/** The mutable observer and the evidence it reports to. */
module ResponseObserver {
  import opened Bytes
  import opened ResponseSpec
  import opened ResponseFragments
  import opened ResponseDecoding

  // ---------------------------------------------------------------- bounds

  /** What may be held at any time: one bounded event, never a transcript. */
  predicate Small(e: Events) {
    e.size == TotalSize(e.data) && e.size <= MAX_EVENT && |e.models| <= MAX_MODELS
  }

  predicate Bounded(s: State) {
    match s
    case Off => true
    case InHead(header) => |header| <= MAX_HEADER
    case InBody(frame, wire, _, content) =>
      && |wire.buf| <= MAX_SIZE_LINE && |content.body| <= MAX_EVENT && Small(content.events)
      && (frame.kind == Document ==> content.events == NO_EVENTS)
  }

  lemma TakeLineSmall(parse: Parser, e: Events, line: bytes)
    requires Small(e) && TakeLine(parse, e, line).Some?
    ensures Small(TakeLine(parse, e, line).value)
  {
  }

  lemma {:induction false} DrainSmall(parse: Parser, c: Content)
    requires Small(c.events) && Drain(ReaderOf(parse), c).Some?
    ensures Small(Drain(ReaderOf(parse), c).value.events)
    decreases |c.body|
  {
    var i := Index(c.body, LF);
    if i == |c.body| {
    } else {
      TakeLineSmall(parse, c.events, c.body[..i]);
      DrainSmall(parse, Content(c.body[i + 1..], TakeLine(parse, c.events, c.body[..i]).value));
    }
  }

  predicate Kept(kind: Kind, e: Events) {
    Small(e) && (kind == Document ==> e == NO_EVENTS)
  }

  lemma AbsorbKeeps(parse: Parser, kind: Kind, c: Content, piece: bytes)
    requires Kept(kind, c.events) && Absorb(ReaderOf(parse), kind, c, piece).Some?
    ensures Kept(kind, Absorb(ReaderOf(parse), kind, c, piece).value.events)
  {
    if kind == EventStream { DrainSmall(parse, c.(body := c.body + piece)); }
  }

  lemma {:induction false} UnchunkKeeps(parse: Parser, kind: Kind, w: Wire, c: Content)
    requires Kept(kind, c.events) && Unchunk(ReaderOf(parse), kind, w, c).Some?
    ensures Kept(kind, Unchunk(ReaderOf(parse), kind, w, c).value.1.events)
    decreases |w.buf|
  {
    var read := ReaderOf(parse);
    StuckStops(read, kind, w, c);
    if Stuck(w) || w.ending {
    } else {
      match w.left {
        case None =>
          var (n, rest) := SizeLine(w.buf).value;
          UnchunkKeeps(parse, kind, Wire(rest, Some(n), n == 0, false), c);
        case Some(left) =>
          if left == 0 {
            UnchunkKeeps(parse, kind, Wire(w.buf[2..], None, false, false), c);
          } else {
            var amount := if left < |w.buf| then left else |w.buf|;
            AbsorbKeeps(parse, kind, c, w.buf[..amount]);
            UnchunkKeeps(parse, kind, Wire(w.buf[amount..], Some(left - amount), false, false),
                         Absorb(read, kind, c, w.buf[..amount]).value);
          }
      }
    }
  }

  lemma ExtendBounded(parse: Parser, s: State, block: bytes)
    requires s.InBody? && Bounded(s)
    ensures var t := Extend(ReaderOf(parse), s, block); Fits(t) ==> Bounded(t)
  {
    var read := ReaderOf(parse);
    var t := Extend(read, s, block);
    if t.InBody? {
      if s.frame.framing.Chunked? {
        var w := s.wire.(buf := s.wire.buf + block);
        UnchunkStuck(read, s.frame.kind, w, s.content);
        UnchunkKeeps(parse, s.frame.kind, w, s.content);
      } else {
        AbsorbKeeps(parse, s.frame.kind, s.content, block);
      }
    }
  }

  lemma EnterBounded(parse: Parser, header: bytes, rest: bytes)
    ensures var t := Enter(ReaderOf(parse), header, rest); Fits(t) ==> Bounded(t)
  {
    var frame := ReaderOf(parse).head(header);
    if frame.Some? {
      ExtendBounded(parse, InBody(frame.value, NO_WIRE, 0, NO_CONTENT), rest);
    }
  }

  /** No block, whatever its size, makes the observer keep more than the bounds. */
  lemma FeedBounded(parse: Parser, s: State, block: bytes)
    requires Bounded(s)
    ensures Bounded(Feed(ReaderOf(parse), s, block))
  {
    match s {
      case Off =>
      case InHead(header) =>
        var d := Divide(header + block);
        if d.Ready? { EnterBounded(parse, d.head, d.rest); }
      case InBody(_, _, _, _) => ExtendBounded(parse, s, block);
    }
  }

  /** What reading header bytes amounts to, from what was found in them. */
  lemma HeadRead(read: Reader, header: bytes, block: bytes, ok: bool, rest: Option<bytes>, frame: Option<Frame>)
    requires match Divide(header + block)
             case Growing => rest == None && ok == (|header + block| <= MAX_HEADER)
             case TooLong => rest == None && !ok
             case Ready(head, after) => ok == read.head(head).Some? && rest == Some(after) && (ok ==> read.head(head) == frame)
    ensures var t := Ideal(read, InHead(header), block);
            && (rest.None? ==> (ok <==> t != Off && Fits(t)) && (ok ==> t == InHead(header + block)))
            && (rest.Some? && !ok ==> t == Off)
            && (rest.Some? && ok ==> t == Extend(read, InBody(frame.value, NO_WIRE, 0, NO_CONTENT), rest.value))
  {
  }

  // ---------------------------------------------------------------- evidence

  datatype Report = Recorded(model: string) | Invalidated

  /** The valid models reported so far, without any limit on their number. */
  function ReportedModels(history: seq<Report>): set<string> {
    set r | r in history && r.Recorded? && IsModel(r.model) :: r.model
  }

  predicate Spoiled(history: seq<Report>) {
    Invalidated in history || exists r :: r in history && r.Recorded? && !IsModel(r.model)
  }

  class ProviderModelEvidence {
    var models: set<string>
    var ambiguous: bool
    ghost var history: seq<Report>

    ghost predicate Valid()
      reads this
    {
      && ambiguous == Spoiled(history)
      && models <= ReportedModels(history) && |models| <= 2
      && (|models| < 2 ==> models == ReportedModels(history))
    }

    constructor ()
      ensures Valid() && history == []
    {
      models, ambiguous, history := {}, false, [];
    }

    method Record(model: string)
      requires Valid()
      modifies this
      ensures Valid() && history == old(history) + [Recorded(model)]
    {
      var report := Recorded(model);
      assert ReportedModels(history + [report]) ==
             if IsModel(model) then ReportedModels(history) + {model} else ReportedModels(history);
      assert Spoiled(history + [report]) == (Spoiled(history) || !IsModel(model)) by {
        assert report in history + [report];
        assert forall r :: r in history + [report] <==> r in history || r == report;
      }
      if !IsModel(model) {
        ambiguous := true;
      } else if |models| < 2 {
        models := models + {model};
      } else {
        TwoAreEnough(models, ReportedModels(history), model);
      }
      history := history + [report];
    }

    method Invalidate()
      requires Valid()
      modifies this
      ensures Valid() && history == old(history) + [Invalidated]
    {
      assert ReportedModels(history + [Invalidated]) == ReportedModels(history);
      assert Invalidated in history + [Invalidated];
      ambiguous := true;
      history := history + [Invalidated];
    }

    /** The two kept models answer as the whole unbounded set would. */
    method ActualModel() returns (model: string)
      requires Valid()
      ensures if !Spoiled(history) && |ReportedModels(history)| == 1 then ReportedModels(history) == {model}
              else model == "unknown"
    {
      if |models| == 2 { MoreThanOne(models, ReportedModels(history)); }
      if ambiguous || |models| != 1 { return "unknown"; }
      var m :| m in models;
      OneElement(models, m);
      return m;
    }
  }

  lemma TwoAreEnough(kept: set<string>, all: set<string>, model: string)
    requires kept <= all
    ensures kept <= all + {model}
  {
  }

  lemma MoreThanOne(kept: set<string>, all: set<string>)
    requires kept <= all && |kept| == 2
    ensures |all| >= 2
  {
    assert all == kept + (all - kept);
  }

  lemma OneElement(s: set<string>, m: string)
    requires m in s && |s| == 1
    ensures s == {m}
  {
    assert |s - {m}| == 0;
  }

  function Reports(models: seq<string>): seq<Report> {
    seq(|models|, i requires 0 <= i < |models| => Recorded(models[i]))
  }

  // ---------------------------------------------------------------- observer

  method ReadHeaders(lines: seq<bytes>) returns (headers: Option<map<bytes, bytes>>)
    ensures headers == AddHeaders(map[], lines)
  {
    var found: map<bytes, bytes> := map[];
    for i := 0 to |lines|
      invariant AddHeaders(map[], lines) == AddHeaders(found, lines[i..])
    {
      assert lines[i..][0] == lines[i] && lines[i..][1..] == lines[i + 1..];
      var next := AddHeader(found, lines[i]);
      if next.None? { return None; }
      found := next.value;
    }
    return Some(found);
  }

  /** What `read` reads is what the source reads with the parser `parse`. */
  ghost predicate Reads(read: Reader, parse: Parser) {
    && (forall head {:trigger ParseHead(head)} :: read.head(head) == ParseHead(head))
    && (forall e, line {:trigger TakeLine(parse, e, line)} :: read.takeLine(e, line) == TakeLine(parse, e, line))
    && (forall raw {:trigger AddEvent(parse, Document, [], raw)} ::
          read.takeDocument(raw) == AddEvent(parse, Document, [], raw))
  }

  lemma ReaderReads(parse: Parser)
    ensures Reads(ReaderOf(parse), parse)
  {
  }

  class ResponseObserver {
    const parse: Parser
    const evidence: ProviderModelEvidence
    ghost const read: Reader

    var header: bytes
    var wire: bytes
    var body: bytes
    var data: seq<bytes>
    var eventSize: nat
    var kind: Option<Kind>
    var chunked: bool
    var chunkLeft: Option<nat>
    var ending: bool
    var chunkDone: bool
    var length: Option<nat>
    var received: nat
    var disabled: bool
    var done: bool
    var messageComplete: bool
    var models: seq<string>


    ghost function CurrentFrame(): Frame
      reads this
      requires kind.Some?
    {
      Frame(kind.value, if chunked then Chunked else if length.Some? then Counted(length.value) else UntilClose)
    }

    ghost function CurrentWire(): Wire
      reads this
    {
      Wire(wire, chunkLeft, ending, chunkDone)
    }

    ghost function CurrentContent(): Content
      reads this
    {
      Content(body, Events(data, eventSize, models))
    }

    ghost function State(): State
      reads this
    {
      if disabled then Off
      else if kind.None? then InHead(header)
      else InBody(CurrentFrame(), CurrentWire(), received, CurrentContent())
    }

    /** Nothing of the body has been read. */
    ghost predicate Untouched()
      reads this
    {
      && CurrentWire() == NO_WIRE && CurrentContent() == NO_CONTENT
      && received == 0 && !chunked && length.None?
    }

    ghost predicate Valid()
      reads this
    {
      && read == ReaderOf(parse) && !(disabled && done)
      && (disabled ==> header == [] && wire == [] && body == [] && data == [] && models == [])
      && (!done ==> Settled(read, State()) && Bounded(State()))
      && (!disabled && !done ==>
            && (kind.None? ==> Untouched() && !messageComplete)
            && (kind.Some? ==> header == [] && !(chunked && length.Some?) && messageComplete == Complete(State())))
    }

    constructor (evidence: ProviderModelEvidence, parse: Parser)
      ensures Valid() && State() == START && !done
      ensures this.evidence == evidence && this.parse == parse
    {
      this.parse, this.evidence, this.read := parse, evidence, ReaderOf(parse);
      header, wire, body, data, eventSize := [], [], [], [], 0;
      kind, chunked, chunkLeft, ending, chunkDone := None, false, None, false, false;
      length, received, disabled, done, messageComplete, models := None, 0, false, false, false, [];
      new;
      StartSettled(read);
    }

    method Feed(block: bytes)
      requires Valid() && evidence.Valid()
      modifies this, evidence
      ensures Valid() && evidence.Valid() && done == old(done)
      ensures !old(done) ==> State() == ResponseSpec.Feed(read, old(State()), block)
      ensures evidence.history == old(evidence.history) + (if old(done) && block != [] then [Invalidated] else [])
    {
      if !done {
        FeedSettles(read, State(), block);
        FeedBounded(parse, State(), block);
      }
      if disabled { return; }
      if done {
        if block != [] { evidence.Invalidate(); }
        return;
      }
      ReaderReads(parse);
      if messageComplete {
        if block != [] { Disable(); }
        return;
      }
      var ok := FeedBlock(block);
      if !ok { Disable(); }
    }

    method Disable()
      modifies this
      ensures disabled && header == [] && wire == [] && body == [] && data == [] && models == []
      ensures done == old(done)
    {
      disabled := true;
      header, wire, body, data, models := [], [], [], [], [];
    }

    method FeedBlock(block: bytes) returns (ok: bool)
      requires Reads(read, parse)
      requires !disabled && !done && !messageComplete && |body| <= MAX_EVENT
      requires kind.None? ==> Untouched()
      requires kind.Some? ==> header == [] && !(chunked && length.Some?) && (chunked ==> !chunkDone)
      modifies this
      ensures !disabled && !done
      ensures var t := Ideal(read, old(State()), block); (ok <==> t != Off && Fits(t)) && (ok ==> State() == t)
      ensures ok && kind.None? ==> Untouched() && !messageComplete
      ensures ok && kind.Some? ==> header == [] && !(chunked && length.Some?) && messageComplete == Complete(State())
    {
      if kind.Some? {
        ok := FeedBody(block);
      } else {
        var rest: Option<bytes>;
        ok, rest := FeedHead(block);
        HeadRead(read, old(header), block, ok, rest, if kind.Some? then Some(CurrentFrame()) else None);
        if ok && rest.Some? { ok := FeedBody(rest.value); }
      }
    }

    /** Header bytes: the start of the body is returned once the header is complete. */
    method FeedHead(block: bytes) returns (ok: bool, rest: Option<bytes>)
      requires Reads(read, parse)
      requires kind.None? && !chunked && length.None?
      modifies `header, `kind, `chunked, `length
      ensures match Divide(old(header) + block)
              case Growing => rest == None && header == old(header) + block && ok == (|header| <= MAX_HEADER)
              case TooLong => rest == None && !ok
              case Ready(head, after) => ok == read.head(head).Some? && rest == Some(after)
      ensures rest == None ==> unchanged(`kind, `chunked, `length)
      ensures ok && rest.Some? ==>
                && header == [] && kind.Some? && !(chunked && length.Some?)
                && read.head(Divide(old(header) + block).head) == Some(CurrentFrame())
    {
      header := header + block;
      var boundary := Find(header, BLANK_LINE);
      if boundary < 0 {
        return |header| <= MAX_HEADER, None;
      }
      if boundary > MAX_HEADER { return false, None; }
      var head := header[..boundary];
      rest, header := Some(header[boundary + 4..]), [];
      ok := ReadHead(head);
    }

    method FeedBody(block: bytes) returns (ok: bool)
      requires Reads(read, parse)
      requires kind.Some? && !disabled && !done && header == [] && !(chunked && length.Some?)
      requires !messageComplete && (chunked ==> !chunkDone) && |body| <= MAX_EVENT
      modifies this
      ensures kind.Some? && !disabled && !done && header == [] && !(chunked && length.Some?)
      ensures var t := Extend(read, old(State()), block);
              && (ok <==> t != Off && Fits(t))
              && (ok ==> State() == t && messageComplete == Complete(t))
    {
      if chunked {
        ok := FeedChunked(block);
      } else {
        received := received + |block|;
        if length.Some? && received > length.value { return false; }
        ok := TakeContent(block);
        if ok && length == Some(received) { messageComplete := true; }
      }
    }

    method ReadHead(head: bytes) returns (ok: bool)
      requires Reads(read, parse)
      requires kind.None? && !chunked && length.None?
      modifies `kind, `chunked, `length
      ensures ok <==> read.head(head).Some?
      ensures ok ==> kind.Some? && CurrentFrame() == read.head(head).value && !(chunked && length.Some?)
    {
      ghost var parsed := ParseHead(head);
      var lines := SplitOn(head, CRLF);
      if !StatusAccepted(lines[0]) { return false; }
      var found := ReadHeaders(lines[1..]);
      if found.None? { return false; }
      var headers := found.value;
      if Header(headers, "content-encoding", Ascii("identity")) != Ascii("identity") { return false; }
      var media := Split(Header(headers, "content-type", []), 59)[0];
      if media == Ascii("text/event-stream") {
        kind := Some(EventStream);
      } else if media == Ascii("application/json") {
        kind := Some(Document);
      } else {
        return false;
      }
      var encoded, sized := Ascii("transfer-encoding") in headers, Ascii("content-length") in headers;
      if encoded && (headers[Ascii("transfer-encoding")] != Ascii("chunked") || sized) { return false; }
      chunked := encoded;
      if sized {
        var n := ReadInt(headers[Ascii("content-length")]);
        if n.None? || n.value < 0 { return false; }
        length := Some(n.value);
      }
      return true;
    }

    method FeedChunked(block: bytes) returns (ok: bool)
      requires Reads(read, parse)
      requires kind.Some? && chunked && !chunkDone && !messageComplete && |body| <= MAX_EVENT
      modifies `wire, `chunkLeft, `ending, `chunkDone, `messageComplete, `body, `data, `eventSize, `models
      ensures var r := Unchunk(read, kind.value, old(CurrentWire()).(buf := old(wire) + block), old(CurrentContent()));
              && (ok <==> r.Some? && |r.value.1.body| <= MAX_EVENT)
              && (ok ==> r == Some((CurrentWire(), CurrentContent())))
      ensures ok ==> messageComplete == chunkDone
    {
      wire := wire + block;
      ghost var result := Unchunk(read, kind.value, CurrentWire(), CurrentContent());
      while wire != []
        invariant result == Unchunk(read, kind.value, CurrentWire(), CurrentContent())
        invariant !chunkDone && !messageComplete && |body| <= MAX_EVENT
        decreases |wire|
      {
        if ending {
          ok := TakeEnd();
          return;
        }
        var more: bool;
        ok, more := TakePiece();
        if !ok { return false; }
        if !more { break; }
      }
      ok := true;
    }

    /** The line end after the last chunk, if it is complete. */
    method TakeEnd() returns (ok: bool)
      requires kind.Some? && ending && !chunkDone && !messageComplete && wire != []
      modifies `wire, `chunkDone, `messageComplete
      ensures var was := old(Unchunk(read, kind.value, CurrentWire(), CurrentContent()));
              if ok then was == Some((CurrentWire(), CurrentContent())) else was.None?
      ensures messageComplete == chunkDone
    {
      if |wire| < 2 { return true; }
      if wire != CRLF { return false; }
      wire := [];
      chunkDone, messageComplete := true, true;
      return true;
    }

    /** A size line that is due, and what has arrived of the chunk after it. */
    method TakePiece() returns (ok: bool, more: bool)
      requires Reads(read, parse)
      requires kind.Some? && !ending && !chunkDone && |body| <= MAX_EVENT && wire != []
      modifies `wire, `chunkLeft, `ending, `body, `data, `eventSize, `models
      ensures var was := old(Unchunk(read, kind.value, CurrentWire(), CurrentContent()));
              && (!ok ==> was.None? || |was.value.1.body| > MAX_EVENT)
              && (ok ==> |body| <= MAX_EVENT && was == Unchunk(read, kind.value, CurrentWire(), CurrentContent()))
              && (ok && !more ==> was == Some((CurrentWire(), CurrentContent())))
      ensures ok && more ==> |wire| < |old(wire)|
    {
      if chunkLeft.None? {
        ok, more := TakeSizeLine();
        if !ok || !more || ending { return; }
      }
      ok, more := TakeChunk();
    }

    /** The size line of the next chunk, if it is complete. */
    method TakeSizeLine() returns (ok: bool, more: bool)
      requires kind.Some? && !ending && !chunkDone && chunkLeft.None? && wire != []
      modifies `wire, `chunkLeft, `ending
      ensures var was := old(Unchunk(read, kind.value, CurrentWire(), CurrentContent()));
              && (!ok ==> was.None?)
              && (ok ==> was == Unchunk(read, kind.value, CurrentWire(), CurrentContent()))
              && (ok && !more ==> was == Some((CurrentWire(), CurrentContent())))
      ensures ok && more ==> |wire| < |old(wire)| && chunkLeft.Some? && ending == (chunkLeft == Some(0))
    {
      var end := Find(wire, CRLF);
      if end < 0 {
        return |wire| <= MAX_SIZE_LINE, false;
      }
      if end > MAX_SIZE_LINE { return false, false; }
      var token := wire[..end];
      if !IsSizeToken(token) { return false, false; }
      UnchunkSizeLine(read, kind.value, wire, CurrentContent());
      chunkLeft := Some(HexValue(token));
      wire := wire[end + 2..];
      ending := chunkLeft == Some(0);
      return true, true;
    }

    /** The part of a chunk that has arrived, and the line end after the chunk. */
    method TakeChunk() returns (ok: bool, more: bool)
      requires Reads(read, parse)
      requires kind.Some? && !ending && !chunkDone && chunkLeft.Some? && |body| <= MAX_EVENT
      requires wire == [] ==> chunkLeft.value > 0
      modifies `wire, `chunkLeft, `body, `data, `eventSize, `models
      ensures var was := old(Unchunk(read, kind.value, CurrentWire(), CurrentContent()));
              && (!ok ==> was.None? || |was.value.1.body| > MAX_EVENT)
              && (ok ==> |body| <= MAX_EVENT && was == Unchunk(read, kind.value, CurrentWire(), CurrentContent()))
              && (ok && !more ==> was == Some((CurrentWire(), CurrentContent())))
      ensures ok && more ==> |wire| < |old(wire)|
    {
      var amount := if chunkLeft.value < |wire| then chunkLeft.value else |wire|;
      if amount > 0 {
        PieceStep(read, kind.value, wire, chunkLeft.value, CurrentContent(), amount);
        if chunkLeft.value > amount { PartialChunk(read, kind.value, wire, chunkLeft.value, CurrentContent()); }
        assert chunkLeft.value > amount ==> wire[..amount] == wire;
        var fine := TakeContent(wire[..amount]);
        if !fine { return false, false; }
        wire := wire[amount..];
        chunkLeft := Some(chunkLeft.value - amount);
      }
      if chunkLeft.value > 0 { return true, false; }
      if |wire| < 2 { return true, false; }
      if wire[..2] != CRLF { return false, false; }
      UnchunkChunkEnd(read, kind.value, wire, CurrentContent());
      wire, chunkLeft := wire[2..], None;
      return true, true;
    }

    method TakeContent(block: bytes) returns (ok: bool)
      requires Reads(read, parse)
      requires kind.Some?
      modifies `body, `data, `eventSize, `models
      ensures var r := Absorb(read, kind.value, old(CurrentContent()), block);
              && (ok <==> r.Some? && |r.value.body| <= MAX_EVENT)
              && (ok ==> CurrentContent() == r.value)
    {
      body := body + block;
      if kind.value == Document { return |body| <= MAX_EVENT; }
      ghost var result := Drain(read, CurrentContent());
      while Index(body, LF) < |body|
        invariant result == Drain(read, CurrentContent())
        decreases |body|
      {
        var i := Index(body, LF);
        var line := body[..i];
        body := body[i + 1..];
        var fine := TakeOneLine(line);
        if !fine { return false; }
      }
      return |body| <= MAX_EVENT;
    }

    method TakeOneLine(line: bytes) returns (ok: bool)
      requires Reads(read, parse)
      requires kind == Some(EventStream)
      modifies `data, `eventSize, `models
      ensures var r := read.takeLine(old(CurrentContent().events), line);
              (ok <==> r.Some?) && (ok ==> CurrentContent().events == r.value)
    {
      ghost var taken := TakeLine(parse, CurrentContent().events, line);
      var text := DropCR(line);
      if text == [] {
        if data != [] {
          var fine := TakeEvent(Join(data, [LF]));
          if !fine { return false; }
        }
        data, eventSize := [], 0;
      } else if IsData(text) {
        var value := DataValue(text);
        eventSize := eventSize + |value| + 1;
        if eventSize > MAX_EVENT { return false; }
        data := data + [value];
      }
      return true;
    }

    method TakeEvent(raw: bytes) returns (ok: bool)
      requires kind.Some?
      modifies `models
      ensures var r := AddEvent(parse, kind.value, old(models), raw);
              (ok <==> r.Some?) && (ok ==> models == r.value)
    {
      var reported := Reported(parse, kind.value, raw);
      if reported.None? { return false; }
      if reported.value.Some? {
        models := models + [reported.value.value];
        if |models| > MAX_MODELS { return false; }
      }
      return true;
    }

    /** Whether the response is complete and usable; the models then hold its verdict. */
    method Commit() returns (ok: bool)
      requires Reads(read, parse)
      requires !disabled && (kind.Some? && kind.value == Document ==> models == [])
      requires !(chunked && length.Some?)
      modifies `models
      ensures var verdict := Conclude(read, old(State()));
              (ok <==> verdict.Some?) && (ok ==> models == verdict.value)
    {
      if kind.None? || (chunked && !chunkDone) || (length.Some? && received != length.value) {
        ok := false;
      } else if kind.value == Document {
        ok := TakeEvent(body);
      } else {
        ok := body == [] && data == [];
      }
    }

    method RecordAll(models: seq<string>)
      requires evidence.Valid()
      modifies evidence
      ensures evidence.Valid() && evidence.history == old(evidence.history) + Reports(models)
    {
      for i := 0 to |models|
        invariant evidence.Valid()
        invariant evidence.history == old(evidence.history) + Reports(models[..i])
      {
        evidence.Record(models[i]);
        assert Reports(models[..i + 1]) == Reports(models[..i]) + [Recorded(models[i])];
      }
      assert models[..|models|] == models;
    }

    method Finish()
      requires Valid() && evidence.Valid()
      modifies this, evidence
      ensures Valid() && evidence.Valid()
      ensures old(disabled || done) ==>
                done == old(done) && disabled == old(disabled) && evidence.history == old(evidence.history)
      ensures !old(disabled || done) ==>
                var verdict := Conclude(read, old(State()));
                && done == verdict.Some? && disabled == verdict.None?
                && evidence.history == old(evidence.history) + (if verdict.Some? then Reports(verdict.value) else [])
    {
      if disabled || done { return; }
      ReaderReads(parse);
      var ok := Commit();
      if !ok {
        Disable();
        return;
      }
      RecordAll(models);
      done := true;
      body, data, models := [], [], [];
    }
  }

  /** One response observed from its first block to the end of the connection. */
  method ObserveResponse(evidence: ProviderModelEvidence, parse: Parser, blocks: seq<bytes>)
    requires evidence.Valid()
    modifies evidence
    ensures evidence.Valid()
    ensures var verdict := Observed(parse, blocks);
            && evidence.history == old(evidence.history) + (if verdict.Some? then Reports(verdict.value) else [])
            && (verdict.Some? ==> verdict == OneShot(parse, Concat(blocks)))
  {
    var observer := new ResponseObserver(evidence, parse);
    for i := 0 to |blocks|
      invariant observer.Valid() && evidence.Valid() && !observer.done
      invariant observer.evidence == evidence && observer.parse == parse
      invariant evidence.history == old(evidence.history)
      invariant Run(ReaderOf(parse), START, blocks) == Run(ReaderOf(parse), observer.State(), blocks[i..])
    {
      assert blocks[i..][0] == blocks[i] && blocks[i..][1..] == blocks[i + 1..];
      observer.Feed(blocks[i]);
    }
    observer.Finish();
    if Observed(parse, blocks).Some? { RecordedIsOneShot(parse, blocks); }
  }
}
