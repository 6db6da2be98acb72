/** Chunked transfer coding (RFC 9112 section 7.1) and the body it stands for. */
module ChunkedCoding {
  import opened Bytes
  import opened ResponseSpec
  import opened ResponseDecoding

  /** A chunk and the spelling of its size: case and leading zeros are free. */
  datatype Chunk = Chunk(token: bytes, data: bytes)

  predicate IsChunk(c: Chunk) {
    IsSizeToken(c.token) && c.data != [] && HexValue(c.token) == |c.data|
  }

  predicate IsLast(token: bytes) {
    IsSizeToken(token) && HexValue(token) == 0
  }

  function Encode(chunks: seq<Chunk>, last: bytes): bytes {
    if chunks == [] then last + CRLF + CRLF
    else chunks[0].token + CRLF + chunks[0].data + CRLF + Encode(chunks[1..], last)
  }

  function Data(chunks: seq<Chunk>): bytes {
    if chunks == [] then [] else chunks[0].data + Data(chunks[1..])
  }

  lemma TokenEnds(token: bytes, rest: bytes)
    requires IsSizeToken(token)
    ensures SizeLine(token + CRLF + rest) == Some((HexValue(token), rest))
  {
    var line := token + CRLF + rest;
    assert line[|token|..|token| + 2] == CRLF;
    assert At(line, CRLF, |token|);
    var q := Find(line, CRLF);
    assert line[q] == line[q..q + 2][0] == CR;
    if q < |token| {
      AllHexAt(token, q);
      assert false;
    }
    assert line[..|token|] == token && line[|token| + 2..] == rest;
  }

  lemma ChunkReads(c: Chunk, tail: bytes)
    requires IsChunk(c)
    ensures Dechunk(c.token + CRLF + (c.data + CRLF + tail)) == Prepend(c.data, Dechunk(tail))
  {
    var rest, n := c.data + CRLF + tail, |c.data|;
    TokenEnds(c.token, rest);
    assert rest[..n] == c.data && rest[n..n + 2] == CRLF && rest[n + 2..] == tail;
  }

  lemma EncodeStep(c: Chunk, more: seq<Chunk>, last: bytes)
    ensures Encode([c] + more, last) == c.token + CRLF + (c.data + CRLF + Encode(more, last))
    ensures Data([c] + more) == c.data + Data(more)
  {
  }

  /** Any chunking of a body decodes to that body. */
  lemma {:induction false} DecodeEncode(chunks: seq<Chunk>, last: bytes)
    requires (forall i :: 0 <= i < |chunks| ==> IsChunk(chunks[i])) && IsLast(last)
    ensures Dechunk(Encode(chunks, last)) == Some(Data(chunks))
    decreases |chunks|
  {
    if chunks == [] {
      TokenEnds(last, CRLF);
    } else {
      assert chunks == [chunks[0]] + chunks[1..];
      EncodeStep(chunks[0], chunks[1..], last);
      ChunkReads(chunks[0], Encode(chunks[1..], last));
      DecodeEncode(chunks[1..], last);
    }
  }

  lemma SizeLineSpells(buf: bytes) returns (token: bytes)
    requires SizeLine(buf).Some?
    ensures IsSizeToken(token) && HexValue(token) == SizeLine(buf).value.0
    ensures buf == token + CRLF + SizeLine(buf).value.1
  {
    var end := Find(buf, CRLF);
    token := buf[..end];
    assert buf[end..end + 2] == CRLF;
  }

  lemma NextChunk(payload: bytes, n: nat, rest: bytes) returns (c: Chunk, tail: bytes)
    requires Dechunk(payload).Some? && SizeLine(payload) == Some((n, rest)) && n > 0
    ensures IsChunk(c) && |tail| < |payload| && Dechunk(tail).Some?
    ensures payload == c.token + CRLF + (c.data + CRLF + tail)
    ensures Dechunk(payload) == Some(c.data + Dechunk(tail).value)
  {
    var token := SizeLineSpells(payload);
    c, tail := Chunk(token, rest[..n]), rest[n + 2..];
    assert rest == rest[..n] + rest[n..n + 2] + rest[n + 2..];
  }

  /** Whatever decodes is a chunking of what it decodes to. */
  lemma {:induction false} EncodeDecode(payload: bytes) returns (chunks: seq<Chunk>, last: bytes)
    requires Dechunk(payload).Some?
    ensures (forall i :: 0 <= i < |chunks| ==> IsChunk(chunks[i])) && IsLast(last)
    ensures payload == Encode(chunks, last) && Dechunk(payload) == Some(Data(chunks))
    decreases |payload|
  {
    var (n, rest) := SizeLine(payload).value;
    if n == 0 {
      chunks := [];
      last := SizeLineSpells(payload);
    } else {
      var c, tail := NextChunk(payload, n, rest);
      chunks, last := EncodeDecode(tail);
      EncodeStep(c, chunks, last);
      chunks := [c] + chunks;
    }
  }

  lemma DivideAt(header: bytes, payload: bytes)
    requires Find(header + BLANK_LINE, BLANK_LINE) == |header| <= MAX_HEADER
    ensures Divide(header + BLANK_LINE + payload) == Ready(header, payload)
  {
    FindAppend(header + BLANK_LINE, payload, BLANK_LINE);
    var message := header + BLANK_LINE + payload;
    assert message[..|header|] == header && message[|header| + 4..] == payload;
  }

  lemma DecodedAt(head: HeadParser, header: bytes, payload: bytes)
    requires Find(header + BLANK_LINE, BLANK_LINE) == |header| <= MAX_HEADER && head(header).Some?
    ensures Decoded(head, header + BLANK_LINE + payload) ==
            match BodyOf(head(header).value.framing, payload)
            case None => None
            case Some(body) => Some((head(header).value, body))
  {
    DivideAt(header, payload);
  }

  lemma SameOneShot(parse: Parser, chunkedHeader: bytes, countedHeader: bytes, kind: Kind, chunks: seq<Chunk>, last: bytes)
    requires (forall i :: 0 <= i < |chunks| ==> IsChunk(chunks[i])) && IsLast(last)
    requires Find(chunkedHeader + BLANK_LINE, BLANK_LINE) == |chunkedHeader| <= MAX_HEADER
    requires Find(countedHeader + BLANK_LINE, BLANK_LINE) == |countedHeader| <= MAX_HEADER
    requires ParseHead(chunkedHeader) == Some(Frame(kind, Chunked))
    requires ParseHead(countedHeader) == Some(Frame(kind, Counted(|Data(chunks)|)))
    ensures var a := chunkedHeader + BLANK_LINE + Encode(chunks, last);
            var b := countedHeader + BLANK_LINE + Data(chunks);
            && Decoded(ParseHead, a) == Some((Frame(kind, Chunked), Data(chunks)))
            && Decoded(ParseHead, b) == Some((Frame(kind, Counted(|Data(chunks)|)), Data(chunks)))
            && OneShot(parse, a) == OneShot(parse, b)
  {
    DecodedAt(ParseHead, chunkedHeader, Encode(chunks, last));
    DecodedAt(ParseHead, countedHeader, Data(chunks));
    DecodeEncode(chunks, last);
  }

  lemma BlankFound(header: bytes, payload: bytes)
    requires Find(header + BLANK_LINE, BLANK_LINE) == |header|
    ensures Find(header + BLANK_LINE + payload, BLANK_LINE) == |header|
  {
    FindAppend(header + BLANK_LINE, payload, BLANK_LINE);
  }

  /**
   Framing does not show: within the bounds any way to cut a chunked message records what any way to
   cut its counted twin records.
   */
  lemma FramingInvisible(parse: Parser, chunkedHeader: bytes, countedHeader: bytes, kind: Kind, chunks: seq<Chunk>,
                         last: bytes, p: seq<bytes>, q: seq<bytes>)
    requires (forall i :: 0 <= i < |chunks| ==> IsChunk(chunks[i])) && IsLast(last)
    requires Find(chunkedHeader + BLANK_LINE, BLANK_LINE) == |chunkedHeader| <= MAX_HEADER - 3
    requires Find(countedHeader + BLANK_LINE, BLANK_LINE) == |countedHeader| <= MAX_HEADER - 3
    requires ParseHead(chunkedHeader) == Some(Frame(kind, Chunked))
    requires ParseHead(countedHeader) == Some(Frame(kind, Counted(|Data(chunks)|)))
    requires BodyFits(kind, Data(chunks))
    requires Concat(p) == chunkedHeader + BLANK_LINE + Encode(chunks, last)
    requires Concat(q) == countedHeader + BLANK_LINE + Data(chunks)
    ensures Observed(parse, p) == Observed(parse, q) == ReadBody(parse, kind, Data(chunks))
  {
    SameOneShot(parse, chunkedHeader, countedHeader, kind, chunks, last);
    BlankFound(chunkedHeader, Encode(chunks, last));
    BlankFound(countedHeader, Data(chunks));
    ObservedIsOneShot(parse, p);
    ObservedIsOneShot(parse, q);
  }
}
