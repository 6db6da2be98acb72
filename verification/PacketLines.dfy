/** Git packet lines: four hexadecimal digits of length, then that many bytes less four. */
module PacketLines {
  import opened Bytes

  const MAX_PACKET := 65520
  const MAX_LINES := 50004
  const MAX_DISCOVERY := 8 * 1024 * 1024

  /** None is the flush packet. */
  type Line = Option<bytes>

  const FLUSH: bytes := [48, 48, 48, 48]

  predicate IsLowHex(c: byte) {
    IsDigit(c) || 97 <= c <= 102
  }

  function HexOf(d: nat): (c: byte)
    requires d < 16
    ensures IsLowHex(c) && HexDigit(c) == d
  {
    if d < 10 then (48 + d) as byte else (87 + d) as byte
  }

  /** The length field of a packet. */
  function Header(n: nat): (h: bytes)
    requires n < 65536
    ensures |h| == 4
  {
    var high := n / 16;
    var higher := high / 16;
    [HexOf(higher / 16), HexOf(higher % 16), HexOf(high % 16), HexOf(n % 16)]
  }

  predicate IsHeader(h: bytes) {
    |h| == 4 && IsLowHex(h[0]) && IsLowHex(h[1]) && IsLowHex(h[2]) && IsLowHex(h[3])
  }

  function Length(h: bytes): (n: nat)
    requires |h| == 4
    ensures n < 65536
  {
    ((HexDigit(h[0]) * 16 + HexDigit(h[1])) * 16 + HexDigit(h[2])) * 16 + HexDigit(h[3])
  }

  lemma OneDigit(high: nat, digit: nat)
    requires digit < 16
    ensures (high * 16 + digit) / 16 == high && (high * 16 + digit) % 16 == digit
  {
  }

  lemma HexOfDigit(c: byte)
    requires IsLowHex(c)
    ensures HexOf(HexDigit(c)) == c
  {
  }

  lemma HeaderOfLength(h: bytes)
    requires IsHeader(h)
    ensures Header(Length(h)) == h
  {
    HexOfDigit(h[0]);
    HexOfDigit(h[1]);
    HexOfDigit(h[2]);
    HexOfDigit(h[3]);
    var higher := HexDigit(h[0]) * 16 + HexDigit(h[1]);
    var high := higher * 16 + HexDigit(h[2]);
    OneDigit(HexDigit(h[0]), HexDigit(h[1]));
    OneDigit(higher, HexDigit(h[2]));
    OneDigit(high, HexDigit(h[3]));
  }

  predicate Printable(line: Line) {
    line.Some? ==> |line.value| + 4 <= MAX_PACKET
  }

  function PrintLine(line: Line): bytes
    requires Printable(line)
  {
    if line.None? then FLUSH else Header(|line.value| + 4) + line.value
  }

  predicate AllPrintable(lines: seq<Line>) {
    lines == [] || (Printable(lines[0]) && AllPrintable(lines[1..]))
  }

  function Print(lines: seq<Line>): bytes
    requires AllPrintable(lines)
  {
    if lines == [] then [] else PrintLine(lines[0]) + Print(lines[1..])
  }

  /** `packet`: a packet must have a body. */
  function Packet(body: bytes): Option<bytes> {
    if body == [] || |body| + 4 > MAX_PACKET then None else Some(Header(|body| + 4) + body)
  }

  /** The first packet of a body and what follows it. */
  function FirstLine(body: bytes): (r: Option<(Line, bytes)>)
    ensures r.Some? ==> |r.value.1| < |body|
  {
    if |body| < 4 || !IsHeader(body[..4]) then None
    else
      var n := Length(body[..4]);
      if n == 0 then Some((None, body[4..]))
      else if n < 4 || n > MAX_PACKET || n > |body| then None
      else Some((Some(body[4..n]), body[n..]))
  }

  function Parse(body: bytes): Option<seq<Line>>
    decreases |body|
  {
    if body == [] then Some([])
    else
      match FirstLine(body)
      case None => None
      case Some((line, rest)) => match Parse(rest) case None => None case Some(lines) => Some([line] + lines)
  }

  /** `_packets`. */
  function PacketsOf(body: bytes): Option<seq<Line>> {
    if |body| > MAX_DISCOVERY then None
    else match Parse(body) case None => None case Some(lines) => if |lines| > MAX_LINES then None else Some(lines)
  }

  // ---------------------------------------------------------------- round trips

  lemma FirstOfPrinted(line: Line, rest: bytes)
    requires Printable(line)
    ensures FirstLine(PrintLine(line) + rest) == Some((line, rest))
  {
  }

  lemma PrintedOfFirst(body: bytes)
    requires FirstLine(body).Some?
    ensures var (line, rest) := FirstLine(body).value; Printable(line) && body == PrintLine(line) + rest
  {
    HeaderOfLength(body[..4]);
    var n := Length(body[..4]);
    if n == 0 {
      assert body[..4] == FLUSH;
    } else {
      assert body == body[..4] + body[4..n] + body[n..];
    }
  }

  lemma {:induction false} ParsePrint(lines: seq<Line>)
    requires AllPrintable(lines)
    ensures Parse(Print(lines)) == Some(lines)
  {
    if lines == [] {
    } else {
      FirstOfPrinted(lines[0], Print(lines[1..]));
      ParsePrint(lines[1..]);
      assert lines == [lines[0]] + lines[1..];
    }
  }

  lemma {:induction false} PrintParse(body: bytes)
    requires Parse(body).Some?
    ensures AllPrintable(Parse(body).value) && Print(Parse(body).value) == body
    decreases |body|
  {
    if body == [] {
    } else {
      PrintedOfFirst(body);
      var (line, rest) := FirstLine(body).value;
      PrintParse(rest);
      assert Parse(body).value[1..] == Parse(rest).value;
    }
  }

  /** Reading and printing are inverse on what is accepted: nothing has two readings, nothing two spellings. */
  lemma PacketsExactly(body: bytes, lines: seq<Line>)
    ensures PacketsOf(body) == Some(lines) <==>
            AllPrintable(lines) && Print(lines) == body && |lines| <= MAX_LINES && |body| <= MAX_DISCOVERY
  {
    if Parse(body).Some? { PrintParse(body); }
    if AllPrintable(lines) { ParsePrint(lines); }
  }

  // ---------------------------------------------------------------- the loop

  lemma PrependOne(lines: seq<Line>, body: bytes)
    requires body != []
    ensures Prepend(lines, Parse(body)) ==
            match FirstLine(body) case None => None case Some((line, rest)) => Prepend(lines + [line], Parse(rest))
  {
    if FirstLine(body).Some? {
      var (line, rest) := FirstLine(body).value;
      PrependTwice(lines, [line], Parse(rest));
    }
  }

  /** The first packet of what is left, by its place in the body. */
  lemma FirstLineAt(body: bytes, p: nat)
    requires p < |body|
    ensures FirstLine(body[p..]) ==
            if p + 4 > |body| || !IsHeader(body[p..p + 4]) then None
            else
              var n := Length(body[p..p + 4]);
              if n == 0 then Some((None, body[p + 4..]))
              else if n < 4 || n > MAX_PACKET || p + n > |body| then None
              else Some((Some(body[p + 4..p + n]), body[p + n..]))
  {
    var left := body[p..];
    if p + 4 <= |body| {
      assert left[..4] == body[p..p + 4] && left[4..] == body[p + 4..];
      var n := Length(body[p..p + 4]);
      if 4 <= n && p + n <= |body| {
        assert left[4..n] == body[p + 4..p + n] && left[n..] == body[p + n..];
      }
    }
  }

  /** The loop of `_packets` over `position`. */
  method Packets(body: bytes) returns (result: Option<seq<Line>>)
    ensures result == PacketsOf(body)
  {
    if |body| > MAX_DISCOVERY { return None; }
    var position, lines := 0, [];
    assert body[0..] == body;
    PrependEnds([], Parse(body));
    while position < |body|
      invariant 0 <= position <= |body| && |lines| <= MAX_LINES
      invariant Parse(body) == Prepend(lines, Parse(body[position..]))
    {
      PrependOne(lines, body[position..]);
      FirstLineAt(body, position);
      if position + 4 > |body| { return None; }
      var header := body[position..position + 4];
      if !IsHeader(header) { return None; }
      var length := Length(header);
      if length == 0 {
        lines, position := lines + [None], position + 4;
      } else {
        if length < 4 || length > MAX_PACKET || position + length > |body| { return None; }
        lines, position := lines + [Some(body[position + 4..position + length])], position + length;
      }
      if |lines| > MAX_LINES { return None; }
    }
    PrependEnds(lines, None);
    return Some(lines);
  }
}
