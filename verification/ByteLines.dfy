/** Lines ended by CR LF, and the blank line after the last of them. */
module ByteLines {
  import opened Bytes

  predicate Line(s: bytes) {
    s != [] && CR !in s
  }

  predicate AllLines(lines: seq<bytes>) {
    lines == [] || (Line(lines[0]) && AllLines(lines[1..]))
  }

  lemma FindMiddle(a: bytes, p: bytes, b: bytes)
    requires p != [] && p[0] == CR && CR !in a
    ensures Find(a + p + b, p) == |a|
  {
    var s := a + p + b;
    assert s[|a|..|a| + |p|] == p;
    assert At(s, p, |a|);
    var i := Find(s, p);
    assert s[i..i + |p|][0] == s[i];
    assert forall k :: 0 <= k < |a| ==> s[k] == a[k];
  }

  lemma FindAbsent(a: bytes, p: bytes)
    requires p != [] && p[0] == CR && CR !in a
    ensures Find(a, p) == -1
  {
  }

  lemma {:induction false} SplitLines(lines: seq<bytes>)
    requires lines != [] && AllLines(lines)
    ensures SplitOn(Join(lines, CRLF), CRLF) == lines
  {
    if |lines| == 1 {
      FindAbsent(lines[0], CRLF);
    } else {
      var rest := Join(lines[1..], CRLF);
      var s := lines[0] + CRLF + rest;
      FindMiddle(lines[0], CRLF, rest);
      assert s[..|lines[0]|] == lines[0] && s[|lines[0]| + 2..] == rest;
      SplitLines(lines[1..]);
      assert lines == [lines[0]] + lines[1..];
    }
  }

  /** A blank line cannot begin inside a first line, nor at its end when another line follows. */
  lemma BlankLater(line: bytes, rest: bytes)
    requires Line(line) && rest != [] && rest[0] != CR && Find(rest, BLANK_LINE) >= 0
    ensures Find(line + CRLF + rest, BLANK_LINE) == |line| + 2 + Find(rest, BLANK_LINE)
  {
    var s := line + CRLF + rest;
    var j := Find(rest, BLANK_LINE);
    assert s[|line| + 2 + j..|line| + 2 + j + 4] == rest[j..j + 4];
    assert At(s, BLANK_LINE, |line| + 2 + j);
    var i := Find(s, BLANK_LINE);
    assert s[i..i + 4] == BLANK_LINE;
    assert s[i] == CR && s[i + 2] == CR by { assert s[i..i + 4][0] == s[i] && s[i..i + 4][2] == s[i + 2]; }
    assert forall k :: 0 <= k < |line| ==> s[k] == line[k];
    assert s[|line| + 1] == LF && s[|line| + 2] == rest[0];
    assert i >= |line| + 2;
    assert rest[i - |line| - 2..i - |line| + 2] == s[i..i + 4];
    assert At(rest, BLANK_LINE, i - |line| - 2);
  }

  lemma {:induction false} BlankAfter(lines: seq<bytes>, body: bytes)
    requires lines != [] && AllLines(lines)
    ensures Find(Join(lines, CRLF) + BLANK_LINE + body, BLANK_LINE) == |Join(lines, CRLF)|
  {
    if |lines| == 1 {
      FindMiddle(lines[0], BLANK_LINE, body);
    } else {
      BlankAfter(lines[1..], body);
      var rest := Join(lines[1..], CRLF) + BLANK_LINE + body;
      assert rest[0] == lines[1][0];
      BlankLater(lines[0], rest);
      assert Join(lines, CRLF) + BLANK_LINE + body == lines[0] + CRLF + rest;
    }
  }
}
