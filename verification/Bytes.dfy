/** Byte strings as the source's Python `bytes`: searching, splitting and joining. */
module Bytes {

  newtype byte = x: int | 0 <= x < 256
  type bytes = seq<byte>

  datatype Option<+T> = None | Some(value: T)

  const CR: byte := 13
  const LF: byte := 10
  const SP: byte := 32
  const NUL: byte := 0
  const SLASH: byte := 47
  const CRLF: bytes := [13, 10]
  const BLANK_LINE: bytes := [13, 10, 13, 10]

  /** The bytes of a literal whose characters are all below 256. */
  function Ascii(s: string): (b: bytes)
    ensures |b| == |s|
  {
    seq(|s|, i requires 0 <= i < |s| => (s[i] as int % 256) as byte)
  }

  /** `p` occurs in `s` at offset `j`. */
  predicate At(s: bytes, p: bytes, j: int) {
    0 <= j && j + |p| <= |s| && s[j..j + |p|] == p
  }

  function FindFrom(s: bytes, p: bytes, i: nat): (r: int)
    requires p != []
    ensures r == -1 || (At(s, p, r) && i <= r)
    ensures forall j :: At(s, p, j) && i <= j ==> 0 <= r <= j
    decreases |s| - i
  {
    if i + |p| > |s| then -1 else if At(s, p, i) then i else FindFrom(s, p, i + 1)
  }

  /** `bytes.find`: the first occurrence, or -1. */
  function Find(s: bytes, p: bytes): (r: int)
    requires p != []
    ensures r == -1 || At(s, p, r)
    ensures forall j :: At(s, p, j) ==> 0 <= r <= j
  {
    FindFrom(s, p, 0)
  }

  lemma AtPrefix(s: bytes, t: bytes, p: bytes, j: int)
    requires j + |p| <= |s|
    ensures At(s + t, p, j) == At(s, p, j)
  {
  }

  lemma FindAppend(s: bytes, t: bytes, p: bytes)
    requires p != [] && Find(s, p) >= 0
    ensures Find(s + t, p) == Find(s, p)
  {
    AtPrefix(s, t, p, Find(s, p));
    AtPrefix(s, t, p, Find(s + t, p));
  }

  /** A match that `s` alone does not show ends beyond `s`. */
  lemma FindLate(s: bytes, t: bytes, p: bytes)
    requires p != [] && Find(s, p) < 0
    ensures Find(s + t, p) < 0 || Find(s + t, p) + |p| > |s|
  {
    var q := Find(s + t, p);
    if q + |p| <= |s| {
      AtPrefix(s, t, p, q);
    }
  }

  function IndexFrom(s: bytes, c: byte, k: nat): (i: nat)
    requires k <= |s|
    ensures k <= i <= |s| && (i < |s| ==> s[i] == c)
    decreases |s| - k
  {
    if k == |s| || s[k] == c then k else IndexFrom(s, c, k + 1)
  }

  /** The first offset of `c`, or `|s|` when it does not occur. */
  function Index(s: bytes, c: byte): (i: nat)
    ensures i <= |s| && (i < |s| ==> s[i] == c)
  {
    IndexFrom(s, c, 0)
  }

  lemma {:induction false} IndexFromFirst(s: bytes, c: byte, k: nat, j: nat)
    requires k <= j < |s| && s[j] == c
    ensures IndexFrom(s, c, k) <= j
    decreases |s| - k
  {
    if s[k] == c {
    } else {
      IndexFromFirst(s, c, k + 1, j);
    }
  }

  lemma IndexFirst(s: bytes, c: byte, j: nat)
    requires j < |s| && s[j] == c
    ensures Index(s, c) <= j
  {
    IndexFromFirst(s, c, 0, j);
  }

  lemma IndexAbsent(s: bytes, c: byte)
    requires Index(s, c) == |s|
    ensures c !in s
  {
    if c in s {
      var j :| 0 <= j < |s| && s[j] == c;
      IndexFirst(s, c, j);
    }
  }

  lemma IndexAppend(s: bytes, t: bytes, c: byte)
    requires Index(s, c) < |s|
    ensures Index(s + t, c) == Index(s, c)
  {
    var i, k := Index(s, c), Index(s + t, c);
    IndexFirst(s + t, c, i);
    IndexFirst(s, c, k);
  }

  lemma IndexMiddle(a: bytes, b: bytes, c: byte)
    requires c !in a
    ensures Index(a + [c] + b, c) == |a|
  {
    var s := a + [c] + b;
    assert s[|a|] == c;
    IndexFirst(s, c, |a|);
    assert forall k :: 0 <= k < |a| ==> s[k] == a[k];
  }

  /** Up to the next `c`, and what follows it. */
  function Field(s: bytes, c: byte): (r: Option<(bytes, bytes)>)
    ensures r.Some? ==> |r.value.1| < |s|
  {
    var i := Index(s, c);
    if i == |s| then None else Some((s[..i], s[i + 1..]))
  }

  lemma FieldTaken(a: bytes, c: byte, rest: bytes)
    requires c !in a
    ensures Field(a + [c] + rest, c) == Some((a, rest))
  {
    var s := a + [c] + rest;
    IndexMiddle(a, rest, c);
    assert s[..|a|] == a && s[|a| + 1..] == rest;
  }

  /** `bytes.split` on one byte. */
  function Split(s: bytes, c: byte): (parts: seq<bytes>)
    ensures |parts| >= 1
  {
    var i := Index(s, c);
    if i == |s| then [s] else [s[..i]] + Split(s[i + 1..], c)
  }

  lemma SplitWhole(a: bytes, c: byte)
    requires c !in a
    ensures Split(a, c) == [a]
  {
  }

  lemma SplitFirst(a: bytes, b: bytes, c: byte)
    requires c !in a
    ensures Split(a + [c] + b, c) == [a] + Split(b, c)
  {
    var s := a + [c] + b;
    IndexMiddle(a, b, c);
    assert s[..|a|] == a && s[|a| + 1..] == b;
  }

  lemma SplitTwo(a: bytes, b: bytes, c: byte)
    requires c !in a && c !in b
    ensures Split(a + [c] + b, c) == [a, b]
  {
    SplitFirst(a, b, c);
    SplitWhole(b, c);
  }

  /** `bytes.split` on a longer separator. */
  function SplitOn(s: bytes, p: bytes): (parts: seq<bytes>)
    requires p != []
    ensures |parts| >= 1
  {
    var i := Find(s, p);
    if i < 0 then [s] else [s[..i]] + SplitOn(s[i + |p|..], p)
  }

  /** `bytes.join`. */
  function Join(parts: seq<bytes>, p: bytes): bytes {
    if parts == [] then []
    else if |parts| == 1 then parts[0]
    else parts[0] + p + Join(parts[1..], p)
  }

  function Concat(blocks: seq<bytes>): bytes {
    if blocks == [] then [] else blocks[0] + Concat(blocks[1..])
  }

  lemma {:induction false} ConcatAppend(a: seq<bytes>, b: seq<bytes>)
    ensures Concat(a + b) == Concat(a) + Concat(b)
  {
    if a == [] {
      assert a + b == b;
    } else {
      assert (a + b)[1..] == a[1..] + b;
      ConcatAppend(a[1..], b);
    }
  }

  lemma Regroup<T>(a: seq<T>, b: seq<T>, c: seq<T>)
    ensures a + (b + c) == a + b + c
  {
  }

  /** What is read from the rest, if it can be read, with `x` before it. */
  function Prepend<T>(x: seq<T>, rest: Option<seq<T>>): Option<seq<T>> {
    match rest
    case None => None
    case Some(more) => Some(x + more)
  }

  lemma PrependEnds<T>(x: seq<T>, rest: Option<seq<T>>)
    ensures Prepend([], rest) == rest && Prepend(x, Some([])) == Some(x)
  {
    assert x + [] == x;
    if rest.Some? { assert [] + rest.value == rest.value; }
  }

  lemma PrependTwice<T>(x: seq<T>, y: seq<T>, rest: Option<seq<T>>)
    ensures Prepend(x, Prepend(y, rest)) == Prepend(x + y, rest)
  {
    if rest.Some? { Regroup(x, y, rest.value); }
  }

  function LowerByte(c: byte): byte {
    if 65 <= c <= 90 then c + 32 else c
  }

  function Lower(s: bytes): (r: bytes)
    ensures |r| == |s|
  {
    seq(|s|, i requires 0 <= i < |s| => LowerByte(s[i]))
  }

  predicate IsSpace(c: byte) {
    c == 32 || 9 <= c <= 13
  }

  function StripLeft(s: bytes): (r: bytes)
    ensures |r| <= |s| && r == s[|s| - |r|..]
    ensures r != [] ==> !IsSpace(r[0])
  {
    if s != [] && IsSpace(s[0]) then StripLeft(s[1..]) else s
  }

  function StripRight(s: bytes): (r: bytes)
    ensures |r| <= |s| && r == s[..|r|]
    ensures r != [] ==> !IsSpace(r[|r| - 1])
  {
    if s != [] && IsSpace(s[|s| - 1]) then StripRight(s[..|s| - 1]) else s
  }

  /** `bytes.strip()`. */
  function Strip(s: bytes): (r: bytes)
    ensures |r| <= |s|
    ensures r != [] ==> !IsSpace(r[0]) && !IsSpace(r[|r| - 1])
  {
    StripRight(StripLeft(s))
  }

  predicate StartsWith(s: bytes, p: bytes) {
    |p| <= |s| && s[..|p|] == p
  }

  predicate IsDigit(c: byte) {
    48 <= c <= 57
  }

  predicate IsHexDigit(c: byte) {
    IsDigit(c) || 65 <= c <= 70 || 97 <= c <= 102
  }

  function HexDigit(c: byte): (d: nat)
    ensures d < 16
  {
    if IsDigit(c) then c as int - 48
    else if 65 <= c <= 70 then c as int - 55
    else if 97 <= c <= 102 then c as int - 87
    else 0
  }

  predicate AllHex(s: bytes) {
    s == [] || (IsHexDigit(s[|s| - 1]) && AllHex(s[..|s| - 1]))
  }

  /** `int(s, 16)` on a string of hexadecimal digits. */
  function HexValue(s: bytes): nat {
    if s == [] then 0 else HexValue(s[..|s| - 1]) * 16 + HexDigit(s[|s| - 1])
  }

  lemma {:induction false} AllHexAt(s: bytes, i: nat)
    requires AllHex(s) && i < |s|
    ensures IsHexDigit(s[i])
  {
    if i == |s| - 1 {
    } else {
      AllHexAt(s[..|s| - 1], i);
    }
  }

  predicate AllDigits(s: bytes) {
    s == [] || (IsDigit(s[|s| - 1]) && AllDigits(s[..|s| - 1]))
  }

  /** `int(s)` on a string of decimal digits. */
  function DecimalValue(s: bytes): nat
    requires AllDigits(s)
  {
    if s == [] then 0
    else
      var d := s[|s| - 1];
      DecimalValue(s[..|s| - 1]) * 10 + (d as int - 48)
  }
}
