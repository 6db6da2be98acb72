/** How the decoder answers to the ways one byte string can be cut into blocks. */
module ResponseFragments {
  import opened Bytes
  import opened ResponseSpec

  /** Draining can stop anywhere: what is left over waits for the next bytes. */
  lemma {:induction false} DrainAppend(read: Reader, c: Content, more: bytes)
    ensures Drain(read, c.(body := c.body + more)) ==
            match Drain(read, c)
            case None => None
            case Some(d) => Drain(read, d.(body := d.body + more))
    decreases |c.body|
  {
    var i := Index(c.body, LF);
    if i == |c.body| {
    } else {
      var longer := c.body + more;
      assert Index(longer, LF) == i by { IndexAppend(c.body, more, LF); }
      assert longer[..i] == c.body[..i];
      assert longer[i + 1..] == c.body[i + 1..] + more;
      var e := read.takeLine(c.events, c.body[..i]);
      if e.Some? {
        var d := Content(c.body[i + 1..], e.value);
        DrainAppend(read, d, more);
        assert Drain(read, c) == Drain(read, d);
        assert Drain(read, c.(body := longer)) == Drain(read, d.(body := d.body + more));
      }
    }
  }

  lemma AbsorbAppend(read: Reader, kind: Kind, c: Content, x: bytes, y: bytes)
    ensures Absorb(read, kind, c, x + y) ==
            match Absorb(read, kind, c, x)
            case None => None
            case Some(d) => Absorb(read, kind, d, y)
  {
    assert c.body + (x + y) == c.body + x + y;
    DrainAppend(read, c.(body := c.body + x), y);
  }

  /** The chunk loop can stop anywhere too. */
  lemma {:induction false} UnchunkAppend(read: Reader, kind: Kind, w: Wire, c: Content, more: bytes)
    ensures Unchunk(read, kind, w.(buf := w.buf + more), c) ==
            match Unchunk(read, kind, w, c)
            case None => None
            case Some((v, d)) => Unchunk(read, kind, v.(buf := v.buf + more), d)
    decreases |w.buf|
  {
    var longer := w.(buf := w.buf + more);
    if w.buf == [] {
    } else if more == [] {
      assert longer == w;
      UnchunkStuck(read, kind, w, c);
      var r := Unchunk(read, kind, w, c);
      assert r.Some? ==> r.value.0.buf + more == r.value.0.buf;
    } else if w.done {
    } else if w.ending {
      assert |w.buf| >= 2 ==> |longer.buf| > 2;
    } else if w.left.None? {
      SizeLineAppend(read, kind, w, c, more);
    } else if w.left.value == 0 {
      if |w.buf| >= 2 {
        assert longer.buf[..2] == w.buf[..2];
        assert longer.buf[2..] == w.buf[2..] + more;
        if w.buf[..2] == CRLF {
          UnchunkAppend(read, kind, Wire(w.buf[2..], None, false, false), c, more);
        }
      }
    } else if w.left.value <= |w.buf| {
      ChunkAppend(read, kind, w, c, more);
    } else {
      PartialChunk(read, kind, w.buf, w.left.value, c);
      PartialChunkAppend(read, kind, w.buf, w.left.value, c, more);
      assert [] + more == more;
    }
  }

  lemma SizeLineKept(buf: bytes, more: bytes)
    requires Find(buf, CRLF) >= 0
    ensures Find(buf + more, CRLF) == Find(buf, CRLF)
    ensures SizeLine(buf + more) ==
            match SizeLine(buf)
            case None => None
            case Some((n, rest)) => Some((n, rest + more))
  {
    FindAppend(buf, more, CRLF);
    var end := Find(buf, CRLF);
    assert (buf + more)[..end] == buf[..end] && (buf + more)[end + 2..] == buf[end + 2..] + more;
  }

  lemma {:induction false} SizeLineAppend(read: Reader, kind: Kind, w: Wire, c: Content, more: bytes)
    requires w.buf != [] && more != [] && !w.done && !w.ending && w.left.None?
    ensures Unchunk(read, kind, w.(buf := w.buf + more), c) ==
            match Unchunk(read, kind, w, c)
            case None => None
            case Some((v, d)) => Unchunk(read, kind, v.(buf := v.buf + more), d)
    decreases |w.buf|, 0
  {
    if Find(w.buf, CRLF) >= 0 {
      SizeLineKept(w.buf, more);
      var line := SizeLine(w.buf);
      if Find(w.buf, CRLF) <= MAX_SIZE_LINE && line.Some? {
        var (n, rest) := line.value;
        UnchunkAppend(read, kind, Wire(rest, Some(n), n == 0, false), c, more);
      }
    } else if |w.buf| > MAX_SIZE_LINE {
      LongSizeLine(read, kind, w.buf, more, c);
    }
  }

  lemma LongSizeLine(read: Reader, kind: Kind, buf: bytes, more: bytes, c: Content)
    requires Find(buf, CRLF) < 0 && |buf| > MAX_SIZE_LINE
    ensures Unchunk(read, kind, Wire(buf + more, None, false, false), c) == None
  {
    FindLate(buf, more, CRLF);
  }

  lemma {:induction false} ChunkAppend(read: Reader, kind: Kind, w: Wire, c: Content, more: bytes)
    requires w.buf != [] && more != [] && !w.done && !w.ending && w.left.Some? && 0 < w.left.value <= |w.buf|
    ensures Unchunk(read, kind, w.(buf := w.buf + more), c) ==
            match Unchunk(read, kind, w, c)
            case None => None
            case Some((v, d)) => Unchunk(read, kind, v.(buf := v.buf + more), d)
    decreases |w.buf|, 0
  {
    var longer := w.(buf := w.buf + more);
    var left := w.left.value;
    assert longer.buf[..left] == w.buf[..left];
    assert longer.buf[left..] == w.buf[left..] + more;
    var d := Absorb(read, kind, c, w.buf[..left]);
    if d.Some? && |d.value.body| <= MAX_EVENT {
      UnchunkAppend(read, kind, Wire(w.buf[left..], Some(0), false, false), d.value, more);
    }
  }

  /** The result of the loop once `amount` bytes of a chunk became the content `d`. */
  function AfterPiece(read: Reader, kind: Kind, rest: bytes, left: nat, d: Option<Content>): Option<(Wire, Content)> {
    match d
    case None => None
    case Some(e) =>
      if left == 0 && |e.body| > MAX_EVENT then None
      else Unchunk(read, kind, Wire(rest, Some(left), false, false), e)
  }

  lemma PieceStep(read: Reader, kind: Kind, buf: bytes, left: nat, c: Content, amount: nat)
    requires buf != [] && left > 0 && amount == if left < |buf| then left else |buf|
    ensures Unchunk(read, kind, Wire(buf, Some(left), false, false), c) ==
            AfterPiece(read, kind, buf[amount..], left - amount, Absorb(read, kind, c, buf[..amount]))
  {
  }

  lemma PartialChunk(read: Reader, kind: Kind, buf: bytes, left: nat, c: Content)
    requires buf != [] && left > |buf|
    ensures Unchunk(read, kind, Wire(buf, Some(left), false, false), c) ==
            match Absorb(read, kind, c, buf)
            case None => None
            case Some(d) => Some((Wire([], Some(left - |buf|), false, false), d))
  {
    assert buf[..|buf|] == buf && buf[|buf|..] == [];
  }

  lemma PartialChunkAppend(read: Reader, kind: Kind, buf: bytes, left: nat, c: Content, more: bytes)
    requires buf != [] && more != [] && left > |buf|
    ensures Unchunk(read, kind, Wire(buf + more, Some(left), false, false), c) ==
            match Absorb(read, kind, c, buf)
            case None => None
            case Some(d) => Unchunk(read, kind, Wire(more, Some(left - |buf|), false, false), d)
  {
    var n := |buf|;
    var k := if left - n < |more| then left - n else |more|;
    PieceStep(read, kind, buf + more, left, c, n + k);
    AbsorbAppend(read, kind, c, buf, more[..k]);
    assert (buf + more)[..n + k] == buf + more[..k];
    assert (buf + more)[n + k..] == more[k..];
    var d := Absorb(read, kind, c, buf);
    if d.Some? {
      PieceStep(read, kind, more, left - n, d.value, k);
    }
  }

  /** Where the loop stopped it would stop again, and the bytes it keeps are few. */
  lemma {:induction false} UnchunkStuck(read: Reader, kind: Kind, w: Wire, c: Content)
    ensures match Unchunk(read, kind, w, c)
            case None => true
            case Some((v, d)) =>
              Unchunk(read, kind, v, d) == Some((v, d)) && |v.buf| <= MAX_SIZE_LINE
    decreases |w.buf|
  {
    if w.buf == [] || w.done || w.ending {
    } else {
      match w.left {
        case None =>
          var line := SizeLine(w.buf);
          if line.Some? {
            var (n, rest) := line.value;
            UnchunkStuck(read, kind, Wire(rest, Some(n), n == 0, false), c);
          }
        case Some(left) =>
          if left == 0 {
            if |w.buf| >= 2 && w.buf[..2] == CRLF {
              UnchunkStuck(read, kind, Wire(w.buf[2..], None, false, false), c);
            }
          } else {
            var amount := if left < |w.buf| then left else |w.buf|;
            var d := Absorb(read, kind, c, w.buf[..amount]);
            if d.Some? && !(amount == left && |d.value.body| > MAX_EVENT) {
              UnchunkStuck(read, kind, Wire(w.buf[amount..], Some(left - amount), false, false), d.value);
            }
          }
      }
    }
  }

  lemma ExtendAppend(read: Reader, s: State, a: bytes, b: bytes)
    requires s.InBody?
    ensures var t := Extend(read, s, a);
            Extend(read, s, a + b) == if t.InBody? then Extend(read, t, b) else Off
  {
    if s.frame.framing.Chunked? {
      assert s.wire.buf + (a + b) == s.wire.buf + a + b;
      UnchunkAppend(read, s.frame.kind, s.wire.(buf := s.wire.buf + a), s.content, b);
    } else {
      AbsorbAppend(read, s.frame.kind, s.content, a, b);
    }
  }

  lemma EnterAppend(read: Reader, header: bytes, a: bytes, b: bytes)
    ensures Enter(read, header, a + b) == Ideal(read, Enter(read, header, a), b)
  {
    if read.head(header).Some? {
      ExtendAppend(read, InBody(read.head(header).value, NO_WIRE, 0, NO_CONTENT), a, b);
    }
  }

  lemma DividePrefix(a: bytes, b: bytes)
    requires Divide(a) != Growing
    ensures Find(a + b, BLANK_LINE) == Find(a, BLANK_LINE)
    ensures Divide(a + b) == if Divide(a).Ready? then Ready(Divide(a).head, Divide(a).rest + b) else TooLong
  {
    FindAppend(a, b, BLANK_LINE);
    var end := Find(a, BLANK_LINE);
    assert (a + b)[..end] == a[..end] && (a + b)[end + 4..] == a[end + 4..] + b;
  }

  lemma HeadAppend(read: Reader, header: bytes, a: bytes, b: bytes)
    ensures Ideal(read, InHead(header), a + b) == Ideal(read, Ideal(read, InHead(header), a), b)
  {
    var some := header + a;
    assert header + (a + b) == some + b;
    if Divide(some) != Growing {
      DividePrefix(some, b);
      if Divide(some).Ready? { EnterAppend(read, Divide(some).head, Divide(some).rest, b); }
    }
  }

  /** The ideal decoder answers to the bytes alone: blocks act on its states as their concatenation does. */
  lemma IdealAppend(read: Reader, s: State, a: bytes, b: bytes)
    ensures Ideal(read, s, a + b) == Ideal(read, Ideal(read, s, a), b)
  {
    match s {
      case Off =>
      case InHead(header) => HeadAppend(read, header, a, b);
      case InBody(_, _, _, _) => ExtendAppend(read, s, a, b);
    }
  }

  /** A state an observer can be in between two blocks. */
  predicate Settled(read: Reader, s: State) {
    Ideal(read, s, []) == s && Fits(s)
  }

  lemma FeedSettles(read: Reader, s: State, block: bytes)
    ensures Settled(read, Feed(read, s, block))
  {
    IdealAppend(read, s, block, []);
    assert block + [] == block;
  }

  /** A block that was survived can be joined to the next one without any difference. */
  lemma FeedAppend(read: Reader, s: State, a: bytes, b: bytes)
    requires Feed(read, s, a) != Off
    ensures Feed(read, s, a + b) == Feed(read, Feed(read, s, a), b)
  {
    IdealAppend(read, s, a, b);
  }

  lemma {:induction false} RunOff(read: Reader, blocks: seq<bytes>)
    ensures Run(read, Off, blocks) == Off
    decreases |blocks|
  {
    if blocks == [] {
    } else {
      RunOff(read, blocks[1..]);
    }
  }

  lemma {:induction false} RunAppend(read: Reader, s: State, p: seq<bytes>, q: seq<bytes>)
    ensures Run(read, s, p + q) == Run(read, Run(read, s, p), q)
    decreases |p|
  {
    if p == [] {
      assert p + q == q;
    } else {
      assert (p + q)[0] == p[0] && (p + q)[1..] == p[1..] + q;
      RunAppend(read, Feed(read, s, p[0]), p[1..], q);
    }
  }

  /** No limit is exceeded by what is held at any boundary between two blocks. */
  ghost predicate CutsFit(read: Reader, s: State, blocks: seq<bytes>) {
    forall i :: 0 <= i <= |blocks| ==> Fits(Ideal(read, s, Concat(blocks[..i])))
  }

  lemma CutsFitStep(read: Reader, s: State, blocks: seq<bytes>)
    requires Settled(read, s) && blocks != [] && Fits(Ideal(read, s, blocks[0]))
    ensures CutsFit(read, s, blocks) <==> CutsFit(read, Ideal(read, s, blocks[0]), blocks[1..])
  {
    var t, rest := Ideal(read, s, blocks[0]), blocks[1..];
    forall i | 0 <= i <= |rest|
      ensures Ideal(read, t, Concat(rest[..i])) == Ideal(read, s, Concat(blocks[..i + 1]))
    {
      assert blocks[..i + 1][0] == blocks[0] && blocks[..i + 1][1..] == rest[..i];
      IdealAppend(read, s, blocks[0], Concat(rest[..i]));
    }
    if CutsFit(read, s, blocks) {
      forall i | 0 <= i <= |rest| ensures Fits(Ideal(read, t, Concat(rest[..i]))) {
        assert Fits(Ideal(read, s, Concat(blocks[..i + 1])));
      }
    }
    if CutsFit(read, t, rest) {
      forall i | 0 <= i <= |blocks| ensures Fits(Ideal(read, s, Concat(blocks[..i]))) {
        if i == 0 {
          assert blocks[..0] == [];
        } else {
          assert Fits(Ideal(read, t, Concat(rest[..i - 1])));
        }
      }
    }
  }

  /**
   What a run does, exactly: the ideal decoding of the joined blocks when every
   cut fits, and otherwise disabled. Blocks cannot steer it to anything else.
   */
  lemma {:induction false} RunExactly(read: Reader, s: State, blocks: seq<bytes>)
    requires Settled(read, s)
    ensures Run(read, s, blocks) ==
            if CutsFit(read, s, blocks) then Ideal(read, s, Concat(blocks)) else Off
    decreases |blocks|
  {
    if blocks == [] {
      assert forall i :: 0 <= i <= |blocks| ==> blocks[..i] == [];
    } else {
      var t := Ideal(read, s, blocks[0]);
      if Fits(t) {
        FeedSettles(read, s, blocks[0]);
        RunExactly(read, t, blocks[1..]);
        CutsFitStep(read, s, blocks);
        IdealAppend(read, s, blocks[0], Concat(blocks[1..]));
      } else {
        RunOff(read, blocks[1..]);
        assert Concat(blocks[..1]) == blocks[0] + Concat(blocks[..1][1..]) == blocks[0];
        assert !Fits(Ideal(read, s, Concat(blocks[..1])));
      }
    }
  }

  lemma StartSettled(read: Reader)
    ensures Settled(read, START)
  {
  }

  function Flatten(groups: seq<seq<bytes>>): seq<bytes> {
    if groups == [] then [] else groups[0] + Flatten(groups[1..])
  }

  function Merge(groups: seq<seq<bytes>>): seq<bytes> {
    if groups == [] then [] else [Concat(groups[0])] + Merge(groups[1..])
  }

  /** Joining neighbouring blocks never changes a run that the finer cut survives. */
  lemma {:induction false} Coarsening(read: Reader, s: State, groups: seq<seq<bytes>>)
    requires Settled(read, s)
    requires Run(read, s, Flatten(groups)) != Off
    ensures Run(read, s, Merge(groups)) == Run(read, s, Flatten(groups))
    decreases |groups|
  {
    if groups == [] {
    } else {
      var g, rest := groups[0], groups[1..];
      RunAppend(read, s, g, Flatten(rest));
      var t := Run(read, s, g);
      if t == Off { RunOff(read, Flatten(rest)); }
      RunExactly(read, s, g);
      assert Fits(Ideal(read, s, Concat(g[..|g|]))) && g[..|g|] == g;
      assert t == Feed(read, s, Concat(g));
      FeedSettles(read, s, Concat(g));
      Coarsening(read, t, rest);
      assert Merge(groups)[0] == Concat(g) && Merge(groups)[1..] == Merge(rest);
    }
  }

  /** Two cuts of the same bytes that both survive leave the observer in the same state. */
  lemma SurvivorsAgree(read: Reader, p: seq<bytes>, q: seq<bytes>)
    requires Concat(p) == Concat(q)
    requires Run(read, START, p) != Off && Run(read, START, q) != Off
    ensures Run(read, START, p) == Run(read, START, q)
  {
    StartSettled(read);
    RunExactly(read, START, p);
    RunExactly(read, START, q);
  }
}
