/**
 The byte stream whose digest stands for a worktree: every visible entry with its path,
 mode and kind, directories before what they hold, files with their length.
 */
module WorktreeStream {
  import opened Bytes

  /** An entry of a directory; special files, and files with several links, are `Special`. */
  datatype Node = Dir(children: Forest) | Link(target: bytes) | File(content: bytes) | Special

  /** The entries of a directory, in the order they are scanned. */
  datatype Forest = Nil | Cons(name: bytes, mode: nat, node: Node, rest: Forest)

  datatype What = Directory | LinkTo(target: bytes) | Holds(content: bytes)

  datatype Item = Item(path: bytes, mode: nat, what: What)

  // ---------------------------------------------------------------- numbers

  /** `str(n)`. */
  function Decimal(n: nat): (s: bytes)
    ensures s != []
  {
    if n < 10 then [(48 + n) as byte] else Decimal(n / 10) + [(48 + n % 10) as byte]
  }

  lemma {:induction false} DecimalRound(n: nat)
    ensures AllDigits(Decimal(n)) && DecimalValue(Decimal(n)) == n
  {
    if n >= 10 {
      DecimalRound(n / 10);
      var s := Decimal(n);
      assert s[..|s| - 1] == Decimal(n / 10);
    } else {
      var s := Decimal(n);
      assert s[..0] == [];
    }
  }

  lemma {:induction false} DigitsHave(s: bytes, c: byte)
    requires AllDigits(s) && c in s
    ensures IsDigit(c)
  {
    if c == s[|s| - 1] {
    } else {
      assert c in s[..|s| - 1];
      DigitsHave(s[..|s| - 1], c);
    }
  }

  // ---------------------------------------------------------------- one item

  function WhatBytes(w: What): (s: bytes)
    ensures s != []
  {
    match w
    case Directory => [100, NUL]
    case LinkTo(target) => [108, NUL] + target + [NUL]
    case Holds(content) => [102, NUL] + Decimal(|content|) + [NUL] + content
  }

  function ItemBytes(i: Item): (s: bytes)
    ensures s != []
  {
    i.path + [NUL] + Decimal(i.mode) + [NUL] + WhatBytes(i.what)
  }

  function TakeNumber(s: bytes): (r: Option<(nat, bytes)>)
    ensures r.Some? ==> |r.value.1| < |s|
  {
    match Field(s, NUL)
    case None => None
    case Some((digits, rest)) => if AllDigits(digits) then Some((DecimalValue(digits), rest)) else None
  }

  function TakeWhat(s: bytes): (r: Option<(What, bytes)>)
    ensures r.Some? ==> |r.value.1| <= |s|
  {
    match Field(s, NUL)
    case None => None
    case Some((kind, rest)) =>
      if kind == [100] then Some((Directory, rest))
      else if kind == [108] then
        (match Field(rest, NUL) case None => None case Some((target, after)) => Some((LinkTo(target), after)))
      else if kind == [102] then TakeFile(rest)
      else None
  }

  function TakeFile(s: bytes): (r: Option<(What, bytes)>)
    ensures r.Some? ==> |r.value.1| <= |s|
  {
    match TakeNumber(s)
    case None => None
    case Some((n, after)) => if n > |after| then None else Some((Holds(after[..n]), after[n..]))
  }

  function TakeItem(s: bytes): (r: Option<(Item, bytes)>)
    ensures r.Some? ==> |r.value.1| < |s|
  {
    match Field(s, NUL)
    case None => None
    case Some((path, rest)) =>
      match TakeNumber(rest)
      case None => None
      case Some((mode, after)) =>
        match TakeWhat(after) case None => None case Some((what, left)) => Some((Item(path, mode, what), left))
  }

  predicate ItemOK(i: Item) {
    NUL !in i.path && (i.what.LinkTo? ==> NUL !in i.what.target)
  }

  lemma NumberTaken(n: nat, rest: bytes)
    ensures TakeNumber(Decimal(n) + [NUL] + rest) == Some((n, rest))
  {
    DecimalRound(n);
    forall c | c in Decimal(n) ensures c != NUL { DigitsHave(Decimal(n), c); }
    FieldTaken(Decimal(n), NUL, rest);
  }

  lemma LinkTaken(target: bytes, rest: bytes)
    requires NUL !in target
    ensures TakeWhat([108, NUL] + target + [NUL] + rest) == Some((LinkTo(target), rest))
  {
    var s, tail := [108, NUL] + target + [NUL] + rest, target + [NUL] + rest;
    assert s == [108] + [NUL] + tail;
    FieldTaken([108], NUL, tail);
    FieldTaken(target, NUL, rest);
  }

  lemma ContentTaken(content: bytes, rest: bytes)
    ensures TakeFile(Decimal(|content|) + [NUL] + (content + rest)) == Some((Holds(content), rest))
  {
    var after := content + rest;
    NumberTaken(|content|, after);
    assert after[..|content|] == content && after[|content|..] == rest;
  }

  lemma HoldsBytes(content: bytes, rest: bytes)
    ensures WhatBytes(Holds(content)) + rest == [102, NUL] + (Decimal(|content|) + [NUL] + (content + rest))
  {
    var front := [102, NUL] + Decimal(|content|);
    Regroup(front + [NUL], content, rest);
    Regroup(front, [NUL], content + rest);
    Regroup([102, NUL], Decimal(|content|), [NUL] + (content + rest));
    Regroup(Decimal(|content|), [NUL], content + rest);
  }

  lemma FileTaken(tail: bytes)
    ensures TakeWhat([102, NUL] + tail) == TakeFile(tail)
  {
    FieldTaken([102], NUL, tail);
    assert [102, NUL] + tail == [102] + [NUL] + tail;
  }

  lemma WhatTaken(w: What, rest: bytes)
    requires w.LinkTo? ==> NUL !in w.target
    ensures TakeWhat(WhatBytes(w) + rest) == Some((w, rest))
  {
    match w {
      case Directory =>
        FieldTaken([100], NUL, rest);
        assert WhatBytes(w) + rest == [100] + [NUL] + rest;
      case LinkTo(target) => LinkTaken(target, rest);
      case Holds(content) =>
        ContentTaken(content, rest);
        FileTaken(Decimal(|content|) + [NUL] + (content + rest));
        HoldsBytes(content, rest);
    }
  }

  lemma ItemTaken(i: Item, rest: bytes)
    requires ItemOK(i)
    ensures TakeItem(ItemBytes(i) + rest) == Some((i, rest))
  {
    var tail := WhatBytes(i.what) + rest;
    var after := Decimal(i.mode) + [NUL] + tail;
    assert ItemBytes(i) + rest == i.path + [NUL] + after;
    FieldTaken(i.path, NUL, after);
    NumberTaken(i.mode, tail);
    WhatTaken(i.what, rest);
  }

  // ---------------------------------------------------------------- a stream of items

  function Feed(items: seq<Item>): bytes {
    if items == [] then [] else ItemBytes(items[0]) + Feed(items[1..])
  }

  function Decode(s: bytes): Option<seq<Item>>
    decreases |s|
  {
    if s == [] then Some([])
    else match TakeItem(s) case None => None case Some((i, rest)) => Prepend([i], Decode(rest))
  }

  lemma DecodeOne(i: Item, rest: bytes)
    requires ItemOK(i)
    ensures Decode(ItemBytes(i) + rest) == Prepend([i], Decode(rest))
  {
    ItemTaken(i, rest);
  }

  predicate AllOK(items: seq<Item>) {
    items == [] || (ItemOK(items[0]) && AllOK(items[1..]))
  }

  /** The stream can be read back into the exact list of items. */
  lemma {:induction false} DecodeFeed(items: seq<Item>)
    requires AllOK(items)
    ensures Decode(Feed(items)) == Some(items)
  {
    if items == [] {
    } else {
      DecodeOne(items[0], Feed(items[1..]));
      DecodeFeed(items[1..]);
      assert items == [items[0]] + items[1..];
    }
  }

  lemma {:induction false} FeedAppend(a: seq<Item>, b: seq<Item>)
    ensures Feed(a + b) == Feed(a) + Feed(b)
  {
    if a == [] {
      assert a + b == b;
    } else {
      assert (a + b)[1..] == a[1..] + b;
      FeedAppend(a[1..], b);
    }
  }

  lemma {:induction false} AllOKAppend(a: seq<Item>, b: seq<Item>)
    requires AllOK(a) && AllOK(b)
    ensures AllOK(a + b)
  {
    if a == [] {
      assert a + b == b;
    } else {
      assert (a + b)[1..] == a[1..] + b;
      AllOKAppend(a[1..], b);
    }
  }

  // ---------------------------------------------------------------- worktrees

  /** File names are not empty and hold neither NUL nor a slash; link targets hold no NUL. */
  predicate NamesOK(f: Forest) {
    match f
    case Nil => true
    case Cons(name, _, node, rest) =>
      && name != [] && NUL !in name && SLASH !in name
      && (node.Dir? ==> NamesOK(node.children)) && (node.Link? ==> NUL !in node.target) && NamesOK(rest)
  }

  /** No entry is one that the scan refuses. */
  predicate Supported(f: Forest) {
    match f
    case Nil => true
    case Cons(_, _, node, rest) => !node.Special? && (node.Dir? ==> Supported(node.children)) && Supported(rest)
  }

  /** What is fed for an entry; a special one ends the scan, so what it counts as does not matter. */
  function WhatOf(node: Node): What {
    match node
    case Dir(_) => Directory
    case Link(target) => LinkTo(target)
    case File(content) => Holds(content)
    case Special => Holds([])
  }

  function Items(f: Forest, prefix: bytes): seq<Item> {
    match f
    case Nil => []
    case Cons(name, mode, node, rest) =>
      var path := prefix + name;
      [Item(path, mode, WhatOf(node))] + Inner(node, path) + Items(rest, prefix)
  }

  function Inner(node: Node, path: bytes): seq<Item> {
    if node.Dir? then Items(node.children, path + [SLASH]) else []
  }

  /** The scan skips masked paths and the top-level metadata directory. */
  predicate Skipped(prefix: bytes, name: bytes, masked: set<bytes>) {
    (prefix == [] && name == Ascii(".git")) || prefix + name in masked
  }

  function Visible(f: Forest, prefix: bytes, masked: set<bytes>): Forest {
    match f
    case Nil => Nil
    case Cons(name, mode, node, rest) =>
      var others := Visible(rest, prefix, masked);
      if Skipped(prefix, name, masked) then others
      else Cons(name, mode, if node.Dir? then Dir(Visible(node.children, prefix + name + [SLASH], masked)) else node, others)
  }

  /** What a worktree feeds to its digest. */
  function Stream(f: Forest, masked: set<bytes>): bytes {
    Feed(Items(Visible(f, [], masked), []))
  }

  lemma {:induction false} VisibleNames(f: Forest, prefix: bytes, masked: set<bytes>)
    requires NamesOK(f)
    ensures NamesOK(Visible(f, prefix, masked))
  {
    match f {
      case Nil =>
      case Cons(name, mode, node, rest) =>
        VisibleNames(rest, prefix, masked);
        if node.Dir? { VisibleNames(node.children, prefix + name + [SLASH], masked); }
    }
  }

  lemma {:induction false} ItemsOK(f: Forest, prefix: bytes)
    requires NamesOK(f) && NUL !in prefix
    ensures AllOK(Items(f, prefix))
  {
    match f {
      case Nil =>
      case Cons(name, mode, node, rest) =>
        var path := prefix + name;
        ItemsOK(rest, prefix);
        if node.Dir? { ItemsOK(node.children, path + [SLASH]); }
        AllOKAppend(Inner(node, path), Items(rest, prefix));
        var own := [Item(path, mode, WhatOf(node))];
        assert own[1..] == [];
        AllOKAppend(own, Inner(node, path) + Items(rest, prefix));
        assert Items(f, prefix) == own + (Inner(node, path) + Items(rest, prefix));
    }
  }

  /** Everything listed under a prefix starts with it. */
  lemma {:induction false} ItemsBelow(f: Forest, prefix: bytes, i: nat)
    requires i < |Items(f, prefix)|
    ensures StartsWith(Items(f, prefix)[i].path, prefix)
  {
    var Cons(name, mode, node, rest) := f;
    var path := prefix + name;
    var inner := Inner(node, path);
    if i == 0 {
      assert path[..|prefix|] == prefix;
    } else if i <= |inner| {
      ItemsBelow(node.children, path + [SLASH], i - 1);
      var p := inner[i - 1].path;
      assert p[..|path| + 1] == path + [SLASH];
      assert p[..|prefix|] == (path + [SLASH])[..|prefix|];
    } else {
      ItemsBelow(rest, prefix, i - 1 - |inner|);
    }
  }

  /** What follows a directory's contents does not look like one of them. */
  lemma NextOutside(rest: Forest, prefix: bytes, name: bytes)
    requires rest.Cons? && NamesOK(rest) && name != []
    ensures Items(rest, prefix) != [] && !StartsWith(Items(rest, prefix)[0].path, prefix + name + [SLASH])
  {
    var p := Items(rest, prefix)[0].path;
    var inside := prefix + name + [SLASH];
    assert p == prefix + rest.name;
    if |p| >= |inside| {
      assert rest.name[|name|] in rest.name;
      assert p[..|inside|][|inside| - 1] == rest.name[|name|];
      assert inside[|inside| - 1] == SLASH;
    }
  }

  /** Two directories that list the same entries up to a boundary have the same boundary. */
  lemma SameBoundary(x: Node, y: Node, r: Forest, s: Forest, prefix: bytes, name: bytes)
    requires NamesOK(r) && NamesOK(s) && name != []
    requires Inner(x, prefix + name) + Items(r, prefix) == Inner(y, prefix + name) + Items(s, prefix)
    ensures |Inner(x, prefix + name)| <= |Inner(y, prefix + name)|
  {
    var path := prefix + name;
    var a, b := Inner(x, path), Inner(y, path);
    if |a| > |b| {
      assert (a + Items(r, prefix))[|b|] == a[|b|];
      ItemsBelow(x.children, path + [SLASH], |b|);
      assert (b + Items(s, prefix))[|b|] == Items(s, prefix)[0];
      NextOutside(s, prefix, name);
    }
  }

  /** The list of items determines the worktree. */
  lemma {:induction false} ItemsDetermine(f: Forest, g: Forest, prefix: bytes)
    requires NamesOK(f) && NamesOK(g) && Supported(f) && Supported(g) && Items(f, prefix) == Items(g, prefix)
    ensures f == g
    decreases f
  {
    if f.Nil? || g.Nil? {
    } else {
      var path := prefix + f.name;
      var all := Items(f, prefix);
      assert all[0].path == path && all[0].path == prefix + g.name;
      assert f.name == path[|prefix|..] && g.name == path[|prefix|..];
      assert WhatOf(f.node) == WhatOf(g.node) && f.mode == g.mode;
      var a, b := Inner(f.node, path), Inner(g.node, path);
      assert all[1..] == a + Items(f.rest, prefix) && all[1..] == b + Items(g.rest, prefix);
      SameBoundary(f.node, g.node, f.rest, g.rest, prefix, f.name);
      SameBoundary(g.node, f.node, g.rest, f.rest, prefix, f.name);
      assert a == all[1..][..|a|] && b == all[1..][..|b|];
      assert Items(f.rest, prefix) == all[1..][|a|..] && Items(g.rest, prefix) == all[1..][|b|..];
      if f.node.Dir? { ItemsDetermine(f.node.children, g.node.children, path + [SLASH]); }
      ItemsDetermine(f.rest, g.rest, prefix);
    }
  }

  /** Two worktrees that can be scanned and feed the same stream are the same outside what is masked. */
  lemma StreamDetermines(f: Forest, g: Forest, masked: set<bytes>)
    requires NamesOK(f) && NamesOK(g) && Stream(f, masked) == Stream(g, masked)
    requires Supported(Visible(f, [], masked)) && Supported(Visible(g, [], masked))
    ensures Visible(f, [], masked) == Visible(g, [], masked)
  {
    var v, w := Visible(f, [], masked), Visible(g, [], masked);
    VisibleNames(f, [], masked);
    VisibleNames(g, [], masked);
    ItemsOK(v, []);
    ItemsOK(w, []);
    DecodeFeed(Items(v, []));
    DecodeFeed(Items(w, []));
    ItemsDetermine(v, w, []);
  }

  // ---------------------------------------------------------------- the scan

  const MAX_DEPTH := 128
  const MAX_FILE := 64 * 1024 * 1024

  function Entries(f: Forest): nat {
    match f
    case Nil => 0
    case Cons(_, _, node, rest) => 1 + (if node.Dir? then Entries(node.children) else 0) + Entries(rest)
  }

  function Volume(f: Forest): nat {
    match f
    case Nil => 0
    case Cons(_, _, node, rest) =>
      (match node case Dir(children) => Volume(children) case File(content) => |content| case _ => 0) + Volume(rest)
  }

  /** Every entry is supported, no directory lies too deep and no file is too large. */
  predicate Moderate(f: Forest, depth: nat) {
    && depth <= MAX_DEPTH
    && match f
       case Nil => true
       case Cons(_, _, node, rest) =>
         && !node.Special? && (node.Dir? ==> Moderate(node.children, depth + 1))
         && (node.File? ==> |node.content| <= MAX_FILE) && Moderate(rest, depth)
  }

  /** What the entries of a directory feed to the digest. */
  function Fed(f: Forest, prefix: bytes): bytes {
    Feed(Items(f, prefix))
  }

  /** What the scan accepts is supported. */
  lemma {:induction false} ModerateSupported(f: Forest, depth: nat)
    requires Moderate(f, depth)
    ensures Supported(f)
    decreases f
  {
    match f {
      case Nil =>
      case Cons(_, _, node, rest) =>
        if node.Dir? { ModerateSupported(node.children, depth + 1); }
        ModerateSupported(rest, depth);
    }
  }

  lemma CostsAdd(one: Forest, f: Forest, depth: nat, prefix: bytes)
    requires f.Cons? && one == f.(rest := Nil)
    ensures Entries(f) == Entries(one) + Entries(f.rest) && Volume(f) == Volume(one) + Volume(f.rest)
    ensures Moderate(f, depth) <==> Moderate(one, depth) && Moderate(f.rest, depth)
    ensures Fed(f, prefix) == Fed(one, prefix) + Fed(f.rest, prefix)
  {
    assert Entries(Nil) == 0 && Volume(Nil) == 0;
    assert Moderate(Nil, depth) <==> depth <= MAX_DEPTH;
    var path := prefix + f.name;
    var own := [Item(path, f.mode, WhatOf(f.node))] + Inner(f.node, path);
    assert Items(one, prefix) == own;
    FeedAppend(own, Items(f.rest, prefix));
  }

  lemma CostsOne(name: bytes, mode: nat, node: Node, depth: nat)
    requires depth <= MAX_DEPTH
    ensures var one := Cons(name, mode, node, Nil);
            && Entries(one) == 1 + (if node.Dir? then Entries(node.children) else 0)
            && Volume(one) == (match node case Dir(children) => Volume(children) case File(content) => |content| case _ => 0)
            && (Moderate(one, depth) <==>
                  !node.Special? && (node.Dir? ==> Moderate(node.children, depth + 1)) && (node.File? ==> |node.content| <= MAX_FILE))
  {
  }

  class WorktreeDigest {
    const masked: set<bytes>
    var fed: bytes
    var entriesLeft: int
    var bytesLeft: int

    constructor (masked: set<bytes>)
      ensures fed == [] && entriesLeft == 100000 && bytesLeft == 256 * 1024 * 1024 && this.masked == masked
    {
      this.masked, fed, entriesLeft, bytesLeft := masked, [], 100000, 256 * 1024 * 1024;
    }

    /** `scan`: it succeeds exactly on supported entries within the budgets, and then has fed exactly the visible items. */
    method Scan(f: Forest, relative: bytes, depth: nat) returns (ok: bool)
      requires entriesLeft >= 0 && bytesLeft >= 0
      modifies this
      ensures var v := Visible(f, relative, masked);
              && (ok <==> Moderate(v, depth) && Entries(v) <= old(entriesLeft) && Volume(v) <= old(bytesLeft))
              && (ok ==> && fed == old(fed) + Fed(v, relative)
                         && entriesLeft == old(entriesLeft) - Entries(v) && bytesLeft == old(bytesLeft) - Volume(v))
      decreases f
    {
      if depth > MAX_DEPTH { return false; }
      match f {
        case Nil =>
          assert fed + [] == fed;
          return true;
        case Cons(name, mode, node, rest) =>
          if Skipped(relative, name, masked) {
            ok := Scan(rest, relative, depth);
          } else {
            ghost var v := Visible(f, relative, masked);
            CostsAdd(v.(rest := Nil), v, depth, relative);
            ok := ScanEntry(name, mode, node, relative, depth);
            if ok {
              ok := Scan(rest, relative, depth);
              Regroup(old(fed), Fed(v.(rest := Nil), relative), Fed(v.rest, relative));
            }
          }
      }
    }

    /** An entry as the scan sees it. */
    ghost function Seen(node: Node, path: bytes): Node {
      if node.Dir? then Dir(Visible(node.children, path + [SLASH], masked)) else node
    }

    method ScanEntry(name: bytes, mode: nat, node: Node, relative: bytes, depth: nat) returns (ok: bool)
      requires entriesLeft >= 0 && bytesLeft >= 0 && depth <= MAX_DEPTH
      modifies this
      ensures var path := relative + name;
              var v := Cons(name, mode, Seen(node, path), Nil);
              && (ok <==> Moderate(v, depth) && Entries(v) <= old(entriesLeft) && Volume(v) <= old(bytesLeft))
              && (ok ==> && fed == old(fed) + Fed(v, relative)
                         && entriesLeft == old(entriesLeft) - Entries(v) && bytesLeft == old(bytesLeft) - Volume(v))
      decreases node
    {
      var path := relative + name;
      ghost var item := Item(path, mode, WhatOf(node));
      CostsOne(name, mode, Seen(node, path), depth);
      FeedOne(item, Inner(Seen(node, path), path));
      FedEntry(name, mode, Seen(node, path), relative);
      entriesLeft := entriesLeft - 1;
      if entriesLeft < 0 { return false; }
      match node {
        case Dir(children) =>
          FeedDirectory(path, mode);
          ok := Scan(children, path + [SLASH], depth + 1);
          Regroup(old(fed), ItemBytes(item), Feed(Inner(Seen(node, path), path)));
        case Link(target) =>
          FeedLink(path, mode, target);
          assert ItemBytes(item) + [] == ItemBytes(item);
          return true;
        case File(content) =>
          bytesLeft := bytesLeft - |content|;
          if |content| > MAX_FILE || bytesLeft < 0 { return false; }
          FeedFile(path, mode, content);
          assert ItemBytes(item) + [] == ItemBytes(item);
          return true;
        case Special => return false;
      }
    }

    method FeedDirectory(path: bytes, mode: nat)
      modifies `fed
      ensures fed == old(fed) + ItemBytes(Item(path, mode, Directory))
    {
      fed := fed + (path + [NUL] + Decimal(mode) + [NUL]);
      fed := fed + [100, NUL];
    }

    method FeedLink(path: bytes, mode: nat, target: bytes)
      modifies `fed
      ensures fed == old(fed) + ItemBytes(Item(path, mode, LinkTo(target)))
    {
      fed := fed + (path + [NUL] + Decimal(mode) + [NUL]);
      fed := fed + ([108, NUL] + target + [NUL]);
    }

    method FeedFile(path: bytes, mode: nat, content: bytes)
      modifies `fed
      ensures fed == old(fed) + ItemBytes(Item(path, mode, Holds(content)))
    {
      fed := fed + (path + [NUL] + Decimal(mode) + [NUL]);
      fed := fed + ([102, NUL] + Decimal(|content|) + [NUL]);
      fed := fed + content;
    }
  }

  lemma FedEntry(name: bytes, mode: nat, node: Node, prefix: bytes)
    ensures Fed(Cons(name, mode, node, Nil), prefix)
            == Feed([Item(prefix + name, mode, WhatOf(node))] + Inner(node, prefix + name))
  {
    var own := [Item(prefix + name, mode, WhatOf(node))] + Inner(node, prefix + name);
    assert Items(Cons(name, mode, node, Nil), prefix) == own + Items(Nil, prefix);
    assert own + [] == own;
  }

  lemma FeedOne(i: Item, more: seq<Item>)
    ensures Feed([i] + more) == ItemBytes(i) + Feed(more)
  {
  }
}
