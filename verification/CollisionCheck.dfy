/** Whether a checkout could overwrite an untracked path, decided by prefix lookup. */
module CollisionCheck {
  import opened Bytes

  const MAX_PATHS := 100000

  /** One path is the other, or a directory above it. */
  predicate Collides(u: bytes, p: bytes) {
    u == p || StartsWith(p, u + [SLASH]) || StartsWith(u, p + [SLASH])
  }

  ghost predicate AnyCollision(untracked: seq<bytes>, incoming: seq<bytes>) {
    exists u, p :: u in untracked && p in incoming && Collides(u, p)
  }

  /** `b'/'.join(parts[:count])` for the parts of a path. */
  function Parent(path: bytes, count: nat): bytes
    requires count <= |Split(path, SLASH)|
  {
    Join(Split(path, SLASH)[..count], [SLASH])
  }

  ghost predicate IsParent(path: bytes, q: bytes) {
    exists count :: 1 <= count < |Split(path, SLASH)| && Parent(path, count) == q
  }

  // ---------------------------------------------------------------- parents are prefixes

  lemma ParentOfRest(path: bytes, i: nat, count: nat)
    requires i == Index(path, SLASH) < |path| && 1 <= count < |Split(path[i + 1..], SLASH)|
    ensures Split(path, SLASH) == [path[..i]] + Split(path[i + 1..], SLASH)
    ensures Parent(path, count + 1) == path[..i] + [SLASH] + Parent(path[i + 1..], count)
  {
    var rest := Split(path[i + 1..], SLASH);
    var parts := [path[..i]] + rest;
    assert parts[..count + 1] == [path[..i]] + rest[..count];
    assert parts[..count + 1][1..] == rest[..count];
  }

  lemma FirstParent(path: bytes)
    requires Index(path, SLASH) < |path|
    ensures |Split(path, SLASH)| >= 2 && Parent(path, 1) == path[..Index(path, SLASH)]
  {
  }

  lemma PrefixUnder(a: bytes, b: bytes, q: bytes)
    requires StartsWith(b, q + [SLASH])
    ensures StartsWith(a + [SLASH] + b, a + [SLASH] + q + [SLASH])
  {
  }

  lemma {:induction false} ParentIsPrefix(path: bytes, count: nat)
    requires 1 <= count < |Split(path, SLASH)|
    ensures StartsWith(path, Parent(path, count) + [SLASH])
    decreases |path|
  {
    var i := Index(path, SLASH);
    assert i < |path|;
    var a, b := path[..i], path[i + 1..];
    assert path == a + [SLASH] + b;
    if count == 1 {
      FirstParent(path);
      assert path[..i + 1] == a + [SLASH];
    } else {
      ParentIsPrefix(b, count - 1);
      ParentOfRest(path, i, count - 1);
      PrefixUnder(a, b, Parent(b, count - 1));
    }
  }

  lemma {:induction false} PrefixIsParent(path: bytes, q: bytes) returns (count: nat)
    requires StartsWith(path, q + [SLASH])
    ensures 1 <= count < |Split(path, SLASH)| && Parent(path, count) == q
    decreases |path|
  {
    assert (q + [SLASH])[|q|] == SLASH && path[..|q| + 1][|q|] == path[|q|];
    IndexFirst(path, SLASH, |q|);
    var i := Index(path, SLASH);
    FirstParent(path);
    assert path[..|q|] == q;
    if i == |q| {
      count := 1;
    } else {
      var b, rest := path[i + 1..], q[i + 1..];
      assert q[i] == path[i];
      assert b[..|rest| + 1] == rest + [SLASH];
      count := PrefixIsParent(b, rest);
      ParentOfRest(path, i, count);
      assert q == path[..i] + [SLASH] + rest;
      count := count + 1;
    }
  }

  /** The joined prefixes of a split path are exactly the directories above it. */
  lemma ParentsExactly(path: bytes, q: bytes)
    ensures IsParent(path, q) <==> StartsWith(path, q + [SLASH])
  {
    if IsParent(path, q) {
      var count :| 1 <= count < |Split(path, SLASH)| && Parent(path, count) == q;
      ParentIsPrefix(path, count);
    }
    if StartsWith(path, q + [SLASH]) {
      var count := PrefixIsParent(path, q);
    }
  }

  // ---------------------------------------------------------------- the check

  /** The nonempty paths of a NUL-separated listing. */
  function Listed(parts: seq<bytes>): seq<bytes> {
    if parts == [] then []
    else if parts[0] == [] then Listed(parts[1..])
    else [parts[0]] + Listed(parts[1..])
  }

  function PathsOf(listing: bytes): seq<bytes> {
    Listed(Split(listing, 0))
  }

  lemma {:induction false} ListedExactly(parts: seq<bytes>, p: bytes)
    ensures p in Listed(parts) <==> p in parts && p != []
  {
    if parts == [] {
    } else {
      ListedExactly(parts[1..], p);
      assert parts == [parts[0]] + parts[1..];
    }
  }

  datatype Check = Refused | Clear | Collision

  ghost predicate ParentOfAny(paths: seq<bytes>, q: bytes) {
    exists p :: p in paths && IsParent(p, q)
  }

  /** The directories above the incoming paths. */
  method Parents(incoming: seq<bytes>) returns (parents: set<bytes>)
    ensures forall q :: q in parents <==> ParentOfAny(incoming, q)
  {
    parents := {};
    for k := 0 to |incoming|
      invariant forall q :: q in parents <==> ParentOfAny(incoming[..k], q)
    {
      var path := incoming[k];
      var parts := Split(path, SLASH);
      ghost var before := parents;
      for count := 1 to |parts|
        invariant forall q :: q in parents <==> q in before || exists c :: 1 <= c < count && Parent(path, c) == q
      {
        parents := parents + {Join(parts[..count], [SLASH])};
        assert Parent(path, count) in parents;
      }
      GrowsBy(incoming, k, before, parents);
    }
    assert incoming[..|incoming|] == incoming;
  }

  lemma GrowsBy(incoming: seq<bytes>, k: nat, before: set<bytes>, after: set<bytes>)
    requires k < |incoming|
    requires forall q :: q in before <==> ParentOfAny(incoming[..k], q)
    requires forall q :: q in after <==>
               q in before || exists c :: 1 <= c < |Split(incoming[k], SLASH)| && Parent(incoming[k], c) == q
    ensures forall q :: q in after <==> ParentOfAny(incoming[..k + 1], q)
  {
    assert incoming[..k + 1] == incoming[..k] + [incoming[k]];
    forall q ensures q in after <==> ParentOfAny(incoming[..k + 1], q) {
      if ParentOfAny(incoming[..k + 1], q) {
        var p :| p in incoming[..k + 1] && IsParent(p, q);
        if p in incoming[..k] { assert ParentOfAny(incoming[..k], q); }
      }
      if q in before {
        var p :| p in incoming[..k] && IsParent(p, q);
        assert p in incoming[..k + 1];
      } else if q in after {
        assert IsParent(incoming[k], q) && incoming[k] in incoming[..k + 1];
      }
    }
  }

  /** Whether a directory above the path is itself incoming. */
  method Under(path: bytes, incoming: set<bytes>) returns (under: bool)
    ensures under <==> exists p :: p in incoming && StartsWith(path, p + [SLASH])
  {
    var parts := Split(path, SLASH);
    for count := 1 to |parts|
      invariant forall c :: 1 <= c < count ==> Parent(path, c) !in incoming
    {
      if Join(parts[..count], [SLASH]) in incoming {
        ParentIsPrefix(path, count);
        return true;
      }
    }
    forall p | p in incoming ensures !StartsWith(path, p + [SLASH]) {
      ParentsExactly(path, p);
    }
    return false;
  }

  /** The untracked paths are compared with a set and its parents; the answer is that of comparing every pair. */
  method CheckUntracked(others: bytes, tree: bytes) returns (result: Check)
    ensures result == Refused <==> |PathsOf(others)| + |PathsOf(tree)| > MAX_PATHS
    ensures result != Refused ==> (result == Collision <==> AnyCollision(PathsOf(others), PathsOf(tree)))
  {
    var untracked, incoming := PathsOf(others), PathsOf(tree);
    if |untracked| + |incoming| > MAX_PATHS { return Refused; }
    var known := set p | p in incoming;
    var parents := Parents(incoming);
    for k := 0 to |untracked|
      invariant forall u, p :: u in untracked[..k] && p in incoming ==> !Collides(u, p)
    {
      var path := untracked[k];
      var under := Under(path, known);
      CollidesByLookup(path, incoming, parents);
      if path in known || path in parents || under {
        var p :| p in incoming && Collides(path, p);
        assert path in untracked;
        return Collision;
      }
      assert untracked[..k + 1] == untracked[..k] + [path];
    }
    assert untracked[..|untracked|] == untracked;
    return Clear;
  }

  /** The three lookups find a colliding incoming path exactly when there is one. */
  lemma CollidesByLookup(path: bytes, incoming: seq<bytes>, parents: set<bytes>)
    requires forall q :: q in parents <==> ParentOfAny(incoming, q)
    ensures (path in incoming || path in parents || exists p :: p in incoming && StartsWith(path, p + [SLASH]))
            <==> exists p :: p in incoming && Collides(path, p)
  {
    forall p | p in incoming ensures IsParent(p, path) <==> StartsWith(p, path + [SLASH]) {
      ParentsExactly(p, path);
    }
    if path in incoming { assert Collides(path, path); }
    if path in parents {
      var p :| p in incoming && IsParent(p, path);
      assert Collides(path, p);
    }
    if p :| p in incoming && StartsWith(path, p + [SLASH]) { assert Collides(path, p); }
    if p :| p in incoming && Collides(path, p) {
      if StartsWith(p, path + [SLASH]) { assert ParentOfAny(incoming, path); }
    }
  }
}
