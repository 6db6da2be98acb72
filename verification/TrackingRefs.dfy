/** The local ref that tracks a remote branch. */
module TrackingRefs {
  import opened Bytes
  import opened SmartHttp

  const MAX_REF := 1024

  predicate IsIdByte(c: byte) {
    IsDigit(c) || 65 <= c <= 90 || 97 <= c <= 122 || c == 95 || c == 45
  }

  predicate AllIdBytes(s: bytes) {
    s == [] || (IsIdByte(s[0]) && AllIdBytes(s[1..]))
  }

  /** `_validate_tracking_ref`. */
  function TrackingRef(remote: bytes, branch: bytes): Option<bytes> {
    var heads := Ascii("refs/heads/");
    if remote == [] || !AllIdBytes(remote) || !StartsWith(branch, heads) then None
    else
      var tracking := Ascii("refs/remotes/") + remote + [SLASH] + branch[|heads|..];
      if |tracking| > MAX_REF || !AllParts(Split(tracking, SLASH)) then None else Some(tracking)
  }

  lemma {:induction false} IdHas(s: bytes, c: byte)
    requires AllIdBytes(s) && c in s
    ensures IsIdByte(c)
  {
    if c == s[0] {
    } else {
      IdHas(s[1..], c);
    }
  }

  lemma FirstSlash(a: bytes, b: bytes)
    requires AllIdBytes(a)
    ensures Index(a + [SLASH] + b, SLASH) == |a|
  {
    var s := a + [SLASH] + b;
    forall c | c in a ensures c != SLASH { IdHas(a, c); }
    assert s[|a|] == SLASH;
    IndexFirst(s, SLASH, |a|);
    assert forall k :: 0 <= k < |a| ==> a[k] in a && s[k] == a[k];
  }

  /** A tracking ref belongs to one remote and one branch only: no two fetches are recorded in the same place. */
  lemma TrackingRefInjective(remote: bytes, branch: bytes, other: bytes, another: bytes)
    requires TrackingRef(remote, branch).Some? && TrackingRef(remote, branch) == TrackingRef(other, another)
    ensures remote == other && branch == another
  {
    var heads, remotes := Ascii("refs/heads/"), Ascii("refs/remotes/");
    var a, b := branch[|heads|..], another[|heads|..];
    var s := TrackingRef(remote, branch).value[|remotes|..];
    assert s == remote + [SLASH] + a && s == other + [SLASH] + b;
    FirstSlash(remote, a);
    FirstSlash(other, b);
    assert s[..|remote|] == remote && s[..|remote|] == other;
    assert s[|remote| + 1..] == a && s[|remote| + 1..] == b;
    assert branch == heads + a && another == heads + b;
  }

  /** The components of a split and rejoined path. */
  lemma {:induction false} PartsHave(parts: seq<bytes>, p: bytes)
    requires AllParts(parts) && p in parts
    ensures PartOK(p)
  {
    if p == parts[0] {
    } else {
      PartsHave(parts[1..], p);
    }
  }

  lemma BelowWhole(below: bytes, rest: bytes, part: bytes)
    requires AllParts(Split(below + rest, SLASH)) && part in Split(below + rest, SLASH)
    ensures StartsWith(below + rest, below) && PartOK(part)
  {
    PartsHave(Split(below + rest, SLASH), part);
  }

  lemma Assembled(remote: bytes, branch: bytes, below: bytes) returns (rest: bytes)
    requires TrackingRef(remote, branch).Some? && below == Ascii("refs/remotes/") + remote + [SLASH]
    ensures TrackingRef(remote, branch).value == below + rest && AllParts(Split(below + rest, SLASH))
  {
    rest := branch[|Ascii("refs/heads/")|..];
  }

  lemma Sound(part: bytes)
    requires PartOK(part)
    ensures part != [] && part[0] != 46 && !EndsWith(part, Ascii(".lock"))
  {
  }

  /** It lies below `refs/remotes/`, and none of its components is empty, a dot or hidden. */
  lemma TrackingRefStaysBelow(remote: bytes, branch: bytes, part: bytes)
    requires TrackingRef(remote, branch).Some? && part in Split(TrackingRef(remote, branch).value, SLASH)
    ensures StartsWith(TrackingRef(remote, branch).value, Ascii("refs/remotes/") + remote + [SLASH])
    ensures part != [] && part[0] != 46 && !EndsWith(part, Ascii(".lock"))
  {
    var below := Ascii("refs/remotes/") + remote + [SLASH];
    var rest := Assembled(remote, branch, below);
    BelowWhole(below, rest, part);
    Sound(part);
  }
}
