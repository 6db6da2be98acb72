/** The smart-HTTP reference advertisement and the push that answers it. */
module SmartHttp {
  import opened Bytes
  import opened PacketLines

  const PEELED: bytes := [94, 123, 125]
  const DOTLOCK: bytes := [46, 108, 111, 99, 107]

  // ---------------------------------------------------------------- names

  predicate EndsWith(s: bytes, p: bytes) {
    |p| <= |s| && s[|s| - |p|..] == p
  }

  /** A byte a reference name may hold. */
  predicate RefChar(c: byte) {
    32 < c && c != 127 && c !in [126, 94, 58, 63, 42, 91, 92]
  }

  predicate AllRefChars(s: bytes) {
    s == [] || (RefChar(s[0]) && AllRefChars(s[1..]))
  }

  predicate AllParts(parts: seq<bytes>) {
    parts == [] || (PartOK(parts[0]) && AllParts(parts[1..]))
  }

  predicate PartOK(p: bytes) {
    p != [] && p[0] != 46 && p[|p| - 1] != 46 && !EndsWith(p, DOTLOCK)
  }

  /** `_ref`, on the bytes of the name. */
  predicate IsRef(name: bytes, branch: bool) {
    && name != [] && |name| <= 1024
    && (branch ==> StartsWith(name, Ascii("refs/heads/")))
    && ((!branch && name == Ascii("HEAD"))
        || (&& StartsWith(name, Ascii("refs/")) && Find(name, [46, 46]) < 0 && Find(name, [64, 123]) < 0
            && AllRefChars(name) && AllParts(Split(name, SLASH))))
  }

  predicate AllLowHex(s: bytes) {
    s == [] || (IsLowHex(s[0]) && AllLowHex(s[1..]))
  }

  predicate IsOid(s: bytes) {
    (|s| == 40 || |s| == 64) && AllLowHex(s)
  }

  function Zeros(n: nat): (z: bytes)
    ensures |z| == n
  {
    seq(n, _ => 48)
  }

  // ---------------------------------------------------------------- reading an advertisement

  datatype Advertisement = Advertisement(refs: map<bytes, bytes>, capabilities: set<bytes>, sha256: bool)

  /** What the loop over the records has found so far. */
  datatype Scan = Scan(refs: map<bytes, bytes>, capabilities: set<bytes>, width: Option<nat>)

  function DropLF(s: bytes): bytes {
    if s != [] && s[|s| - 1] == LF then s[..|s| - 1] else s
  }

  predicate AllPrinted(s: bytes) {
    s == [] || (32 <= s[0] <= 126 && AllPrinted(s[1..]))
  }

  function NonEmpty(parts: seq<bytes>): seq<bytes> {
    if parts == [] then []
    else if parts[0] == [] then NonEmpty(parts[1..])
    else [parts[0]] + NonEmpty(parts[1..])
  }

  predicate Distinct(tokens: seq<bytes>) {
    tokens == [] || (tokens[0] !in tokens[1..] && Distinct(tokens[1..]))
  }

  function SetOf(tokens: seq<bytes>): set<bytes> {
    set t | t in tokens
  }

  function CapabilitiesOf(encoded: bytes): Option<set<bytes>> {
    if |encoded| > 4096 || !AllPrinted(encoded) then None
    else
      var tokens := NonEmpty(Split(encoded, SP));
      if Distinct(tokens) then Some(SetOf(tokens)) else None
  }

  /** The reference a record is about, without its peeling mark. */
  function Candidate(name: bytes): bytes {
    if EndsWith(name, PEELED) then name[..|name| - 3] else name
  }

  /** One record; `readable` tells which bytes are UTF-8. */
  function TakeRef(s: Scan, raw: bytes, first: bool, readable: bytes -> bool): Option<Scan> {
    var parts := Split(raw, SP);
    if |parts| != 2 then None
    else
      var oid, name := parts[0], parts[1];
      if !IsOid(oid) || (s.width.Some? && s.width.value != |oid|) || !readable(name) then None
      else
        var t := s.(width := Some(|oid|));
        if name == Ascii("capabilities^{}") && first && oid == Zeros(|oid|) then Some(t)
        else if oid == Zeros(|oid|) then None
        else if name == Ascii(".have") then Some(t)
        else if !IsRef(Candidate(name), false) || name in s.refs then None
        else Some(t.(refs := s.refs[name := oid]))
  }

  function TakeRecord(s: Scan, line: Line, first: bool, readable: bytes -> bool): Option<Scan> {
    if line.None? then None
    else
      var raw := DropLF(line.value);
      if CR in raw || LF in raw then None
      else if first then
        var parts := Split(raw, NUL);
        if |parts| != 2 then None
        else match CapabilitiesOf(parts[1])
             case None => None
             case Some(c) => TakeRef(s.(capabilities := c), parts[0], true, readable)
      else if NUL in raw then None
      else TakeRef(s, raw, false, readable)
  }

  function TakeRecords(s: Scan, lines: seq<Line>, first: bool, readable: bytes -> bool): Option<Scan>
    decreases |lines|
  {
    if lines == [] then Some(s)
    else match TakeRecord(s, lines[0], first, readable)
         case None => None
         case Some(t) => TakeRecords(t, lines[1..], false, readable)
  }

  function FormatName(sha256: bool): bytes {
    Ascii("object-format=") + (if sha256 then Ascii("sha256") else Ascii("sha1"))
  }

  /** The stated object format, if any is stated, must be the one the identities have. */
  predicate FormatOK(capabilities: set<bytes>, sha256: bool) {
    && (forall c :: c in capabilities && StartsWith(c, Ascii("object-format=")) ==> c == FormatName(sha256))
    && (sha256 ==> FormatName(sha256) in capabilities)
  }

  const EMPTY_SCAN := Scan(map[], {}, None)

  function ServiceLine(service: bytes): bytes {
    Ascii("# service=") + service + [LF]
  }

  function ReadLines(lines: seq<Line>, service: bytes, readable: bytes -> bool): Option<Advertisement> {
    if |lines| < 4 || lines[0] != Some(ServiceLine(service)) || lines[1] != None || lines[|lines| - 1] != None then None
    else
      match TakeRecords(EMPTY_SCAN, lines[2..|lines| - 1], true, readable)
      case None => None
      case Some(s) =>
        var sha256 := s.width == Some(64);
        if FormatOK(s.capabilities, sha256) then Some(Advertisement(s.refs, s.capabilities, sha256)) else None
  }

  /** The two services that are supported. */
  predicate IsService(service: bytes) {
    service == Ascii("git-upload-pack") || service == Ascii("git-receive-pack")
  }

  /** `parse_advertisement`. */
  function ParseAdvertisement(body: bytes, service: bytes, readable: bytes -> bool): Option<Advertisement> {
    if !IsService(service) then None
    else
      match PacketsOf(body)
      case None => None
      case Some(lines) => ReadLines(lines, service, readable)
  }

  lemma RecordsFrom(s: Scan, records: seq<Line>, i: nat, first: bool, readable: bytes -> bool)
    requires i < |records|
    ensures TakeRecords(s, records[i..], first, readable) ==
            match TakeRecord(s, records[i], first, readable)
            case None => None
            case Some(t) => TakeRecords(t, records[i + 1..], false, readable)
  {
  }

  /** The loop of `parse_advertisement`, which fills a dictionary record by record. */
  method ReadAdvertisement(body: bytes, service: bytes, readable: bytes -> bool) returns (result: Option<Advertisement>)
    ensures result == ParseAdvertisement(body, service, readable)
  {
    if !IsService(service) { return None; }
    var packets := Packets(body);
    if packets.None? { return None; }
    var lines := packets.value;
    if |lines| < 4 || lines[0] != Some(ServiceLine(service)) || lines[1] != None || lines[|lines| - 1] != None {
      return None;
    }
    var records := lines[2..|lines| - 1];
    var scan := EMPTY_SCAN;
    for i := 0 to |records|
      invariant TakeRecords(EMPTY_SCAN, records, true, readable) == TakeRecords(scan, records[i..], i == 0, readable)
    {
      RecordsFrom(scan, records, i, i == 0, readable);
      var next := TakeRecord(scan, records[i], i == 0, readable);
      if next.None? { return None; }
      scan := next.value;
    }
    var sha256 := scan.width == Some(64);
    if !FormatOK(scan.capabilities, sha256) { return None; }
    return Some(Advertisement(scan.refs, scan.capabilities, sha256));
  }

  // ---------------------------------------------------------------- printing one

  datatype Entry = Entry(oid: bytes, name: bytes)

  function Record(e: Entry): bytes {
    e.oid + [SP] + e.name
  }

  function FirstRecord(e: Entry, capabilities: seq<bytes>): bytes {
    Record(e) + [NUL] + Join(capabilities, [SP])
  }

  function OtherLines(entries: seq<Entry>): (lines: seq<Line>)
    ensures |lines| == |entries|
  {
    if entries == [] then [] else [Some(Record(entries[0]) + [LF])] + OtherLines(entries[1..])
  }

  /** The lines a server prints; without references it names its capabilities only. */
  function Advertised(service: bytes, width: nat, entries: seq<Entry>, capabilities: seq<bytes>): seq<Line> {
    [Some(ServiceLine(service)), None] + RecordLines(width, entries, capabilities) + [None]
  }

  predicate NameOK(name: bytes, readable: bytes -> bool) {
    readable(name) && (name == Ascii(".have") || IsRef(Candidate(name), false))
  }

  predicate EntryOK(e: Entry, width: nat, readable: bytes -> bool) {
    IsOid(e.oid) && |e.oid| == width && e.oid != Zeros(width) && NameOK(e.name, readable)
  }

  /** Names do not repeat, except the anonymous ones. */
  predicate EntriesOK(entries: seq<Entry>, width: nat, refs: map<bytes, bytes>, readable: bytes -> bool) {
    entries == [] || (
      && EntryOK(entries[0], width, readable)
      && (entries[0].name == Ascii(".have") || entries[0].name !in refs)
      && EntriesOK(entries[1..], width, Recorded(refs, entries[0]), readable))
  }

  function Recorded(refs: map<bytes, bytes>, e: Entry): map<bytes, bytes> {
    if e.name == Ascii(".have") then refs else refs[e.name := e.oid]
  }

  /** The references of an advertisement, as a map. */
  function RefsOf(refs: map<bytes, bytes>, entries: seq<Entry>): map<bytes, bytes>
    decreases |entries|
  {
    if entries == [] then refs else RefsOf(Recorded(refs, entries[0]), entries[1..])
  }

  predicate TokenOK(t: bytes) {
    t != [] && AllPrinted(t) && SP !in t
  }

  predicate TokensOK(tokens: seq<bytes>) {
    tokens == [] || (TokenOK(tokens[0]) && TokensOK(tokens[1..]))
  }

  predicate CapabilitiesOK(capabilities: seq<bytes>, sha256: bool) {
    && TokensOK(capabilities) && Distinct(capabilities) && |Join(capabilities, [SP])| <= 4096
    && FormatOK(SetOf(capabilities), sha256)
  }

  // ---------------------------------------------------------------- splitting

  lemma {:induction false} SplitJoin(tokens: seq<bytes>)
    requires tokens != [] && TokensOK(tokens)
    ensures Split(Join(tokens, [SP]), SP) == tokens
  {
    if |tokens| == 1 {
      SplitWhole(tokens[0], SP);
    } else {
      SplitJoin(tokens[1..]);
      SplitFirst(tokens[0], Join(tokens[1..], [SP]), SP);
      assert tokens == [tokens[0]] + tokens[1..];
    }
  }

  lemma {:induction false} NonEmptyAll(tokens: seq<bytes>)
    requires TokensOK(tokens)
    ensures NonEmpty(tokens) == tokens
  {
    if tokens == [] {
    } else {
      NonEmptyAll(tokens[1..]);
      assert tokens == [tokens[0]] + tokens[1..];
    }
  }

  lemma {:induction false} JoinPrinted(tokens: seq<bytes>)
    requires TokensOK(tokens)
    ensures AllPrinted(Join(tokens, [SP]))
  {
    if |tokens| <= 1 {
    } else {
      JoinPrinted(tokens[1..]);
      PrintedAppend(tokens[0], [SP]);
      PrintedAppend(tokens[0] + [SP], Join(tokens[1..], [SP]));
    }
  }

  lemma {:induction false} PrintedAppend(a: bytes, b: bytes)
    requires AllPrinted(a) && AllPrinted(b)
    ensures AllPrinted(a + b)
  {
    if a == [] {
      assert a + b == b;
    } else {
      assert (a + b)[1..] == a[1..] + b;
      PrintedAppend(a[1..], b);
    }
  }

  lemma {:induction false} PrintedHas(s: bytes, c: byte)
    requires AllPrinted(s) && c in s
    ensures 32 <= c <= 126
  {
    if c == s[0] {
    } else {
      PrintedHas(s[1..], c);
    }
  }

  lemma {:induction false} RefCharsHave(s: bytes, c: byte)
    requires AllRefChars(s) && c in s
    ensures RefChar(c)
  {
    if c == s[0] {
    } else {
      RefCharsHave(s[1..], c);
    }
  }

  lemma {:induction false} HexHas(s: bytes, c: byte)
    requires AllLowHex(s) && c in s
    ensures IsLowHex(c)
  {
    if c == s[0] {
    } else {
      HexHas(s[1..], c);
    }
  }

  /** No accepted name and no identity holds a byte that separates the fields of a record. */
  lemma NamePlain(name: bytes, c: byte)
    requires (name == Ascii(".have") || name == Ascii("capabilities^{}") || IsRef(Candidate(name), false)) && c in name
    ensures c > 32
  {
    if name == Ascii(".have") || name == Ascii("capabilities^{}") {
      LiteralPlain(c);
    } else {
      var base := Candidate(name);
      if c !in base {
        assert name == base + PEELED;
      } else if base == Ascii("HEAD") {
        LiteralPlain(c);
      } else {
        RefCharsHave(base, c);
      }
    }
  }

  lemma LiteralPlain(c: byte)
    requires c in Ascii(".have") || c in Ascii("capabilities^{}") || c in Ascii("HEAD")
    ensures c > 32
  {
  }

  // ---------------------------------------------------------------- the round trip

  lemma CapabilitiesRead(tokens: seq<bytes>)
    requires TokensOK(tokens) && Distinct(tokens) && |Join(tokens, [SP])| <= 4096
    ensures CapabilitiesOf(Join(tokens, [SP])) == Some(SetOf(tokens))
  {
    JoinPrinted(tokens);
    NonEmptyAll(tokens);
    if tokens == [] {
      SplitWhole([], SP);
      var parts: seq<bytes> := [[]];
      assert parts[1..] == [];
    } else {
      SplitJoin(tokens);
    }
  }

  predicate Plain(s: bytes) {
    CR !in s && LF !in s && NUL !in s
  }

  lemma RecordSplits(e: Entry)
    requires IsOid(e.oid)
    requires e.name == Ascii(".have") || e.name == Ascii("capabilities^{}") || IsRef(Candidate(e.name), false)
    ensures Split(Record(e), SP) == [e.oid, e.name] && Plain(Record(e))
  {
    forall c | c in e.oid ensures c > 32 { HexHas(e.oid, c); }
    forall c | c in e.name ensures c > 32 { NamePlain(e.name, c); }
    SplitTwo(e.oid, e.name, SP);
  }

  lemma RefTaken(s: Scan, e: Entry, width: nat, first: bool, readable: bytes -> bool)
    requires EntryOK(e, width, readable) && (s.width.Some? ==> s.width.value == width)
    requires e.name == Ascii(".have") || e.name !in s.refs
    ensures TakeRef(s, Record(e), first, readable) == Some(Scan(Recorded(s.refs, e), s.capabilities, Some(width)))
  {
    RecordSplits(e);
  }

  lemma LineTaken(s: Scan, e: Entry, width: nat, readable: bytes -> bool)
    requires EntryOK(e, width, readable) && (s.width.Some? ==> s.width.value == width)
    requires e.name == Ascii(".have") || e.name !in s.refs
    ensures TakeRecord(s, Some(Record(e) + [LF]), false, readable)
            == Some(Scan(Recorded(s.refs, e), s.capabilities, Some(width)))
  {
    RecordSplits(e);
    assert DropLF(Record(e) + [LF]) == Record(e);
    RefTaken(s, e, width, false, readable);
  }

  lemma {:induction false} OthersTaken(s: Scan, entries: seq<Entry>, width: nat, readable: bytes -> bool)
    requires s.width == Some(width) && EntriesOK(entries, width, s.refs, readable)
    ensures TakeRecords(s, OtherLines(entries), false, readable)
            == Some(Scan(RefsOf(s.refs, entries), s.capabilities, Some(width)))
    decreases |entries|
  {
    if entries == [] {
    } else {
      LineTaken(s, entries[0], width, readable);
      OthersTaken(Scan(Recorded(s.refs, entries[0]), s.capabilities, Some(width)), entries[1..], width, readable);
      assert OtherLines(entries)[1..] == OtherLines(entries[1..]);
    }
  }

  lemma FirstLineTaken(e: Entry, capabilities: seq<bytes>)
    requires IsOid(e.oid) && TokensOK(capabilities) && Distinct(capabilities) && |Join(capabilities, [SP])| <= 4096
    requires e.name == Ascii(".have") || e.name == Ascii("capabilities^{}") || IsRef(Candidate(e.name), false)
    ensures var raw := DropLF(FirstRecord(e, capabilities) + [LF]);
            raw == FirstRecord(e, capabilities) && CR !in raw && LF !in raw
            && Split(raw, NUL) == [Record(e), Join(capabilities, [SP])]
            && CapabilitiesOf(Join(capabilities, [SP])) == Some(SetOf(capabilities))
  {
    var encoded := Join(capabilities, [SP]);
    RecordSplits(e);
    CapabilitiesRead(capabilities);
    forall c | c in encoded ensures 32 <= c <= 126 { PrintedHas(encoded, c); }
    SplitTwo(Record(e), encoded, NUL);
    assert DropLF(FirstRecord(e, capabilities) + [LF]) == FirstRecord(e, capabilities);
  }

  function FirstEntry(width: nat, entries: seq<Entry>): Entry {
    if entries == [] then Entry(Zeros(width), Ascii("capabilities^{}")) else entries[0]
  }

  lemma FirstTaken(width: nat, entries: seq<Entry>, capabilities: seq<bytes>, readable: bytes -> bool)
    requires (width == 40 || width == 64) && readable(Ascii("capabilities^{}"))
    requires EntriesOK(entries, width, map[], readable)
    requires TokensOK(capabilities) && Distinct(capabilities) && |Join(capabilities, [SP])| <= 4096
    ensures TakeRecord(EMPTY_SCAN, Some(FirstRecord(FirstEntry(width, entries), capabilities) + [LF]), true, readable)
            == Some(Scan(if entries == [] then map[] else Recorded(map[], entries[0]), SetOf(capabilities), Some(width)))
  {
    var e := FirstEntry(width, entries);
    ZerosHex(width);
    var s := EMPTY_SCAN.(capabilities := SetOf(capabilities));
    if entries == [] { NothingTaken(s, width, readable); } else { RefTaken(s, e, width, true, readable); }
    FirstRefTaken(e, capabilities, readable);
  }

  lemma FirstRefTaken(e: Entry, capabilities: seq<bytes>, readable: bytes -> bool)
    requires IsOid(e.oid) && TokensOK(capabilities) && Distinct(capabilities) && |Join(capabilities, [SP])| <= 4096
    requires e.name == Ascii(".have") || e.name == Ascii("capabilities^{}") || IsRef(Candidate(e.name), false)
    ensures TakeRecord(EMPTY_SCAN, Some(FirstRecord(e, capabilities) + [LF]), true, readable)
            == TakeRef(EMPTY_SCAN.(capabilities := SetOf(capabilities)), Record(e), true, readable)
  {
    FirstLineTaken(e, capabilities);
  }

  lemma NothingTaken(s: Scan, width: nat, readable: bytes -> bool)
    requires (width == 40 || width == 64) && readable(Ascii("capabilities^{}")) && s.width.None?
    ensures TakeRef(s, Record(FirstEntry(width, [])), true, readable) == Some(s.(width := Some(width)))
  {
    ZerosHex(width);
    RecordSplits(FirstEntry(width, []));
  }

  /** The record lines of a printed advertisement. */
  function RecordLines(width: nat, entries: seq<Entry>, capabilities: seq<bytes>): seq<Line> {
    [Some(FirstRecord(FirstEntry(width, entries), capabilities) + [LF])]
    + OtherLines(if entries == [] then [] else entries[1..])
  }

  lemma AdvertisedShape(service: bytes, width: nat, entries: seq<Entry>, capabilities: seq<bytes>)
    ensures var lines := Advertised(service, width, entries, capabilities);
            && |lines| >= 4 && lines[0] == Some(ServiceLine(service)) && lines[1] == None && lines[|lines| - 1] == None
            && lines[2..|lines| - 1] == RecordLines(width, entries, capabilities)
  {
  }

  lemma RecordsTaken(width: nat, entries: seq<Entry>, capabilities: seq<bytes>, readable: bytes -> bool)
    requires (width == 40 || width == 64) && readable(Ascii("capabilities^{}"))
    requires EntriesOK(entries, width, map[], readable)
    requires TokensOK(capabilities) && Distinct(capabilities) && |Join(capabilities, [SP])| <= 4096
    ensures TakeRecords(EMPTY_SCAN, RecordLines(width, entries, capabilities), true, readable)
            == Some(Scan(RefsOf(map[], entries), SetOf(capabilities), Some(width)))
  {
    var records := RecordLines(width, entries, capabilities);
    var rest := if entries == [] then [] else entries[1..];
    FirstTaken(width, entries, capabilities, readable);
    var s := Scan(if entries == [] then map[] else Recorded(map[], entries[0]), SetOf(capabilities), Some(width));
    assert records[1..] == OtherLines(rest);
    OthersTaken(s, rest, width, readable);
  }

  lemma ReadAsScanned(lines: seq<Line>, service: bytes, readable: bytes -> bool, s: Scan)
    requires |lines| >= 4 && lines[0] == Some(ServiceLine(service)) && lines[1] == None && lines[|lines| - 1] == None
    requires TakeRecords(EMPTY_SCAN, lines[2..|lines| - 1], true, readable) == Some(s)
    requires FormatOK(s.capabilities, s.width == Some(64))
    ensures ReadLines(lines, service, readable) == Some(Advertisement(s.refs, s.capabilities, s.width == Some(64)))
  {
  }

  /** Whatever a well-formed server prints is read back: the same references, capabilities and format. */
  lemma AdvertisementRoundTrip(service: bytes, width: nat, entries: seq<Entry>, capabilities: seq<bytes>,
                               readable: bytes -> bool)
    requires IsService(service) && (width == 40 || width == 64) && readable(Ascii("capabilities^{}"))
    requires EntriesOK(entries, width, map[], readable) && CapabilitiesOK(capabilities, width == 64)
    requires AllPrintable(Advertised(service, width, entries, capabilities)) && |entries| <= MAX_LINES - 4
    requires |Print(Advertised(service, width, entries, capabilities))| <= MAX_DISCOVERY
    ensures ParseAdvertisement(Print(Advertised(service, width, entries, capabilities)), service, readable)
            == Some(Advertisement(RefsOf(map[], entries), SetOf(capabilities), width == 64))
  {
    var lines := Advertised(service, width, entries, capabilities);
    PacketsExactly(Print(lines), lines);
    AdvertisedShape(service, width, entries, capabilities);
    RecordsTaken(width, entries, capabilities, readable);
    ReadAsScanned(Advertised(service, width, entries, capabilities), service, readable,
                  Scan(RefsOf(map[], entries), SetOf(capabilities), Some(width)));
  }

  lemma {:induction false} ZerosHex(n: nat)
    ensures AllLowHex(Zeros(n))
  {
    if n == 0 {
    } else {
      ZerosHex(n - 1);
      assert Zeros(n)[1..] == Zeros(n - 1);
    }
  }

  // ---------------------------------------------------------------- soundness

  /** What holds of every reference the loop keeps. */
  ghost predicate ScanOK(s: Scan) {
    && (s.width.None? ==> s.refs == map[])
    && forall name :: name in s.refs ==>
         && IsRef(Candidate(name), false) && IsOid(s.refs[name])
         && |s.refs[name]| == s.width.value && s.refs[name] != Zeros(s.width.value)
  }

  lemma RefSound(s: Scan, raw: bytes, first: bool, readable: bytes -> bool)
    requires ScanOK(s) && TakeRef(s, raw, first, readable).Some?
    ensures ScanOK(TakeRef(s, raw, first, readable).value)
  {
  }

  lemma RecordSound(s: Scan, line: Line, first: bool, readable: bytes -> bool)
    requires ScanOK(s) && TakeRecord(s, line, first, readable).Some?
    ensures ScanOK(TakeRecord(s, line, first, readable).value)
  {
    var raw := DropLF(line.value);
    if first {
      var parts := Split(raw, NUL);
      RefSound(s.(capabilities := CapabilitiesOf(parts[1]).value), parts[0], true, readable);
    } else {
      RefSound(s, raw, false, readable);
    }
  }

  lemma {:induction false} RecordsSound(s: Scan, lines: seq<Line>, first: bool, readable: bytes -> bool)
    requires ScanOK(s) && TakeRecords(s, lines, first, readable).Some?
    ensures ScanOK(TakeRecords(s, lines, first, readable).value)
    decreases |lines|
  {
    if lines == [] {
    } else {
      RecordSound(s, lines[0], first, readable);
      RecordsSound(TakeRecord(s, lines[0], first, readable).value, lines[1..], false, readable);
    }
  }

  predicate AdvertisementOK(a: Advertisement, name: bytes) {
    && FormatOK(a.capabilities, a.sha256)
    && (name in a.refs ==>
          && IsRef(Candidate(name), false) && IsOid(a.refs[name])
          && |a.refs[name]| == (if a.sha256 then 64 else 40) && a.refs[name] != Zeros(|a.refs[name]|))
  }

  lemma ScanAccepted(s: Scan, name: bytes)
    requires ScanOK(s) && FormatOK(s.capabilities, s.width == Some(64))
    ensures AdvertisementOK(Advertisement(s.refs, s.capabilities, s.width == Some(64)), name)
  {
  }

  lemma LinesSound(lines: seq<Line>, service: bytes, readable: bytes -> bool, name: bytes)
    requires ReadLines(lines, service, readable).Some?
    ensures AdvertisementOK(ReadLines(lines, service, readable).value, name)
  {
    var records := lines[2..|lines| - 1];
    RecordsSound(EMPTY_SCAN, records, true, readable);
    ScanAccepted(TakeRecords(EMPTY_SCAN, records, true, readable).value, name);
  }

  /** Whatever is accepted has valid names and nonzero identities of the one stated format. */
  lemma AdvertisementSound(body: bytes, service: bytes, readable: bytes -> bool, name: bytes)
    requires ParseAdvertisement(body, service, readable).Some?
    ensures IsService(service) && AdvertisementOK(ParseAdvertisement(body, service, readable).value, name)
  {
    LinesSound(PacketsOf(body).value, service, readable, name);
  }

  // ---------------------------------------------------------------- push

  datatype Update = Update(target: bytes, old_oid: bytes, new_oid: bytes)

  /** What the constructor of `RefUpdate` demands: an exact update of a branch, never a deletion. */
  predicate UpdateOK(u: Update) {
    && IsRef(u.target, true) && IsOid(u.old_oid) && IsOid(u.new_oid)
    && |u.old_oid| == |u.new_oid| && u.new_oid != Zeros(|u.new_oid|)
  }

  function Command(u: Update, capabilities: bytes): bytes {
    u.old_oid + [SP] + (u.new_oid + [SP] + (u.target + [NUL] + ([SP] + capabilities + [LF])))
  }

  function PushCapabilities(a: Advertisement): bytes {
    Ascii("report-status") + (if FormatName(a.sha256) in a.capabilities then [SP] + FormatName(a.sha256) else [])
  }

  /** `push_body`; `valid` is the check of the pack itself. */
  function PushBody(u: Update, pack: bytes, a: Advertisement, valid: (bytes, bool) -> bool): Option<bytes> {
    if a.sha256 != (|u.new_oid| == 64) || Ascii("report-status") !in a.capabilities then None
    else if (if u.target in a.refs then a.refs[u.target] else Zeros(|u.old_oid|)) != u.old_oid then None
    else if !valid(pack, a.sha256) then None
    else
      match Packet(Command(u, PushCapabilities(a)))
      case None => None
      case Some(packet) => Some(packet + FLUSH + pack)
  }

  /** What a server reads in the command packet of a push. */
  function ReadCommand(command: bytes): Option<Update> {
    match Field(command, SP)
    case None => None
    case Some((old_oid, after)) =>
      match Field(after, SP)
      case None => None
      case Some((new_oid, named)) =>
        match Field(named, NUL) case None => None case Some((target, _)) => Some(Update(target, old_oid, new_oid))
  }

  /** The command, a flush, and the pack after it. */
  function ReadPush(body: bytes): Option<(Update, bytes)> {
    match FirstLine(body)
    case None => None
    case Some((line, rest)) =>
      if line.None? || !StartsWith(rest, FLUSH) then None
      else match ReadCommand(line.value) case None => None case Some(u) => Some((u, rest[4..]))
  }

  lemma BranchPlain(name: bytes, c: byte)
    requires IsRef(name, true) && c in name
    ensures c > 32
  {
    RefCharsHave(name, c);
  }

  lemma UpdatePlain(u: Update)
    requires UpdateOK(u)
    ensures SP !in u.old_oid && SP !in u.new_oid && NUL !in u.target
  {
    if SP in u.old_oid { HexHas(u.old_oid, SP); }
    if SP in u.new_oid { HexHas(u.new_oid, SP); }
    if NUL in u.target { BranchPlain(u.target, NUL); }
  }

  /** The command of a valid update always fits one packet. */
  lemma CommandFits(u: Update, a: Advertisement)
    requires UpdateOK(u)
    ensures |Command(u, PushCapabilities(a))| <= 1300 && Packet(Command(u, PushCapabilities(a))).Some?
  {
  }

  lemma CommandRead(u: Update, capabilities: bytes)
    requires UpdateOK(u)
    ensures ReadCommand(Command(u, capabilities)) == Some(u)
  {
    UpdatePlain(u);
    var tail := [SP] + capabilities + [LF];
    var named := u.target + [NUL] + tail;
    var after := u.new_oid + [SP] + named;
    FieldTaken(u.old_oid, SP, after);
    FieldTaken(u.new_oid, SP, named);
    FieldTaken(u.target, NUL, tail);
    Regroup(u.old_oid, [SP], after);
    Regroup(u.new_oid, [SP], named);
    Regroup(u.target, [NUL], tail);
  }

  /** A push body says exactly which update it asks for, and carries the pack untouched. */
  lemma PushRecovered(u: Update, pack: bytes, a: Advertisement, valid: (bytes, bool) -> bool)
    requires UpdateOK(u) && PushBody(u, pack, a, valid).Some?
    ensures ReadPush(PushBody(u, pack, a, valid).value) == Some((u, pack))
  {
    CommandFits(u, a);
    CommandRead(u, PushCapabilities(a));
    PushPrinted(Command(u, PushCapabilities(a)), pack);
  }

  lemma PushPrinted(command: bytes, pack: bytes)
    requires Packet(command).Some?
    ensures var body := Packet(command).value + FLUSH + pack;
            && FirstLine(body) == Some((Some(command), FLUSH + pack))
            && StartsWith(FLUSH + pack, FLUSH) && (FLUSH + pack)[4..] == pack
  {
    FirstOfPrinted(Some(command), FLUSH + pack);
    assert Packet(command).value + FLUSH + pack == PrintLine(Some(command)) + (FLUSH + pack);
    assert (FLUSH + pack)[..4] == FLUSH && (FLUSH + pack)[4..] == pack;
  }

  /** Two valid pushes with the same body are the same push. */
  lemma PushUnambiguous(u: Update, pack: bytes, a: Advertisement, v: Update, other: bytes, b: Advertisement,
                        valid: (bytes, bool) -> bool)
    requires UpdateOK(u) && UpdateOK(v) && PushBody(u, pack, a, valid).Some?
    requires PushBody(u, pack, a, valid) == PushBody(v, other, b, valid)
    ensures u == v && pack == other
  {
    PushRecovered(u, pack, a, valid);
    PushRecovered(v, other, b, valid);
  }

  // ---------------------------------------------------------------- the server's answer

  function Confirmation(target: bytes): (lines: seq<Line>)
    ensures |lines| == 3
  {
    [Some(Ascii("unpack ok\n")), Some(Ascii("ok ") + target + [LF]), None]
  }

  /** `check_push_result`. */
  method CheckPushResult(body: bytes, u: Update) returns (ok: bool)
    requires UpdateOK(u)
    ensures AllPrintable(Confirmation(u.target))
    ensures ok <==> body == Print(Confirmation(u.target))
  {
    var packets := Packets(body);
    ok := packets == Some(Confirmation(u.target));
    ConfirmationFits(u.target);
    PacketsExactly(body, Confirmation(u.target));
  }

  lemma ConfirmationFits(target: bytes)
    requires |target| <= 1024
    ensures AllPrintable(Confirmation(target)) && |Print(Confirmation(target))| <= MAX_DISCOVERY
  {
    var lines := Confirmation(target);
    assert lines[1..][0] == lines[1] && lines[1..][1..] == lines[2..] && lines[2..][0] == lines[2] && lines[2..][1..] == [];
    assert AllPrintable(lines[2..]) && AllPrintable(lines[1..]);
    assert Print(lines[2..]) == PrintLine(lines[2]) + Print([]);
    assert Print(lines[1..]) == PrintLine(lines[1]) + Print(lines[2..]);
  }
}
