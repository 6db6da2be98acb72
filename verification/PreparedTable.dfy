/**
 The lock-protected state of the worker Git RPC: grants, selected repositories and
 prepared requests. Every method below is one critical section of the source.
 */
module PreparedTable {
  import opened Bytes

  const MAX_PER_JOB := 32
  const MAX_TOTAL := 1024

  type Job = string
  type Digest = string
  type Repository = string
  type Scope = seq<string>

  datatype Operation = Pull | Fetch | Clone

  /**
   A grant object: `id` is its identity, `allowed` what it permits in its one repository, nothing for a
   read-only one. The grant of a job is the primary of a catalog whose other objects are its alternates.
   */
  datatype Grant = Grant(id: nat, job: Job, repository: Repository, expires: int, allowed: set<(Operation, Scope)>,
                         alternates: seq<Grant>)

  datatype Key = Key(job: Job, digest: Digest)

  /** A prepared request; `serial` is the identity of the record object. */
  datatype Record = Record(serial: nat, scope: Scope, operation: Operation, at: int, dispatched: bool)

  /** `responses` holds the outcome stored in each record object, in the table or no longer in it. */
  datatype Table = Table(
    grants: map<Job, Grant>,
    selected: map<Job, Repository>,
    prepared: map<Key, Record>,
    responses: map<nat, string>)

  datatype Denial = GrantRevoked | NotPrepared | ScopeMismatch | Replay | Stale | PreparedFull | BoundElsewhere

  /** The objects of a catalog. */
  predicate Holds(primary: Grant, g: Grant) {
    g == primary || g in primary.alternates
  }

  /** What is checked when a grant is made. */
  predicate Consistent(g: Grant) {
    && (forall i :: 0 <= i < |g.alternates| ==>
          && g.alternates[i].alternates == [] && g.alternates[i].job == g.job && g.alternates[i].expires == g.expires
          && g.alternates[i].repository != g.repository)
    && (forall i, j :: 0 <= i < j < |g.alternates| ==> g.alternates[i].repository != g.alternates[j].repository)
  }

  predicate Registered(t: Table, g: Grant) {
    g.job in t.grants && Holds(t.grants[g.job], g)
  }

  /** The entry that permits an operation; a clone may be into any branch. */
  function Entry(operation: Operation, scope: Scope): (Operation, Scope) {
    (operation, if operation == Clone && |scope| > 2 then scope[..2] else scope)
  }

  predicate Admits(g: Grant, operation: Operation, scope: Scope) {
    Entry(operation, scope) in g.allowed
  }

  /** The records a job has in the table. */
  function Mine(prepared: map<Key, Record>, job: Job): set<Key> {
    set k | k in prepared && k.job == job
  }

  predicate Expired(r: Record, now: int, ttl: nat) {
    !r.dispatched && now - r.at >= ttl
  }

  /** The table without its expired records; a dispatched record never expires. */
  function Unexpired(prepared: map<Key, Record>, now: int, ttl: nat): map<Key, Record> {
    map k | k in prepared && !Expired(prepared[k], now, ttl) :: prepared[k]
  }

  predicate Crowded(prepared: map<Key, Record>, job: Job) {
    |Mine(prepared, job)| >= MAX_PER_JOB || |prepared| >= MAX_TOTAL
  }

  /** Where a record is looked for that can make room. */
  function Pool(prepared: map<Key, Record>, job: Job): set<Key> {
    if |Mine(prepared, job)| >= MAX_PER_JOB then Mine(prepared, job) else prepared.Keys
  }

  function Idle(prepared: map<Key, Record>, pool: set<Key>): set<Key> {
    set k | k in pool && k in prepared && !prepared[k].dispatched
  }

  /** `k` is an idle record of the pool, and none is older. */
  ghost predicate Oldest(prepared: map<Key, Record>, pool: set<Key>, k: Key) {
    k in Idle(prepared, pool) && forall j :: j in Idle(prepared, pool) ==> prepared[k].at <= prepared[j].at
  }

  /** `after` is `before` once room for one more record of `job` has been made. */
  ghost predicate RoomMade(before: map<Key, Record>, job: Job, now: int, ttl: nat, after: map<Key, Record>) {
    var live := Unexpired(before, now, ttl);
    if Crowded(live, job) then exists k :: Oldest(live, Pool(live, job), k) && after == live - {k}
    else after == live
  }

  /** No room: every record that could have been evicted is dispatched. */
  ghost predicate NoRoom(before: map<Key, Record>, job: Job, now: int, ttl: nat) {
    var live := Unexpired(before, now, ttl);
    Crowded(live, job) && Idle(live, Pool(live, job)) == {}
  }

  function IssueTo(t: Table, g: Grant): Table {
    t.(grants := t.grants[g.job := g])
  }

  function RevokeFrom(t: Table, job: Job): Table {
    Table(t.grants - {job}, t.selected - {job}, t.prepared - Mine(t.prepared, job), t.responses)
  }

  /** `setdefault` on the repository a job works in. */
  function SelectIn(t: Table, job: Job, repository: Repository): Table {
    if job in t.selected then t else t.(selected := t.selected[job := repository])
  }

  function RefreshIn(t: Table, key: Key, now: int): Table
    requires key in t.prepared
  {
    var r := t.prepared[key];
    if r.dispatched then t else t.(prepared := t.prepared[key := r.(at := now)])
  }

  function Fresh(serial: nat, scope: Scope, operation: Operation, now: int): Record {
    Record(serial, scope, operation, now, false)
  }

  /** One attempt to record a prepared request: the table after it, and why it failed. */
  ghost predicate Prepares(t: Table, g: Grant, digest: Digest, scope: Scope, operation: Operation, now: int, ttl: nat,
                           serial: nat, u: Table, denial: Option<Denial>) {
    var key := Key(g.job, digest);
    if !Registered(t, g) then u == t && denial == Some(GrantRevoked)
    else if key in t.prepared then
      if t.prepared[key].scope != scope || (operation == Clone && t.prepared[key].operation != Clone) then
        u == t && denial == Some(ScopeMismatch)
      else u == RefreshIn(t, key, now) && denial == None
    else if NoRoom(t.prepared, g.job, now, ttl) then
      u == t.(prepared := Unexpired(t.prepared, now, ttl)) && denial == Some(PreparedFull)
    else
      && denial == None && u == t.(prepared := u.prepared)
      && exists room: map<Key, Record> ::
           RoomMade(t.prepared, g.job, now, ttl, room) && u.prepared == room[key := Fresh(serial, scope, operation, now)]
  }

  /** The clone proposals of a job for one scope. */
  function Clones(prepared: map<Key, Record>, job: Job, scope: Scope): set<Key> {
    set k | k in prepared && k.job == job && prepared[k].operation == Clone && prepared[k].scope == scope
  }

  /** The first of some records in the order of the table, which is the order in which they were made. */
  ghost predicate First(prepared: map<Key, Record>, some: set<Key>, k: Key) {
    && k in some && k in prepared
    && forall j :: j in some && j in prepared ==> prepared[k].serial <= prepared[j].serial
  }

  /** The first clone proposal of the scope is handed back if it is live, and refreshed unless it was dispatched. */
  ghost predicate Peeks(t: Table, g: Grant, scope: Scope, now: int, ttl: nat, u: Table, found: Option<Digest>) {
    var clones := Clones(t.prepared, g.job, scope);
    match found
    case None =>
      && u == t
      && (Registered(t, g) && clones != {} ==> exists k :: First(t.prepared, clones, k) && now - t.prepared[k].at >= ttl)
    case Some(digest) =>
      var key := Key(g.job, digest);
      Registered(t, g) && First(t.prepared, clones, key) && now - t.prepared[key].at < ttl && u == RefreshIn(t, key, now)
  }

  /** The checks `_pull` makes, in its order, before it may dispatch. */
  function ClaimDenied(t: Table, g: Grant, digest: Digest, scope: Scope, operation: Operation, now: int, ttl: nat)
    : Option<Denial>
  {
    var key := Key(g.job, digest);
    if key !in t.prepared then Some(NotPrepared)
    else
      var r := t.prepared[key];
      if r.scope != scope || r.operation != operation then Some(ScopeMismatch)
      else if r.dispatched then Some(Replay)
      else if now - r.at >= ttl then Some(Stale)
      else if !Registered(t, g) then Some(GrantRevoked)
      else None
  }

  function DispatchIn(t: Table, key: Key): Table
    requires key in t.prepared
  {
    t.(prepared := t.prepared[key := t.prepared[key].(dispatched := true)])
  }

  function DeliverIn(t: Table, serial: nat, response: string): Table {
    t.(responses := t.responses[serial := response])
  }

  predicate Bounded(t: Table) {
    |t.prepared| <= MAX_TOTAL && forall k :: k in t.prepared ==> |Mine(t.prepared, k.job)| <= MAX_PER_JOB
  }

  // ---------------------------------------------------------------- room

  lemma SubsetSize<T>(a: set<T>, b: set<T>)
    requires a <= b
    ensures |a| <= |b|
  {
    assert b == a + (b - a);
  }

  lemma UnexpiredSmaller(prepared: map<Key, Record>, now: int, ttl: nat)
    ensures var live := Unexpired(prepared, now, ttl);
            |live| <= |prepared| && forall job :: |Mine(live, job)| <= |Mine(prepared, job)|
  {
    var live := Unexpired(prepared, now, ttl);
    SubsetSize(live.Keys, prepared.Keys);
    forall job ensures |Mine(live, job)| <= |Mine(prepared, job)| {
      SubsetSize(Mine(live, job), Mine(prepared, job));
    }
  }

  lemma MineBound(prepared: map<Key, Record>, job: Job)
    requires forall k :: k in prepared ==> |Mine(prepared, k.job)| <= MAX_PER_JOB
    ensures |Mine(prepared, job)| <= MAX_PER_JOB
  {
  }

  /** After room is made one more record fits both limits. */
  lemma RoomFits(t: Table, job: Job, now: int, ttl: nat, room: map<Key, Record>)
    requires Bounded(t) && RoomMade(t.prepared, job, now, ttl, room)
    ensures |room| < MAX_TOTAL && |Mine(room, job)| < MAX_PER_JOB
    ensures forall j :: |Mine(room, j)| <= MAX_PER_JOB
  {
    var live := Unexpired(t.prepared, now, ttl);
    UnexpiredSmaller(t.prepared, now, ttl);
    forall j ensures |Mine(live, j)| <= MAX_PER_JOB { MineBound(t.prepared, j); }
    if Crowded(live, job) {
      var k :| Oldest(live, Pool(live, job), k) && room == live - {k};
      assert room.Keys == live.Keys - {k};
      forall j ensures Mine(room, j) == Mine(live, j) - {k} {}
      forall j ensures |Mine(room, j)| <= MAX_PER_JOB { SubsetSize(Mine(room, j), Mine(live, j)); }
    }
  }

  /** Making room drops no dispatched record, and at most one that had not expired. */
  lemma RoomKeepsDispatched(before: map<Key, Record>, job: Job, now: int, ttl: nat, after: map<Key, Record>)
    requires RoomMade(before, job, now, ttl, after)
    ensures forall k :: k in before && before[k].dispatched ==> k in after && after[k] == before[k]
    ensures forall k :: k in after ==> k in before && after[k] == before[k]
  {
  }

  lemma InsertBounded(room: map<Key, Record>, key: Key, r: Record)
    requires |room| < MAX_TOTAL && |Mine(room, key.job)| < MAX_PER_JOB
    requires forall j :: |Mine(room, j)| <= MAX_PER_JOB
    ensures var grown := room[key := r];
            |grown| <= MAX_TOTAL && forall j :: |Mine(grown, j)| <= MAX_PER_JOB
  {
    var grown := room[key := r];
    assert grown.Keys == room.Keys + {key};
    forall j ensures |Mine(grown, j)| <= MAX_PER_JOB { MineGrown(room, key, r, j); }
  }

  lemma MineGrown(room: map<Key, Record>, key: Key, r: Record, job: Job)
    ensures Mine(room[key := r], job) == if job == key.job then Mine(room, job) + {key} else Mine(room, job)
  {
  }

  lemma SameKeysBounded(t: Table, u: Table)
    requires Bounded(t) && u.prepared.Keys <= t.prepared.Keys
    ensures Bounded(u)
  {
    SubsetSize(u.prepared.Keys, t.prepared.Keys);
    forall k | k in u.prepared ensures |Mine(u.prepared, k.job)| <= MAX_PER_JOB {
      SubsetSize(Mine(u.prepared, k.job), Mine(t.prepared, k.job));
    }
  }

  /** Recording a request keeps both limits, in the denied cases as in the others. */
  lemma PreparesBounded(t: Table, g: Grant, digest: Digest, scope: Scope, operation: Operation, now: int, ttl: nat,
                        serial: nat, u: Table, denial: Option<Denial>)
    requires Bounded(t) && Prepares(t, g, digest, scope, operation, now, ttl, serial, u, denial)
    ensures Bounded(u)
  {
    var key := Key(g.job, digest);
    if Registered(t, g) && key !in t.prepared && !NoRoom(t.prepared, g.job, now, ttl) {
      var room: map<Key, Record> :|
        RoomMade(t.prepared, g.job, now, ttl, room) && u.prepared == room[key := Fresh(serial, scope, operation, now)];
      RoomFits(t, g.job, now, ttl, room);
      InsertBounded(room, key, Fresh(serial, scope, operation, now));
    } else {
      SameKeysBounded(t, u);
    }
  }

  lemma PreparesByRoom(t: Table, g: Grant, digest: Digest, scope: Scope, operation: Operation, now: int, ttl: nat,
                       serial: nat, room: map<Key, Record>)
    requires Registered(t, g) && Key(g.job, digest) !in t.prepared && !NoRoom(t.prepared, g.job, now, ttl)
    requires RoomMade(t.prepared, g.job, now, ttl, room)
    ensures var u := t.(prepared := room[Key(g.job, digest) := Fresh(serial, scope, operation, now)]);
            Prepares(t, g, digest, scope, operation, now, ttl, serial, u, None)
  {
  }

  /** Record by record, what an attempt to record `key` may do. */
  ghost predicate Evolves(before: map<Key, Record>, after: map<Key, Record>, key: Key, made: Record, denial: Option<Denial>) {
    && (forall k :: k in after ==>
          || (k in before && after[k] == before[k])
          || (k in before && k == key && denial == None && !before[k].dispatched && after[k] == before[k].(at := made.at))
          || (k !in before && k == key && denial == None && after[k] == made))
    && (forall k :: k in before && before[k].dispatched ==> k in after && after[k] == before[k])
  }

  lemma RoomEvolves(t: Table, job: Job, now: int, ttl: nat, room: map<Key, Record>, key: Key, made: Record)
    requires RoomMade(t.prepared, job, now, ttl, room) && key !in t.prepared
    ensures Evolves(t.prepared, room[key := made], key, made, None)
  {
    RoomKeepsDispatched(t.prepared, job, now, ttl, room);
  }

  lemma PreparesEffect(t: Table, g: Grant, digest: Digest, scope: Scope, operation: Operation, now: int, ttl: nat,
                       serial: nat, u: Table, denial: Option<Denial>)
    requires Prepares(t, g, digest, scope, operation, now, ttl, serial, u, denial)
    ensures u == t.(prepared := u.prepared)
    ensures Evolves(t.prepared, u.prepared, Key(g.job, digest), Fresh(serial, scope, operation, now), denial)
    ensures denial == None ==>
              Registered(t, g) && Key(g.job, digest) in u.prepared && u.prepared[Key(g.job, digest)].scope == scope
  {
    var key := Key(g.job, digest);
    if Registered(t, g) && key !in t.prepared && !NoRoom(t.prepared, g.job, now, ttl) {
      var room: map<Key, Record> :|
        RoomMade(t.prepared, g.job, now, ttl, room) && u.prepared == room[key := Fresh(serial, scope, operation, now)];
      RoomEvolves(t, g.job, now, ttl, room, key, Fresh(serial, scope, operation, now));
    }
  }

  // ---------------------------------------------------------------- the class

  class WorkerGitRPC {
    const ttl: nat
    var grants: map<Job, Grant>
    var selected: map<Job, Repository>
    var prepared: map<Key, Record>
    var responses: map<nat, string>
    var serials: nat
    /** The record objects handed out by claims. */
    ghost var claimed: set<nat>

    ghost function State(): Table
      reads this
    {
      Table(grants, selected, prepared, responses)
    }

    ghost predicate Valid()
      reads this
    {
      && Bounded(State())
      && (forall k :: k in prepared ==> prepared[k].serial < serials)
    }

    constructor (ttl: nat)
      ensures Valid() && State() == Table(map[], map[], map[], map[]) && this.ttl == ttl
    {
      this.ttl := ttl;
      grants, selected, prepared, responses, serials, claimed := map[], map[], map[], map[], 0, {};
    }

    method IssueGrant(grant: Grant) returns (ok: bool)
      requires Valid()
      modifies `grants
      ensures Valid()
      ensures ok <==> grant.job !in old(grants)
      ensures State() == if ok then IssueTo(old(State()), grant) else old(State())
    {
      if grant.job in grants { return false; }
      grants := grants[grant.job := grant];
      return true;
    }

    /** Whether a grant object is the primary of its job or one of its alternates. */
    predicate IsRegistered(grant: Grant)
      reads this
      ensures IsRegistered(grant) <==> Registered(State(), grant)
    {
      grant.job in grants && Holds(grants[grant.job], grant)
    }

    method Revoke(job: Job)
      requires Valid()
      modifies `grants, `selected, `prepared
      ensures Valid() && State() == RevokeFrom(old(State()), job)
    {
      grants := grants - {job};
      selected := selected - {job};
      prepared := map k | k in prepared && k.job != job :: prepared[k];
      assert prepared == old(prepared) - Mine(old(prepared), job);
      SameKeysBounded(old(State()), State());
    }

    /** The job's repository is fixed by the first request that gets here. */
    method SelectRepository(job: Job, repository: Repository) returns (denied: Option<Denial>)
      requires Valid()
      modifies `selected
      ensures Valid() && State() == SelectIn(old(State()), job, repository)
      ensures denied == if State().selected[job] == repository then None else Some(BoundElsewhere)
    {
      if job !in selected { selected := selected[job := repository]; }
      return if selected[job] == repository then None else Some(BoundElsewhere);
    }

    /** The oldest idle record of a pool that has one. */
    method OldestIdle(pool: set<Key>) returns (k: Key)
      requires Idle(prepared, pool) != {}
      ensures Oldest(prepared, pool, k)
    {
      var rest := Idle(prepared, pool);
      k :| k in rest;
      while rest != {}
        invariant rest <= Idle(prepared, pool)
        invariant k in Idle(prepared, pool)
        invariant forall j :: j in Idle(prepared, pool) && j !in rest ==> prepared[k].at <= prepared[j].at
        decreases |rest|
      {
        var j :| j in rest;
        rest := rest - {j};
        if prepared[j].at < prepared[k].at { k := j; }
      }
    }

    method MakeRoom(job: Job, now: int) returns (denied: Option<Denial>)
      requires Valid()
      modifies `prepared
      ensures denied == None || denied == Some(PreparedFull)
      ensures denied == None ==> RoomMade(old(prepared), job, now, ttl, prepared)
      ensures denied != None ==>
                NoRoom(old(prepared), job, now, ttl) && prepared == Unexpired(old(prepared), now, ttl)
      ensures NoRoom(old(prepared), job, now, ttl) ==> denied != None
      ensures prepared.Keys <= old(prepared).Keys && forall k :: k in prepared ==> prepared[k] == old(prepared)[k]
    {
      prepared := map k | k in prepared && !Expired(prepared[k], now, ttl) :: prepared[k];
      assert prepared == Unexpired(old(prepared), now, ttl);
      var mine := Mine(prepared, job);
      if |mine| >= MAX_PER_JOB || |prepared| >= MAX_TOTAL {
        var pool := if |mine| >= MAX_PER_JOB then mine else prepared.Keys;
        if Idle(prepared, pool) == {} { return Some(PreparedFull); }
        var k := OldestIdle(pool);
        prepared := prepared - {k};
      }
      return None;
    }

    /** The last critical section of `_prepare` and `_prepare_clone`. */
    method RecordPrepared(grant: Grant, digest: Digest, scope: Scope, operation: Operation, now: int)
      returns (denied: Option<Denial>)
      requires Valid()
      modifies `prepared, `serials
      ensures Valid()
      ensures Prepares(old(State()), grant, digest, scope, operation, now, ttl, old(serials), State(), denied)
      ensures denied == Some(PreparedFull) ==> NoRoom(old(prepared), grant.job, now, ttl)
    {
      ghost var before := State();
      var key := Key(grant.job, digest);
      if !IsRegistered(grant) { return Some(GrantRevoked); }
      if key in prepared {
        var existing := prepared[key];
        if existing.scope != scope || (operation == Clone && existing.operation != Clone) {
          return Some(ScopeMismatch);
        }
        if !existing.dispatched { prepared := prepared[key := existing.(at := now)]; }
        SameKeysBounded(before, State());
        return None;
      }
      denied := MakeRoom(grant.job, now);
      if denied != None {
        SameKeysBounded(before, State());
        return;
      }
      Insert(before, grant, digest, Fresh(serials, scope, operation, now));
    }

    method Insert(ghost before: Table, grant: Grant, digest: Digest, record: Record)
      requires before == State().(prepared := before.prepared) && Bounded(before)
      requires Registered(before, grant) && Key(grant.job, digest) !in before.prepared
      requires record == Fresh(serials, record.scope, record.operation, record.at)
      requires RoomMade(before.prepared, grant.job, record.at, ttl, prepared)
      requires !NoRoom(before.prepared, grant.job, record.at, ttl)
      requires forall k :: k in prepared ==> prepared[k].serial < serials
      modifies `prepared, `serials
      ensures Valid() && serials == old(serials) + 1
      ensures Prepares(before, grant, digest, record.scope, record.operation, record.at, ttl, record.serial, State(), None)
    {
      ghost var u := RoomUsed(before, grant, digest, record, prepared);
      prepared := prepared[Key(grant.job, digest) := record];
      serials := serials + 1;
      assert State() == u;
    }

    /** The table once the room made is used, with all that is known of it. */
    lemma RoomUsed(t: Table, g: Grant, digest: Digest, record: Record, room: map<Key, Record>) returns (u: Table)
      requires Bounded(t) && Registered(t, g) && Key(g.job, digest) !in t.prepared
      requires !NoRoom(t.prepared, g.job, record.at, ttl) && RoomMade(t.prepared, g.job, record.at, ttl, room)
      requires record == Fresh(record.serial, record.scope, record.operation, record.at)
      ensures u == t.(prepared := room[Key(g.job, digest) := record]) && Bounded(u)
      ensures Prepares(t, g, digest, record.scope, record.operation, record.at, ttl, record.serial, u, None)
    {
      PreparesByRoom(t, g, digest, record.scope, record.operation, record.at, ttl, record.serial, room);
      u := t.(prepared := room[Key(g.job, digest) := record]);
      PreparesBounded(t, g, digest, record.scope, record.operation, record.at, ttl, record.serial, u, None);
    }

    /** The first record of a clone proposal of the scope. */
    method FirstClone(job: Job, scope: Scope) returns (first: Option<Key>)
      ensures first.None? <==> Clones(prepared, job, scope) == {}
      ensures first.Some? ==> First(prepared, Clones(prepared, job, scope), first.value)
    {
      var rest := Clones(prepared, job, scope);
      first := None;
      while rest != {}
        invariant rest <= Clones(prepared, job, scope)
        invariant first.None? ==> rest == Clones(prepared, job, scope)
        invariant first.Some? ==> First(prepared, Clones(prepared, job, scope) - rest, first.value)
        decreases |rest|
      {
        var k :| k in rest;
        rest := rest - {k};
        if first.None? || prepared[k].serial < prepared[first.value].serial { first := Some(k); }
      }
    }

    /** The first critical section of `_prepare_clone`: a live proposal for the same scope is handed back. */
    method PeekClone(grant: Grant, scope: Scope, now: int) returns (denied: Option<Denial>, found: Option<Digest>)
      requires Valid()
      modifies `prepared
      ensures Valid()
      ensures denied == if Registered(old(State()), grant) then None else Some(GrantRevoked)
      ensures Peeks(old(State()), grant, scope, now, ttl, State(), found)
    {
      if !IsRegistered(grant) { return Some(GrantRevoked), None; }
      var first := FirstClone(grant.job, scope);
      if first.Some? && now - prepared[first.value].at < ttl {
        var k := first.value;
        if !prepared[k].dispatched { prepared := prepared[k := prepared[k].(at := now)]; }
        SameKeysBounded(old(State()), State());
        return None, Some(k.digest);
      }
      return None, None;
    }

    /** The critical section of `_pull`: a request is handed out at most once. */
    method ClaimDispatch(grant: Grant, digest: Digest, scope: Scope, operation: Operation, now: int)
      returns (denied: Option<Denial>, serial: nat)
      requires Valid()
      modifies `prepared, `claimed
      ensures Valid()
      ensures claimed == old(claimed) + if denied == None then {serial} else {}
      ensures denied == ClaimDenied(old(State()), grant, digest, scope, operation, now, ttl)
      ensures denied != None ==> State() == old(State())
      ensures denied == None ==>
                && State() == DispatchIn(old(State()), Key(grant.job, digest))
                && serial == old(prepared)[Key(grant.job, digest)].serial
    {
      serial := 0;
      var key := Key(grant.job, digest);
      if key !in prepared { return Some(NotPrepared), 0; }
      var record := prepared[key];
      if record.scope != scope || record.operation != operation { return Some(ScopeMismatch), 0; }
      if record.dispatched { return Some(Replay), 0; }
      if now - record.at >= ttl { return Some(Stale), 0; }
      if !IsRegistered(grant) { return Some(GrantRevoked), 0; }
      prepared := prepared[key := record.(dispatched := true)];
      claimed := claimed + {record.serial};
      SameKeysBounded(old(State()), State());
      return None, record.serial;
    }

    /** Storing an outcome in the record object that was claimed. */
    method Deliver(serial: nat, response: string)
      requires Valid() && serial in claimed
      modifies `responses
      ensures Valid() && State() == DeliverIn(old(State()), serial, response)
    {
      responses := responses[serial := response];
    }
  }
}
