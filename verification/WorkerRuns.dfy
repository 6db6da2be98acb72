/**
 Any interleaving of worker threads over the prepared table. A step is one critical
 section, or one call made outside the lock; the rest of the world keeps a record
 of what was prepared, claimed, called and answered.
 */
module WorkerRuns {
  import opened Bytes
  import opened PreparedTable

  type Thread = nat

  /** A request as it was admitted, during tenure `since`: `now` is the clock read then, `grant` the object it runs under. */
  datatype Context = Context(grant: Grant, operation: Operation, scope: Scope, now: int, since: nat)

  /** Where a thread is. `era` is the tenure during which it selected its repository. */
  datatype Place =
    | Away
    | Admitted(context: Context)
    | Chosen(context: Context, era: nat)
    | Proposed(context: Context, era: nat, digest: Digest)
    | Ready(context: Context, era: nat, digest: Digest)
    | Calling(serial: nat, claim: nat)
    | Called(serial: nat, claim: nat)
    | Waiting(context: Context, digest: Digest, serial: nat)
    | Woken(context: Context, digest: Digest, serial: nat)

  datatype Preparation = Preparation(tenure: nat, key: Key, scope: Scope, operation: Operation, at: int)

  /** A request handed out to the backend in a tenure; `at` is when its record was last prepared. */
  datatype Claim = Claim(tenure: nat, key: Key, serial: nat, context: Context, era: nat, at: int)

  datatype Answer = Answer(key: Key, scope: Scope, operation: Operation, serial: nat, response: Option<string>)

  /** What a record object is for; it never changes. */
  datatype Purpose = Purpose(key: Key, scope: Scope, operation: Operation)

  /** The primary grants issued so far, and the number of the latest of each job: its tenure. */
  datatype Reign = Reign(issued: seq<Grant>, tenures: map<Job, nat>)

  /** The record objects made so far and every successful preparation. */
  datatype Proposals = Proposals(serials: nat, objects: map<nat, Purpose>, prepares: set<Preparation>)

  /**
   What went to the backend and came back. A call is the index of its claim; `during` is the tenure in
   force when it was made, call by call, or None when the job had no grant then.
   */
  datatype Traffic = Traffic(claims: seq<Claim>, calls: seq<nat>, during: seq<Option<nat>>, outcomes: map<nat, string>,
                             answers: seq<Answer>)

  const NO_TRAFFIC := Traffic([], [], [], map[], [])

  datatype World = World(
    table: Table, places: map<Thread, Place>, reign: Reign, proposals: Proposals, traffic: Traffic)

  /** What a request is for. */
  datatype Request = Request(operation: Operation, scope: Scope, repository: Repository)

  function Wanted(c: Context): Request {
    Request(c.operation, c.scope, c.grant.repository)
  }

  /** The record lifetime, and the request each digest was computed over. */
  datatype Setting = Setting(ttl: nat, requestOf: Digest -> Request)

  datatype Step =
    | Issue(grant: Grant)
    | Revoke(job: Job)
    | Admit(thread: Thread, context: Context)
    | Select(thread: Thread)
    | Aim(thread: Thread, digest: Digest)
    | Peek(thread: Thread, found: Option<Digest>)
    | Propose(thread: Thread, digest: Digest)
    | Insert(thread: Thread, denial: Option<Denial>)
    | ClaimIt(thread: Thread)
    | CallBackend(thread: Thread)
    | Deliver(thread: Thread, response: string)
    | StartWait(thread: Thread, digest: Digest)
    | Wake(thread: Thread)
    | EndWait(thread: Thread)
    | Leave(thread: Thread)

  function PlaceOf(w: World, thread: Thread): Place {
    if thread in w.places then w.places[thread] else Away
  }

  function Moved(w: World, thread: Thread, place: Place): World {
    w.(places := w.places[thread := place])
  }

  function TenureOf(w: World, job: Job): nat {
    if job in w.reign.tenures then w.reign.tenures[job] else 0
  }

  predicate Initial(w: World) {
    w == World(Table(map[], map[], map[], map[]), map[], Reign([], map[]),
               Proposals(0, map[], {}), NO_TRAFFIC)
  }

  function PreparationNow(w: World, c: Context, digest: Digest): Preparation {
    Preparation(TenureOf(w, c.grant.job), Key(c.grant.job, digest), c.scope, c.operation, c.now)
  }

  function Prepared(w: World, p: Preparation): Proposals {
    w.proposals.(prepares := w.proposals.prepares + {p})
  }

  /** A new record object is numbered and its purpose fixed. */
  function Made(p: Proposals, purpose: Purpose): Proposals {
    p.(serials := p.serials + 1, objects := p.objects[p.serials := purpose])
  }

  ghost predicate IssueStep(w: World, v: World, g: Grant) {
    && g.job !in w.table.grants && Consistent(g)
    && var issued := w.reign.issued + [g];
       v == w.(table := IssueTo(w.table, g), reign := Reign(issued, w.reign.tenures[g.job := |issued|]))
  }

  ghost predicate AdmitStep(w: World, v: World, t: Thread, c: Context) {
    && PlaceOf(w, t) == Away && Registered(w.table, c.grant) && c.now < c.grant.expires
    && Admits(c.grant, c.operation, c.scope) && c.since == TenureOf(w, c.grant.job)
    && v == Moved(w, t, Admitted(c))
  }

  ghost predicate SelectStep(w: World, v: World, t: Thread) {
    && PlaceOf(w, t).Admitted?
    && var c := PlaceOf(w, t).context;
       var table := SelectIn(w.table, c.grant.job, c.grant.repository);
       v == Moved(w.(table := table), t,
                  if table.selected[c.grant.job] == c.grant.repository then Chosen(c, TenureOf(w, c.grant.job)) else Away)
  }

  ghost predicate PeekStep(s: Setting, w: World, v: World, t: Thread, found: Option<Digest>) {
    && PlaceOf(w, t).Chosen? && PlaceOf(w, t).context.operation == Clone
    && var Chosen(c, era) := PlaceOf(w, t);
       && Peeks(w.table, c.grant, c.scope, c.now, s.ttl, v.table, found)
       && v == if found.None? then w
               else Moved(w.(table := v.table, proposals := Prepared(w, PreparationNow(w, c, found.value))), t,
                          Ready(c, era, found.value))
  }

  ghost predicate InsertStep(s: Setting, w: World, v: World, t: Thread, denial: Option<Denial>) {
    && PlaceOf(w, t).Proposed?
    && var Proposed(c, era, digest) := PlaceOf(w, t);
       var key := Key(c.grant.job, digest);
       && Prepares(w.table, c.grant, digest, c.scope, c.operation, c.now, s.ttl, w.proposals.serials, v.table, denial)
       && v == if denial.Some? then Moved(w.(table := v.table), t, Away)
               else
                 var p := Prepared(w, PreparationNow(w, c, digest));
                 Moved(w.(table := v.table,
                          proposals := if key in w.table.prepared then p else Made(p, Purpose(key, c.scope, c.operation))),
                       t, Ready(c, era, digest))
  }

  /** The tenure of a job, if its grant is registered. */
  function InForce(w: World, job: Job): Option<nat> {
    if job in w.table.grants then Some(TenureOf(w, job)) else None
  }

  /** The traffic once the call of a claim was made. */
  function CalledNow(w: World, claim: nat): Traffic {
    var force := if claim < |w.traffic.claims| then InForce(w, w.traffic.claims[claim].key.job) else None;
    w.traffic.(calls := w.traffic.calls + [claim], during := w.traffic.during + [force])
  }

  function Claimed(traffic: Traffic, c: Claim): Traffic {
    traffic.(claims := traffic.claims + [c])
  }

  ghost predicate ClaimStep(s: Setting, w: World, v: World, t: Thread) {
    && PlaceOf(w, t).Ready?
    && var Ready(c, era, digest) := PlaceOf(w, t);
       var key := Key(c.grant.job, digest);
       if ClaimDenied(w.table, c.grant, digest, c.scope, c.operation, c.now, s.ttl).Some? then v == Moved(w, t, Away)
       else
         var r := w.table.prepared[key];
         v == Moved(w.(table := DispatchIn(w.table, key),
                       traffic := Claimed(w.traffic, Claim(TenureOf(w, c.grant.job), key, r.serial, c, era, r.at))),
                    t, Calling(r.serial, |w.traffic.claims|))
  }

  ghost predicate StartWaitStep(w: World, v: World, t: Thread, digest: Digest) {
    && PlaceOf(w, t).Chosen?
    && var c := PlaceOf(w, t).context;
       var key := Key(c.grant.job, digest);
       && key in w.table.prepared
       && w.table.prepared[key].scope == c.scope && w.table.prepared[key].operation == c.operation
       && v == Moved(w, t, Waiting(c, digest, w.table.prepared[key].serial))
  }

  /** The waiter is let on while its grant is registered; reading the response is another critical section. */
  ghost predicate WakeStep(w: World, v: World, t: Thread) {
    && PlaceOf(w, t).Waiting?
    && var Waiting(c, digest, serial) := PlaceOf(w, t);
       Registered(w.table, c.grant) && v == Moved(w, t, Woken(c, digest, serial))
  }

  ghost predicate EndWaitStep(w: World, v: World, t: Thread) {
    && PlaceOf(w, t).Woken?
    && var Woken(c, digest, serial) := PlaceOf(w, t);
       var response := if serial in w.table.responses then Some(w.table.responses[serial]) else None;
       var answer := Answer(Key(c.grant.job, digest), c.scope, c.operation, serial, response);
       v == Moved(w.(traffic := w.traffic.(answers := w.traffic.answers + [answer])), t, Away)
  }

  ghost predicate Does(s: Setting, w: World, step: Step, v: World) {
    match step
    case Issue(g) => IssueStep(w, v, g)
    case Revoke(job) => v == w.(table := RevokeFrom(w.table, job))
    case Admit(t, c) => AdmitStep(w, v, t, c)
    case Select(t) => SelectStep(w, v, t)
    case Aim(t, digest) =>
      PlaceOf(w, t).Chosen? && v == Moved(w, t, Ready(PlaceOf(w, t).context, PlaceOf(w, t).era, digest))
    case Peek(t, found) => PeekStep(s, w, v, t, found)
    case Propose(t, digest) =>
      && PlaceOf(w, t).Chosen? && s.requestOf(digest) == Wanted(PlaceOf(w, t).context)
      && v == Moved(w, t, Proposed(PlaceOf(w, t).context, PlaceOf(w, t).era, digest))
    case Insert(t, denial) => InsertStep(s, w, v, t, denial)
    case ClaimIt(t) => ClaimStep(s, w, v, t)
    case CallBackend(t) =>
      && PlaceOf(w, t).Calling?
      && var Calling(serial, claim) := PlaceOf(w, t);
         v == Moved(w.(traffic := CalledNow(w, claim)), t, Called(serial, claim))
    case Deliver(t, response) =>
      && PlaceOf(w, t).Called?
      && var Called(serial, claim) := PlaceOf(w, t);
         v == Moved(w.(table := DeliverIn(w.table, serial, response),
                       traffic := w.traffic.(outcomes := w.traffic.outcomes[claim := response])), t, Away)
    case StartWait(t, digest) => StartWaitStep(w, v, t, digest)
    case Wake(t) => WakeStep(w, v, t)
    case EndWait(t) => EndWaitStep(w, v, t)
    case Leave(t) => !PlaceOf(w, t).Calling? && !PlaceOf(w, t).Called? && v == Moved(w, t, Away)
  }

  ghost predicate Next(s: Setting, w: World, v: World) {
    exists step :: Does(s, w, step, v)
  }

  /** One step leads from moment `i` to the next. */
  ghost predicate Moves(s: Setting, run: seq<World>, i: nat)
    requires i + 1 < |run|
  {
    Next(s, run[i], run[i + 1])
  }

  ghost predicate IsRun(s: Setting, run: seq<World>) {
    run != [] && Initial(run[0]) && forall i: nat :: i + 1 < |run| ==> Moves(s, run, i)
  }

  lemma MovesInto(s: Setting, run: seq<World>, j: nat)
    requires IsRun(s, run) && 0 < j < |run|
    ensures Next(s, run[j - 1], run[j])
  {
    assert Moves(s, run, j - 1);
  }

  // ---------------------------------------------------------------- what steps do

  /** A step that leaves records, grants, claims and calls alone. */
  ghost predicate Calm(s: Setting, w: World, v: World) {
    && v.reign == w.reign && v.proposals == w.proposals && v.traffic.claims == w.traffic.claims
    && v.table == w.table.(selected := v.table.selected, responses := v.table.responses)
    && forall t :: t in v.places && v.places[t].Proposed? && (t !in w.places || v.places[t] != w.places[t]) ==>
         s.requestOf(v.places[t].digest) == Wanted(v.places[t].context)
  }

  predicate Stirs(step: Step) {
    step.Issue? || step.Revoke? || step.Peek? || step.Insert? || step.ClaimIt?
  }

  lemma CalmStep(s: Setting, w: World, step: Step, v: World)
    requires Does(s, w, step, v) && !Stirs(step)
    ensures Calm(s, w, v)
  {
  }

  /** A step after which every grant, claim and dispatched record is still what it was. */
  ghost predicate Steady(w: World, v: World) {
    && v.table.grants == w.table.grants && v.reign == w.reign
    && v.traffic.claims == w.traffic.claims && w.proposals.prepares <= v.proposals.prepares
    && (forall n :: n in w.proposals.objects ==> n in v.proposals.objects && v.proposals.objects[n] == w.proposals.objects[n])
    && (forall k :: k in w.table.prepared && w.table.prepared[k].dispatched ==>
          k in v.table.prepared && v.table.prepared[k] == w.table.prepared[k])
  }

  /** The table and the record objects tell the same story. */
  ghost predicate Recorded(s: Setting, w: World) {
    && (forall k :: k in w.table.prepared ==> RecordOK(s, w, k, w.table.prepared[k]))
    && (forall t :: t in w.places && w.places[t].Proposed? ==>
          s.requestOf(w.places[t].digest) == Wanted(w.places[t].context))
    && (forall n :: n in w.proposals.objects ==> n < w.proposals.serials)
    && (forall j :: j in w.table.grants ==> j in w.reign.tenures)
  }

  ghost predicate RecordOK(s: Setting, w: World, k: Key, r: Record) {
    && r.serial in w.proposals.objects && w.proposals.objects[r.serial] == Purpose(k, r.scope, r.operation)
    && k.job in w.table.grants && r.operation == s.requestOf(k.digest).operation
    && Preparation(TenureOf(w, k.job), k, r.scope, r.operation, r.at) in w.proposals.prepares
  }

  lemma InsertSteady(s: Setting, w: World, v: World, t: Thread, denial: Option<Denial>)
    requires Recorded(s, w) && InsertStep(s, w, v, t, denial)
    ensures Steady(w, v)
  {
    var Proposed(c, era, digest) := PlaceOf(w, t);
    PreparesEffect(w.table, c.grant, digest, c.scope, c.operation, c.now, s.ttl, w.proposals.serials, v.table, denial);
  }

  lemma SteadyStep(s: Setting, w: World, step: Step, v: World)
    requires Recorded(s, w) && Does(s, w, step, v) && !step.Issue? && !step.Revoke? && !step.ClaimIt?
    ensures Steady(w, v)
  {
    if !Stirs(step) {
      CalmStep(s, w, step, v);
    } else if step.Insert? {
      InsertSteady(s, w, v, step.thread, step.denial);
    }
  }

  // ---------------------------------------------------------------- records

  lemma RecordedCalm(s: Setting, w: World, v: World)
    requires Recorded(s, w) && Calm(s, w, v)
    ensures Recorded(s, v)
  {
  }

  lemma RecordedIssue(s: Setting, w: World, v: World, g: Grant)
    requires Recorded(s, w) && IssueStep(w, v, g)
    ensures Recorded(s, v)
  {
  }

  lemma RecordedRevoke(s: Setting, w: World, v: World, job: Job)
    requires Recorded(s, w) && v == w.(table := RevokeFrom(w.table, job))
    ensures Recorded(s, v)
  {
  }

  lemma RecordedPeek(s: Setting, w: World, v: World, t: Thread, found: Option<Digest>)
    requires Recorded(s, w) && PeekStep(s, w, v, t, found)
    ensures Recorded(s, v)
  {
  }

  lemma RecordedClaim(s: Setting, w: World, v: World, t: Thread)
    requires Recorded(s, w) && ClaimStep(s, w, v, t)
    ensures Recorded(s, v)
  {
  }

  lemma RecordedInsert(s: Setting, w: World, v: World, t: Thread, denial: Option<Denial>)
    requires Recorded(s, w) && InsertStep(s, w, v, t, denial)
    ensures Recorded(s, v)
  {
    var Proposed(c, era, digest) := PlaceOf(w, t);
    PreparesEffect(w.table, c.grant, digest, c.scope, c.operation, c.now, s.ttl, w.proposals.serials, v.table, denial);
    forall k | k in v.table.prepared ensures RecordOK(s, v, k, v.table.prepared[k]) {
      if k in w.table.prepared { assert RecordOK(s, w, k, w.table.prepared[k]); }
    }
  }

  lemma RecordedKept(s: Setting, w: World, step: Step, v: World)
    requires Recorded(s, w) && Does(s, w, step, v)
    ensures Recorded(s, v)
  {
    match step {
      case Issue(g) => RecordedIssue(s, w, v, g);
      case Revoke(job) => RecordedRevoke(s, w, v, job);
      case Peek(t, found) => RecordedPeek(s, w, v, t, found);
      case Insert(t, denial) => RecordedInsert(s, w, v, t, denial);
      case ClaimIt(t) => RecordedClaim(s, w, v, t);
      case _ => CalmStep(s, w, step, v); RecordedCalm(s, w, v);
    }
  }

  // ---------------------------------------------------------------- limits

  lemma BoundedKept(s: Setting, w: World, step: Step, v: World)
    requires Bounded(w.table) && Does(s, w, step, v)
    ensures Bounded(v.table)
  {
    if step.Insert? {
      var Proposed(c, era, digest) := PlaceOf(w, step.thread);
      PreparesBounded(w.table, c.grant, digest, c.scope, c.operation, c.now, s.ttl, w.proposals.serials, v.table, step.denial);
    } else {
      KeysShrink(s, w, step, v);
      SameKeysBounded(w.table, v.table);
    }
  }

  lemma KeysShrink(s: Setting, w: World, step: Step, v: World)
    requires Does(s, w, step, v) && !step.Insert?
    ensures v.table.prepared.Keys <= w.table.prepared.Keys
  {
  }

  // ---------------------------------------------------------------- claims

  /** A claim was prepared in time for, and while its grant lasts its record stays dispatched. */
  ghost predicate ClaimOK(s: Setting, w: World, c: Claim) {
    && c.tenure <= |w.reign.issued|
    && c.serial in w.proposals.objects && w.proposals.objects[c.serial] == Purpose(c.key, c.context.scope, c.context.operation)
    && Preparation(c.tenure, c.key, c.context.scope, c.context.operation, c.at) in w.proposals.prepares
    && c.context.now - c.at < s.ttl
    && (c.key.job in w.table.grants && TenureOf(w, c.key.job) == c.tenure ==>
          c.key in w.table.prepared && w.table.prepared[c.key].dispatched)
  }

  predicate SameRequest(a: Claim, b: Claim) {
    a.tenure == b.tenure && a.key == b.key
  }

  ghost predicate ClaimedOnce(s: Setting, w: World) {
    && (forall j :: j in w.reign.tenures ==> w.reign.tenures[j] <= |w.reign.issued|)
    && (forall c :: c in w.traffic.claims ==> ClaimOK(s, w, c))
    && (forall i, j :: 0 <= i < j < |w.traffic.claims| ==> !SameRequest(w.traffic.claims[i], w.traffic.claims[j]))
  }

  lemma ClaimedSteady(s: Setting, w: World, v: World)
    requires ClaimedOnce(s, w) && Steady(w, v)
    ensures ClaimedOnce(s, v)
  {
  }

  lemma ClaimedIssue(s: Setting, w: World, v: World, g: Grant)
    requires ClaimedOnce(s, w) && IssueStep(w, v, g)
    ensures ClaimedOnce(s, v)
  {
  }

  lemma ClaimedRevoke(s: Setting, w: World, v: World, job: Job)
    requires ClaimedOnce(s, w) && v == w.(table := RevokeFrom(w.table, job))
    ensures ClaimedOnce(s, v)
  {
  }

  lemma OldClaim(s: Setting, w: World, v: World, t: Thread, c: Claim)
    requires ClaimOK(s, w, c) && ClaimStep(s, w, v, t)
    ensures ClaimOK(s, v, c)
  {
  }

  lemma NewClaim(s: Setting, w: World, v: World, t: Thread)
    requires Recorded(s, w) && ClaimedOnce(s, w) && ClaimStep(s, w, v, t) && v.traffic.claims != w.traffic.claims
    ensures |v.traffic.claims| == |w.traffic.claims| + 1 && v.traffic.claims[..|w.traffic.claims|] == w.traffic.claims
    ensures ClaimOK(s, v, v.traffic.claims[|w.traffic.claims|])
    ensures forall c :: c in w.traffic.claims ==> !SameRequest(c, v.traffic.claims[|w.traffic.claims|])
  {
  }

  lemma OneMoreClaim(s: Setting, w: World, v: World)
    requires ClaimedOnce(s, w) && v.reign == w.reign
    requires |v.traffic.claims| == |w.traffic.claims| + 1 && v.traffic.claims[..|w.traffic.claims|] == w.traffic.claims
    requires forall c :: c in w.traffic.claims ==> ClaimOK(s, v, c) && !SameRequest(c, v.traffic.claims[|w.traffic.claims|])
    requires ClaimOK(s, v, v.traffic.claims[|w.traffic.claims|])
    ensures ClaimedOnce(s, v)
  {
  }

  lemma ClaimedClaim(s: Setting, w: World, v: World, t: Thread)
    requires Recorded(s, w) && ClaimedOnce(s, w) && ClaimStep(s, w, v, t)
    ensures ClaimedOnce(s, v)
  {
    forall c | c in w.traffic.claims ensures ClaimOK(s, v, c) { OldClaim(s, w, v, t, c); }
    if v.traffic.claims != w.traffic.claims {
      NewClaim(s, w, v, t);
      OneMoreClaim(s, w, v);
    }
  }

  lemma ClaimedKept(s: Setting, w: World, step: Step, v: World)
    requires Recorded(s, w) && ClaimedOnce(s, w) && Does(s, w, step, v)
    ensures ClaimedOnce(s, v)
  {
    match step {
      case Issue(g) => ClaimedIssue(s, w, v, g);
      case Revoke(job) => ClaimedRevoke(s, w, v, job);
      case ClaimIt(t) => ClaimedClaim(s, w, v, t);
      case _ => SteadyStep(s, w, step, v); ClaimedSteady(s, w, v);
    }
  }

  // ---------------------------------------------------------------- calls

  /** The claim a thread has yet to call or to answer. */
  function HeldBy(p: Place): Option<nat> {
    if p.Calling? || p.Called? then Some(p.claim) else None
  }

  ghost predicate HolderOK(w: World, p: Place) {
    && (p.Calling? ==> p.claim < |w.traffic.claims| && w.traffic.claims[p.claim].serial == p.serial && p.claim !in w.traffic.calls)
    && (p.Called? ==> p.claim < |w.traffic.claims| && w.traffic.claims[p.claim].serial == p.serial
                      && p.claim in w.traffic.calls && p.claim !in w.traffic.outcomes)
  }

  ghost predicate CalledOnce(w: World) {
    && (forall t :: t in w.places ==> HolderOK(w, w.places[t]))
    && (forall t, u :: t in w.places && u in w.places && t != u && HeldBy(w.places[t]).Some? ==>
          HeldBy(w.places[t]) != HeldBy(w.places[u]))
    && (forall n :: n in w.traffic.calls ==> n < |w.traffic.claims|)
    && (forall n :: n in w.traffic.outcomes ==> n in w.traffic.calls)
    && (forall i, j :: 0 <= i < j < |w.traffic.calls| ==> w.traffic.calls[i] != w.traffic.calls[j])
  }

  /** A step that takes no claim further. */
  ghost predicate Waits(w: World, v: World) {
    && v.traffic.claims == w.traffic.claims && v.traffic.calls == w.traffic.calls
    && v.traffic.outcomes == w.traffic.outcomes
    && forall t :: t in v.places && HeldBy(v.places[t]).Some? ==> t in w.places && w.places[t] == v.places[t]
  }

  lemma WaitsStep(s: Setting, w: World, step: Step, v: World)
    requires Does(s, w, step, v) && !step.ClaimIt? && !step.CallBackend? && !step.Deliver?
    ensures Waits(w, v)
  {
  }

  lemma CalledWaits(w: World, v: World)
    requires CalledOnce(w) && Waits(w, v)
    ensures CalledOnce(v)
  {
  }

  lemma HolderKept(s: Setting, w: World, v: World, t: Thread, p: Place)
    requires HolderOK(w, p) && ClaimStep(s, w, v, t)
    ensures HolderOK(v, p)
    ensures HeldBy(p).Some? ==> HeldBy(p).value < |w.traffic.claims|
  {
  }

  lemma CalledClaim(s: Setting, w: World, v: World, t: Thread)
    requires CalledOnce(w) && ClaimStep(s, w, v, t)
    ensures CalledOnce(v)
  {
    forall u | u in w.places
      ensures HolderOK(v, w.places[u])
      ensures HeldBy(w.places[u]).Some? ==> HeldBy(w.places[u]).value < |w.traffic.claims|
    {
      HolderKept(s, w, v, t, w.places[u]);
    }
    ClaimTaken(s, w, v, t);
  }

  lemma ClaimTaken(s: Setting, w: World, v: World, t: Thread)
    requires CalledOnce(w) && ClaimStep(s, w, v, t)
    ensures t in v.places && v.places == w.places[t := v.places[t]]
    ensures v.reign == w.reign && v.proposals == w.proposals
    ensures v.traffic == w.traffic.(claims := v.traffic.claims)
    ensures HeldBy(v.places[t]) == if v.traffic.claims == w.traffic.claims then None else Some(|w.traffic.claims|)
    ensures HolderOK(v, v.places[t]) && w.traffic.claims <= v.traffic.claims
  {
  }

  lemma CalledCall(s: Setting, w: World, v: World, t: Thread)
    requires CalledOnce(w) && Does(s, w, CallBackend(t), v)
    ensures CalledOnce(v)
  {
  }

  lemma CalledDeliver(s: Setting, w: World, v: World, t: Thread, response: string)
    requires CalledOnce(w) && Does(s, w, Deliver(t, response), v)
    ensures CalledOnce(v)
  {
  }

  lemma CalledKept(s: Setting, w: World, step: Step, v: World)
    requires CalledOnce(w) && Does(s, w, step, v)
    ensures CalledOnce(v)
  {
    match step {
      case ClaimIt(t) => CalledClaim(s, w, v, t);
      case CallBackend(t) => CalledCall(s, w, v, t);
      case Deliver(t, response) => CalledDeliver(s, w, v, t, response);
      case _ => WaitsStep(s, w, step, v); CalledWaits(w, v);
    }
  }

  // ---------------------------------------------------------------- answers

  /** Waiting for the outcome of a request, or about to read it. */
  predicate Awaits(p: Place) {
    p.Waiting? || p.Woken?
  }

  predicate SameWait(p: Place, q: Place)
    requires Awaits(p) && Awaits(q)
  {
    p.context == q.context && p.digest == q.digest && p.serial == q.serial
  }

  ghost predicate OutcomeOf(w: World, n: nat, serial: nat, response: string) {
    n < |w.traffic.claims| && n in w.traffic.outcomes && w.traffic.claims[n].serial == serial && w.traffic.outcomes[n] == response
  }

  ghost predicate AnswerOK(w: World, a: Answer) {
    && a.serial in w.proposals.objects && w.proposals.objects[a.serial] == Purpose(a.key, a.scope, a.operation)
    && (a.response.Some? ==> exists n :: OutcomeOf(w, n, a.serial, a.response.value))
  }

  /** Stored responses and answers given come from calls made for the same record object. */
  ghost predicate Answered(w: World) {
    && (forall n :: n in w.table.responses ==> exists i :: OutcomeOf(w, i, n, w.table.responses[n]))
    && (forall t :: t in w.places && Awaits(w.places[t]) ==>
          var p := w.places[t];
          && p.serial in w.proposals.objects
          && w.proposals.objects[p.serial] == Purpose(Key(p.context.grant.job, p.digest), p.context.scope, p.context.operation))
    && (forall a :: a in w.traffic.answers ==> AnswerOK(w, a))
  }

  /** What a step may do to claims, objects and outcomes: add to them. */
  ghost predicate Adds(w: World, v: World) {
    && w.traffic.claims <= v.traffic.claims
    && (forall n :: n in w.proposals.objects ==> n in v.proposals.objects && v.proposals.objects[n] == w.proposals.objects[n])
    && (forall n :: n in w.traffic.outcomes ==> n in v.traffic.outcomes && v.traffic.outcomes[n] == w.traffic.outcomes[n])
  }

  lemma AddsDeliver(s: Setting, w: World, v: World, t: Thread, response: string)
    requires CalledOnce(w) && Does(s, w, Deliver(t, response), v)
    ensures Adds(w, v)
  {
  }

  lemma OutcomesStay(s: Setting, w: World, step: Step, v: World)
    requires Does(s, w, step, v) && !step.Deliver? && !step.ClaimIt?
    ensures v.traffic.outcomes == w.traffic.outcomes
  {
  }

  lemma AddsSteadily(w: World, v: World)
    requires Steady(w, v) && v.traffic.outcomes == w.traffic.outcomes
    ensures Adds(w, v)
  {
  }

  lemma AddsStep(s: Setting, w: World, step: Step, v: World)
    requires Recorded(s, w) && CalledOnce(w) && Does(s, w, step, v)
    ensures Adds(w, v)
  {
    if step.ClaimIt? {
      ClaimTaken(s, w, v, step.thread);
    } else if step.Deliver? {
      AddsDeliver(s, w, v, step.thread, step.response);
    } else if !step.Issue? && !step.Revoke? {
      SteadyStep(s, w, step, v);
      OutcomesStay(s, w, step, v);
      AddsSteadily(w, v);
    }
  }

  lemma OutcomesKept(w: World, v: World)
    requires Adds(w, v)
    ensures forall n, serial, response :: OutcomeOf(w, n, serial, response) ==> OutcomeOf(v, n, serial, response)
  {
  }

  lemma AnsweredKept(s: Setting, w: World, step: Step, v: World)
    requires Recorded(s, w) && CalledOnce(w) && Answered(w) && Does(s, w, step, v)
    ensures Answered(v)
  {
    AddsStep(s, w, step, v);
    OutcomesKept(w, v);
    ResponsesKept(s, w, step, v);
    WaitersKept(s, w, step, v);
    AnswersKept(s, w, step, v);
  }

  lemma ResponsesKept(s: Setting, w: World, step: Step, v: World)
    requires CalledOnce(w) && Answered(w) && Does(s, w, step, v) && Adds(w, v)
    ensures forall n :: n in v.table.responses ==> exists i :: OutcomeOf(v, i, n, v.table.responses[n])
  {
    OutcomesKept(w, v);
    if step.Deliver? {
      var t := step.thread;
      assert HolderOK(w, w.places[t]);
      assert OutcomeOf(v, w.places[t].claim, w.places[t].serial, step.response);
      forall n | n in v.table.responses ensures exists i :: OutcomeOf(v, i, n, v.table.responses[n]) {
        if n != w.places[t].serial {
          var i :| OutcomeOf(w, i, n, w.table.responses[n]);
          assert OutcomeOf(v, i, n, v.table.responses[n]);
        }
      }
    } else {
      SameResponses(s, w, step, v);
    }
  }

  lemma SameResponses(s: Setting, w: World, step: Step, v: World)
    requires Does(s, w, step, v) && !step.Deliver?
    ensures v.table.responses == w.table.responses
  {
  }

  lemma WaitersKept(s: Setting, w: World, step: Step, v: World)
    requires Recorded(s, w) && Answered(w) && Does(s, w, step, v) && Adds(w, v)
    ensures forall t :: t in v.places && Awaits(v.places[t]) ==>
              var p := v.places[t];
              && p.serial in v.proposals.objects
              && v.proposals.objects[p.serial] == Purpose(Key(p.context.grant.job, p.digest), p.context.scope, p.context.operation)
  {
    if step.StartWait? {
      var c := PlaceOf(w, step.thread).context;
      var k := Key(c.grant.job, step.digest);
      assert RecordOK(s, w, k, w.table.prepared[k]);
    } else {
      NoNewWaiters(s, w, step, v);
    }
  }

  ghost predicate SameWaiters(w: World, v: World) {
    forall t :: t in v.places && Awaits(v.places[t]) ==> t in w.places && Awaits(w.places[t]) && SameWait(w.places[t], v.places[t])
  }

  lemma NoNewWaiters(s: Setting, w: World, step: Step, v: World)
    requires Does(s, w, step, v) && !step.StartWait?
    ensures SameWaiters(w, v)
  {
  }

  lemma AnswersKept(s: Setting, w: World, step: Step, v: World)
    requires Answered(w) && Does(s, w, step, v) && Adds(w, v)
    ensures forall a :: a in v.traffic.answers ==> AnswerOK(v, a)
  {
    OutcomesKept(w, v);
    forall a | a in v.traffic.answers ensures AnswerOK(v, a) {
      if a in w.traffic.answers {
        assert AnswerOK(w, a);
        if a.response.Some? {
          var n :| OutcomeOf(w, n, a.serial, a.response.value);
          assert OutcomeOf(v, n, a.serial, a.response.value);
        }
      } else {
        assert step.EndWait?;
        assert AnswerOK(v, a);
      }
    }
  }
}
