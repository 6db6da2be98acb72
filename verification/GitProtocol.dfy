/**
 Approved commits, fetches and pushes as a machine over durable state. Operations and
 owner recovery move one durable step at a time, and a crash may come between any two.
 */
module GitProtocol {
  import opened Bytes
  import opened Admission

  type Pid = nat

  /**
   A guard file. One that is created first and then filled is partial in between; one that is
   linked into place is whole at once, but has a second name until its temporary one is dropped.
   */
  datatype Guard = Partial | Linked(ticket: Ticket) | Complete(ticket: Ticket)

  /** What a complete guard records: the request, the claim that admits it, its capacity. */
  datatype Ticket = Ticket(token: Token, request: Request, nonce: Nonce)

  /**
   Everything that survives a crash; receipts are named by the claim they are for. `heads` is
   the branch each repository is on, `locks` the repositories with a lock file in their metadata.
   */
  datatype Durable = Durable(
    tables: Tables,
    ledger: map<Nonce, Request>,
    guards: map<Key, Guard>,
    receipts: set<Nonce>,
    recoveries: set<Nonce>,
    refs: map<Ref, Oid>,
    heads: map<Key, Ref>,
    locks: set<Key>)

  /** How far an operation got once its claim was recorded. */
  datatype Stage = Claimed | Writing | Guarded | Bound | Ran | Receipted | Settled

  datatype RepairStage = Checked | Noted | Unlinking

  datatype Place =
    | Slotted(kind: Kind, token: Token)
    | Leased(kind: Kind, token: Token, key: Key)
    | Proposed(token: Token, request: Request)
    | Working(stage: Stage, ticket: Ticket)
    | Repairing(phase: RepairStage, ticket: Ticket)

  /**
   `names` gives every token handed out the claim made under it; `moves` lists the claims
   whose ref update took effect; `foreign` are refs another writer has set, and `meddled`
   repositories whose branch or locks others have changed, since a request was last proposed.
   */
  datatype History = History(names: map<Token, Option<Nonce>>, moves: seq<Nonce>, foreign: set<Ref>, meddled: set<Key>)

  datatype World = World(disk: Durable, procs: map<Pid, Place>, history: History)

  datatype Step =
    | Enter(p: Pid, kind: Kind, token: Token)
    | Lease(p: Pid, key: Key)
    | Propose(p: Pid, request: Request)
    | Claim(p: Pid, nonce: Nonce)
    | OpenGuard(p: Pid)
    | WriteGuard(p: Pid)
    | Bind(p: Pid)
    | Execute(p: Pid, moved: bool, reported: bool, locked: bool)
    | Acknowledge(p: Pid)
    | Resolve(p: Pid)
    | Unlink(p: Pid)
    | Fail(p: Pid, cleanup: bool)
    | Crash
    | Sweep(failed: set<JobId>)
    | Launch(token: Token, job: JobId)
    | EndJob(job: JobId)
    | Foreign(target: Ref, oid: Oid)
    | Meddle(key: Key, head: Ref, locked: bool)
    | Review(p: Pid, key: Key)
    | Note(p: Pid)
    | Settle(p: Pid)
    | Retire(p: Pid)

  // ---------------------------------------------------------------- places

  function TokenOf(place: Place): Token {
    match place
    case Slotted(_, t) => t
    case Leased(_, t, _) => t
    case Proposed(t, _) => t
    case Working(_, ticket) => ticket.token
    case Repairing(_, ticket) => ticket.token
  }

  /** The repository whose mutation lease a process holds. */
  function KeyOf(place: Place): Option<Key> {
    match place
    case Slotted(_, _) => None
    case Leased(_, _, k) => Some(k)
    case Proposed(_, r) => Some(r.repo)
    case Working(_, ticket) => Some(ticket.request.repo)
    case Repairing(_, ticket) => Some(ticket.request.repo)
  }

  function NonceOf(place: Place): Option<Nonce> {
    match place
    case Working(_, ticket) => Some(ticket.nonce)
    case Repairing(_, ticket) => Some(ticket.nonce)
    case _ => None
  }

  function KindOf(place: Place): Kind {
    match place
    case Slotted(k, _) => k
    case Leased(k, _, _) => k
    case Proposed(_, r) => r.kind
    case Working(_, ticket) => ticket.request.kind
    case Repairing(_, ticket) => ticket.request.kind
  }

  /** Whether a failure now is one that leaves a guard behind. */
  predicate HoldsGuard(place: Place) {
    place.Working? && place.stage != Claimed
  }

  /** Commits and fetches write a ref of the repository they lease, pushes a remote one. */
  predicate WellAimed(r: Request) {
    if r.kind == Push then r.target.Remote? else r.target.Local? && r.target.repo == r.repo
  }

  function Tip(refs: map<Ref, Oid>, target: Ref): Oid {
    if target in refs then refs[target] else "0"
  }

  /** The branch a repository is on. */
  function Head(heads: map<Key, Ref>, key: Key): Ref {
    if key in heads then heads[key] else Local(key, "refs/heads/main")
  }

  function At(w: World, p: Pid): Option<Place> {
    if p in w.procs then Some(w.procs[p]) else None
  }

  function Put(w: World, p: Pid, place: Place): World {
    w.(procs := w.procs[p := place])
  }

  function Gone(w: World, p: Pid): World {
    w.(procs := w.procs - {p})
  }

  function WithTables(w: World, tables: Tables): World {
    w.(disk := w.disk.(tables := tables))
  }

  function WithGuard(w: World, key: Key, guard: Guard): World {
    w.(disk := w.disk.(guards := w.disk.guards[key := guard]))
  }

  // ---------------------------------------------------------------- steps

  ghost predicate EnterStep(limit: nat, w: World, v: World, p: Pid, kind: Kind, t: Token) {
    && p !in w.procs && t !in w.history.names && |w.disk.tables.jobs| < limit
    && (forall q :: q in w.procs ==> !w.procs[q].Repairing?)
    && v == Put(WithTables(w, EnterIn(w.disk.tables, t)), p, Slotted(kind, t)).(
              history := w.history.(names := w.history.names[t := None]))
  }

  ghost predicate LeaseStep(w: World, v: World, p: Pid, key: Key) {
    && p in w.procs && w.procs[p].Slotted? && key !in w.disk.guards
    && (forall q :: q in w.procs ==> KeyOf(w.procs[q]) != Some(key))
    && v == Put(w, p, Leased(w.procs[p].kind, w.procs[p].token, key))
  }

  /** The request as it is found under the lease; metadata that holds a lock is refused. */
  ghost predicate ProposeStep(w: World, v: World, p: Pid, r: Request) {
    && p in w.procs && w.procs[p].Leased? && r.kind == w.procs[p].kind && r.repo == w.procs[p].key
    && WellAimed(r) && Tip(w.disk.refs, r.target) == r.before && r.repo !in w.disk.locks
    && (r.kind == Commit ==> Head(w.disk.heads, r.repo) == r.target)
    && v == Put(w, p, Proposed(w.procs[p].token, r)).(
              history := w.history.(foreign := w.history.foreign - {r.target}, meddled := w.history.meddled - {r.repo}))
  }

  ghost predicate ClaimStep(w: World, v: World, p: Pid, n: Nonce) {
    && p in w.procs && w.procs[p].Proposed? && n !in w.disk.ledger
    && var Proposed(t, r) := w.procs[p];
       v == Put(w, p, Working(Claimed, Ticket(t, r, n))).(
              disk := w.disk.(ledger := w.disk.ledger[n := r]),
              history := w.history.(names := w.history.names[t := Some(n)]))
  }

  /** What a guard is at first: created empty by commits and pushes, linked into place by fetches. */
  function Opened(ticket: Ticket): Guard {
    if ticket.request.kind == Fetch then Linked(ticket) else Partial
  }

  ghost predicate OpenStep(w: World, v: World, p: Pid) {
    && p in w.procs && w.procs[p].Working? && w.procs[p].stage == Claimed
    && var ticket := w.procs[p].ticket;
       && ticket.request.repo !in w.disk.guards
       && v == Put(WithGuard(w, ticket.request.repo, Opened(ticket)), p, Working(Writing, ticket))
  }

  /** The guard is filled, or its temporary name dropped. */
  ghost predicate WriteStep(w: World, v: World, p: Pid) {
    && p in w.procs && w.procs[p].Working? && w.procs[p].stage == Writing
    && var ticket := w.procs[p].ticket;
       v == Put(WithGuard(w, ticket.request.repo, Complete(ticket)), p, Working(Guarded, ticket))
  }

  ghost predicate BindStep(w: World, v: World, p: Pid) {
    && p in w.procs && w.procs[p].Working? && w.procs[p].stage == Guarded
    && var ticket := w.procs[p].ticket;
       && CanBind(w.disk.tables, ticket.token)
       && v == Put(WithTables(w, BindIn(w.disk.tables, ticket.token, ticket.request, ticket.request.repo)), p,
                   Working(Bound, ticket))
  }

  /** The disk after an update of a ref, which may leave a lock in the repository behind. */
  function Updated(d: Durable, r: Request, moved: bool, locked: bool): Durable {
    d.(refs := if moved then d.refs[r.target := r.after] else d.refs,
       locks := if locked then d.locks + {r.repo} else d.locks)
  }

  /** The update of the ref: it may take effect without being reported, never the reverse. */
  ghost predicate ExecuteStep(w: World, v: World, p: Pid, moved: bool, reported: bool, locked: bool) {
    && p in w.procs && w.procs[p].Working? && w.procs[p].stage == Bound
    && var ticket := w.procs[p].ticket;
       var r := ticket.request;
       && (reported ==> moved && !locked) && (locked ==> r.kind != Push)
       && (moved ==> Tip(w.disk.refs, r.target) == r.before)
       && var u := if reported then Put(w, p, Working(Ran, ticket)) else Gone(w, p);
          v == u.(disk := Updated(w.disk, r, moved, locked),
                  history := w.history.(
                    moves := if moved then w.history.moves + [ticket.nonce] else w.history.moves))
  }

  ghost predicate AcknowledgeStep(w: World, v: World, p: Pid) {
    && p in w.procs && w.procs[p].Working? && w.procs[p].stage == Ran
    && var ticket := w.procs[p].ticket;
       v == Put(w, p, Working(Receipted, ticket)).(
              disk := w.disk.(receipts := w.disk.receipts + {ticket.nonce}))
  }

  ghost predicate ResolveStep(w: World, v: World, p: Pid) {
    && p in w.procs && w.procs[p].Working? && w.procs[p].stage == Receipted
    && var ticket := w.procs[p].ticket;
       v == Put(WithTables(w, ResolveIn(w.disk.tables, ticket.token)), p, Working(Settled, ticket))
  }

  ghost predicate UnlinkStep(w: World, v: World, p: Pid) {
    && p in w.procs && w.procs[p].Working? && w.procs[p].stage == Settled
    && v == Gone(w, p).(disk := w.disk.(guards := w.disk.guards - {w.procs[p].ticket.request.repo}))
  }

  /**
   An exception ends the operation. Behind a guard everything is kept; before it the slot is
   given back, unless cleanup is uncertain and the operation is no fetch.
   */
  ghost predicate FailStep(w: World, v: World, p: Pid, cleanup: bool) {
    && p in w.procs && !w.procs[p].Repairing?
    && var place := w.procs[p];
       v == if HoldsGuard(place) || (cleanup && KindOf(place) != Fetch) then Gone(w, p)
            else Gone(WithTables(w, ReleaseIn(ResolveIn(w.disk.tables, TokenOf(place)), TokenOf(place))), p)
  }

  ghost predicate LaunchStep(limit: nat, w: World, v: World, t: Token, job: JobId) {
    && t !in w.history.names && |w.disk.tables.jobs| < limit
    && v == WithTables(w, w.disk.tables.(jobs := w.disk.tables.jobs[t := Some(job)])).(
              history := w.history.(names := w.history.names[t := None]))
  }

  // ---------------------------------------------------------------- recovery

  datatype Verdict = Applied | Original | Conflict

  datatype Plan = Plan(ticket: Ticket, linkage: Linkage, observed: Oid, verdict: Verdict)

  /** A commit cannot be judged beside a lock, or on another branch. */
  function Classify(d: Durable, r: Request): Verdict {
    var observed := Tip(d.refs, r.target);
    if r.kind == Commit && (r.repo in d.locks || Head(d.heads, r.repo) != r.target) then Conflict
    else if observed == r.after then Applied
    else if observed == r.before then Original
    else Conflict
  }

  /** What the owner is shown; None when recovery refuses the guard: unfinished, or with two names. */
  function PlanOf(d: Durable, key: Key): Option<Plan> {
    if key !in d.guards || !d.guards[key].Complete? then None
    else
      var ticket := d.guards[key].ticket;
      if ticket.request.repo != key || ticket.nonce !in d.ledger || d.ledger[ticket.nonce] != ticket.request then None
      else
        match LinkageOf(d.tables, ticket.token, ticket.request, key)
        case None => None
        case Some(linkage) =>
          Some(Plan(ticket, linkage, Tip(d.refs, ticket.request.target), Classify(d, ticket.request)))
  }

  predicate Recoverable(d: Durable, key: Key) {
    PlanOf(d, key).Some? && PlanOf(d, key).value.verdict != Conflict
  }

  function Noting(d: Durable, ticket: Ticket): Durable {
    d.(recoveries := d.recoveries + {ticket.nonce})
  }

  function Settling(d: Durable, ticket: Ticket): Durable {
    d.(tables := SettleIn(d.tables, ticket.token, ticket.request, ticket.request.repo))
  }

  function Retiring(d: Durable, ticket: Ticket): Durable {
    d.(guards := d.guards - {ticket.request.repo})
  }

  /** Recovery runs while the service is stopped; the plan reviewed must be the plan found. */
  ghost predicate ReviewStep(w: World, v: World, p: Pid, key: Key) {
    && w.procs == map[] && Recoverable(w.disk, key)
    && v == Put(w, p, Repairing(Checked, PlanOf(w.disk, key).value.ticket))
  }

  ghost predicate RepairStep(w: World, v: World, p: Pid, phase: RepairStage) {
    && p in w.procs && w.procs[p].Repairing? && w.procs[p].phase == phase
    && var ticket := w.procs[p].ticket;
       v == match phase
            case Checked => Put(w.(disk := Noting(w.disk, ticket)), p, Repairing(Noted, ticket))
            case Noted => Put(w.(disk := Settling(w.disk, ticket)), p, Repairing(Unlinking, ticket))
            case Unlinking => Gone(w.(disk := Retiring(w.disk, ticket)), p)
  }

  ghost predicate Does(limit: nat, w: World, step: Step, v: World) {
    match step
    case Enter(p, kind, t) => EnterStep(limit, w, v, p, kind, t)
    case Lease(p, key) => LeaseStep(w, v, p, key)
    case Propose(p, r) => ProposeStep(w, v, p, r)
    case Claim(p, n) => ClaimStep(w, v, p, n)
    case OpenGuard(p) => OpenStep(w, v, p)
    case WriteGuard(p) => WriteStep(w, v, p)
    case Bind(p) => BindStep(w, v, p)
    case Execute(p, moved, reported, locked) => ExecuteStep(w, v, p, moved, reported, locked)
    case Acknowledge(p) => AcknowledgeStep(w, v, p)
    case Resolve(p) => ResolveStep(w, v, p)
    case Unlink(p) => UnlinkStep(w, v, p)
    case Fail(p, cleanup) => FailStep(w, v, p, cleanup)
    case Crash => v == w.(procs := map[])
    case Sweep(failed) => w.procs == map[] && v == WithTables(w, SweepIn(w.disk.tables, failed))
    case Launch(t, job) => LaunchStep(limit, w, v, t, job)
    case EndJob(job) => v == WithTables(w, ReleaseJobIn(w.disk.tables, job))
    case Foreign(target, oid) =>
      v == w.(disk := w.disk.(refs := w.disk.refs[target := oid]),
              history := w.history.(foreign := w.history.foreign + {target}))
    case Meddle(key, head, locked) =>
      v == w.(disk := w.disk.(heads := w.disk.heads[key := head],
                              locks := if locked then w.disk.locks + {key} else w.disk.locks - {key}),
              history := w.history.(meddled := w.history.meddled + {key}))
    case Review(p, key) => ReviewStep(w, v, p, key)
    case Note(p) => RepairStep(w, v, p, Checked)
    case Settle(p) => RepairStep(w, v, p, Noted)
    case Retire(p) => RepairStep(w, v, p, Unlinking)
  }

  ghost predicate Next(limit: nat, w: World, v: World) {
    exists step :: Does(limit, w, step, v)
  }

  ghost predicate Initial(w: World) {
    w == World(Durable(Tables(map[], map[]), map[], map[], {}, {}, w.disk.refs, w.disk.heads, w.disk.locks), map[],
               History(map[], [], {}, {}))
  }

  /** One step leads from moment `i` to the next. */
  ghost predicate Moves(limit: nat, run: seq<World>, i: nat)
    requires i + 1 < |run|
  {
    Next(limit, run[i], run[i + 1])
  }

  ghost predicate IsRun(limit: nat, run: seq<World>) {
    run != [] && Initial(run[0]) && forall i: nat :: i + 1 < |run| ==> Moves(limit, run, i)
  }
}
