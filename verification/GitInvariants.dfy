/** What every step of the Git protocol keeps. */
module GitInvariants {
  import opened Bytes
  import opened Admission
  import opened GitProtocol

  // ---------------------------------------------------------------- the invariant

  /** A token that was handed out and under which nothing has been claimed yet. */
  predicate Unclaimed(w: World, t: Token) {
    t in w.history.names && w.history.names[t] == None && t !in w.disk.tables.gits && Idle(w.disk.tables, t)
  }

  predicate TicketOK(w: World, x: Ticket) {
    && x.nonce in w.disk.ledger && w.disk.ledger[x.nonce] == x.request && WellAimed(x.request)
    && x.token in w.history.names && w.history.names[x.token] == Some(x.nonce)
  }

  predicate GuardIs(w: World, x: Ticket) {
    x.request.repo in w.disk.guards && w.disk.guards[x.request.repo] == Complete(x)
  }

  predicate RowIs(w: World, x: Ticket, active: bool) {
    x.token in w.disk.tables.gits && w.disk.tables.gits[x.token] == Row(x.request, x.request.repo, active)
  }

  /**
   A branch no one else changed is still the one committed to, and a local ref no one else wrote is where
   the request found it, or where it moved it.
   */
  predicate RefOK(w: World, r: Request, moved: bool) {
    && (r.kind != Push && r.target !in w.history.foreign ==>
          Tip(w.disk.refs, r.target) == if moved then r.after else r.before)
    && (r.kind == Commit && r.repo !in w.history.meddled ==> Head(w.disk.heads, r.repo) == r.target)
  }

  predicate Moved(w: World, x: Ticket) {
    x.nonce in w.history.moves
  }

  predicate StageOK(w: World, stage: Stage, x: Ticket) {
    match stage
    case Claimed =>
      && !Moved(w, x) && x.request.repo !in w.disk.guards && x.token !in w.disk.tables.gits
      && Idle(w.disk.tables, x.token) && RefOK(w, x.request, false)
    case Writing =>
      && !Moved(w, x) && x.request.repo in w.disk.guards && w.disk.guards[x.request.repo] == Opened(x)
      && x.token !in w.disk.tables.gits && Idle(w.disk.tables, x.token) && RefOK(w, x.request, false)
    case Guarded => !Moved(w, x) && GuardIs(w, x) && x.token !in w.disk.tables.gits && Idle(w.disk.tables, x.token)
    case Bound => !Moved(w, x) && GuardIs(w, x) && RowIs(w, x, true)
    case Ran => Moved(w, x) && GuardIs(w, x) && RowIs(w, x, true)
    case Receipted => Moved(w, x) && GuardIs(w, x) && RowIs(w, x, true) && x.nonce in w.disk.receipts
    case Settled =>
      && Moved(w, x) && GuardIs(w, x) && RowIs(w, x, false) && x.nonce in w.disk.receipts
      && x.token !in w.disk.tables.jobs
  }

  predicate PhaseOK(w: World, phase: RepairStage, x: Ticket) {
    && GuardIs(w, x)
    && (phase != Checked ==> x.nonce in w.disk.recoveries)
    && (phase == Unlinking ==> RowIs(w, x, false) && x.token !in w.disk.tables.jobs)
  }

  predicate PlaceOK(w: World, place: Place) {
    match place
    case Slotted(_, t) => Unclaimed(w, t)
    case Leased(_, t, k) => Unclaimed(w, t) && k !in w.disk.guards
    case Proposed(t, r) => Unclaimed(w, t) && r.repo !in w.disk.guards && WellAimed(r) && RefOK(w, r, false)
    case Working(stage, x) => TicketOK(w, x) && StageOK(w, stage, x)
    case Repairing(phase, x) => TicketOK(w, x) && PhaseOK(w, phase, x)
  }

  predicate GuardOK(w: World, key: Key, guard: Guard) {
    guard.Complete? ==>
      var x := guard.ticket;
      && x.request.repo == key && TicketOK(w, x) && RefOK(w, x.request, Moved(w, x))
      && (x.token in w.disk.tables.gits ==> RowIs(w, x, w.disk.tables.gits[x.token].active))
      && (x.token in w.disk.tables.jobs ==> w.disk.tables.jobs[x.token] == None)
  }

  /** An active row has its guard. */
  predicate RowOK(w: World, t: Token, row: Row) {
    row.active ==>
      row.guard in w.disk.guards && w.disk.guards[row.guard].Complete? && w.disk.guards[row.guard].ticket.token == t
  }

  predicate GuardedBy(w: World, n: Nonce) {
    && n in w.disk.ledger && w.disk.ledger[n].repo in w.disk.guards
    && w.disk.guards[w.disk.ledger[n].repo].Complete? && w.disk.guards[w.disk.ledger[n].repo].ticket.nonce == n
  }

  /** A claim that moved a ref: a guard or a receipt still says so. */
  predicate MoveOK(w: World, n: Nonce) {
    n in w.disk.ledger && (GuardedBy(w, n) || n in w.disk.receipts || n in w.disk.recoveries)
  }

  predicate Disjoint(a: Place, b: Place) {
    TokenOf(a) != TokenOf(b) && (KeyOf(a).Some? ==> KeyOf(a) != KeyOf(b)) && !a.Repairing?
  }

  ghost predicate Inv(limit: nat, w: World) {
    && Conserved(w.disk.tables, limit)
    && (forall p :: p in w.procs ==> PlaceOK(w, w.procs[p]))
    && (forall p, q :: p in w.procs && q in w.procs && p != q ==> Disjoint(w.procs[p], w.procs[q]))
    && (forall k :: k in w.disk.guards ==> GuardOK(w, k, w.disk.guards[k]))
    && (forall t :: t in w.disk.tables.gits ==> t in w.history.names && RowOK(w, t, w.disk.tables.gits[t]))
    && (forall t :: t in w.disk.tables.jobs ==> t in w.history.names)
    && (forall n :: n in w.history.moves ==> MoveOK(w, n))
    && (forall i, j :: 0 <= i < j < |w.history.moves| ==> w.history.moves[i] != w.history.moves[j])
    && (forall n :: n in w.disk.receipts ==> n in w.history.moves)
  }

  // ---------------------------------------------------------------- steps of one process

  /** What a step may touch: at most one repository, one token, one claim. */
  datatype Scope = Scope(key: Option<Key>, token: Token, nonce: Option<Nonce>)

  ghost predicate SameTables(w: World, v: World, s: Scope) {
    forall t: Token :: t != s.token ==>
      && (t in v.history.names <==> t in w.history.names)
      && (t in w.history.names ==> v.history.names[t] == w.history.names[t])
      && (t in v.disk.tables.gits <==> t in w.disk.tables.gits)
      && (t in w.disk.tables.gits ==> v.disk.tables.gits[t] == w.disk.tables.gits[t])
      && (t in v.disk.tables.jobs <==> t in w.disk.tables.jobs)
      && (t in w.disk.tables.jobs ==> v.disk.tables.jobs[t] == w.disk.tables.jobs[t])
  }

  ghost predicate SameGuards(w: World, v: World, s: Scope) {
    forall k :: Some(k) != s.key ==>
      && (k in v.disk.guards <==> k in w.disk.guards)
      && (k in w.disk.guards ==> v.disk.guards[k] == w.disk.guards[k])
  }

  ghost predicate SameClaims(w: World, v: World, s: Scope) {
    && (forall n :: n in w.disk.ledger ==> n in v.disk.ledger && v.disk.ledger[n] == w.disk.ledger[n])
    && w.disk.receipts <= v.disk.receipts && w.disk.recoveries <= v.disk.recoveries
    && (forall n: Nonce :: Some(n) != s.nonce ==> (n in v.history.moves <==> n in w.history.moves))
  }

  ghost predicate SameRefs(w: World, v: World, s: Scope) {
    && (forall x: Ref :: x.Local? && Some(x.repo) != s.key ==>
          Tip(v.disk.refs, x) == Tip(w.disk.refs, x) && (x in v.history.foreign <==> x in w.history.foreign))
    && (forall k: Key :: Some(k) != s.key ==>
          Head(v.disk.heads, k) == Head(w.disk.heads, k) && (k in v.history.meddled <==> k in w.history.meddled))
  }

  ghost predicate Apart(w: World, v: World, s: Scope) {
    SameTables(w, v, s) && SameGuards(w, v, s) && SameClaims(w, v, s) && SameRefs(w, v, s)
  }

  predicate Outside(place: Place, s: Scope) {
    && TokenOf(place) != s.token && (KeyOf(place).Some? ==> KeyOf(place) != s.key)
    && (NonceOf(place).Some? ==> NonceOf(place) != s.nonce)
  }

  lemma PlaceFrame(w: World, v: World, s: Scope, place: Place)
    requires PlaceOK(w, place) && Apart(w, v, s) && Outside(place, s)
    ensures PlaceOK(v, place)
  {
  }

  /** The scope is that of a place: its guard, its claim and its token belong together. */
  ghost predicate ScopeOK(w: World, s: Scope) {
    && (s.token in w.history.names ==> w.history.names[s.token] == None || w.history.names[s.token] == s.nonce)
    && (s.nonce.Some? && s.nonce.value in w.disk.ledger ==> Some(w.disk.ledger[s.nonce.value].repo) == s.key)
    && (s.key.Some? && s.key.value in w.disk.guards && w.disk.guards[s.key.value].Complete? ==>
          var x := w.disk.guards[s.key.value].ticket; x.token == s.token && Some(x.nonce) == s.nonce)
  }

  lemma GuardFrame(w: World, v: World, s: Scope, k: Key)
    requires k in w.disk.guards && GuardOK(w, k, w.disk.guards[k]) && Apart(w, v, s) && ScopeOK(w, s) && Some(k) != s.key
    ensures k in v.disk.guards && v.disk.guards[k] == w.disk.guards[k] && GuardOK(v, k, v.disk.guards[k])
  {
  }

  lemma RowFrame(w: World, v: World, s: Scope, t: Token)
    requires t in w.disk.tables.gits && t != s.token && Apart(w, v, s) && ScopeOK(w, s)
    requires RowOK(w, t, w.disk.tables.gits[t])
    ensures t in v.disk.tables.gits && RowOK(v, t, v.disk.tables.gits[t])
  {
  }

  lemma MoveFrame(w: World, v: World, s: Scope, n: Nonce)
    requires Some(n) != s.nonce && MoveOK(w, n) && Apart(w, v, s) && ScopeOK(w, s)
    ensures MoveOK(v, n)
  {
  }

  /** After the step everything in the scope is in order again. */
  ghost predicate LeavesOK(limit: nat, v: World, s: Scope) {
    && Conserved(v.disk.tables, limit)
    && (s.token in v.disk.tables.gits ==>
          s.token in v.history.names && RowOK(v, s.token, v.disk.tables.gits[s.token]))
    && (s.token in v.disk.tables.jobs ==> s.token in v.history.names)
    && (s.key.Some? && s.key.value in v.disk.guards ==> GuardOK(v, s.key.value, v.disk.guards[s.key.value]))
    && (s.nonce.Some? && s.nonce.value in v.history.moves ==> MoveOK(v, s.nonce.value))
    && (forall n :: n in v.disk.receipts ==> n in v.history.moves)
    && (forall i, j :: 0 <= i < j < |v.history.moves| ==> v.history.moves[i] != v.history.moves[j])
  }

  ghost predicate Inside(place: Place, s: Scope) {
    TokenOf(place) == s.token && (KeyOf(place).Some? ==> KeyOf(place) == s.key)
  }

  /** The processes after a step of `p`. */
  ghost predicate OnlyMoves(w: World, v: World, p: Pid, s: Scope) {
    && (forall q :: q in v.procs && q != p ==> q in w.procs && v.procs[q] == w.procs[q] && Outside(w.procs[q], s))
    && (p in v.procs ==>
          && PlaceOK(v, v.procs[p]) && Inside(v.procs[p], s)
          && (forall q :: q in w.procs && q != p ==> !v.procs[p].Repairing? && !w.procs[q].Repairing?))
  }

  lemma LocalStep(limit: nat, w: World, v: World, p: Pid, s: Scope)
    requires Inv(limit, w) && Apart(w, v, s) && ScopeOK(w, s) && LeavesOK(limit, v, s) && OnlyMoves(w, v, p, s)
    ensures Inv(limit, v)
  {
    forall q | q in v.procs ensures PlaceOK(v, v.procs[q]) {
      if q != p { PlaceFrame(w, v, s, w.procs[q]); }
    }
    forall k | k in v.disk.guards ensures GuardOK(v, k, v.disk.guards[k]) {
      if Some(k) != s.key { GuardFrame(w, v, s, k); }
    }
    forall t | t in v.disk.tables.gits ensures t in v.history.names && RowOK(v, t, v.disk.tables.gits[t]) {
      if t != s.token { RowFrame(w, v, s, t); }
    }
    forall n | n in v.history.moves ensures MoveOK(v, n) {
      if Some(n) != s.nonce { MoveFrame(w, v, s, n); }
    }
  }

  function ScopeOf(place: Place): Scope {
    Scope(KeyOf(place), TokenOf(place), NonceOf(place))
  }

  /** The scope of a place is its own. */
  lemma PlaceScope(limit: nat, w: World, p: Pid)
    requires Inv(limit, w) && p in w.procs
    ensures ScopeOK(w, ScopeOf(w.procs[p]))
    ensures forall q :: q in w.procs && q != p ==>
              Outside(w.procs[q], ScopeOf(w.procs[p])) && !w.procs[p].Repairing? && !w.procs[q].Repairing?
  {
  }
}
