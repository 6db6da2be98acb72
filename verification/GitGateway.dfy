/**
 The gateway's commit, push, fetch and recovery as code that changes files and rows one
 after the other. Every object carries the run of the protocol machine that its own
 updates trace out, so what holds of all runs holds of it.
 */
module GitGateway {
  import opened Bytes
  import opened Admission
  import opened GitProtocol
  import opened GitInvariants
  import opened GitRecovery
  import opened GitSteps

  /** Where an exception interrupts an operation. */
  datatype Point = Leasing | Proposing | Claiming | Opening | Filling | Binding | Executing | Acknowledging
                 | Resolving | Unlinking

  /** `cleanup` says that the exception reports uncertain cleanup. */
  datatype Fault = Smooth | Fault(at: Point, cleanup: bool)

  /** What the sandboxed update or the remote does: take effect, report that it did, leave a lock behind. */
  datatype Effect = Effect(moves: bool, reports: bool, locks: bool)

  datatype Outcome = Done(oid: Oid) | Full | Failed(cleanup: bool)

  /** Whether the update of a request takes effect and is reported. */
  predicate Lands(refs: map<Ref, Oid>, r: Request, effect: Effect) {
    effect.moves && effect.reports && !(effect.locks && r.kind != Kind.Push) && Tip(refs, r.target) == r.before
  }

  predicate Strikes(fault: Fault, at: Point) {
    fault.Fault? && fault.at == at
  }

  /** Before the guard is attempted. */
  predicate Early(fault: Fault) {
    Strikes(fault, Leasing) || Strikes(fault, Proposing) || Strikes(fault, Claiming)
  }

  /** Who is left after the update. */
  function Left(ticket: Ticket, reported: bool): map<Pid, Place> {
    if reported then map[0 := Working(Ran, ticket)] else map[]
  }

  /** The update of a ref by one process alone. */
  lemma ExecuteAlone(limit: nat, d: Durable, x: Ticket, h: History, moved: bool, reported: bool, locked: bool)
    requires (reported ==> moved && !locked) && (locked ==> x.request.kind != Kind.Push)
    requires moved ==> Tip(d.refs, x.request.target) == x.request.before
    ensures Does(limit, Alone(d, Working(Bound, x), h), Execute(0, moved, reported, locked),
                 World(Updated(d, x.request, moved, locked), Left(x, reported),
                       h.(moves := if moved then h.moves + [x.nonce] else h.moves)))
  {
    AloneMoves(d, Working(Bound, x), Working(Ran, x), h);
  }

  class Gateway {
    const limit: nat
    var tables: Tables
    var ledger: map<Nonce, Request>
    var guards: map<Key, Guard>
    var receipts: set<Nonce>
    var recoveries: set<Nonce>
    var refs: map<Ref, Oid>
    var heads: map<Key, Ref>
    var locks: set<Key>
    ghost var history: History
    ghost var run: seq<World>

    ghost function Disk(): Durable
      reads this
    {
      Durable(tables, ledger, guards, receipts, recoveries, refs, heads, locks)
    }

    ghost predicate Traced(procs: map<Pid, Place>)
      reads this
    {
      IsRun(limit, run) && run[|run| - 1] == World(Disk(), procs, history)
    }

    /** No operation is under way. */
    ghost predicate Valid()
      reads this
    {
      Traced(map[])
    }

    ghost predicate Live(place: Place)
      reads this
    {
      Traced(map[0 := place])
    }

    constructor (limit: nat, refs: map<Ref, Oid>, heads: map<Key, Ref>, locks: set<Key>)
      ensures Valid() && this.limit == limit && guards == map[] && ledger == map[]
      ensures this.refs == refs && this.heads == heads && this.locks == locks
    {
      this.limit, this.refs, this.heads, this.locks := limit, refs, heads, locks;
      tables, ledger, guards, receipts, recoveries := Tables(map[], map[]), map[], map[], {}, {};
      history := History(map[], [], {}, {});
      run := [World(Durable(Tables(map[], map[]), map[], map[], {}, {}, refs, heads, locks), map[],
                    History(map[], [], {}, {}))];
    }

    ghost method Trace(step: Step, procs: map<Pid, Place>)
      requires IsRun(limit, run) && Does(limit, run[|run| - 1], step, World(Disk(), procs, history))
      modifies `run
      ensures Traced(procs) && run == old(run) + [World(Disk(), procs, history)]
    {
      run := Longer(limit, run, step, World(Disk(), procs, history));
    }

    // ---------------------------------------------------------------- the effects in order

    method Enter(kind: Kind, token: Token) returns (ok: bool)
      requires Valid() && token !in history.names
      modifies `tables, `history, `run
      ensures old(run) <= run && ok == (|old(tables).jobs| < limit)
      ensures ok ==> Live(Slotted(kind, token)) && tables == EnterIn(old(tables), token)
      ensures ok ==> history == old(history).(names := old(history).names[token := None])
      ensures !ok ==> Valid() && tables == old(tables) && history == old(history)
    {
      if |tables.jobs| >= limit { return false; }
      tables := EnterIn(tables, token);
      history := history.(names := history.names[token := None]);
      Trace(Step.Enter(0, kind, token), map[0 := Slotted(kind, token)]);
      return true;
    }

    /** What an exception does to the slot; the process ends. */
    method Fail(ghost place: Place, kind: Kind, token: Token, guarded: bool, cleanup: bool) returns (result: Outcome)
      requires Live(place) && !place.Repairing?
      requires kind == KindOf(place) && token == TokenOf(place) && guarded == HoldsGuard(place)
      modifies `tables, `run
      ensures Valid() && old(run) <= run && result == Failed(guarded || cleanup)
      ensures tables == if guarded || (cleanup && kind != Kind.Fetch) then old(tables)
                        else ReleaseIn(ResolveIn(old(tables), token), token)
    {
      AloneMoves(Disk(), place, place, history);
      AloneMoves(Disk().(tables := ReleaseIn(ResolveIn(tables, token), token)), place, place, history);
      if !guarded && (!cleanup || kind == Kind.Fetch) {
        tables := ReleaseIn(ResolveIn(tables, token), token);
      }
      Trace(Step.Fail(0, cleanup), map[]);
      return Failed(guarded || cleanup);
    }

    method TakeLease(ghost kind: Kind, ghost token: Token, ghost key: Key)
      requires Live(Slotted(kind, token)) && key !in guards
      modifies `run
      ensures old(run) <= run && Live(Leased(kind, token, key))
    {
      AloneMoves(Disk(), Slotted(kind, token), Leased(kind, token, key), history);
      Trace(Step.Lease(0, key), map[0 := Leased(kind, token, key)]);
    }

    method Propose(ghost token: Token, ghost request: Request)
      requires Live(Leased(request.kind, token, request.repo))
      requires WellAimed(request) && Tip(refs, request.target) == request.before && request.repo !in locks
      requires request.kind == Kind.Commit ==> Head(heads, request.repo) == request.target
      modifies `history, `run
      ensures old(run) <= run && Live(Proposed(token, request)) && history.moves == old(history).moves
    {
      history := history.(foreign := history.foreign - {request.target}, meddled := history.meddled - {request.repo});
      AloneMoves(Disk(), Leased(request.kind, token, request.repo), Proposed(token, request), history);
      Trace(Step.Propose(0, request), map[0 := Proposed(token, request)]);
    }

    method Claim(ticket: Ticket)
      requires Live(Proposed(ticket.token, ticket.request)) && ticket.nonce !in ledger
      modifies `ledger, `history, `run
      ensures old(run) <= run && Live(Working(Claimed, ticket)) && history.moves == old(history).moves
      ensures ledger == old(ledger)[ticket.nonce := ticket.request]
    {
      AloneMoves(Disk(), Proposed(ticket.token, ticket.request), Working(Claimed, ticket), history);
      ledger := ledger[ticket.nonce := ticket.request];
      history := history.(names := history.names[ticket.token := Some(ticket.nonce)]);
      Trace(Step.Claim(0, ticket.nonce), map[0 := Working(Claimed, ticket)]);
    }

    method OpenGuard(ticket: Ticket)
      requires Live(Working(Claimed, ticket)) && ticket.request.repo !in guards
      modifies `guards, `run
      ensures old(run) <= run && Live(Working(Writing, ticket))
      ensures guards == old(guards)[ticket.request.repo := Opened(ticket)]
    {
      AloneMoves(Disk(), Working(Claimed, ticket), Working(Writing, ticket), history);
      guards := guards[ticket.request.repo := Opened(ticket)];
      Trace(Step.OpenGuard(0), map[0 := Working(Writing, ticket)]);
    }

    method FillGuard(ticket: Ticket)
      requires Live(Working(Writing, ticket))
      modifies `guards, `run
      ensures old(run) <= run && Live(Working(Guarded, ticket))
      ensures guards == old(guards)[ticket.request.repo := Complete(ticket)]
    {
      AloneMoves(Disk(), Working(Writing, ticket), Working(Guarded, ticket), history);
      guards := guards[ticket.request.repo := Complete(ticket)];
      Trace(Step.WriteGuard(0), map[0 := Working(Guarded, ticket)]);
    }

    /** The row is there and not linked yet, so the linkage cannot be refused here. */
    method BindSlot(ticket: Ticket)
      requires Live(Working(Guarded, ticket)) && CanBind(tables, ticket.token)
      modifies `tables, `run
      ensures old(run) <= run && Live(Working(Bound, ticket))
      ensures tables == BindIn(old(tables), ticket.token, ticket.request, ticket.request.repo)
    {
      AloneMoves(Disk(), Working(Guarded, ticket), Working(Bound, ticket), history);
      tables := BindIn(tables, ticket.token, ticket.request, ticket.request.repo);
      Trace(Step.Bind(0), map[0 := Working(Bound, ticket)]);
    }

    /** The compare-and-swap of the ref, in the sandbox or at the remote. */
    method Update(ticket: Ticket, effect: Effect) returns (moved: bool, reported: bool)
      requires Live(Working(Bound, ticket))
      modifies `refs, `locks, `history, `run
      ensures old(run) <= run
      ensures moved == (effect.moves && Tip(old(refs), ticket.request.target) == ticket.request.before)
      ensures reported == Lands(old(refs), ticket.request, effect)
      ensures refs == if moved then old(refs)[ticket.request.target := ticket.request.after] else old(refs)
      ensures locks == if effect.locks && ticket.request.kind != Kind.Push then old(locks) + {ticket.request.repo}
                       else old(locks)
      ensures history == old(history).(moves := if moved then old(history).moves + [ticket.nonce] else old(history).moves)
      ensures if reported then Live(Working(Ran, ticket)) else Valid()
    {
      moved := effect.moves && Tip(refs, ticket.request.target) == ticket.request.before;
      var locked := effect.locks && ticket.request.kind != Kind.Push;
      reported := moved && effect.reports && !locked;
      ExecuteAlone(limit, Disk(), ticket, history, moved, reported, locked);
      if moved {
        refs := refs[ticket.request.target := ticket.request.after];
        history := history.(moves := history.moves + [ticket.nonce]);
      }
      if locked { locks := locks + {ticket.request.repo}; }
      Trace(Execute(0, moved, reported, locked), Left(ticket, reported));
    }

    method Acknowledge(ticket: Ticket)
      requires Live(Working(Ran, ticket))
      modifies `receipts, `run
      ensures old(run) <= run && Live(Working(Receipted, ticket)) && receipts == old(receipts) + {ticket.nonce}
    {
      AloneMoves(Disk(), Working(Ran, ticket), Working(Receipted, ticket), history);
      receipts := receipts + {ticket.nonce};
      Trace(Step.Acknowledge(0), map[0 := Working(Receipted, ticket)]);
    }

    method Resolve(ticket: Ticket)
      requires Live(Working(Receipted, ticket))
      modifies `tables, `run
      ensures old(run) <= run && Live(Working(Settled, ticket)) && tables == ResolveIn(old(tables), ticket.token)
    {
      AloneMoves(Disk(), Working(Receipted, ticket), Working(Settled, ticket), history);
      tables := ResolveIn(tables, ticket.token);
      Trace(Step.Resolve(0), map[0 := Working(Settled, ticket)]);
    }

    method Unlink(ticket: Ticket)
      requires Live(Working(Settled, ticket))
      modifies `guards, `run
      ensures old(run) <= run && Valid() && guards == old(guards) - {ticket.request.repo}
    {
      AloneMoves(Disk(), Working(Settled, ticket), Working(Settled, ticket), history);
      guards := guards - {ticket.request.repo};
      Trace(Step.Unlink(0), map[]);
    }

    // ---------------------------------------------------------------- operations

    /** Capacity and the mutation lease. A pending guard refuses the lease, and reports uncertain cleanup. */
    method Begin(kind: Kind, token: Token, key: Key, fault: Fault) returns (result: Option<Outcome>)
      requires Valid() && token !in history.names
      modifies `tables, `history, `run
      ensures old(run) <= run && history.moves == old(history).moves
      ensures result.None? ==> Live(Leased(kind, token, key)) && key !in guards && tables == EnterIn(old(tables), token)
      ensures result.Some? ==> Valid() && !result.value.Done?
      ensures result == Some(Full) <==> |old(tables).jobs| >= limit
      ensures result == Some(Full) ==> tables == old(tables)
      ensures result.Some? && result.value.Failed? ==>
                && (token in tables.jobs <==> result.value.cleanup && kind != Kind.Fetch)
                && result.value.cleanup == (key in guards || (fault.Fault? && fault.cleanup))
      ensures result.None? <==> |old(tables).jobs| < limit && key !in guards && !Strikes(fault, Leasing)
    {
      var ok := Enter(kind, token);
      if !ok { return Some(Full); }
      if key in guards || Strikes(fault, Leasing) {
        var failed := Fail(Slotted(kind, token), kind, token, false, key in guards || fault.cleanup);
        return Some(failed);
      }
      TakeLease(kind, token, key);
      return None;
    }

    /** The request is the one read from the repository: its tip and, for a commit, its branch. */
    ghost predicate Found(r: Request)
      reads this
    {
      Tip(refs, r.target) == r.before && (r.kind == Kind.Commit ==> Head(heads, r.repo) == r.target)
    }

    /** The proposal made under the lease, which refuses locks and a detached head, and its durable claim. */
    method Authorize(ticket: Ticket, fault: Fault) returns (result: Option<Outcome>)
      requires Live(Leased(ticket.request.kind, ticket.token, ticket.request.repo))
      requires Found(ticket.request)
      modifies `tables, `ledger, `history, `run
      ensures old(run) <= run && history.moves == old(history).moves
      ensures result.None? ==>
                && Live(Working(Claimed, ticket)) && tables == old(tables)
                && ledger == old(ledger)[ticket.nonce := ticket.request]
      ensures result.Some? ==> Valid() && result.value.Failed?
      ensures result.Some? ==>
                (result.value.cleanup && ticket.request.kind != Kind.Fetch) || ticket.token !in tables.jobs
      ensures result.Some? && result.value.cleanup && ticket.request.kind != Kind.Fetch ==>
                (ticket.token in old(tables).jobs ==> ticket.token in tables.jobs)
      ensures result.None? <==>
                && ticket.nonce !in old(ledger) && ticket.request.repo !in locks && WellAimed(ticket.request)
                && !Strikes(fault, Proposing) && !Strikes(fault, Claiming)
    {
      ghost var kind := ticket.request.kind;
      if Strikes(fault, Proposing) || ticket.request.repo in locks || !WellAimed(ticket.request) {
        var failed := Fail(Leased(kind, ticket.token, ticket.request.repo), ticket.request.kind, ticket.token, false,
                           Strikes(fault, Proposing) && fault.cleanup);
        return Some(failed);
      }
      Propose(ticket.token, ticket.request);
      result := Spend(ticket, fault);
    }

    /** The durable claim, which a spent nonce refuses. */
    method Spend(ticket: Ticket, fault: Fault) returns (result: Option<Outcome>)
      requires Live(Proposed(ticket.token, ticket.request))
      modifies `tables, `ledger, `history, `run
      ensures old(run) <= run && history.moves == old(history).moves
      ensures result.None? ==>
                && Live(Working(Claimed, ticket)) && tables == old(tables)
                && ledger == old(ledger)[ticket.nonce := ticket.request]
      ensures result.Some? ==> Valid() && result.value.Failed?
      ensures result.Some? ==>
                if result.value.cleanup && ticket.request.kind != Kind.Fetch then tables == old(tables)
                else ticket.token !in tables.jobs
      ensures result.None? <==> ticket.nonce !in old(ledger) && !Strikes(fault, Claiming)
    {
      if ticket.nonce in ledger {
        var failed := Fail(Proposed(ticket.token, ticket.request), ticket.request.kind, ticket.token, false, false);
        return Some(failed);
      }
      Claim(ticket);
      if Strikes(fault, Claiming) {
        var failed := Fail(Working(Claimed, ticket), ticket.request.kind, ticket.token, false, fault.cleanup);
        return Some(failed);
      }
      return None;
    }

    /** Everything before the guard. */
    method Start(ticket: Ticket, fault: Fault) returns (result: Option<Outcome>)
      requires Valid() && ticket.token !in history.names
      requires Found(ticket.request)
      modifies `tables, `ledger, `history, `run
      ensures old(run) <= run
      ensures result.None? ==>
                && Live(Working(Claimed, ticket)) && ticket.request.repo !in guards
                && ticket.nonce !in old(ledger) && ticket.nonce in ledger
      ensures result.Some? ==> Valid() && Stopped(old(tables), ticket, result.value)
      ensures result == Some(Full) <==> |old(tables).jobs| >= limit
      ensures result == Some(Full) ==> Disk() == old(Disk())
      ensures result.None? <==> Ready(old(Disk()), ticket) && !Early(fault)
    {
      result := Begin(ticket.request.kind, ticket.token, ticket.request.repo, fault);
      if result.None? { result := Authorize(ticket, fault); }
    }

    /** Nothing was guarded: only a commit or push with uncertain cleanup, or a refused lease, keeps its slot. */
    ghost predicate Stopped(before: Tables, ticket: Ticket, result: Outcome)
      reads this
    {
      && !result.Done?
      && (result.Failed? && !(result.cleanup && ticket.request.kind != Kind.Fetch) ==> ticket.token !in tables.jobs)
      && (result.Failed? && result.cleanup && ticket.request.kind != Kind.Fetch ==> ticket.token in tables.jobs)
    }

    /** A failure behind the guard: nothing is given back. */
    method Retain(ghost stage: Stage, ticket: Ticket) returns (result: Outcome)
      requires Live(Working(stage, ticket)) && stage != Claimed
      modifies `tables, `run
      ensures Valid() && old(run) <= run && result == Failed(true) && tables == old(tables)
    {
      result := Fail(Working(stage, ticket), ticket.request.kind, ticket.token, true, true);
    }

    /** What a failure behind the guard leaves: all that is lost is the slot, and only between resolving and unlinking. */
    ghost predicate Kept(before: map<Key, Guard>, ticket: Ticket, resolved: bool)
      reads this
    {
      guards == before && (ticket.token in tables.jobs <==> !resolved)
    }

    /** Receipt, resolution and removal of the guard, in this order. */
    method Publish(ticket: Ticket, fault: Fault) returns (result: Outcome)
      requires Live(Working(Ran, ticket))
      modifies `tables, `guards, `receipts, `run
      ensures Valid() && old(run) <= run
      ensures result == Done(ticket.request.after) || result == Failed(true)
      ensures result.Done? ==>
                && receipts == old(receipts) + {ticket.nonce} && guards == old(guards) - {ticket.request.repo}
                && tables == ResolveIn(old(tables), ticket.token) && ticket.token !in tables.jobs
      ensures !result.Done? ==> Kept(old(guards), ticket, Strikes(fault, Point.Unlinking))
      ensures result.Done? <==>
                !Strikes(fault, Acknowledging) && !Strikes(fault, Resolving) && !Strikes(fault, Point.Unlinking)
    {
      HoldsSlot(Ran, ticket);
      if Strikes(fault, Acknowledging) { result := Retain(Ran, ticket); return; }
      Acknowledge(ticket);
      result := Release(ticket, fault);
    }

    method Release(ticket: Ticket, fault: Fault) returns (result: Outcome)
      requires Live(Working(Receipted, ticket))
      modifies `tables, `guards, `run
      ensures Valid() && old(run) <= run
      ensures result == Done(ticket.request.after) || result == Failed(true)
      ensures result.Done? ==>
                && guards == old(guards) - {ticket.request.repo}
                && tables == ResolveIn(old(tables), ticket.token) && ticket.token !in tables.jobs
      ensures !result.Done? ==> Kept(old(guards), ticket, Strikes(fault, Point.Unlinking))
      ensures result.Done? <==> !Strikes(fault, Resolving) && !Strikes(fault, Point.Unlinking)
    {
      HoldsSlot(Receipted, ticket);
      if Strikes(fault, Resolving) { result := Retain(Receipted, ticket); return; }
      Resolve(ticket);
      if Strikes(fault, Point.Unlinking) { result := Retain(Settled, ticket); return; }
      Unlink(ticket);
      return Done(ticket.request.after);
    }

    /** The update, and what follows it if it is reported. */
    method UpdateAndPublish(ticket: Ticket, effect: Effect, fault: Fault) returns (result: Outcome)
      requires Live(Working(Bound, ticket))
      modifies `tables, `guards, `receipts, `refs, `locks, `history, `run
      ensures Valid() && old(run) <= run
      ensures result == Done(ticket.request.after) || result == Failed(true)
      ensures result.Done? ==>
                && refs == old(refs)[ticket.request.target := ticket.request.after] && locks == old(locks)
                && receipts == old(receipts) + {ticket.nonce} && guards == old(guards) - {ticket.request.repo}
                && ticket.token !in tables.jobs
      ensures !result.Done? ==>
                Kept(old(guards), ticket, Strikes(fault, Point.Unlinking) && Lands(old(refs), ticket.request, effect))
      ensures refs == old(refs) || refs == old(refs)[ticket.request.target := ticket.request.after]
      ensures locks == old(locks) || locks == old(locks) + {ticket.request.repo}
      ensures fault == Smooth && Lands(old(refs), ticket.request, effect) ==> result.Done?
    {
      HoldsSlot(Bound, ticket);
      var moved, reported := Update(ticket, effect);
      if !reported { return Failed(true); }
      result := Publish(ticket, fault);
    }

    /** Behind the guard: bind, update the ref, publish. */
    method Finish(ticket: Ticket, effect: Effect, fault: Fault) returns (result: Outcome)
      requires Live(Working(Guarded, ticket))
      modifies `tables, `guards, `receipts, `refs, `locks, `history, `run
      ensures Valid() && old(run) <= run
      ensures result == Done(ticket.request.after) || result == Failed(true)
      ensures result.Done? ==>
                && refs == old(refs)[ticket.request.target := ticket.request.after] && locks == old(locks)
                && receipts == old(receipts) + {ticket.nonce} && guards == old(guards) - {ticket.request.repo}
                && ticket.token !in tables.jobs
      ensures !result.Done? ==>
                Kept(old(guards), ticket, Strikes(fault, Point.Unlinking) && Lands(old(refs), ticket.request, effect))
      ensures refs == old(refs) || refs == old(refs)[ticket.request.target := ticket.request.after]
      ensures locks == old(locks) || locks == old(locks) + {ticket.request.repo}
      ensures fault == Smooth && Lands(old(refs), ticket.request, effect) ==> result.Done?
    {
      HoldsSlot(Guarded, ticket);
      if Strikes(fault, Binding) { result := Retain(Guarded, ticket); return; }
      BindSlot(ticket);
      if Strikes(fault, Executing) {
        HoldsSlot(Bound, ticket);
        result := Retain(Bound, ticket);
        return;
      }
      result := UpdateAndPublish(ticket, effect, fault);
    }

    /** The guard is filled, or its second name dropped, and the rest is behind it. */
    method FillAndFinish(ticket: Ticket, effect: Effect, fault: Fault) returns (result: Outcome)
      requires Live(Working(Writing, ticket)) && ticket.request.repo in guards
      modifies `tables, `guards, `receipts, `refs, `locks, `history, `run
      ensures Valid() && old(run) <= run
      ensures result == Done(ticket.request.after) || result == Failed(true)
      ensures result.Done? ==>
                && refs == old(refs)[ticket.request.target := ticket.request.after] && locks == old(locks)
                && receipts == old(receipts) + {ticket.nonce} && guards == old(guards) - {ticket.request.repo}
                && ticket.token !in tables.jobs
      ensures !result.Done? ==>
                Kept(if Strikes(fault, Filling) then old(guards) else old(guards)[ticket.request.repo := Complete(ticket)],
                     ticket, Strikes(fault, Point.Unlinking) && Lands(old(refs), ticket.request, effect))
      ensures refs == old(refs) || (refs == old(refs)[ticket.request.target := ticket.request.after]
                                    && !Strikes(fault, Filling))
      ensures locks == old(locks) || (locks == old(locks) + {ticket.request.repo} && !Strikes(fault, Filling))
      ensures fault == Smooth && Lands(old(refs), ticket.request, effect) ==> result.Done?
    {
      HoldsSlot(Writing, ticket);
      if Strikes(fault, Filling) { result := Retain(Writing, ticket); return; }
      FillGuard(ticket);
      assert guards - {ticket.request.repo} == old(guards) - {ticket.request.repo};
      result := Finish(ticket, effect, fault);
    }

    /** A failed attempt at the guard leaves none; for a push it counts as uncertain cleanup all the same. */
    method GuardAndFinish(ticket: Ticket, effect: Effect, fault: Fault) returns (result: Outcome)
      requires Live(Working(Claimed, ticket)) && ticket.request.repo !in guards
      modifies `tables, `guards, `receipts, `refs, `locks, `history, `run
      ensures Valid() && old(run) <= run
      ensures Acted(old(Disk()), ticket, result)
      ensures result.Failed? && guards == old(guards) ==>
                && Strikes(fault, Opening) && (ticket.request.kind == Kind.Push ==> result.cleanup)
                && (ticket.token in tables.jobs <==> result.cleanup && ticket.request.kind != Kind.Fetch)
      ensures result.Failed? && guards != old(guards) ==>
                Kept(old(guards)[ticket.request.repo := if Strikes(fault, Filling) then Opened(ticket) else Complete(ticket)],
                     ticket, Strikes(fault, Point.Unlinking) && Lands(old(refs), ticket.request, effect))
      ensures fault == Smooth && Lands(old(refs), ticket.request, effect) ==> result.Done?
    {
      HoldsSlot(Claimed, ticket);
      if Strikes(fault, Opening) {
        result := Fail(Working(Claimed, ticket), ticket.request.kind, ticket.token, false,
                       fault.cleanup || ticket.request.kind == Kind.Push);
        return;
      }
      OpenGuard(ticket);
      assert guards - {ticket.request.repo} == old(guards);
      assert guards[ticket.request.repo := Complete(ticket)] == old(guards)[ticket.request.repo := Complete(ticket)];
      result := FillAndFinish(ticket, effect, fault);
    }

    /** What an operation may have done: all of it, or the update behind a guard that is still there. */
    ghost predicate Acted(d: Durable, x: Ticket, result: Outcome)
      reads this
    {
      match result
      case Done(oid) =>
        && oid == x.request.after && refs == d.refs[x.request.target := x.request.after] && locks == d.locks
        && receipts == d.receipts + {x.nonce} && guards == d.guards && x.token !in tables.jobs
      case Full => false
      case Failed(cleanup) =>
        && (refs == d.refs || (refs == d.refs[x.request.target := x.request.after] && HasTicket(Disk(), x.request.repo)))
        && (locks == d.locks || (locks == d.locks + {x.request.repo} && HasTicket(Disk(), x.request.repo)))
        && (guards == d.guards ==> refs == d.refs && locks == d.locks)
        && (guards != d.guards ==>
              cleanup && x.request.repo in guards && guards == d.guards[x.request.repo := guards[x.request.repo]])
    }

    /** From the slot to the receipt, for every kind of request. */
    method Operate(ticket: Ticket, effect: Effect, fault: Fault) returns (result: Outcome)
      requires Valid() && ticket.token !in history.names && Found(ticket.request)
      modifies `tables, `ledger, `guards, `receipts, `refs, `locks, `history, `run
      ensures Valid() && old(run) <= run
      ensures Ends(old(Disk()), ticket, effect, fault, result)
      ensures ticket.request.kind == Kind.Push && !Early(fault) && Ready(old(Disk()), ticket) ==>
                result.Done? || result == Failed(true)
      ensures result.Done? <== fault == Smooth && effect == Effect(true, true, false) && Ready(old(Disk()), ticket)
    {
      var stopped := Start(ticket, fault);
      if stopped.Some? {
        StoppedEnds(old(Disk()), ticket, effect, fault, stopped.value);
        return stopped.value;
      }
      ghost var d := Disk();
      result := GuardAndFinish(ticket, effect, fault);
      ActedEnds(old(Disk()), d, ticket, effect, fault, result);
    }

    lemma StoppedEnds(d: Durable, x: Ticket, effect: Effect, fault: Fault, result: Outcome)
      requires Stopped(d.tables, x, result) && !(Ready(d, x) && !Early(fault))
      requires (result == Full <==> |d.tables.jobs| >= limit) && (result == Full ==> Disk() == d)
      requires refs == d.refs && guards == d.guards && locks == d.locks
      ensures Ends(d, x, effect, fault, result)
    {
    }

    lemma ActedEnds(d: Durable, before: Durable, x: Ticket, effect: Effect, fault: Fault, result: Outcome)
      requires Ready(d, x) && !Early(fault) && x.nonce in ledger
      requires before.refs == d.refs && before.guards == d.guards && before.locks == d.locks && before.receipts == d.receipts
      requires Acted(before, x, result)
      requires result.Failed? && guards == d.guards ==>
                 && Strikes(fault, Opening)
                 && (x.token in tables.jobs <==> result.cleanup && x.request.kind != Kind.Fetch)
      requires result.Failed? && guards != d.guards ==>
                 Kept(d.guards[x.request.repo := if Strikes(fault, Filling) then Opened(x) else Complete(x)],
                      x, Strikes(fault, Point.Unlinking) && Lands(d.refs, x.request, effect))
      ensures Ends(d, x, effect, fault, result)
    {
    }

    /** A commit on the branch a local repository is on. */
    method Commit(token: Token, key: Key, commit: Oid, nonce: Nonce, effect: Effect, fault: Fault)
      returns (result: Outcome)
      requires Valid() && token !in history.names
      modifies `tables, `ledger, `guards, `receipts, `refs, `locks, `history, `run
      ensures Valid() && old(run) <= run
      ensures Ends(old(Disk()), Asked(old(Disk()), Kind.Commit, token, key, Head(heads, key), commit, nonce),
                   effect, fault, result)
      ensures (result.Done? <== fault == Smooth && effect == Effect(true, true, false)
               && Ready(old(Disk()), Asked(old(Disk()), Kind.Commit, token, key, Head(heads, key), commit, nonce)))
    {
      var branch := Head(heads, key);
      result := Operate(Ticket(token, Request(Kind.Commit, key, branch, Tip(refs, branch), commit), nonce), effect, fault);
    }

    /** A publication to a remote. From the attempt at the guard on every failure reports uncertain cleanup. */
    method Push(token: Token, key: Key, target: Ref, tip: Oid, nonce: Nonce, effect: Effect, fault: Fault)
      returns (result: Outcome)
      requires Valid() && token !in history.names
      modifies `tables, `ledger, `guards, `receipts, `refs, `locks, `history, `run
      ensures Valid() && old(run) <= run
      ensures Ends(old(Disk()), Asked(old(Disk()), Kind.Push, token, key, target, tip, nonce), effect, fault, result)
      ensures (result.Done? || result == Failed(true)
               <== !Early(fault) && Ready(old(Disk()), Asked(old(Disk()), Kind.Push, token, key, target, tip, nonce)))
      ensures (result.Done? <== fault == Smooth && effect == Effect(true, true, false)
               && Ready(old(Disk()), Asked(old(Disk()), Kind.Push, token, key, target, tip, nonce)))
    {
      result := Operate(Ticket(token, Request(Kind.Push, key, target, Tip(refs, target), tip), nonce), effect, fault);
    }

    /** A fetch into a tracking ref. Its guard appears with all it records; without one the slot is given back. */
    method Fetch(token: Token, key: Key, tracking: Ref, tip: Oid, nonce: Nonce, effect: Effect, fault: Fault)
      returns (result: Outcome)
      requires Valid() && token !in history.names
      modifies `tables, `ledger, `guards, `receipts, `refs, `locks, `history, `run
      ensures Valid() && old(run) <= run
      ensures Ends(old(Disk()), Asked(old(Disk()), Kind.Fetch, token, key, tracking, tip, nonce), effect, fault, result)
      ensures result.Failed? && guards == old(guards) ==> token !in tables.jobs
      ensures result.Failed? && guards != old(guards) ==>
                key in guards && guards[key] != Partial && (guards[key].Linked? <==> Strikes(fault, Filling))
      ensures (result.Done? <== fault == Smooth && effect == Effect(true, true, false)
               && Ready(old(Disk()), Asked(old(Disk()), Kind.Fetch, token, key, tracking, tip, nonce)))
    {
      result := Operate(Ticket(token, Request(Kind.Fetch, key, tracking, Tip(refs, tracking), tip), nonce), effect, fault);
    }

    /** The request as it is made on a disk. */
    ghost function Asked(d: Durable, kind: Kind, token: Token, key: Key, target: Ref, oid: Oid, nonce: Nonce): Ticket {
      Ticket(token, Request(kind, key, target, Tip(d.refs, target), oid), nonce)
    }

    /** What stands in no operation's way. */
    ghost predicate Ready(d: Durable, x: Ticket) {
      && |d.tables.jobs| < limit && x.request.repo !in d.guards && x.nonce !in d.ledger && x.request.repo !in d.locks
      && WellAimed(x.request)
    }

    /** The exception comes between resolving and unlinking: the one failure behind a guard that has no slot. */
    ghost predicate Overtaken(d: Durable, x: Ticket, effect: Effect, fault: Fault) {
      Ready(d, x) && Strikes(fault, Point.Unlinking) && Lands(d.refs, x.request, effect)
    }

    /**
     How an operation ends. Done: the ref moved, the receipt is durable, guard and slot are gone. Failed: no
     receipt is acknowledged; the ref moved, or a lock was left, only behind a guard that is still there; and
     the slot is kept exactly under uncertain cleanup, save for a fetch without a guard and when overtaken.
     */
    ghost predicate Ends(d: Durable, x: Ticket, effect: Effect, fault: Fault, result: Outcome)
      reads this
    {
      && (result == Full <==> |d.tables.jobs| >= limit) && (result == Full ==> Disk() == d)
      && (!result.Full? ==> Acted(d, x, result))
      && (result.Done? ==> x.nonce !in d.ledger && x.nonce in ledger && x.request.repo !in d.guards)
      && (result.Failed? ==>
            (x.token in tables.jobs <==>
               result.cleanup && !(x.request.kind == Kind.Fetch && guards == d.guards) && !Overtaken(d, x, effect, fault)))
      && (result.Failed? && guards != d.guards ==>
            && x.request.repo !in d.guards
            && guards[x.request.repo] == if Strikes(fault, Filling) then Opened(x) else Complete(x))
    }

    /** Until it is resolved an operation at work has its slot. */
    lemma HoldsSlot(stage: Stage, ticket: Ticket)
      requires Live(Working(stage, ticket)) && stage != Settled
      ensures Idle(tables, ticket.token) && (stage in {Claimed, Writing, Guarded} ==> ticket.token !in tables.gits)
    {
      RunKeeps(limit, run, |run| - 1);
      assert PlaceOK(run[|run| - 1], run[|run| - 1].procs[0]);
    }

    /**
     Owner recovery under a plan reviewed before; `cut` durable effects are reached, three being all.
     The plan is refused when it no longer is what is found.
     */
    method Recover(key: Key, reviewed: Plan, cut: nat) returns (ok: bool)
      requires Valid()
      modifies `tables, `guards, `recoveries, `run
      ensures Valid() && old(run) <= run
      ensures ok <==> PlanOf(old(Disk()), key) == Some(reviewed) && reviewed.verdict != Conflict
      ensures !ok ==> Disk() == old(Disk())
      ensures ok ==> Disk() == if cut < 3 then CutShort(old(Disk()), reviewed.ticket, cut)
                               else Recovered(old(Disk()), reviewed.ticket)
    {
      var found := PlanOf(Durable(tables, ledger, guards, receipts, recoveries, refs, heads, locks), key);
      if found != Some(reviewed) || reviewed.verdict == Conflict { return false; }
      var ticket := reviewed.ticket;
      StartReview(key, ticket);
      if cut == 0 { Cut(); return true; }
      NoteRecovery(ticket);
      if cut == 1 { Cut(); return true; }
      SettleRecovery(ticket);
      if cut == 2 { Cut(); return true; }
      RetireGuard(ticket);
      return true;
    }

    ghost method StartReview(key: Key, ticket: Ticket)
      requires Valid() && Recoverable(Disk(), key) && PlanOf(Disk(), key).value.ticket == ticket
      modifies `run
      ensures Live(Repairing(Checked, ticket)) && old(run) <= run
    {
      assert map[][0 := Repairing(Checked, ticket)] == map[0 := Repairing(Checked, ticket)];
      Trace(Review(0, key), map[0 := Repairing(Checked, ticket)]);
    }

    method NoteRecovery(ticket: Ticket)
      requires Live(Repairing(Checked, ticket))
      modifies `recoveries, `run
      ensures Live(Repairing(Noted, ticket)) && old(run) <= run && Disk() == Noting(old(Disk()), ticket)
    {
      AloneMoves(Noting(Disk(), ticket), Repairing(Checked, ticket), Repairing(Noted, ticket), history);
      recoveries := recoveries + {ticket.nonce};
      Trace(Note(0), map[0 := Repairing(Noted, ticket)]);
    }

    method SettleRecovery(ticket: Ticket)
      requires Live(Repairing(Noted, ticket))
      modifies `tables, `run
      ensures Live(Repairing(RepairStage.Unlinking, ticket)) && old(run) <= run
      ensures Disk() == Settling(old(Disk()), ticket)
    {
      AloneMoves(Settling(Disk(), ticket), Repairing(Noted, ticket), Repairing(RepairStage.Unlinking, ticket), history);
      tables := SettleIn(tables, ticket.token, ticket.request, ticket.request.repo);
      Trace(Step.Settle(0), map[0 := Repairing(RepairStage.Unlinking, ticket)]);
    }

    method RetireGuard(ticket: Ticket)
      requires Live(Repairing(RepairStage.Unlinking, ticket))
      modifies `guards, `run
      ensures Valid() && old(run) <= run && Disk() == Retiring(old(Disk()), ticket)
    {
      ghost var place := Repairing(RepairStage.Unlinking, ticket);
      AloneMoves(Retiring(Disk(), ticket), place, place, history);
      guards := guards - {ticket.request.repo};
      Trace(Retire(0), map[]);
    }

    /** Whatever was under way is gone; what it had made durable stays. */
    ghost method Cut()
      requires IsRun(limit, run) && run[|run| - 1].disk == Disk() && run[|run| - 1].history == history
      modifies `run
      ensures Valid() && old(run) <= run
    {
      Trace(Crash, map[]);
    }
  }
}
