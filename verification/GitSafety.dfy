/** What the Git protocol guarantees after any run, crashes and recoveries included. */
module GitSafety {
  import opened Admission
  import opened GitProtocol
  import opened GitInvariants
  import opened GitSteps

  // ---------------------------------------------------------------- guards

  /** Every claim that moved a ref is in the ledger, and a guard or a receipt still names it. */
  lemma GuardSafety(limit: nat, run: seq<World>, k: nat, n: Nonce)
    requires IsRun(limit, run) && k < |run| && n in run[k].history.moves
    ensures n in run[k].disk.ledger
    ensures GuardedBy(run[k], n) || n in run[k].disk.receipts || n in run[k].disk.recoveries
  {
    RunKeeps(limit, run, k);
  }

  lemma MovedOnce(limit: nat, run: seq<World>, k: nat, i: nat, j: nat)
    requires IsRun(limit, run) && k < |run| && i < j < |run[k].history.moves|
    ensures run[k].history.moves[i] != run[k].history.moves[j]
  {
    RunKeeps(limit, run, k);
  }

  /** `n` is about to move its ref: its guard is complete, its claim recorded and not yet used. */
  ghost predicate MovesUnder(w: World, v: World, n: Nonce) {
    && GuardedBy(w, n) && n !in w.history.moves && v.history.moves == w.history.moves + [n]
    && var r := w.disk.ledger[n];
       Tip(w.disk.refs, r.target) == r.before && v.disk.refs == w.disk.refs[r.target := r.after]
  }

  /** No step but a foreign write changes a ref except under a guard that was durable before. */
  lemma RefsMoveUnderGuard(limit: nat, run: seq<World>, i: nat, step: Step)
    requires IsRun(limit, run) && i + 1 < |run| && Does(limit, run[i], step, run[i + 1])
    requires !step.Foreign? && run[i + 1].disk.refs != run[i].disk.refs
    ensures var w, v := run[i], run[i + 1]; exists n :: MovesUnder(w, v, n)
  {
    RunKeeps(limit, run, i);
    StepMovesUnderGuard(limit, run[i], step, run[i + 1]);
  }

  lemma StepMovesUnderGuard(limit: nat, w: World, step: Step, v: World)
    requires Inv(limit, w) && Does(limit, w, step, v) && !step.Foreign? && v.disk.refs != w.disk.refs
    ensures exists n :: MovesUnder(w, v, n)
  {
    if step.Execute? {
      ExecutesUnderGuard(limit, w, v, step.p, step.moved, step.reported, step.locked);
    } else {
      OnlyExecuteMoves(limit, w, step, v);
    }
  }

  lemma OnlyExecuteMoves(limit: nat, w: World, step: Step, v: World)
    requires Does(limit, w, step, v) && !step.Foreign? && !step.Execute?
    ensures v.disk.refs == w.disk.refs && v.history.moves == w.history.moves
  {
  }

  lemma ExecutesUnderGuard(limit: nat, w: World, v: World, p: Pid, moved: bool, reported: bool, locked: bool)
    requires Inv(limit, w) && ExecuteStep(w, v, p, moved, reported, locked) && v.disk.refs != w.disk.refs
    ensures exists n :: MovesUnder(w, v, n)
  {
    assert PlaceOK(w, w.procs[p]);
    assert MovesUnder(w, v, w.procs[p].ticket.nonce);
  }

  // ---------------------------------------------------------------- admission

  /** Capacity is never exceeded; an active Git operation holds its row and has its guard. */
  lemma AdmissionConserved(limit: nat, run: seq<World>, k: nat)
    requires IsRun(limit, run) && k < |run|
    ensures |run[k].disk.tables.jobs| <= limit
    ensures forall t :: t in run[k].disk.tables.gits && run[k].disk.tables.gits[t].active ==>
              Idle(run[k].disk.tables, t) && RowOK(run[k], t, run[k].disk.tables.gits[t])
  {
    RunKeeps(limit, run, k);
  }

  /**
   Without a guard a failure keeps the slot exactly when cleanup is uncertain and it is no fetch. With
   one it changes nothing on disk, so the slot is there exactly if it was not resolved before.
   */
  lemma SlotAfterFailure(limit: nat, run: seq<World>, i: nat, p: Pid, cleanup: bool)
    requires IsRun(limit, run) && i + 1 < |run| && Does(limit, run[i], Fail(p, cleanup), run[i + 1])
    ensures var place := run[i].procs[p];
            && (TokenOf(place) in run[i + 1].disk.tables.jobs <==>
                  if HoldsGuard(place) then place.stage != Settled else cleanup && KindOf(place) != Fetch)
            && (HoldsGuard(place) ==>
                  run[i + 1].disk == run[i].disk && place.ticket.request.repo in run[i].disk.guards)
  {
    RunKeeps(limit, run, i);
    assert PlaceOK(run[i], run[i].procs[p]);
  }

  predicate ActiveIn(w: World, t: Token) {
    t in w.disk.tables.gits && w.disk.tables.gits[t].active
  }

  ghost predicate Receipted(w: World, t: Token) {
    && t in w.history.names && w.history.names[t].Some?
    && var n := w.history.names[t].value; n in w.disk.receipts || n in w.disk.recoveries
  }

  /** Nothing ends an active operation before a success or recovery receipt for its claim is durable. */
  lemma EndsOnlyWithReceipt(limit: nat, run: seq<World>, i: nat, t: Token)
    requires IsRun(limit, run) && i + 1 < |run| && ActiveIn(run[i], t) && !ActiveIn(run[i + 1], t)
    ensures Receipted(run[i], t)
  {
    RunKeeps(limit, run, i);
    assert Moves(limit, run, i);
    var step :| Does(limit, run[i], step, run[i + 1]);
    EndsWithReceipt(limit, run[i], step, run[i + 1], t);
  }

  lemma EndsWithReceipt(limit: nat, w: World, step: Step, v: World, t: Token)
    requires Inv(limit, w) && Does(limit, w, step, v) && ActiveIn(w, t) && !ActiveIn(v, t)
    ensures Receipted(w, t)
  {
    if step.Resolve? || step.Settle? || step.Fail? {
      assert PlaceOK(w, w.procs[step.p]);
    } else {
      OnlyEndersEnd(limit, w, step, v, t);
    }
  }

  lemma OnlyEndersEnd(limit: nat, w: World, step: Step, v: World, t: Token)
    requires Does(limit, w, step, v) && ActiveIn(w, t) && !step.Resolve? && !step.Settle? && !step.Fail?
    ensures step.Bind? || v.disk.tables.gits == w.disk.tables.gits
    ensures ActiveIn(v, t)
  {
  }
}
