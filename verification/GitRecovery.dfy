/** What owner recovery finds after a crash, and where it leads however often it is interrupted. */
module GitRecovery {
  import opened Bytes
  import opened Admission
  import opened GitProtocol
  import opened GitInvariants
  import opened GitSteps

  predicate HasTicket(d: Durable, key: Key) {
    key in d.guards && d.guards[key].Complete?
  }

  // ---------------------------------------------------------------- classification

  lemma PlanFound(limit: nat, w: World, key: Key)
    requires Inv(limit, w)
    ensures PlanOf(w.disk, key).Some? <==> HasTicket(w.disk, key)
    ensures HasTicket(w.disk, key) ==> PlanOf(w.disk, key).value.ticket == w.disk.guards[key].ticket
  {
  }

  /**
   Recovery can proceed exactly when the guard is whole under its one name, the ref is at one of the
   two expected tips and, for a commit, no lock is left and the branch is still the one committed to.
   */
  lemma RecoverableExactly(limit: nat, run: seq<World>, k: nat, key: Key)
    requires IsRun(limit, run) && k < |run|
    ensures var d := run[k].disk;
            Recoverable(d, key) <==>
              && HasTicket(d, key)
              && var r := d.guards[key].ticket.request;
                 && Tip(d.refs, r.target) in {r.before, r.after}
                 && (r.kind == Commit ==> key !in d.locks && Head(d.heads, key) == r.target)
  {
    RunKeeps(limit, run, k);
    PlanFound(limit, run[k], key);
  }

  /**
   With no other writer of its ref, branch or locks an interrupted fetch is never a conflict, and a
   commit is one exactly if its update left a lock. The verdict tells whether the update took effect.
   */
  lemma VerdictIsTruth(limit: nat, run: seq<World>, k: nat, key: Key)
    requires IsRun(limit, run) && k < |run| && HasTicket(run[k].disk, key)
    requires var r := run[k].disk.guards[key].ticket.request;
             && r.kind != Push && r.target !in run[k].history.foreign
             && (r.kind == Commit ==> key !in run[k].history.meddled)
    ensures var x := run[k].disk.guards[key].ticket;
            && (Recoverable(run[k].disk, key) <==> !(x.request.kind == Commit && key in run[k].disk.locks))
            && (Recoverable(run[k].disk, key) && x.request.before != x.request.after ==>
                  (PlanOf(run[k].disk, key).value.verdict == Applied <==> x.nonce in run[k].history.moves))
  {
    RunKeeps(limit, run, k);
    PlanFound(limit, run[k], key);
    assert GuardOK(run[k], key, run[k].disk.guards[key]);
  }

  // ---------------------------------------------------------------- recovery, interrupted at will

  function Recovered(d: Durable, x: Ticket): Durable {
    Retiring(Settling(Noting(d, x), x), x)
  }

  /** A recovery cut short after its first `done` effects. */
  function CutShort(d: Durable, x: Ticket, done: nat): Durable {
    if done == 0 then d else if done == 1 then Noting(d, x) else Settling(Noting(d, x), x)
  }

  /** Recoveries begun one after the other, none of them finished. */
  function Attempts(d: Durable, x: Ticket, cuts: seq<nat>): Durable
    decreases |cuts|
  {
    if cuts == [] then d else Attempts(CutShort(d, x, cuts[0]), x, cuts[1..])
  }

  lemma CutStaysRecoverable(d: Durable, key: Key, done: nat)
    requires Recoverable(d, key)
    ensures var plan := PlanOf(d, key).value;
            var e := CutShort(d, plan.ticket, done);
            && Recoverable(e, key)
            && PlanOf(e, key).value.ticket == plan.ticket && PlanOf(e, key).value.verdict == plan.verdict
            && PlanOf(e, key).value.linkage == (if done >= 2 then Linkage.Resolved else plan.linkage)
  {
  }

  lemma CutThenRecovered(d: Durable, key: Key, done: nat)
    requires Recoverable(d, key)
    ensures var x := PlanOf(d, key).value.ticket; Recovered(CutShort(d, x, done), x) == Recovered(d, x)
  {
  }

  /** However often recovery is begun and cut short, what it finally leaves is what one undisturbed run leaves. */
  lemma {:induction false} RecoveryConverges(d: Durable, key: Key, cuts: seq<nat>)
    requires Recoverable(d, key)
    ensures var plan := PlanOf(d, key).value;
            var e := Attempts(d, plan.ticket, cuts);
            && Recoverable(e, key) && PlanOf(e, key).value.ticket == plan.ticket
            && PlanOf(e, key).value.verdict == plan.verdict
            && Recovered(e, plan.ticket) == Recovered(d, plan.ticket)
    decreases |cuts|
  {
    if cuts == [] {
    } else {
      var x := PlanOf(d, key).value.ticket;
      CutStaysRecoverable(d, key, cuts[0]);
      CutThenRecovered(d, key, cuts[0]);
      RecoveryConverges(CutShort(d, x, cuts[0]), key, cuts[1..]);
    }
  }

  /** Recovery releases the guard and the capacity of its request, and touches no ref, claim or success receipt. */
  lemma RecoveryEffect(d: Durable, key: Key)
    requires Recoverable(d, key)
    ensures var x := PlanOf(d, key).value.ticket;
            var e := Recovered(d, x);
            && e.refs == d.refs && e.ledger == d.ledger && e.receipts == d.receipts
            && key !in e.guards && e.guards == d.guards - {key} && x.nonce in e.recoveries
            && x.token in e.tables.gits && !e.tables.gits[x.token].active && !Idle(e.tables, x.token)
            && (forall t: Token :: t != x.token ==>
                  && (t in e.tables.jobs <==> t in d.tables.jobs)
                  && (t in d.tables.jobs ==> e.tables.jobs[t] == d.tables.jobs[t])
                  && (t in e.tables.gits <==> t in d.tables.gits)
                  && (t in d.tables.gits ==> e.tables.gits[t] == d.tables.gits[t]))
  {
  }

  /** A restart between two attempts changes nothing in the end, even for a guard never bound. */
  lemma SweepCommutes(a: Tables, t: Token, r: Request, guard: Key, failed: set<JobId>)
    requires LinkageOf(a, t, r, guard).Some? && (t in a.jobs ==> a.jobs[t] == None)
    ensures SettleIn(SweepIn(a, failed), t, r, guard) == SweepIn(SettleIn(a, t, r, guard), failed)
  {
  }

  // ---------------------------------------------------------------- as steps of the machine

  lemma Longer(limit: nat, run: seq<World>, step: Step, v: World) returns (longer: seq<World>)
    requires IsRun(limit, run) && Does(limit, run[|run| - 1], step, v)
    ensures IsRun(limit, longer) && longer == run + [v]
  {
    longer := run + [v];
    forall i: nat | i + 1 < |longer| ensures Moves(limit, longer, i) {
      if i + 1 < |run| { assert Moves(limit, run, i); }
    }
  }

  /** One process alone. */
  function Alone(d: Durable, place: Place, h: History): World {
    World(d, map[0 := place], h)
  }

  lemma AloneMoves(d: Durable, a: Place, b: Place, h: History)
    ensures Put(Alone(d, a, h), 0, b) == Alone(d, b, h) && Gone(Alone(d, a, h), 0) == World(d, map[], h)
  {
  }

  lemma RecoveryBegins(limit: nat, run: seq<World>, p: Pid, key: Key) returns (longer: seq<World>)
    requires IsRun(limit, run) && run[|run| - 1].procs == map[] && Recoverable(run[|run| - 1].disk, key)
    ensures IsRun(limit, longer) && |longer| == |run| + 2 && longer[..|run|] == run
    ensures var w := run[|run| - 1];
            var x := PlanOf(w.disk, key).value.ticket;
            longer[|longer| - 1] == World(Noting(w.disk, x), map[p := Repairing(Noted, x)], w.history)
  {
    var w := run[|run| - 1];
    var x := PlanOf(w.disk, key).value.ticket;
    var w1 := World(w.disk, map[p := Repairing(Checked, x)], w.history);
    longer := Longer(limit, run, Review(p, key), w1);
    var w2 := World(Noting(w.disk, x), map[p := Repairing(Noted, x)], w.history);
    assert w1.procs[p := Repairing(Noted, x)] == w2.procs;
    longer := Longer(limit, longer, Note(p), w2);
  }

  lemma Settles(limit: nat, d: Durable, p: Pid, x: Ticket, h: History)
    ensures Does(limit, World(d, map[p := Repairing(Noted, x)], h), Settle(p),
                 World(Settling(d, x), map[p := Repairing(Unlinking, x)], h))
  {
  }

  lemma Retires(limit: nat, d: Durable, p: Pid, x: Ticket, h: History)
    ensures Does(limit, World(d, map[p := Repairing(Unlinking, x)], h), Retire(p), World(Retiring(d, x), map[], h))
  {
  }

  lemma RecoveryEnds(limit: nat, run: seq<World>, p: Pid, x: Ticket) returns (longer: seq<World>)
    requires IsRun(limit, run) && run[|run| - 1].procs == map[p := Repairing(Noted, x)]
    ensures IsRun(limit, longer) && |longer| == |run| + 2 && longer[..|run|] == run
    ensures var w := run[|run| - 1];
            longer[|longer| - 1] == World(Retiring(Settling(w.disk, x), x), map[], w.history)
  {
    var w2 := run[|run| - 1];
    var w3 := World(Settling(w2.disk, x), map[p := Repairing(Unlinking, x)], w2.history);
    Settles(limit, w2.disk, p, x, w2.history);
    longer := Longer(limit, run, Settle(p), w3);
    var w4 := World(Retiring(w3.disk, x), map[], w3.history);
    Retires(limit, w3.disk, p, x, w3.history);
    longer := Longer(limit, longer, Retire(p), w4);
  }

  /** From any moment with no process alive the owner can carry a recovery through. */
  lemma RecoveryRuns(limit: nat, run: seq<World>, p: Pid, key: Key) returns (longer: seq<World>)
    requires IsRun(limit, run) && run[|run| - 1].procs == map[] && Recoverable(run[|run| - 1].disk, key)
    ensures IsRun(limit, longer) && |longer| == |run| + 4 && longer[..|run|] == run
    ensures var w := run[|run| - 1];
            longer[|longer| - 1] == World(Recovered(w.disk, PlanOf(w.disk, key).value.ticket), map[], w.history)
  {
    longer := RecoveryBegins(limit, run, p, key);
    longer := RecoveryEnds(limit, longer, p, PlanOf(run[|run| - 1].disk, key).value.ticket);
  }

  // ---------------------------------------------------------------- over runs

  /** The steps of recoveries of one repository, cut short and begun again, with restarts in between. */
  predicate Repairs(step: Step, key: Key) {
    (step.Review? && step.key == key) || step.Note? || step.Settle? || step.Retire? || step.Crash? || step.Sweep?
  }

  /** Between moments `i` and `j` the run is made of these steps. */
  ghost predicate RepairsOnly(limit: nat, run: seq<World>, steps: seq<Step>, i: nat, j: nat, key: Key) {
    && i <= j < |run| && j <= |steps|
    && (i < j ==>
          && RepairsOnly(limit, run, steps, i, j - 1, key)
          && Repairs(steps[j - 1], key) && Does(limit, run[j - 1], steps[j - 1], run[j]))
  }

  /** What is left when a step that is a restart comes after everything else. */
  function SweptBy(d: Durable, step: Step): Durable {
    if step.Sweep? then d.(tables := SweepIn(d.tables, step.failed)) else d
  }

  function Swept(d: Durable, steps: seq<Step>, i: nat, j: nat): Durable
    requires i <= j <= |steps|
  {
    if i == j then d else SweptBy(Swept(d, steps, i, j - 1), steps[j - 1])
  }

  /** On the way from `d` to its recovery, or there. */
  ghost predicate Underway(w: World, key: Key, plan: Plan) {
    if key in w.disk.guards then
      && Recoverable(w.disk, key) && PlanOf(w.disk, key).value.ticket == plan.ticket
      && PlanOf(w.disk, key).value.verdict == plan.verdict
      && forall p :: p in w.procs ==> KeyOf(w.procs[p]) == Some(key) && w.procs[p].Repairing?
    else
      w.procs == map[] && w.disk == Recovered(w.disk, plan.ticket) && plan.ticket.token !in w.disk.tables.jobs
  }

  /** A process under way works on the guard of `key`, and has done what its phase says. */
  lemma AtWork(limit: nat, w: World, p: Pid, key: Key, plan: Plan)
    requires Inv(limit, w) && Underway(w, key, plan) && p in w.procs
    ensures key in w.disk.guards && w.procs[p].Repairing? && w.procs[p].ticket == plan.ticket
    ensures w.procs[p].phase != Checked ==> Noting(w.disk, plan.ticket) == w.disk
  {
    assert PlaceOK(w, w.procs[p]);
  }

  lemma NoteCuts(limit: nat, w: World, step: Step, v: World, key: Key, plan: Plan)
    requires Inv(limit, w) && Underway(w, key, plan) && Does(limit, w, step, v) && (step.Note? || step.Settle?)
    ensures key in w.disk.guards && v.disk == CutShort(w.disk, plan.ticket, if step.Note? then 1 else 2)
    ensures forall p :: p in v.procs ==> KeyOf(v.procs[p]) == Some(key) && v.procs[p].Repairing?
  {
    AtWork(limit, w, step.p, key, plan);
  }

  lemma NoteStaysUnderway(limit: nat, w: World, step: Step, v: World, key: Key, plan: Plan)
    requires Inv(limit, w) && Underway(w, key, plan) && Does(limit, w, step, v) && (step.Note? || step.Settle?)
    ensures Underway(v, key, plan) && Recovered(v.disk, plan.ticket) == Recovered(w.disk, plan.ticket)
  {
    NoteCuts(limit, w, step, v, key, plan);
    CutStaysRecoverable(w.disk, key, if step.Note? then 1 else 2);
    CutThenRecovered(w.disk, key, if step.Note? then 1 else 2);
  }

  lemma RetireEndsIt(limit: nat, w: World, step: Step, v: World, key: Key, plan: Plan)
    requires Inv(limit, w) && Underway(w, key, plan) && Does(limit, w, step, v) && step.Retire?
    ensures Underway(v, key, plan) && Recovered(v.disk, plan.ticket) == Recovered(w.disk, plan.ticket)
  {
    assert PlaceOK(w, w.procs[step.p]);
    assert Settling(Noting(w.disk, plan.ticket), plan.ticket) == w.disk;
  }

  lemma SweepStaysUnderway(limit: nat, w: World, failed: set<JobId>, v: World, key: Key, plan: Plan)
    requires Inv(limit, w) && Underway(w, key, plan) && Does(limit, w, Sweep(failed), v)
    ensures Underway(v, key, plan)
    ensures Recovered(v.disk, plan.ticket) == SweptBy(Recovered(w.disk, plan.ticket), Sweep(failed))
  {
    var x := plan.ticket;
    if key in w.disk.guards { assert GuardOK(w, key, w.disk.guards[key]); }
    SweepCommutes(w.disk.tables, x.token, x.request, x.request.repo, failed);
  }

  lemma RepairStaysUnderway(limit: nat, w: World, step: Step, v: World, key: Key, plan: Plan)
    requires Inv(limit, w) && Underway(w, key, plan) && Does(limit, w, step, v) && Repairs(step, key)
    ensures Underway(v, key, plan)
    ensures Recovered(v.disk, plan.ticket) == SweptBy(Recovered(w.disk, plan.ticket), step)
  {
    if step.Note? || step.Settle? {
      NoteStaysUnderway(limit, w, step, v, key, plan);
    } else if step.Retire? {
      RetireEndsIt(limit, w, step, v, key, plan);
    } else if step.Sweep? {
      SweepStaysUnderway(limit, w, step.failed, v, key, plan);
    }
  }

  lemma RepairAt(limit: nat, run: seq<World>, steps: seq<Step>, i: nat, j: nat, key: Key)
    requires IsRun(limit, run) && RepairsOnly(limit, run, steps, i, j, key) && i < j
    ensures Inv(limit, run[j - 1]) && Repairs(steps[j - 1], key) && Does(limit, run[j - 1], steps[j - 1], run[j])
  {
    RunKeeps(limit, run, j - 1);
  }

  lemma {:induction false} StaysUnderway(limit: nat, run: seq<World>, steps: seq<Step>, i: nat, j: nat, key: Key, plan: Plan)
    requires IsRun(limit, run) && RepairsOnly(limit, run, steps, i, j, key) && Underway(run[i], key, plan)
    ensures Underway(run[j], key, plan)
    ensures Recovered(run[j].disk, plan.ticket) == Swept(Recovered(run[i].disk, plan.ticket), steps, i, j)
    decreases j
  {
    if i == j {
    } else {
      StaysUnderway(limit, run, steps, i, j - 1, key, plan);
      RepairAt(limit, run, steps, i, j, key);
      RepairStaysUnderway(limit, run[j - 1], steps[j - 1], run[j], key, plan);
    }
  }

  /**
   Whatever recoveries of `key` are begun and cut short, and however restarts fall in between: while the
   guard is there it can be recovered with the same verdict, and once it is gone what is left is what
   one undisturbed recovery at the beginning and the restarts after it would have left.
   */
  lemma RecoveryConvergesInRuns(limit: nat, run: seq<World>, steps: seq<Step>, i: nat, j: nat, key: Key)
    requires IsRun(limit, run) && RepairsOnly(limit, run, steps, i, j, key)
    requires run[i].procs == map[] && Recoverable(run[i].disk, key)
    ensures var plan := PlanOf(run[i].disk, key).value;
            var d := run[j].disk;
            var left := Swept(Recovered(run[i].disk, plan.ticket), steps, i, j);
            if key in d.guards then
              && Recoverable(d, key) && PlanOf(d, key).value.verdict == plan.verdict
              && Recovered(d, plan.ticket) == left
            else d == left
  {
    StaysUnderway(limit, run, steps, i, j, key, PlanOf(run[i].disk, key).value);
  }

  // ---------------------------------------------------------------- guards no recovery accepts

  /** A guard recovery refuses whatever the ref says: not yet whole under one name, or a commit's beside a lock. */
  predicate Refused(d: Durable, key: Key) {
    && key in d.guards
    && (!d.guards[key].Complete? || (d.guards[key].ticket.request.kind == Commit && key in d.locks))
  }

  /** Whoever wrote the guard is gone, and recovery refuses it. */
  ghost predicate Closed(w: World, key: Key) {
    Refused(w.disk, key) && forall p :: p in w.procs ==> KeyOf(w.procs[p]) != Some(key)
  }

  lemma ClosedByProcess(limit: nat, w: World, step: Step, v: World, key: Key)
    requires Inv(limit, w) && Closed(w, key) && Does(limit, w, step, v)
    requires step.Lease? || step.Propose? || step.Claim? || step.OpenGuard? || step.WriteGuard? || step.Unlink?
    ensures Closed(v, key) && v.disk.guards[key] == w.disk.guards[key]
  {
    assert PlaceOK(w, w.procs[step.p]) && KeyOf(w.procs[step.p]) != Some(key);
  }

  lemma ClosedByRecovery(limit: nat, w: World, step: Step, v: World, key: Key)
    requires Inv(limit, w) && Closed(w, key) && Does(limit, w, step, v)
    requires step.Review? || step.Note? || step.Settle? || step.Retire?
    ensures Closed(v, key) && v.disk.guards[key] == w.disk.guards[key]
  {
    if step.Review? {
      assert GuardOK(w, step.key, w.disk.guards[step.key]);
    } else {
      assert PlaceOK(w, w.procs[step.p]) && KeyOf(w.procs[step.p]) != Some(key);
    }
  }

  lemma ClosedOtherwise(limit: nat, w: World, step: Step, v: World, key: Key)
    requires Closed(w, key) && Does(limit, w, step, v)
    requires !(step.Lease? || step.Propose? || step.Claim? || step.OpenGuard? || step.WriteGuard? || step.Unlink?)
    requires !(step.Review? || step.Note? || step.Settle? || step.Retire?)
    requires w.disk.guards[key].Complete? ==> !(step.Meddle? && step.key == key)
    ensures Closed(v, key) && v.disk.guards[key] == w.disk.guards[key]
  {
  }

  lemma ClosedByStep(limit: nat, w: World, step: Step, v: World, key: Key)
    requires Inv(limit, w) && Closed(w, key) && Does(limit, w, step, v)
    requires w.disk.guards[key].Complete? ==> key !in v.history.meddled
    ensures Closed(v, key) && v.disk.guards[key] == w.disk.guards[key]
  {
    if step.Lease? || step.Propose? || step.Claim? || step.OpenGuard? || step.WriteGuard? || step.Unlink? {
      ClosedByProcess(limit, w, step, v, key);
    } else if step.Review? || step.Note? || step.Settle? || step.Retire? {
      ClosedByRecovery(limit, w, step, v, key);
    } else {
      ClosedOtherwise(limit, w, step, v, key);
    }
  }

  lemma ClosedAfter(limit: nat, w: World, v: World, key: Key)
    requires Inv(limit, w) && Next(limit, w, v) && Closed(w, key)
    requires w.disk.guards[key].Complete? ==> key !in v.history.meddled
    ensures Closed(v, key) && v.disk.guards[key] == w.disk.guards[key]
  {
    var step :| Does(limit, w, step, v);
    ClosedByStep(limit, w, step, v, key);
  }

  lemma NotRecoverable(d: Durable, key: Key)
    requires Refused(d, key)
    ensures !Recoverable(d, key)
  {
  }

  lemma ClosedNext(limit: nat, run: seq<World>, j: nat, key: Key)
    requires IsRun(limit, run) && 0 < j < |run| && Closed(run[j - 1], key)
    requires run[j - 1].disk.guards[key].Complete? ==> key !in run[j].history.meddled
    ensures Closed(run[j], key) && run[j].disk.guards[key] == run[j - 1].disk.guards[key]
  {
    RunKeeps(limit, run, j - 1);
    assert Moves(limit, run, j - 1);
    ClosedAfter(limit, run[j - 1], run[j], key);
  }

  /**
   A guard left unfinished by a crash is never recovered: its repository stays closed from then on. So
   does that of a commit which left a lock, for as long as nobody else changes locks or branch.
   */
  lemma {:induction false} ClosedStays(limit: nat, run: seq<World>, i: nat, j: nat, key: Key)
    requires IsRun(limit, run) && i <= j < |run| && Closed(run[i], key)
    requires run[i].disk.guards[key].Complete? ==> forall m :: i < m <= j ==> key !in run[m].history.meddled
    ensures Closed(run[j], key) && run[j].disk.guards[key] == run[i].disk.guards[key]
    ensures !Recoverable(run[j].disk, key)
  {
    if i == j {
    } else {
      ClosedStays(limit, run, i, j - 1, key);
      ClosedNext(limit, run, j, key);
    }
    NotRecoverable(run[j].disk, key);
  }

  /** Behind an unfinished guard nothing was moved that a receipt does not already account for. */
  lemma UnfinishedGuardMovedNothing(limit: nat, run: seq<World>, k: nat, key: Key, n: Nonce)
    requires IsRun(limit, run) && k < |run| && key in run[k].disk.guards && !run[k].disk.guards[key].Complete?
    requires n in run[k].history.moves && n in run[k].disk.ledger && run[k].disk.ledger[n].repo == key
    ensures n in run[k].disk.receipts || n in run[k].disk.recoveries
  {
    RunKeeps(limit, run, k);
    assert MoveOK(run[k], n);
  }

  // ---------------------------------------------------------------- and the runs that leave them

  /** A disk on which only the ref of a request is set, on its branch if it is a commit. */
  function Blank(r: Request): Durable {
    Durable(Tables(map[], map[]), map[], map[], {}, {}, map[r.target := r.before],
            if r.kind == Commit then map[r.repo := r.target] else map[], {})
  }

  const NAMED := History(map[0 := None], [], {}, {})

  lemma UpToEntry(limit: nat, r: Request) returns (run: seq<World>)
    requires limit > 0
    ensures IsRun(limit, run)
    ensures run[|run| - 1] == Alone(Blank(r).(tables := Tables(map[0 := None], map[])), Slotted(r.kind, 0), NAMED)
  {
    var d := Blank(r).(tables := Tables(map[0 := None], map[]));
    run := [World(Blank(r), map[], History(map[], [], {}, {}))];
    run := Longer(limit, run, Enter(0, r.kind, 0), Alone(d, Slotted(r.kind, 0), NAMED));
  }

  lemma UpToProposal(limit: nat, r: Request) returns (run: seq<World>)
    requires limit > 0 && WellAimed(r)
    ensures IsRun(limit, run)
    ensures run[|run| - 1] == Alone(Blank(r).(tables := Tables(map[0 := None], map[])), Proposed(0, r), NAMED)
  {
    var h := NAMED;
    var d := Blank(r).(tables := Tables(map[0 := None], map[]));
    run := UpToEntry(limit, r);
    AloneMoves(d, Slotted(r.kind, 0), Leased(r.kind, 0, r.repo), h);
    run := Longer(limit, run, Lease(0, r.repo), Alone(d, Leased(r.kind, 0, r.repo), h));
    AloneMoves(d, Leased(r.kind, 0, r.repo), Proposed(0, r), h);
    run := Longer(limit, run, Propose(0, r), Alone(d, Proposed(0, r), h));
  }

  /** The disk once a request has its guard. */
  function Guarding(r: Request, guard: Guard): Durable {
    Blank(r).(tables := Tables(map[0 := None], map[]), ledger := map[0 := r], guards := map[r.repo := guard])
  }

  const CLAIMED := History(map[0 := Some(0)], [], {}, {})

  lemma UpToWriting(limit: nat, r: Request) returns (run: seq<World>)
    requires limit > 0 && WellAimed(r)
    ensures IsRun(limit, run)
    ensures var x := Ticket(0, r, 0); run[|run| - 1] == Alone(Guarding(r, Opened(x)), Working(Writing, x), CLAIMED)
  {
    run := UpToProposal(limit, r);
    var x := Ticket(0, r, 0);
    var d := run[|run| - 1].disk.(ledger := map[0 := r]);
    AloneMoves(d, Proposed(0, r), Working(Claimed, x), CLAIMED);
    run := Longer(limit, run, Claim(0, 0), Alone(d, Working(Claimed, x), CLAIMED));
    AloneMoves(Guarding(r, Opened(x)), Working(Claimed, x), Working(Writing, x), CLAIMED);
    run := Longer(limit, run, OpenGuard(0), Alone(Guarding(r, Opened(x)), Working(Writing, x), CLAIMED));
  }

  /** Any request can leave one: a crash between making the guard and finishing it. */
  lemma UnfinishedGuardHappens(limit: nat, r: Request) returns (run: seq<World>)
    requires limit > 0 && WellAimed(r)
    ensures IsRun(limit, run) && run[|run| - 1].procs == map[]
    ensures Closed(run[|run| - 1], r.repo) && run[|run| - 1].disk.guards[r.repo] == Opened(Ticket(0, r, 0))
  {
    run := UpToWriting(limit, r);
    run := Longer(limit, run, Crash, run[|run| - 1].(procs := map[]));
  }

  function Row0(r: Request): Row {
    Row(r, r.repo, true)
  }

  lemma UpToBound(limit: nat, r: Request) returns (run: seq<World>)
    requires limit > 0 && WellAimed(r)
    ensures IsRun(limit, run)
    ensures var x := Ticket(0, r, 0);
            run[|run| - 1] == Alone(Guarding(r, Complete(x)).(tables := Tables(map[0 := None], map[0 := Row0(r)])),
                                    Working(Bound, x), CLAIMED)
  {
    run := UpToWriting(limit, r);
    var x := Ticket(0, r, 0);
    var d := Guarding(r, Complete(x));
    AloneMoves(d, Working(Writing, x), Working(Guarded, x), CLAIMED);
    run := Longer(limit, run, WriteGuard(0), Alone(d, Working(Guarded, x), CLAIMED));
    var e := d.(tables := Tables(map[0 := None], map[0 := Row0(r)]));
    AloneMoves(e, Working(Guarded, x), Working(Bound, x), CLAIMED);
    run := Longer(limit, run, Bind(0), Alone(e, Working(Bound, x), CLAIMED));
  }

  /** A commit whose update dies can leave its lock, whether the ref moved or not, with nobody else involved. */
  lemma LockedCommitHappens(limit: nat, r: Request, moved: bool) returns (run: seq<World>)
    requires limit > 0 && WellAimed(r) && r.kind == Commit
    ensures IsRun(limit, run) && run[|run| - 1].procs == map[]
    ensures var w := run[|run| - 1];
            && Closed(w, r.repo) && HasTicket(w.disk, r.repo) && w.history.foreign == {} && w.history.meddled == {}
            && Tip(w.disk.refs, r.target) == if moved then r.after else r.before
  {
    run := UpToBound(limit, r);
    var w := run[|run| - 1];
    var x := Ticket(0, r, 0);
    var h := if moved then CLAIMED.(moves := [0]) else CLAIMED;
    AloneMoves(w.disk, Working(Bound, x), Working(Bound, x), CLAIMED);
    run := Longer(limit, run, Execute(0, moved, false, true), World(Updated(w.disk, r, moved, true), map[], h));
  }

  lemma UpToReceipted(limit: nat, r: Request) returns (run: seq<World>)
    requires limit > 0 && WellAimed(r)
    ensures IsRun(limit, run)
    ensures var x := Ticket(0, r, 0);
            && run[|run| - 1].procs == map[0 := Working(Receipted, x)] && HasTicket(run[|run| - 1].disk, r.repo)
            && run[|run| - 1].disk.tables.jobs == map[0 := None]
  {
    run := UpToBound(limit, r);
    var x := Ticket(0, r, 0);
    var h := CLAIMED.(moves := [0]);
    var d := Updated(run[|run| - 1].disk, r, true, false);
    AloneMoves(d, Working(Bound, x), Working(Ran, x), h);
    run := Longer(limit, run, Execute(0, true, true, false), Alone(d, Working(Ran, x), h));
    var e := d.(receipts := {0});
    AloneMoves(e, Working(Ran, x), Working(Receipted, x), h);
    run := Longer(limit, run, Acknowledge(0), Alone(e, Working(Receipted, x), h));
  }

  /** An exception between resolving and unlinking leaves a guard without a slot. */
  lemma GuardWithoutSlotHappens(limit: nat, r: Request) returns (run: seq<World>)
    requires limit > 0 && WellAimed(r)
    ensures IsRun(limit, run) && |run| > 1
    ensures var v := run[|run| - 1];
            && Does(limit, run[|run| - 2], Fail(0, true), v)
            && v.procs == map[] && HasTicket(v.disk, r.repo) && 0 !in v.disk.tables.jobs
  {
    run := UpToReceipted(limit, r);
    var x := Ticket(0, r, 0);
    var w := run[|run| - 1];
    var d := w.disk.(tables := ResolveIn(w.disk.tables, 0));
    AloneMoves(d, Working(Receipted, x), Working(Settled, x), w.history);
    run := Longer(limit, run, Resolve(0), Alone(d, Working(Settled, x), w.history));
    AloneMoves(d, Working(Settled, x), Working(Settled, x), w.history);
    run := Longer(limit, run, Fail(0, true), World(d, map[], w.history));
  }
}
