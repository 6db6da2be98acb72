/**
 A launched job races its own admission: the monitor may judge the job and release its
 capacity before, between or after the binder's transaction.
 */
module LaunchRace {
  import opened Bytes
  import opened Admission

  /** `Over` stands for every terminal status; in the others the binder leaves the slot taken. */
  datatype Status = Queued | Running | Cancelling | Finalizing | CleanupFailed | Over

  datatype Binder = Launched | Bound | Broken

  /** `clean` says that the monitor saw every descendant gone. */
  datatype Monitor = Watching | Judged(clean: bool) | Finished(clean: bool)

  datatype Race = Race(tables: Tables, status: Status, binder: Binder, monitor: Monitor)

  datatype Step = Bind | Break | Cancel | CancelFails | Finalize | Judge(clean: bool) | Release

  /** The job is launched and its slot not yet bound to it. */
  predicate Started(r: Race, t: Token, job: JobId) {
    && Idle(r.tables, t) && RowsOf(r.tables, job) == {} && r.status in {Queued, Running}
    && r.binder == Launched && r.monitor == Watching
  }

  ghost predicate Does(r: Race, step: Step, q: Race, t: Token, job: JobId) {
    match step
    case Bind =>
      r.binder == Launched && q == r.(binder := Bound, tables := BindJobIn(r.tables, t, job, r.status == Over))
    case Break => r.binder == Launched && q == r.(binder := Broken)
    case Cancel => r.status == Running && q == r.(status := Cancelling)
    case CancelFails => r.status == Cancelling && q == r.(status := CleanupFailed)
    case Finalize => r.status == Running && r.monitor == Watching && q == r.(status := Finalizing)
    case Judge(clean) =>
      r.monitor == Watching && q == r.(monitor := Judged(clean), status := if clean then Over else CleanupFailed)
    case Release =>
      r.monitor.Judged? && q == r.(monitor := Finished(r.monitor.clean),
                                   tables := if r.monitor.clean then ReleaseJobIn(r.tables, job) else r.tables)
  }

  ghost predicate Next(r: Race, q: Race, t: Token, job: JobId) {
    exists step :: Does(r, step, q, t, job)
  }

  /** One step leads from moment `i` to the next. */
  ghost predicate Moves(run: seq<Race>, i: nat, t: Token, job: JobId)
    requires i + 1 < |run|
  {
    Next(run[i], run[i + 1], t, job)
  }

  ghost predicate IsRun(run: seq<Race>, t: Token, job: JobId) {
    run != [] && Started(run[0], t, job) && forall i: nat :: i + 1 < |run| ==> Moves(run, i, t, job)
  }

  /** Rows of everyone else. */
  predicate OthersSame(a: Tables, b: Tables, t: Token) {
    a.gits == b.gits && a.jobs - {t} == b.jobs - {t}
  }

  ghost predicate Inv(first: Race, r: Race, t: Token, job: JobId) {
    && OthersSame(first.tables, r.tables, t) && RowsOf(first.tables, job) == {}
    && (r.status == Over <==> (r.monitor != Watching && r.monitor.clean))
    && (r.binder != Bound ==> Idle(r.tables, t))
    && (r.binder == Bound ==>
          || (t in r.tables.jobs && r.tables.jobs[t] == Some(job) && !(r.monitor.Finished? && r.monitor.clean))
          || (t !in r.tables.jobs && r.status == Over))
  }

  lemma InvKept(first: Race, r: Race, step: Step, q: Race, t: Token, job: JobId)
    requires Inv(first, r, t, job) && Does(r, step, q, t, job)
    ensures Inv(first, q, t, job)
  {
  }

  lemma {:induction false} InvHolds(run: seq<Race>, t: Token, job: JobId, i: nat)
    requires IsRun(run, t, job) && i < |run|
    ensures Inv(run[0], run[i], t, job)
  {
    if i == 0 {
    } else {
      InvHolds(run, t, job, i - 1);
      assert Moves(run, i - 1, t, job);
      var step :| Does(run[i - 1], step, run[i], t, job);
      InvKept(run[0], run[i - 1], step, run[i], t, job);
    }
  }

  lemma RowsOfJob(first: Tables, a: Tables, t: Token, job: JobId)
    requires OthersSame(first, a, t) && RowsOf(first, job) == {}
    ensures RowsOf(a, job) == if t in a.jobs && a.jobs[t] == Some(job) then {t} else {}
  {
    forall u | u in RowsOf(a, job) ensures u == t {
      assert u != t ==> u in a.jobs - {t} && u in RowsOf(first, job);
    }
  }

  /** Once binder and monitor are through, the job holds a row exactly when it did not end cleanly, and one only. */
  lemma RaceSettles(run: seq<Race>, t: Token, job: JobId, i: nat)
    requires IsRun(run, t, job) && i < |run| && run[i].binder == Bound && run[i].monitor.Finished?
    ensures RowsOf(run[i].tables, job) == if run[i].status == Over then {} else {t}
    ensures run[i].status == Over <==> t !in run[i].tables.jobs
    ensures OthersSame(run[0].tables, run[i].tables, t)
  {
    InvHolds(run, t, job, i);
    RowsOfJob(run[0].tables, run[i].tables, t, job);
  }

  /** Capacity is never given back while the job may still run, and not at all when the binding fails. */
  lemma CapacityHeldWhileRunning(run: seq<Race>, t: Token, job: JobId, i: nat)
    requires IsRun(run, t, job) && i < |run| && (run[i].status != Over || run[i].binder == Broken)
    ensures t in run[i].tables.jobs
  {
    InvHolds(run, t, job, i);
  }
}
