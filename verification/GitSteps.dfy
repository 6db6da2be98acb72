/** Every step of the Git protocol keeps the invariant. */
module GitSteps {
  import opened Bytes
  import opened Admission
  import opened GitProtocol
  import opened GitInvariants

  lemma EnterKept(limit: nat, w: World, v: World, p: Pid, kind: Kind, t: Token)
    requires Inv(limit, w) && EnterStep(limit, w, v, p, kind, t)
    ensures Inv(limit, v)
  {
    var s := Scope(None, t, None);
    EnterConserves(w.disk.tables, limit, t);
    forall q | q in w.procs ensures Outside(w.procs[q], s) { assert PlaceOK(w, w.procs[q]); }
    LocalStep(limit, w, v, p, s);
  }

  lemma LaunchKept(limit: nat, w: World, v: World, t: Token, job: JobId)
    requires Inv(limit, w) && LaunchStep(limit, w, v, t, job)
    ensures Inv(limit, v)
  {
    EnterConserves(w.disk.tables, limit, t);
    assert v.disk.tables.jobs.Keys == EnterIn(w.disk.tables, t).jobs.Keys;
    forall q | q in v.procs ensures PlaceOK(v, v.procs[q]) { assert PlaceOK(w, w.procs[q]); }
    forall k | k in v.disk.guards ensures GuardOK(v, k, v.disk.guards[k]) { assert GuardOK(w, k, w.disk.guards[k]); }
    forall t | t in v.disk.tables.gits ensures t in v.history.names && RowOK(v, t, v.disk.tables.gits[t]) {
      assert RowOK(w, t, w.disk.tables.gits[t]);
    }
    forall n | n in v.history.moves ensures MoveOK(v, n) { assert MoveOK(w, n); }
  }

  lemma LeaseKept(limit: nat, w: World, v: World, p: Pid, key: Key)
    requires Inv(limit, w) && LeaseStep(w, v, p, key)
    ensures Inv(limit, v)
  {
    PlaceScope(limit, w, p);
    assert PlaceOK(w, w.procs[p]);
    LocalStep(limit, w, v, p, Scope(Some(key), w.procs[p].token, None));
  }

  lemma ProposeKept(limit: nat, w: World, v: World, p: Pid, r: Request)
    requires Inv(limit, w) && ProposeStep(w, v, p, r)
    ensures Inv(limit, v)
  {
    PlaceScope(limit, w, p);
    assert PlaceOK(w, w.procs[p]);
    LocalStep(limit, w, v, p, ScopeOf(w.procs[p]));
  }

  lemma ClaimKept(limit: nat, w: World, v: World, p: Pid, n: Nonce)
    requires Inv(limit, w) && ClaimStep(w, v, p, n)
    ensures Inv(limit, v)
  {
    PlaceScope(limit, w, p);
    assert PlaceOK(w, w.procs[p]);
    var s := Scope(KeyOf(w.procs[p]), TokenOf(w.procs[p]), Some(n));
    forall q | q in w.procs && q != p ensures Outside(w.procs[q], s) { assert PlaceOK(w, w.procs[q]); }
    assert n in w.history.moves ==> MoveOK(w, n);
    LocalStep(limit, w, v, p, s);
  }

  lemma OpenKept(limit: nat, w: World, v: World, p: Pid)
    requires Inv(limit, w) && OpenStep(w, v, p)
    ensures Inv(limit, v)
  {
    PlaceScope(limit, w, p);
    assert PlaceOK(w, w.procs[p]);
    LocalStep(limit, w, v, p, ScopeOf(w.procs[p]));
  }

  lemma WriteKept(limit: nat, w: World, v: World, p: Pid)
    requires Inv(limit, w) && WriteStep(w, v, p)
    ensures Inv(limit, v)
  {
    PlaceScope(limit, w, p);
    assert PlaceOK(w, w.procs[p]);
    LocalStep(limit, w, v, p, ScopeOf(w.procs[p]));
  }

  lemma BindKept(limit: nat, w: World, v: World, p: Pid)
    requires Inv(limit, w) && BindStep(w, v, p)
    ensures Inv(limit, v)
  {
    PlaceScope(limit, w, p);
    assert PlaceOK(w, w.procs[p]);
    var x := w.procs[p].ticket;
    assert GuardOK(w, x.request.repo, w.disk.guards[x.request.repo]);
    BindConserves(w.disk.tables, limit, x.token, x.request, x.request.repo);
    LocalStep(limit, w, v, p, ScopeOf(w.procs[p]));
  }

  lemma ExecuteApart(limit: nat, w: World, v: World, p: Pid, moved: bool, reported: bool, locked: bool)
    requires Inv(limit, w) && ExecuteStep(w, v, p, moved, reported, locked)
    ensures Apart(w, v, ScopeOf(w.procs[p]))
  {
  }

  lemma ExecuteLeaves(limit: nat, w: World, v: World, p: Pid, moved: bool, reported: bool, locked: bool)
    requires Inv(limit, w) && ExecuteStep(w, v, p, moved, reported, locked)
    ensures LeavesOK(limit, v, ScopeOf(w.procs[p]))
  {
  }

  lemma ExecuteKept(limit: nat, w: World, v: World, p: Pid, moved: bool, reported: bool, locked: bool)
    requires Inv(limit, w) && ExecuteStep(w, v, p, moved, reported, locked)
    ensures Inv(limit, v)
  {
    PlaceScope(limit, w, p);
    assert PlaceOK(w, w.procs[p]);
    ExecuteApart(limit, w, v, p, moved, reported, locked);
    ExecuteLeaves(limit, w, v, p, moved, reported, locked);
    LocalStep(limit, w, v, p, ScopeOf(w.procs[p]));
  }

  lemma AcknowledgeKept(limit: nat, w: World, v: World, p: Pid)
    requires Inv(limit, w) && AcknowledgeStep(w, v, p)
    ensures Inv(limit, v)
  {
    PlaceScope(limit, w, p);
    assert PlaceOK(w, w.procs[p]);
    var x := w.procs[p].ticket;
    assert GuardOK(w, x.request.repo, w.disk.guards[x.request.repo]);
    LocalStep(limit, w, v, p, ScopeOf(w.procs[p]));
  }

  lemma ResolveKept(limit: nat, w: World, v: World, p: Pid)
    requires Inv(limit, w) && ResolveStep(w, v, p)
    ensures Inv(limit, v)
  {
    PlaceScope(limit, w, p);
    assert PlaceOK(w, w.procs[p]);
    var x := w.procs[p].ticket;
    assert GuardOK(w, x.request.repo, w.disk.guards[x.request.repo]);
    ResolveConserves(w.disk.tables, limit, x.token);
    LocalStep(limit, w, v, p, ScopeOf(w.procs[p]));
  }

  lemma UnlinkKept(limit: nat, w: World, v: World, p: Pid)
    requires Inv(limit, w) && UnlinkStep(w, v, p)
    ensures Inv(limit, v)
  {
    PlaceScope(limit, w, p);
    assert PlaceOK(w, w.procs[p]);
    LocalStep(limit, w, v, p, ScopeOf(w.procs[p]));
  }

  lemma FailKept(limit: nat, w: World, v: World, p: Pid, cleanup: bool)
    requires Inv(limit, w) && FailStep(w, v, p, cleanup)
    ensures Inv(limit, v)
  {
    PlaceScope(limit, w, p);
    assert PlaceOK(w, w.procs[p]);
    var s := ScopeOf(w.procs[p]);
    ResolveConserves(w.disk.tables, limit, s.token);
    ReleaseConserves(ResolveIn(w.disk.tables, s.token), limit, s.token);
    ScopeLeft(limit, w, v, s);
    LocalStep(limit, w, v, p, s);
  }

  /** Giving a slot back leaves its scope in order. */
  lemma ScopeLeft(limit: nat, w: World, v: World, s: Scope)
    requires Inv(limit, w) && Conserved(v.disk.tables, limit)
    requires v.history == w.history && v.disk == w.disk.(tables := v.disk.tables)
    requires || v.disk.tables == w.disk.tables
             || (v.disk.tables == ReleaseIn(ResolveIn(w.disk.tables, s.token), s.token) && s.token !in w.disk.tables.gits)
    ensures LeavesOK(limit, v, s)
  {
  }

  lemma CrashKept(limit: nat, w: World, v: World)
    requires Inv(limit, w) && v == w.(procs := map[])
    ensures Inv(limit, v)
  {
  }

  /** A restart deletes rows only; no process runs meanwhile. */
  lemma SweepKept(limit: nat, w: World, v: World, failed: set<JobId>)
    requires Inv(limit, w) && w.procs == map[] && v == WithTables(w, SweepIn(w.disk.tables, failed))
    ensures Inv(limit, v)
  {
    SweepConserves(w.disk.tables, limit, failed);
    forall k | k in v.disk.guards ensures GuardOK(v, k, v.disk.guards[k]) { assert GuardOK(w, k, w.disk.guards[k]); }
    forall t | t in v.disk.tables.gits ensures t in v.history.names && RowOK(v, t, v.disk.tables.gits[t]) {
      assert RowOK(w, t, w.disk.tables.gits[t]);
    }
    forall n | n in v.history.moves ensures MoveOK(v, n) { assert MoveOK(w, n); }
  }

  lemma EndJobKept(limit: nat, w: World, v: World, job: JobId)
    requires Inv(limit, w) && v == WithTables(w, ReleaseJobIn(w.disk.tables, job))
    ensures Inv(limit, v)
  {
    ReleaseJobConserves(w.disk.tables, limit, job);
    forall q | q in v.procs ensures PlaceOK(v, v.procs[q]) { assert PlaceOK(w, w.procs[q]); }
    forall k | k in v.disk.guards ensures GuardOK(v, k, v.disk.guards[k]) { assert GuardOK(w, k, w.disk.guards[k]); }
    forall t | t in v.disk.tables.gits ensures t in v.history.names && RowOK(v, t, v.disk.tables.gits[t]) {
      assert RowOK(w, t, w.disk.tables.gits[t]);
    }
    forall n | n in v.history.moves ensures MoveOK(v, n) { assert MoveOK(w, n); }
  }

  lemma ForeignKept(limit: nat, w: World, v: World, target: Ref, oid: Oid)
    requires Inv(limit, w) && Does(limit, w, Foreign(target, oid), v)
    ensures Inv(limit, v)
  {
    forall q | q in v.procs ensures PlaceOK(v, v.procs[q]) { assert PlaceOK(w, w.procs[q]); }
    forall k | k in v.disk.guards ensures GuardOK(v, k, v.disk.guards[k]) { assert GuardOK(w, k, w.disk.guards[k]); }
    forall t | t in v.disk.tables.gits ensures t in v.history.names && RowOK(v, t, v.disk.tables.gits[t]) {
      assert RowOK(w, t, w.disk.tables.gits[t]);
    }
    forall n | n in v.history.moves ensures MoveOK(v, n) { assert MoveOK(w, n); }
  }

  lemma MeddleKept(limit: nat, w: World, v: World, key: Key, head: Ref, locked: bool)
    requires Inv(limit, w) && Does(limit, w, Meddle(key, head, locked), v)
    ensures Inv(limit, v)
  {
    forall q | q in v.procs ensures PlaceOK(v, v.procs[q]) { assert PlaceOK(w, w.procs[q]); }
    forall k | k in v.disk.guards ensures GuardOK(v, k, v.disk.guards[k]) { assert GuardOK(w, k, w.disk.guards[k]); }
    forall t | t in v.disk.tables.gits ensures t in v.history.names && RowOK(v, t, v.disk.tables.gits[t]) {
      assert RowOK(w, t, w.disk.tables.gits[t]);
    }
    forall n | n in v.history.moves ensures MoveOK(v, n) { assert MoveOK(w, n); }
  }

  lemma ReviewKept(limit: nat, w: World, v: World, p: Pid, key: Key)
    requires Inv(limit, w) && ReviewStep(w, v, p, key)
    ensures Inv(limit, v)
  {
  }

  lemma RepairKept(limit: nat, w: World, v: World, p: Pid, phase: RepairStage)
    requires Inv(limit, w) && RepairStep(w, v, p, phase)
    ensures Inv(limit, v)
  {
    PlaceScope(limit, w, p);
    assert PlaceOK(w, w.procs[p]);
    var x := w.procs[p].ticket;
    assert GuardOK(w, x.request.repo, w.disk.guards[x.request.repo]);
    if x.token in w.disk.tables.gits { assert RowOK(w, x.token, w.disk.tables.gits[x.token]); }
    SettleConserves(w.disk.tables, limit, x.token, x.request, x.request.repo);
    LocalStep(limit, w, v, p, ScopeOf(w.procs[p]));
  }

  lemma StepKept(limit: nat, w: World, step: Step, v: World)
    requires Inv(limit, w) && Does(limit, w, step, v)
    ensures Inv(limit, v)
  {
    match step {
      case Enter(p, kind, t) => EnterKept(limit, w, v, p, kind, t);
      case Lease(p, key) => LeaseKept(limit, w, v, p, key);
      case Propose(p, r) => ProposeKept(limit, w, v, p, r);
      case Claim(p, n) => ClaimKept(limit, w, v, p, n);
      case OpenGuard(p) => OpenKept(limit, w, v, p);
      case WriteGuard(p) => WriteKept(limit, w, v, p);
      case Bind(p) => BindKept(limit, w, v, p);
      case Execute(p, moved, reported, locked) => ExecuteKept(limit, w, v, p, moved, reported, locked);
      case Acknowledge(p) => AcknowledgeKept(limit, w, v, p);
      case Resolve(p) => ResolveKept(limit, w, v, p);
      case Unlink(p) => UnlinkKept(limit, w, v, p);
      case Fail(p, cleanup) => FailKept(limit, w, v, p, cleanup);
      case Crash => CrashKept(limit, w, v);
      case Sweep(failed) => SweepKept(limit, w, v, failed);
      case Launch(t, job) => LaunchKept(limit, w, v, t, job);
      case EndJob(job) => EndJobKept(limit, w, v, job);
      case Foreign(target, oid) => ForeignKept(limit, w, v, target, oid);
      case Meddle(key, head, locked) => MeddleKept(limit, w, v, key, head, locked);
      case Review(p, key) => ReviewKept(limit, w, v, p, key);
      case Note(p) => RepairKept(limit, w, v, p, Checked);
      case Settle(p) => RepairKept(limit, w, v, p, Noted);
      case Retire(p) => RepairKept(limit, w, v, p, Unlinking);
    }
  }

  lemma {:induction false} RunKeeps(limit: nat, run: seq<World>, i: nat)
    requires IsRun(limit, run) && i < |run|
    ensures Inv(limit, run[i])
  {
    if i == 0 {
    } else {
      RunKeeps(limit, run, i - 1);
      assert Moves(limit, run, i - 1);
      var step :| Does(limit, run[i - 1], step, run[i]);
      StepKept(limit, run[i - 1], step, run[i]);
    }
  }
}
