/**
 The two capacity tables: one row per admitted job or Git operation, and the linkage
 of approved Git operations to their guards. Each method below is one transaction.
 */
module Admission {
  import opened Bytes

  type Token = nat
  type Nonce = nat
  type JobId = nat
  type Key = string
  type Oid = string

  datatype Kind = Commit | Fetch | Push

  /** A ref of one local repository, or of a remote one. */
  datatype Ref = Local(repo: Key, name: string) | Remote(url: string, name: string)

  /** An approved request; its digest is injective, so the request stands for it. */
  datatype Request = Request(kind: Kind, repo: Key, target: Ref, before: Oid, after: Oid)

  datatype Row = Row(request: Request, guard: Key, active: bool)

  /** `jobs` maps a token to the job bound to it, if any; `gits` links tokens to guards. */
  datatype Tables = Tables(jobs: map<Token, Option<JobId>>, gits: map<Token, Row>)

  datatype Linkage = Unbound | Active | Resolved

  predicate Idle(a: Tables, t: Token) {
    t in a.jobs && a.jobs[t] == None
  }

  function EnterIn(a: Tables, t: Token): Tables {
    a.(jobs := a.jobs[t := None])
  }

  function ReleaseIn(a: Tables, t: Token): Tables {
    a.(jobs := a.jobs - {t})
  }

  /** Rows of one job. */
  function RowsOf(a: Tables, job: JobId): set<Token> {
    set t | t in a.jobs && a.jobs[t] == Some(job)
  }

  function ReleaseJobIn(a: Tables, job: JobId): Tables {
    a.(jobs := a.jobs - RowsOf(a, job))
  }

  /** The binding of a launched job to its slot; a job that is already over gives the slot back at once. */
  function BindJobIn(a: Tables, t: Token, job: JobId, over: bool): Tables {
    if t !in a.jobs then a else if over then ReleaseIn(a, t) else a.(jobs := a.jobs[t := Some(job)])
  }

  predicate CanBind(a: Tables, t: Token) {
    Idle(a, t) && t !in a.gits
  }

  function BindIn(a: Tables, t: Token, r: Request, guard: Key): Tables {
    a.(gits := a.gits[t := Row(r, guard, true)])
  }

  /** The row of a token dropped, unless it belongs to a job. */
  function Dropped(jobs: map<Token, Option<JobId>>, t: Token): map<Token, Option<JobId>> {
    if t in jobs && jobs[t] == None then jobs - {t} else jobs
  }

  function ResolveIn(a: Tables, t: Token): Tables {
    Tables(Dropped(a.jobs, t), if t in a.gits then a.gits[t := a.gits[t].(active := false)] else a.gits)
  }

  /** How a guard is linked; None when recovery must refuse it. */
  function LinkageOf(a: Tables, t: Token, r: Request, guard: Key): Option<Linkage> {
    if t !in a.gits then if t in a.jobs && a.jobs[t].Some? then None else Some(Unbound)
    else if a.gits[t].request != r || a.gits[t].guard != guard then None
    else Some(if a.gits[t].active then Active else Resolved)
  }

  function SettleIn(a: Tables, t: Token, r: Request, guard: Key): Tables {
    Tables(Dropped(a.jobs, t), a.gits[t := Row(r, guard, false)])
  }

  /** What a restart leaves: rows of active Git operations and of jobs whose cleanup failed. */
  function Kept(a: Tables, failed: set<JobId>): set<Token> {
    set t | t in a.jobs && ((t in a.gits && a.gits[t].active) || (a.jobs[t].Some? && a.jobs[t].value in failed))
  }

  function SweepIn(a: Tables, failed: set<JobId>): Tables {
    a.(jobs := map t | t in Kept(a, failed) :: a.jobs[t])
  }

  // ---------------------------------------------------------------- conservation

  /** Capacity is bounded, and every active Git operation holds an unbound row. */
  ghost predicate Conserved(a: Tables, limit: nat) {
    |a.jobs| <= limit && forall t :: t in a.gits && a.gits[t].active ==> Idle(a, t)
  }

  lemma Fewer<K, V>(small: map<K, V>, big: map<K, V>)
    requires small.Keys <= big.Keys
    ensures |small| <= |big|
  {
    assert big.Keys == small.Keys + (big.Keys - small.Keys);
  }

  lemma EnterConserves(a: Tables, limit: nat, t: Token)
    requires Conserved(a, limit) && |a.jobs| < limit && t !in a.jobs
    ensures Conserved(EnterIn(a, t), limit)
  {
  }

  lemma BindConserves(a: Tables, limit: nat, t: Token, r: Request, guard: Key)
    requires Conserved(a, limit) && CanBind(a, t)
    ensures Conserved(BindIn(a, t, r, guard), limit)
  {
  }

  lemma ResolveConserves(a: Tables, limit: nat, t: Token)
    requires Conserved(a, limit)
    ensures Conserved(ResolveIn(a, t), limit)
  {
  }

  lemma SettleConserves(a: Tables, limit: nat, t: Token, r: Request, guard: Key)
    requires Conserved(a, limit)
    ensures Conserved(SettleIn(a, t, r, guard), limit)
  {
  }

  lemma SweepConserves(a: Tables, limit: nat, failed: set<JobId>)
    requires Conserved(a, limit)
    ensures Conserved(SweepIn(a, failed), limit)
  {
    Fewer(SweepIn(a, failed).jobs, a.jobs);
  }

  /** Rows may be deleted by token only where no active Git operation owns them. */
  lemma ReleaseConserves(a: Tables, limit: nat, t: Token)
    requires Conserved(a, limit)
    ensures Conserved(ReleaseIn(a, t), limit) <==> !(t in a.gits && a.gits[t].active)
  {
  }

  lemma ReleaseJobConserves(a: Tables, limit: nat, job: JobId)
    requires Conserved(a, limit)
    ensures Conserved(ReleaseJobIn(a, job), limit)
  {
  }

  lemma BindJobConserves(a: Tables, limit: nat, t: Token, job: JobId, over: bool)
    requires Conserved(a, limit) && !(t in a.gits && a.gits[t].active)
    ensures Conserved(BindJobIn(a, t, job, over), limit)
  {
  }

  /** Settling a recovery twice is settling it once, and a settled linkage is accepted again. */
  lemma SettleAgain(a: Tables, t: Token, r: Request, guard: Key)
    requires LinkageOf(a, t, r, guard).Some?
    ensures var b := SettleIn(a, t, r, guard);
            LinkageOf(b, t, r, guard) == Some(Resolved) && SettleIn(b, t, r, guard) == b && !Idle(b, t)
  {
  }

  // ---------------------------------------------------------------- the database

  class AdmissionDatabase {
    const limit: nat
    var jobs: map<Token, Option<JobId>>
    var gits: map<Token, Row>

    ghost function State(): Tables
      reads this
    {
      Tables(jobs, gits)
    }

    ghost predicate Valid()
      reads this
    {
      Conserved(State(), limit)
    }

    constructor (limit: nat)
      ensures Valid() && State() == Tables(map[], map[]) && this.limit == limit
    {
      this.limit, jobs, gits := limit, map[], map[];
    }

    /** The entry of `execution_slot`. */
    method Enter(token: Token) returns (ok: bool)
      requires Valid() && token !in jobs
      modifies `jobs
      ensures Valid()
      ensures ok <==> |old(jobs)| < limit
      ensures State() == if ok then EnterIn(old(State()), token) else old(State())
    {
      if |jobs| >= limit { return false; }
      EnterConserves(State(), limit, token);
      jobs := jobs[token := None];
      return true;
    }

    /** The binder transaction of an admitted job; `over` is what it reads of the job's status. */
    method BindJob(token: Token, job: JobId, over: bool)
      requires Valid() && !(token in gits && gits[token].active)
      modifies `jobs
      ensures Valid() && State() == BindJobIn(old(State()), token, job, over)
    {
      BindJobConserves(State(), limit, token, job, over);
      if token in jobs {
        jobs := jobs[token := Some(job)];
        if over { jobs := jobs - {token}; }
      }
      assert jobs == BindJobIn(old(State()), token, job, over).jobs;
    }

    method Bind(token: Token, request: Request, guard: Key) returns (ok: bool)
      requires Valid()
      modifies `gits
      ensures Valid()
      ensures ok <==> CanBind(old(State()), token)
      ensures State() == if ok then BindIn(old(State()), token, request, guard) else old(State())
    {
      if token !in jobs || jobs[token] != None || token in gits { return false; }
      gits := gits[token := Row(request, guard, true)];
      return true;
    }

    method Resolve(token: Token)
      requires Valid()
      modifies `jobs, `gits
      ensures Valid() && State() == ResolveIn(old(State()), token)
    {
      ResolveConserves(State(), limit, token);
      if token in gits { gits := gits[token := gits[token].(active := false)]; }
      if token in jobs && jobs[token] == None { jobs := jobs - {token}; }
    }

    /** The cleanup of `execution_slot` when its body fails. It deletes the row of an active Git operation too. */
    method Release(token: Token)
      requires Valid()
      modifies `jobs
      ensures State() == ReleaseIn(old(State()), token)
      ensures Valid() <==> !(token in gits && gits[token].active)
    {
      ReleaseConserves(State(), limit, token);
      jobs := jobs - {token};
    }

    method ReleaseJob(job: JobId)
      requires Valid()
      modifies `jobs
      ensures Valid() && State() == ReleaseJobIn(old(State()), job)
    {
      ReleaseJobConserves(State(), limit, job);
      jobs := map t | t in jobs && jobs[t] != Some(job) :: jobs[t];
      assert jobs == ReleaseJobIn(old(State()), job).jobs;
    }

    method InspectRecovery(token: Token, request: Request, guard: Key) returns (linkage: Option<Linkage>)
      ensures linkage == LinkageOf(State(), token, request, guard)
    {
      if token !in gits {
        if token in jobs && jobs[token] != None { return None; }
        return Some(Unbound);
      }
      var row := gits[token];
      if row.request != request || row.guard != guard { return None; }
      return Some(if row.active then Active else Resolved);
    }

    method ResolveRecovery(token: Token, request: Request, guard: Key) returns (ok: bool)
      requires Valid()
      modifies `jobs, `gits
      ensures Valid()
      ensures ok <==> LinkageOf(old(State()), token, request, guard).Some?
      ensures State() == if ok then SettleIn(old(State()), token, request, guard) else old(State())
    {
      SettleConserves(State(), limit, token, request, guard);
      if token !in gits {
        if token in jobs && jobs[token] != None { return false; }
        gits := gits[token := Row(request, guard, false)];
      } else {
        var row := gits[token];
        if row.request != request || row.guard != guard { return false; }
        gits := gits[token := row.(active := false)];
      }
      if token in jobs && jobs[token] == None { jobs := jobs - {token}; }
      return true;
    }

    /** The restart of the service; `failed` are the jobs whose cleanup failed. */
    method Sweep(failed: set<JobId>)
      requires Valid()
      modifies `jobs
      ensures Valid() && State() == SweepIn(old(State()), failed)
    {
      SweepConserves(State(), limit, failed);
      jobs := map t | t in jobs && ((t in gits && gits[t].active) || (jobs[t].Some? && jobs[t].value in failed)) :: jobs[t];
      assert jobs == SweepIn(old(State()), failed).jobs;
    }
  }
}
