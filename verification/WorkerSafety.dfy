/** What holds of the worker RPC after any interleaving of its threads. */
module WorkerSafety {
  import opened Bytes
  import opened PreparedTable
  import opened WorkerRuns
  import opened WorkerRepositories

  ghost predicate Inv(s: Setting, w: World) {
    Bounded(w.table) && Recorded(s, w) && ClaimedOnce(s, w) && CalledOnce(w) && Answered(w) && OneChoice(w)
  }

  lemma InvKept(s: Setting, w: World, v: World)
    requires Inv(s, w) && Next(s, w, v)
    ensures Inv(s, v)
  {
    var step :| Does(s, w, step, v);
    BoundedKept(s, w, step, v);
    RecordedKept(s, w, step, v);
    ClaimedKept(s, w, step, v);
    CalledKept(s, w, step, v);
    AnsweredKept(s, w, step, v);
    ChoiceKept(s, w, step, v);
  }

  lemma InvInto(s: Setting, run: seq<World>, j: nat)
    requires IsRun(s, run) && 0 < j < |run| && Inv(s, run[j - 1])
    ensures Inv(s, run[j])
  {
    MovesInto(s, run, j);
    InvKept(s, run[j - 1], run[j]);
  }

  lemma InvBegins(s: Setting, w: World)
    requires Initial(w)
    ensures Inv(s, w)
  {
  }

  /** Every state of a run keeps the invariant. */
  lemma InvHolds(s: Setting, run: seq<World>, i: nat)
    requires IsRun(s, run) && i < |run|
    ensures Inv(s, run[i])
  {
    InvBegins(s, run[0]);
    for j := 0 to i
      invariant Inv(s, run[j])
    {
      InvInto(s, run, j + 1);
    }
  }

  /** The claim a backend call was made for. */
  function ClaimOf(w: World, i: nat): Claim
    requires i < |w.traffic.calls| && w.traffic.calls[i] < |w.traffic.claims|
  {
    w.traffic.claims[w.traffic.calls[i]]
  }

  /** No two calls are for claims of one job and digest made in one tenure; a call may come after the tenure of its claim. */
  lemma AtMostOnce(s: Setting, run: seq<World>, k: nat, i: nat, j: nat)
    requires IsRun(s, run) && k < |run| && i < j < |run[k].traffic.calls|
    ensures run[k].traffic.calls[i] < |run[k].traffic.claims| && run[k].traffic.calls[j] < |run[k].traffic.claims|
    ensures !SameRequest(ClaimOf(run[k], i), ClaimOf(run[k], j))
  {
    InvHolds(s, run, k);
    var w := run[k];
    assert w.traffic.calls[i] in w.traffic.calls && w.traffic.calls[j] in w.traffic.calls;
    if w.traffic.calls[j] < w.traffic.calls[i] {
      assert !SameRequest(w.traffic.claims[w.traffic.calls[j]], w.traffic.claims[w.traffic.calls[i]]);
    }
  }

  /** Every call follows a preparation of the same request in the same tenure, still fresh when it was claimed. */
  lemma PreparedBefore(s: Setting, run: seq<World>, k: nat, i: nat)
    requires IsRun(s, run) && k < |run| && i < |run[k].traffic.calls|
    ensures run[k].traffic.calls[i] < |run[k].traffic.claims|
    ensures var c := ClaimOf(run[k], i);
            && Preparation(c.tenure, c.key, c.context.scope, c.context.operation, c.at) in run[k].proposals.prepares
            && c.context.now - c.at < s.ttl
  {
    InvHolds(s, run, k);
    var w := run[k];
    assert w.traffic.calls[i] in w.traffic.calls && ClaimOK(s, w, ClaimOf(w, i));
  }

  /** Claims of one tenure whose threads selected their repository during it name the same repository. */
  lemma OneRepositorySelected(s: Setting, run: seq<World>, k: nat, a: Claim, b: Claim)
    requires IsRun(s, run) && k < |run| && a in run[k].traffic.claims && b in run[k].traffic.claims && Settled(a, b)
    ensures a.context.grant.repository == b.context.grant.repository
  {
    InvHolds(s, run, k);
  }

  /** A usable object in two catalogs issued to one job one after the other. */
  ghost predicate Shared(plan: seq<Grant>, i: nat, j: nat, g: Grant) {
    && i < j < |plan| && plan[i].job == g.job && plan[j].job == g.job && Holds(plan[i], g) && Holds(plan[j], g) && Usable(g)
  }

  /** Wherever a catalog shares an object with an earlier one, its usable objects are all for that repository. */
  ghost predicate Sound(plan: seq<Grant>) {
    forall i: nat, j: nat, g, h :: Shared(plan, i, j, g) && Holds(plan[j], h) && Usable(h) ==> g.repository == h.repository
  }

  /** A claim whose repository was selected before its tenure is for a shared object. */
  lemma SelectedEarlier(w: World, a: Claim, b: Claim)
    requires Sound(w.reign.issued) && ClaimedFor(w, a) && ClaimedFor(w, b)
    requires a.tenure == b.tenure && a.key.job == b.key.job && a.era < a.tenure
    ensures a.context.grant.repository == b.context.grant.repository
  {
    assert Shared(w.reign.issued, a.context.since - 1, a.tenure - 1, a.context.grant);
  }

  lemma ClaimsAgree(w: World, a: Claim, b: Claim)
    requires OneChoice(w) && Sound(w.reign.issued) && a in w.traffic.claims && b in w.traffic.claims
    requires a.tenure == b.tenure && a.key.job == b.key.job
    ensures a.context.grant.repository == b.context.grant.repository
  {
    assert ClaimedFor(w, a) && ClaimedFor(w, b);
    if a.era < a.tenure {
      SelectedEarlier(w, a, b);
    } else if b.era < b.tenure {
      SelectedEarlier(w, b, a);
    } else {
      assert Settled(a, b);
    }
  }

  /** In a sound plan all claims of a tenure name one repository. */
  lemma OneRepository(s: Setting, run: seq<World>, k: nat, a: Claim, b: Claim)
    requires IsRun(s, run) && k < |run| && Sound(run[k].reign.issued)
    requires a in run[k].traffic.claims && b in run[k].traffic.claims && a.tenure == b.tenure && a.key.job == b.key.job
    ensures a.context.grant.repository == b.context.grant.repository
  {
    InvHolds(s, run, k);
    ClaimsAgree(run[k], a, b);
  }

  lemma RegisteredThere(w: World, g: Grant)
    requires OneChoice(w)
    ensures Registered(w.table, g) <==> g.job in w.table.grants && IssuedUnder(w, g, TenureOf(w, g.job))
  {
    if g.job in w.table.grants { assert GrantOK(w, g.job, w.table.grants[g.job]); }
  }

  /** What passes for registered is what the catalog issued last to the job holds, until it is revoked. */
  lemma RegisteredIsIssued(s: Setting, run: seq<World>, k: nat, g: Grant)
    requires IsRun(s, run) && k < |run|
    ensures Registered(run[k].table, g) <==>
              g.job in run[k].table.grants && IssuedUnder(run[k], g, TenureOf(run[k], g.job))
  {
    InvHolds(s, run, k);
    RegisteredThere(run[k], g);
  }

  ghost predicate Answers(w: World, a: Answer, n: nat) {
    && a.response.Some? && n in w.traffic.calls && OutcomeOf(w, n, a.serial, a.response.value)
    && w.traffic.claims[n].key == a.key && w.traffic.claims[n].context.scope == a.scope
    && w.traffic.claims[n].context.operation == a.operation
  }

  lemma AnsweredByCall(s: Setting, w: World, a: Answer)
    requires ClaimedOnce(s, w) && CalledOnce(w) && Answered(w) && a in w.traffic.answers && a.response.Some?
    ensures exists n: nat :: Answers(w, a, n)
  {
    assert AnswerOK(w, a);
    var n: nat :| OutcomeOf(w, n, a.serial, a.response.value);
    assert w.traffic.claims[n] in w.traffic.claims && ClaimOK(s, w, w.traffic.claims[n]);
    assert Answers(w, a, n);
  }

  /** A waiter is answered with the outcome of a call made for the request it waits for, or not at all. */
  lemma AnswersAreOutcomes(s: Setting, run: seq<World>, k: nat, a: Answer)
    requires IsRun(s, run) && k < |run| && a in run[k].traffic.answers && a.response.Some?
    ensures exists n: nat :: Answers(run[k], a, n)
  {
    InvHolds(s, run, k);
    AnsweredByCall(s, run[k], a);
  }

  /** At most 32 records for a job and 1024 in all, at every moment. */
  lemma TableBounded(s: Setting, run: seq<World>, k: nat, job: Job)
    requires IsRun(s, run) && k < |run|
    ensures |run[k].table.prepared| <= MAX_TOTAL && |Mine(run[k].table.prepared, job)| <= MAX_PER_JOB
  {
    InvHolds(s, run, k);
    MineBound(run[k].table.prepared, job);
  }

  ghost predicate Stays(w: World, v: World, k: Key) {
    k in v.table.prepared && k in w.table.prepared && v.table.prepared[k] == w.table.prepared[k]
  }

  lemma ClaimLeaves(s: Setting, w: World, v: World, t: Thread, k: Key)
    requires ClaimStep(s, w, v, t) && k in w.table.prepared && w.table.prepared[k].dispatched
    ensures Stays(w, v, k)
  {
  }

  lemma RevokeLeaves(w: World, v: World, job: Job, k: Key)
    requires v == w.(table := RevokeFrom(w.table, job)) && k in w.table.prepared && k.job != job
    ensures Stays(w, v, k)
  {
  }

  lemma IssueLeaves(w: World, v: World, g: Grant, k: Key)
    requires IssueStep(w, v, g) && k in w.table.prepared
    ensures Stays(w, v, k)
  {
  }

  lemma SteadyLeaves(w: World, v: World, k: Key)
    requires Steady(w, v) && k in w.table.prepared && w.table.prepared[k].dispatched
    ensures Stays(w, v, k)
  {
  }

  lemma StepLeaves(s: Setting, w: World, step: Step, v: World, k: Key)
    requires Recorded(s, w) && Does(s, w, step, v)
    requires k in w.table.prepared && w.table.prepared[k].dispatched && step != Revoke(k.job)
    ensures Stays(w, v, k)
  {
    if step.ClaimIt? {
      ClaimLeaves(s, w, v, step.thread, k);
    } else if step.Issue? {
      IssueLeaves(w, v, step.grant, k);
    } else if step.Revoke? {
      RevokeLeaves(w, v, step.job, k);
    } else {
      SteadyStep(s, w, step, v);
      SteadyLeaves(w, v, k);
    }
  }

  /** Only the job's own revocation takes a dispatched record away or changes it. */
  lemma DispatchedStays(s: Setting, run: seq<World>, i: nat, step: Step, k: Key)
    requires IsRun(s, run) && i + 1 < |run| && Does(s, run[i], step, run[i + 1]) && step != Revoke(k.job)
    requires k in run[i].table.prepared && run[i].table.prepared[k].dispatched
    ensures Stays(run[i], run[i + 1], k)
  {
    InvHolds(s, run, i);
    StepLeaves(s, run[i], step, run[i + 1], k);
  }

  /** An insertion is refused for want of room exactly when every record it might evict is dispatched. */
  lemma FullMeansDispatched(t: Table, g: Grant, digest: Digest, scope: Scope, operation: Operation, now: int, ttl: nat,
                            serial: nat, u: Table, denial: Option<Denial>)
    requires Bounded(t) && Prepares(t, g, digest, scope, operation, now, ttl, serial, u, denial)
    ensures denial == Some(PreparedFull) ==>
              var pool := Pool(u.prepared, g.job);
              && (|pool| == MAX_PER_JOB || |pool| == MAX_TOTAL)
              && forall k :: k in pool ==> k in t.prepared && t.prepared[k].dispatched
    ensures denial == Some(PreparedFull) <==>
              && Registered(t, g) && Key(g.job, digest) !in t.prepared
              && NoRoom(t.prepared, g.job, now, ttl)
  {
    if denial == Some(PreparedFull) {
      var live := Unexpired(t.prepared, now, ttl);
      UnexpiredSmaller(t.prepared, now, ttl);
      MineBound(t.prepared, g.job);
      forall k | k in Pool(live, g.job) ensures k in t.prepared && t.prepared[k].dispatched {
        assert k !in Idle(live, Pool(live, g.job));
      }
    }
  }
}
