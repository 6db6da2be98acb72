/**
 Backend calls by the tenure in force when they are made. A call is made outside the lock, so the grant
 under which it was claimed may be gone by then, and another may rule the job.
 */
module WorkerCalls {
  import opened Bytes
  import opened PreparedTable
  import opened WorkerRuns
  import opened WorkerSafety

  // ---------------------------------------------------------------- one call

  /** What a step may do to the grant of a job. */
  ghost predicate Reigning(w: World, v: World, job: Job) {
    && |w.reign.issued| <= |v.reign.issued| && w.traffic.claims <= v.traffic.claims
    && (job in v.table.grants ==>
          if job in w.table.grants then TenureOf(v, job) == TenureOf(w, job)
          else TenureOf(v, job) == |v.reign.issued| > |w.reign.issued|)
  }

  lemma ReigningClaim(s: Setting, w: World, v: World, t: Thread, job: Job)
    requires ClaimStep(s, w, v, t)
    ensures Reigning(w, v, job)
  {
  }

  lemma ReigningElse(s: Setting, w: World, step: Step, v: World, job: Job)
    requires Does(s, w, step, v) && !step.ClaimIt?
    ensures Reigning(w, v, job)
  {
  }

  lemma ReigningNext(s: Setting, w: World, v: World, job: Job)
    requires Next(s, w, v)
    ensures Reigning(w, v, job)
  {
    var step :| Does(s, w, step, v);
    if step.ClaimIt? { ReigningClaim(s, w, v, step.thread, job); } else { ReigningElse(s, w, step, v, job); }
  }

  /** A claim is made in the tenure in force. */
  lemma ClaimMade(s: Setting, w: World, v: World, n: nat)
    requires Next(s, w, v) && n == |w.traffic.claims| < |v.traffic.claims|
    ensures InForce(v, v.traffic.claims[n].key.job) == Some(v.traffic.claims[n].tenure)
  {
    var step :| Does(s, w, step, v);
    if !step.ClaimIt? { NoClaim(s, w, step, v); }
  }

  lemma NoClaim(s: Setting, w: World, step: Step, v: World)
    requires Does(s, w, step, v) && !step.ClaimIt?
    ensures v.traffic.claims == w.traffic.claims
  {
  }

  /** Claim `n` is made on the way from moment `c` to the next. */
  predicate MadeAt(run: seq<World>, c: nat, n: nat) {
    c + 1 < |run| && |run[c].traffic.claims| == n < |run[c + 1].traffic.claims|
  }

  /** One more moment with the grant still registered. */
  lemma TenureHeldOn(s: Setting, run: seq<World>, k: nat, n: nat, x: Claim)
    requires IsRun(s, run) && k + 1 < |run| && n < |run[k].traffic.claims| && run[k].traffic.claims[n] == x
    ensures n < |run[k + 1].traffic.claims| && run[k + 1].traffic.claims[n] == x
    ensures InForce(run[k], x.key.job) == Some(x.tenure) && x.key.job in run[k + 1].table.grants ==>
              InForce(run[k + 1], x.key.job) == Some(x.tenure)
  {
    MovesInto(s, run, k + 1);
    ReigningNext(s, run[k], run[k + 1], x.key.job);
  }

  /** A claim stays as it was made, and so does its tenure as long as the grant is registered. */
  lemma TenureHeld(s: Setting, run: seq<World>, c: nat, n: nat, m: nat)
    requires IsRun(s, run) && MadeAt(run, c, n) && c < m < |run|
    ensures n < |run[m].traffic.claims| && run[m].traffic.claims[n] == run[c + 1].traffic.claims[n]
    ensures var x := run[m].traffic.claims[n];
            (forall k :: c < k <= m ==> x.key.job in run[k].table.grants) ==> InForce(run[m], x.key.job) == Some(x.tenure)
  {
    var x := run[c + 1].traffic.claims[n];
    MovesInto(s, run, c + 1);
    ClaimMade(s, run[c], run[c + 1], n);
    for k := c + 1 to m
      invariant n < |run[k].traffic.claims| && run[k].traffic.claims[n] == x
      invariant (forall l :: c < l <= k ==> x.key.job in run[l].table.grants) ==>
                  InForce(run[k], x.key.job) == Some(x.tenure)
    {
      TenureHeldOn(s, run, k, n, x);
    }
  }

  /** After a gap the grant of a job is one that was issued later. */
  lemma TenureAfterGap(s: Setting, run: seq<World>, k: nat, m: nat, job: Job)
    requires IsRun(s, run) && k <= m < |run| && job !in run[k].table.grants
    ensures job in run[m].table.grants ==> TenureOf(run[m], job) > |run[k].reign.issued|
  {
    for l := k to m
      invariant |run[k].reign.issued| <= |run[l].reign.issued|
      invariant job in run[l].table.grants ==> TenureOf(run[l], job) > |run[k].reign.issued|
    {
      MovesInto(s, run, l + 1);
      ReigningNext(s, run[l], run[l + 1], job);
    }
  }

  lemma TenureBound(s: Setting, w: World, n: nat)
    requires ClaimedOnce(s, w) && n < |w.traffic.claims|
    ensures w.traffic.claims[n].tenure <= |w.reign.issued|
  {
    assert ClaimOK(s, w, w.traffic.claims[n]);
  }

  /**
   A call is made in the tenure of its claim exactly if the grant was registered at every moment between.
   If it was revoked, the call is made all the same: without a grant, or in a tenure issued since.
   */
  lemma CalledInItsTenure(s: Setting, run: seq<World>, c: nat, n: nat, m: nat, t: Thread, serial: nat)
    requires IsRun(s, run) && MadeAt(run, c, n) && c < m && m + 1 < |run|
    requires PlaceOf(run[m], t) == Calling(serial, n) && Does(s, run[m], CallBackend(t), run[m + 1])
    ensures n < |run[m].traffic.claims| && |run[m + 1].traffic.during| == |run[m].traffic.during| + 1
    ensures var x := run[m].traffic.claims[n];
            var during := run[m + 1].traffic.during[|run[m].traffic.during|];
            && (during == Some(x.tenure) <==> forall k :: c < k <= m ==> x.key.job in run[k].table.grants)
            && (during.None? <==> x.key.job !in run[m].table.grants)
            && (during.Some? ==> during.value >= x.tenure)
  {
    TenureHeld(s, run, c, n, m);
    var x := run[m].traffic.claims[n];
    if k :| c < k <= m && x.key.job !in run[k].table.grants {
      TenureHeld(s, run, c, n, k);
      InvHolds(s, run, k);
      TenureBound(s, run[k], n);
      TenureAfterGap(s, run, k, m, x.key.job);
    }
  }

  // ---------------------------------------------------------------- runs in which calls are waited for

  /** No grant goes while one of its threads is about to call. */
  ghost predicate Gentle(w: World, v: World) {
    forall t :: t in w.places && w.places[t].Calling? && w.places[t].claim < |w.traffic.claims| ==>
      var job := w.traffic.claims[w.places[t].claim].key.job;
      job in w.table.grants ==> job in v.table.grants
  }

  ghost predicate GentleAt(run: seq<World>, i: nat)
    requires i + 1 < |run|
  {
    Gentle(run[i], run[i + 1])
  }

  ghost predicate IsGentle(run: seq<World>) {
    forall i: nat :: i + 1 < |run| ==> GentleAt(run, i)
  }

  /** The call was made in the tenure of its claim. */
  ghost predicate Prompt(w: World, i: nat) {
    && i < |w.traffic.calls| && i < |w.traffic.during| && w.traffic.calls[i] < |w.traffic.claims|
    && w.traffic.during[i] == Some(ClaimOf(w, i).tenure)
  }

  ghost predicate AboutToCall(w: World, p: Place) {
    p.Calling? ==>
      && p.claim < |w.traffic.claims|
      && InForce(w, w.traffic.claims[p.claim].key.job) == Some(w.traffic.claims[p.claim].tenure)
  }

  ghost predicate AllPrompt(w: World) {
    && |w.traffic.during| == |w.traffic.calls|
    && (forall i :: 0 <= i < |w.traffic.calls| ==> Prompt(w, i))
    && (forall t :: t in w.places ==> AboutToCall(w, w.places[t]))
  }

  lemma PromptCall(s: Setting, w: World, v: World, t: Thread)
    requires AllPrompt(w) && Does(s, w, CallBackend(t), v)
    ensures AllPrompt(v)
  {
    assert AboutToCall(w, w.places[t]);
    forall i | 0 <= i < |v.traffic.calls| ensures Prompt(v, i) {
      if i < |w.traffic.calls| { assert Prompt(w, i); }
    }
    forall u | u in v.places ensures AboutToCall(v, v.places[u]) { if u != t { assert AboutToCall(w, w.places[u]); } }
  }

  lemma PromptClaim(s: Setting, w: World, v: World, t: Thread)
    requires AllPrompt(w) && ClaimStep(s, w, v, t)
    ensures AllPrompt(v)
  {
    forall i | 0 <= i < |v.traffic.calls| ensures Prompt(v, i) { assert Prompt(w, i); }
    forall u | u in v.places ensures AboutToCall(v, v.places[u]) { if u != t { assert AboutToCall(w, w.places[u]); } }
  }

  /** Any other step makes no call and leaves those who are about to call where they are. */
  ghost predicate Quietly(w: World, v: World) {
    && v.traffic.claims == w.traffic.claims && v.traffic.calls == w.traffic.calls && v.traffic.during == w.traffic.during
    && forall t :: t in v.places && v.places[t].Calling? ==> t in w.places && w.places[t] == v.places[t]
  }

  lemma QuietStep(s: Setting, w: World, step: Step, v: World)
    requires Does(s, w, step, v) && !step.ClaimIt? && !step.CallBackend?
    ensures Quietly(w, v)
  {
  }

  lemma PromptQuiet(s: Setting, w: World, v: World)
    requires AllPrompt(w) && Quietly(w, v) && Gentle(w, v) && Next(s, w, v)
    ensures AllPrompt(v)
  {
    forall i | 0 <= i < |v.traffic.calls| ensures Prompt(v, i) { assert Prompt(w, i); }
    forall t | t in v.places ensures AboutToCall(v, v.places[t]) {
      if v.places[t].Calling? {
        assert AboutToCall(w, w.places[t]);
        ReigningNext(s, w, v, w.traffic.claims[w.places[t].claim].key.job);
      }
    }
  }

  lemma PromptNext(s: Setting, w: World, v: World)
    requires AllPrompt(w) && Next(s, w, v) && Gentle(w, v)
    ensures AllPrompt(v)
  {
    var step :| Does(s, w, step, v);
    if step.ClaimIt? {
      PromptClaim(s, w, v, step.thread);
    } else if step.CallBackend? {
      PromptCall(s, w, v, step.thread);
    } else {
      QuietStep(s, w, step, v);
      PromptQuiet(s, w, v);
    }
  }

  /** If revocation waits for the threads about to call, every call is made in the tenure of its claim. */
  lemma GentleRunsPrompt(s: Setting, run: seq<World>, k: nat)
    requires IsRun(s, run) && IsGentle(run) && k < |run|
    ensures AllPrompt(run[k])
  {
    for j := 0 to k
      invariant AllPrompt(run[j])
    {
      MovesInto(s, run, j + 1);
      assert GentleAt(run, j);
      PromptNext(s, run[j], run[j + 1]);
    }
  }

  // ---------------------------------------------------------------- two calls at one time

  /** Two calls were made during one tenure of one job. */
  predicate Together(w: World, i: nat, j: nat) {
    && i < |w.traffic.calls| && j < |w.traffic.calls| && i < |w.traffic.during| && j < |w.traffic.during|
    && w.traffic.calls[i] < |w.traffic.claims| && w.traffic.calls[j] < |w.traffic.claims|
    && w.traffic.during[i].Some? && w.traffic.during[i] == w.traffic.during[j]
    && ClaimOf(w, i).key.job == ClaimOf(w, j).key.job
  }

  /** While a grant is registered the backend is called at most once for a job and digest. */
  ghost predicate CallsOnce(w: World) {
    forall i: nat, j: nat :: i < j && Together(w, i, j) ==> ClaimOf(w, i).key != ClaimOf(w, j).key
  }

  /** While a grant is registered all calls of its job are for one repository. */
  ghost predicate CallsOne(w: World) {
    forall i: nat, j: nat :: Together(w, i, j) ==>
      ClaimOf(w, i).context.grant.repository == ClaimOf(w, j).context.grant.repository
  }

  /** Every call is made while its job has a grant. */
  ghost predicate CallsRegistered(w: World) {
    forall i :: 0 <= i < |w.traffic.during| ==> w.traffic.during[i].Some?
  }

  /** In runs that wait, what holds by the tenure of claims holds by the time of calls. */
  lemma GentleRunsOnce(s: Setting, run: seq<World>, k: nat)
    requires IsRun(s, run) && IsGentle(run) && k < |run|
    ensures CallsOnce(run[k]) && CallsRegistered(run[k])
    ensures Sound(run[k].reign.issued) ==> CallsOne(run[k])
  {
    var w := run[k];
    GentleRunsPrompt(s, run, k);
    forall i: nat, j: nat | i < j && Together(w, i, j) ensures ClaimOf(w, i).key != ClaimOf(w, j).key {
      assert Prompt(w, i) && Prompt(w, j);
      AtMostOnce(s, run, k, i, j);
    }
    forall i | 0 <= i < |w.traffic.during| ensures w.traffic.during[i].Some? { assert Prompt(w, i); }
    if Sound(w.reign.issued) {
      forall i: nat, j: nat | Together(w, i, j)
        ensures ClaimOf(w, i).context.grant.repository == ClaimOf(w, j).context.grant.repository
      {
        assert Prompt(w, i) && Prompt(w, j);
        assert ClaimOf(w, i) in w.traffic.claims && ClaimOf(w, j) in w.traffic.claims;
        OneRepository(s, run, k, ClaimOf(w, i), ClaimOf(w, j));
      }
    }
  }
}
