/** What holds of backend calls at the time they are made: conditions on the grants issued, exactly. */
module WorkerPlans {
  import opened Bytes
  import opened PreparedTable
  import opened WorkerRuns
  import opened WorkerRepositories
  import opened WorkerSafety
  import opened WorkerWitnesses
  import opened WorkerCatalogs
  import opened WorkerCalls

  // ---------------------------------------------------------------- who prepared a request

  /** An object of the catalog of its tenure for which the request was prepared. */
  ghost predicate OfferedBy(s: Setting, w: World, p: Preparation, g: Grant) {
    && IssuedUnder(w, g, p.tenure) && g.job == p.key.job && Admits(g, p.operation, p.scope)
    && s.requestOf(p.key.digest) == Request(p.operation, p.scope, g.repository)
  }

  ghost predicate Offered(s: Setting, w: World, p: Preparation) {
    exists g :: OfferedBy(s, w, p, g)
  }

  ghost predicate AllOffered(s: Setting, w: World) {
    forall p :: p in w.proposals.prepares ==> Offered(s, w, p)
  }

  lemma OfferStays(s: Setting, w: World, v: World, p: Preparation)
    requires Offered(s, w, p) && w.reign.issued <= v.reign.issued
    ensures Offered(s, v, p)
  {
    var g :| OfferedBy(s, w, p, g);
    assert OfferedBy(s, v, p, g);
  }

  lemma OfferedInsert(s: Setting, w: World, v: World, t: Thread)
    requires Recorded(s, w) && OneChoice(w) && InsertStep(s, w, v, t, None)
    ensures var Proposed(c, _, digest) := PlaceOf(w, t);
            && v.proposals.prepares == w.proposals.prepares + {PreparationNow(w, c, digest)}
            && v.reign == w.reign && Offered(s, w, PreparationNow(w, c, digest))
  {
    var Proposed(c, era, digest) := PlaceOf(w, t);
    PreparesEffect(w.table, c.grant, digest, c.scope, c.operation, c.now, s.ttl, w.proposals.serials, v.table, None);
    RegisteredThere(w, c.grant);
    assert StandsOK(w, w.places[t]);
    assert OfferedBy(s, w, PreparationNow(w, c, digest), c.grant);
  }

  lemma OfferedPeek(s: Setting, w: World, v: World, t: Thread, digest: Digest)
    requires Recorded(s, w) && AllOffered(s, w) && PeekStep(s, w, v, t, Some(digest))
    ensures var c := PlaceOf(w, t).context;
            && v.proposals.prepares == w.proposals.prepares + {PreparationNow(w, c, digest)}
            && v.reign == w.reign && Offered(s, w, PreparationNow(w, c, digest))
  {
    var c := PlaceOf(w, t).context;
    var k := Key(c.grant.job, digest);
    var r := w.table.prepared[k];
    assert RecordOK(s, w, k, r);
    var p := Preparation(TenureOf(w, k.job), k, r.scope, r.operation, r.at);
    var g :| OfferedBy(s, w, p, g);
    assert OfferedBy(s, w, PreparationNow(w, c, digest), g);
  }

  lemma NothingPrepared(s: Setting, w: World, step: Step, v: World)
    requires Does(s, w, step, v) && !(step.Insert? && step.denial.None?) && !(step.Peek? && step.found.Some?)
    ensures v.proposals.prepares == w.proposals.prepares && w.reign.issued <= v.reign.issued
  {
  }

  lemma OfferedNext(s: Setting, w: World, v: World)
    requires Recorded(s, w) && OneChoice(w) && AllOffered(s, w) && Next(s, w, v)
    ensures AllOffered(s, v)
  {
    var step :| Does(s, w, step, v);
    if step.Insert? && step.denial.None? {
      OfferedInsert(s, w, v, step.thread);
    } else if step.Peek? && step.found.Some? {
      OfferedPeek(s, w, v, step.thread, step.found.value);
    } else {
      NothingPrepared(s, w, step, v);
    }
    forall p | p in v.proposals.prepares ensures Offered(s, v, p) { OfferStays(s, w, v, p); }
  }

  /** Every preparation was made for the request of its digest, by an object that admits it. */
  lemma OffersHold(s: Setting, run: seq<World>, k: nat)
    requires IsRun(s, run) && k < |run|
    ensures AllOffered(s, run[k])
  {
    for j := 0 to k
      invariant AllOffered(s, run[j])
    {
      InvHolds(s, run, j);
      MovesInto(s, run, j + 1);
      OfferedNext(s, run[j], run[j + 1]);
    }
  }

  // ---------------------------------------------------------------- conditions on plans

  /** Two objects in catalogs issued to one job one after the other. */
  predicate Successive(plan: seq<Grant>, i: nat, j: nat, g: Grant, h: Grant) {
    i < j < |plan| && plan[i].job == plan[j].job && Holds(plan[i], g) && Holds(plan[j], h)
  }

  /** Both admit the same request. */
  predicate Clash(plan: seq<Grant>, i: nat, j: nat, g: Grant, h: Grant, operation: Operation, scope: Scope) {
    && Successive(plan, i, j, g, h) && g.repository == h.repository
    && Admits(g, operation, scope) && Admits(h, operation, scope)
  }

  /** No request is admitted by two catalogs of a job. */
  ghost predicate Apart(plan: seq<Grant>) {
    forall i: nat, j: nat, g, h, operation, scope :: !Clash(plan, i, j, g, h, operation, scope)
  }

  /** All catalogs of a job that are issued more than once are for one repository, as far as they can be used. */
  ghost predicate Alike(plan: seq<Grant>) {
    forall i: nat, j: nat, g, h :: Successive(plan, i, j, g, h) && Usable(g) && Usable(h) ==> g.repository == h.repository
  }

  ghost predicate Offers(plan: seq<Grant>, i: nat, g: Grant) {
    i < |plan| && Holds(plan[i], g) && Usable(g)
  }

  /** No object of any catalog can be used. */
  ghost predicate Unusable(plan: seq<Grant>) {
    forall i: nat, g :: !Offers(plan, i, g)
  }

  ghost predicate KeepsCallsOnce(s: Setting, plan: seq<Grant>) {
    forall run :: KeepsTo(s, plan, run) ==> CallsOnce(Last(run))
  }

  ghost predicate KeepsCallsOne(s: Setting, plan: seq<Grant>) {
    forall run :: KeepsTo(s, plan, run) ==> CallsOne(Last(run))
  }

  ghost predicate KeepsCallsRegistered(s: Setting, plan: seq<Grant>) {
    forall run :: KeepsTo(s, plan, run) ==> CallsRegistered(Last(run))
  }

  // ---------------------------------------------------------------- the conditions suffice

  lemma UnderBoth(plan: seq<Grant>, w: World, g: Grant, m: nat, h: Grant, n: nat)
    requires w.reign.issued <= plan && g.job == h.job && IssuedUnder(w, g, m) && IssuedUnder(w, h, n) && m < n
    ensures Successive(plan, m - 1, n - 1, g, h)
  {
  }

  /** Claims of one digest in two tenures mean two catalogs that admit its request. */
  lemma SameDigestClashes(s: Setting, plan: seq<Grant>, w: World, p: Preparation, q: Preparation)
    requires w.reign.issued <= plan && Offered(s, w, p) && Offered(s, w, q) && p.key == q.key && p.tenure < q.tenure
    ensures !Apart(plan)
  {
    var g :| OfferedBy(s, w, p, g);
    var h :| OfferedBy(s, w, q, h);
    UnderBoth(plan, w, g, p.tenure, h, q.tenure);
    assert Clash(plan, p.tenure - 1, q.tenure - 1, g, h, p.operation, p.scope);
  }

  lemma PreparationOf(s: Setting, run: seq<World>, k: nat, i: nat) returns (p: Preparation)
    requires IsRun(s, run) && k < |run| && i < |run[k].traffic.calls|
    ensures run[k].traffic.calls[i] < |run[k].traffic.claims|
    ensures p.key == ClaimOf(run[k], i).key && p.tenure == ClaimOf(run[k], i).tenure && Offered(s, run[k], p)
  {
    PreparedBefore(s, run, k, i);
    OffersHold(s, run, k);
    var c := ClaimOf(run[k], i);
    p := Preparation(c.tenure, c.key, c.context.scope, c.context.operation, c.at);
  }

  lemma ApartCallsOnce(s: Setting, plan: seq<Grant>, run: seq<World>)
    requires KeepsTo(s, plan, run) && Apart(plan)
    ensures CallsOnce(Last(run))
  {
    var k := |run| - 1;
    forall i: nat, j: nat | i < j && Together(run[k], i, j) ensures ClaimOf(run[k], i).key != ClaimOf(run[k], j).key {
      AtMostOnce(s, run, k, i, j);
      var p := PreparationOf(s, run, k, i);
      var q := PreparationOf(s, run, k, j);
      if p.key == q.key && p.tenure < q.tenure { SameDigestClashes(s, plan, run[k], p, q); }
      if p.key == q.key && q.tenure < p.tenure { SameDigestClashes(s, plan, run[k], q, p); }
    }
  }

  lemma ClaimUsable(w: World, c: Claim)
    requires ClaimedFor(w, c)
    ensures Usable(c.context.grant)
  {
  }

  lemma AlikeSound(plan: seq<Grant>)
    requires Alike(plan)
    ensures Sound(plan)
  {
    forall i: nat, j: nat, g, h | Shared(plan, i, j, g) && Holds(plan[j], h) && Usable(h) ensures g.repository == h.repository {
      assert Successive(plan, i, j, g, h);
    }
  }

  /** Two claims of a job are for one repository, whichever tenures they were made in. */
  lemma AlikeAgree(plan: seq<Grant>, w: World, a: Claim, b: Claim)
    requires w.reign.issued <= plan && Alike(plan) && OneChoice(w) && a in w.traffic.claims && b in w.traffic.claims
    requires a.key.job == b.key.job
    ensures a.context.grant.repository == b.context.grant.repository
  {
    assert ClaimedFor(w, a) && ClaimedFor(w, b);
    ClaimUsable(w, a);
    ClaimUsable(w, b);
    if a.tenure < b.tenure {
      UnderBoth(plan, w, a.context.grant, a.tenure, b.context.grant, b.tenure);
    } else if b.tenure < a.tenure {
      UnderBoth(plan, w, b.context.grant, b.tenure, a.context.grant, a.tenure);
    } else {
      AlikeSound(plan);
      SoundPrefix(w.reign.issued, plan);
      ClaimsAgree(w, a, b);
    }
  }

  lemma AlikeAgrees(plan: seq<Grant>, w: World)
    requires w.reign.issued <= plan && Alike(plan) && OneChoice(w)
    ensures CallsOne(w)
  {
    forall i: nat, j: nat | Together(w, i, j)
      ensures ClaimOf(w, i).context.grant.repository == ClaimOf(w, j).context.grant.repository
    {
      AlikeAgree(plan, w, ClaimOf(w, i), ClaimOf(w, j));
    }
  }

  lemma AlikeCallsOne(s: Setting, plan: seq<Grant>, run: seq<World>)
    requires KeepsTo(s, plan, run) && Alike(plan)
    ensures CallsOne(Last(run))
  {
    InvHolds(s, run, |run| - 1);
    AlikeAgrees(plan, Last(run));
  }

  /** Each call has its moment. */
  ghost predicate Timed(w: World) {
    |w.traffic.during| == |w.traffic.calls|
  }

  lemma TimedNext(s: Setting, w: World, v: World)
    requires Timed(w) && Next(s, w, v)
    ensures Timed(v)
  {
    var step :| Does(s, w, step, v);
    if !step.ClaimIt? && !step.CallBackend? { QuietStep(s, w, step, v); }
  }

  lemma TimedHolds(s: Setting, run: seq<World>, k: nat)
    requires IsRun(s, run) && k < |run|
    ensures Timed(run[k])
  {
    for j := 0 to k
      invariant Timed(run[j])
    {
      MovesInto(s, run, j + 1);
      TimedNext(s, run[j], run[j + 1]);
    }
  }

  lemma NothingClaimed(plan: seq<Grant>, w: World)
    requires w.reign.issued <= plan && Unusable(plan) && OneChoice(w)
    ensures w.traffic.claims == []
  {
    if w.traffic.claims != [] {
      var c := w.traffic.claims[0];
      assert ClaimedFor(w, c);
      ClaimUsable(w, c);
      assert Offers(plan, c.tenure - 1, c.context.grant);
    }
  }

  lemma NothingCalled(plan: seq<Grant>, w: World)
    requires w.reign.issued <= plan && Unusable(plan) && OneChoice(w) && CalledOnce(w)
    ensures w.traffic.calls == []
  {
    assert w.traffic.calls != [] ==> w.traffic.calls[0] in w.traffic.calls;
    NothingClaimed(plan, w);
  }

  lemma UnusableCallsNothing(s: Setting, plan: seq<Grant>, run: seq<World>)
    requires KeepsTo(s, plan, run) && Unusable(plan)
    ensures CallsRegistered(Last(run))
  {
    TimedHolds(s, run, |run| - 1);
    InvHolds(s, run, |run| - 1);
    NothingCalled(plan, Last(run));
  }

  // ---------------------------------------------------------------- the conditions are needed

  /** A request that is admitted under the catalog of place `i`. */
  ghost predicate AskedUnder(s: Setting, plan: seq<Grant>, i: nat, c: Context, digest: Digest) {
    && i < |plan| && c.grant.job == plan[i].job && Holds(plan[i], c.grant) && Admits(c.grant, c.operation, c.scope)
    && c.now < c.grant.expires && c.since == i + 1 && s.requestOf(digest) == Wanted(c)
  }

  lemma AskUnder(s: Setting, plan: seq<Grant>, i: nat, g: Grant, operation: Operation, scope: Scope, digest: Digest)
    returns (c: Context)
    requires i < |plan| && AllConsistent(plan) && Holds(plan[i], g) && Admits(g, operation, scope)
    requires s.requestOf(digest) == Request(operation, scope, g.repository)
    ensures AskedUnder(s, plan, i, c, digest) && c.grant == g
  {
    assert Consistent(plan[i]);
    c := Context(g, operation, scope, g.expires - 1, i + 1);
  }

  /** The request is claimed, and the grant revoked before the backend is called. */
  lemma ClaimedThenRevoked(s: Setting, plan: seq<Grant>, i: nat, c: Context, digest: Digest) returns (run: seq<World>)
    requires s.ttl > 0 && AllConsistent(plan) && AskedUnder(s, plan, i, c, digest)
    ensures IsRun(s, run) && Last(run).reign.issued == plan[..i + 1] && Last(run).table == BLANK
    ensures var w := Last(run);
            && w.places == map[0 := Calling(0, 0)] && |w.traffic.claims| == 1 && w.traffic.calls == [] && w.traffic.during == []
            && w.traffic.claims[0].key == Key(c.grant.job, digest) && w.traffic.claims[0].context == c
  {
    run := IssuedAt(s, plan, i);
    run := Chooses(s, run, 0, c, Last(run));
    run := Claims(s, run, 0, digest, Last(run));
    run := Revokes(s, run, plan[i], Last(run));
  }

  /** A call without a grant. */
  lemma LateCall(s: Setting, plan: seq<Grant>, i: nat, c: Context, digest: Digest) returns (run: seq<World>)
    requires s.ttl > 0 && AllConsistent(plan) && AskedUnder(s, plan, i, c, digest)
    ensures KeepsTo(s, plan, run) && Last(run).traffic.calls == [0] && Last(run).traffic.during == [None]
  {
    run := ClaimedThenRevoked(s, plan, i, c, digest);
    run := Calls(s, run, 0, Last(run));
  }

  /** Under the next catalog another thread is admitted and claims as well. */
  lemma ClaimsAfter(s: Setting, run: seq<World>, plan: seq<Grant>, i: nat, j: nat, c: Context, digest: Digest, w: World)
    returns (longer: seq<World>)
    requires IsRun(s, run) && Last(run) == w && s.ttl > 0 && AllConsistent(plan) && i < j && AskedUnder(s, plan, j, c, digest)
    requires w.table == BLANK && w.reign.issued == plan[..i + 1] && w.places == map[0 := Calling(0, 0)]
    requires |w.traffic.claims| == 1
    ensures IsRun(s, longer)
    ensures var v := Last(longer);
            && v.reign.issued == plan[..j + 1] && InForce(v, c.grant.job) == Some(j + 1)
            && |v.traffic.claims| == 2 && v.traffic.claims[0] == w.traffic.claims[0]
            && v.traffic.claims[1].key == Key(c.grant.job, digest) && v.traffic.claims[1].context == c
            && v.traffic.calls == w.traffic.calls && v.traffic.during == w.traffic.during
            && PlaceOf(v, 0) == Calling(0, 0) && PlaceOf(v, 1).Calling? && PlaceOf(v, 1).claim == 1
  {
    longer := IssuedThen(s, run, plan, i, j, w);
    longer := Chooses(s, longer, 1, c, Last(longer));
    longer := Claims(s, longer, 1, digest, Last(longer));
  }

  /** Both call, the one of the later catalog first. */
  lemma CallInTurn(s: Setting, run: seq<World>, w: World, tenure: nat) returns (longer: seq<World>)
    requires IsRun(s, run) && Last(run) == w && |w.traffic.claims| == 2 && w.traffic.calls == [] && w.traffic.during == []
    requires w.traffic.claims[0].key.job == w.traffic.claims[1].key.job
    requires InForce(w, w.traffic.claims[0].key.job) == Some(tenure)
    requires PlaceOf(w, 0) == Calling(0, 0) && PlaceOf(w, 1).Calling? && PlaceOf(w, 1).claim == 1
    ensures IsRun(s, longer) && Last(longer).reign == w.reign && Last(longer).traffic.claims == w.traffic.claims
    ensures Last(longer).traffic.calls == [1, 0] && Last(longer).traffic.during == [Some(tenure), Some(tenure)]
  {
    longer := Calls(s, run, 1, w);
    assert PlaceOf(Last(longer), 0) == Calling(0, 0);
    longer := Calls(s, longer, 0, Last(longer));
  }

  /** Two requests claimed under different catalogs are both called under the later one. */
  lemma BothLate(s: Setting, plan: seq<Grant>, i: nat, j: nat, late: Context, first: Digest, prompt: Context, second: Digest)
    returns (run: seq<World>)
    requires s.ttl > 0 && AllConsistent(plan) && i < j && late.grant.job == prompt.grant.job
    requires AskedUnder(s, plan, i, late, first) && AskedUnder(s, plan, j, prompt, second)
    ensures KeepsTo(s, plan, run)
    ensures var w := Last(run);
            && Together(w, 0, 1) && ClaimOf(w, 0).context == prompt && ClaimOf(w, 1).context == late
            && ClaimOf(w, 0).key == Key(prompt.grant.job, second) && ClaimOf(w, 1).key == Key(late.grant.job, first)
  {
    run := ClaimedThenRevoked(s, plan, i, late, first);
    run := ClaimsAfter(s, run, plan, i, j, prompt, second, Last(run));
    run := CallInTurn(s, run, Last(run), j + 1);
  }

  // ---------------------------------------------------------------- exactly

  /**
   The backend is called at most once for a job and digest while a grant is registered, in every run that
   follows the plan, exactly if no two catalogs of a job admit the same request. Otherwise a thread that
   claimed under the earlier one calls under the later one, where another has prepared and called anew.
   */
  lemma AtMostOnceByCall(s: Setting, plan: seq<Grant>)
    requires s.ttl > 0 && Plentiful(s) && AllConsistent(plan)
    ensures KeepsCallsOnce(s, plan) <==> Apart(plan)
  {
    if Apart(plan) {
      forall run | KeepsTo(s, plan, run) ensures CallsOnce(Last(run)) { ApartCallsOnce(s, plan, run); }
    } else {
      var i: nat, j: nat, g, h, operation, scope :| Clash(plan, i, j, g, h, operation, scope);
      var run := CallsTwice(s, plan, i, j, g, h, operation, scope);
    }
  }

  lemma CallsTwice(s: Setting, plan: seq<Grant>, i: nat, j: nat, g: Grant, h: Grant, operation: Operation, scope: Scope)
    returns (run: seq<World>)
    requires s.ttl > 0 && Plentiful(s) && AllConsistent(plan) && Clash(plan, i, j, g, h, operation, scope)
    ensures KeepsTo(s, plan, run) && !CallsOnce(Last(run))
  {
    assert HasDigest(s, Request(operation, scope, g.repository));
    var digest: Digest :| s.requestOf(digest) == Request(operation, scope, g.repository);
    var late := AskUnder(s, plan, i, g, operation, scope, digest);
    var prompt := AskUnder(s, plan, j, h, operation, scope, digest);
    run := BothLate(s, plan, i, j, late, digest, prompt, digest);
    assert Together(Last(run), 0, 1);
  }

  /**
   All calls of a job made while one of its grants is registered are for one repository, in every run that
   follows the plan, exactly if all usable objects in its successive catalogs are for that repository.
   */
  lemma OneRepositoryByCall(s: Setting, plan: seq<Grant>)
    requires s.ttl > 0 && Plentiful(s) && AllConsistent(plan)
    ensures KeepsCallsOne(s, plan) <==> Alike(plan)
  {
    if Alike(plan) {
      forall run | KeepsTo(s, plan, run) ensures CallsOne(Last(run)) { AlikeCallsOne(s, plan, run); }
    } else {
      var i: nat, j: nat, g, h :| Successive(plan, i, j, g, h) && Usable(g) && Usable(h) && g.repository != h.repository;
      var run := CallsForTwo(s, plan, i, j, g, h);
    }
  }

  lemma UsableUnder(s: Setting, plan: seq<Grant>, i: nat, g: Grant) returns (c: Context, digest: Digest)
    requires Plentiful(s) && AllConsistent(plan) && i < |plan| && Holds(plan[i], g) && Usable(g)
    ensures AskedUnder(s, plan, i, c, digest) && c.grant == g
  {
    var operation, scope :| Admits(g, operation, scope);
    assert HasDigest(s, Request(operation, scope, g.repository));
    digest :| s.requestOf(digest) == Request(operation, scope, g.repository);
    c := AskUnder(s, plan, i, g, operation, scope, digest);
  }

  lemma CallsForTwo(s: Setting, plan: seq<Grant>, i: nat, j: nat, g: Grant, h: Grant) returns (run: seq<World>)
    requires s.ttl > 0 && Plentiful(s) && AllConsistent(plan)
    requires Successive(plan, i, j, g, h) && Usable(g) && Usable(h) && g.repository != h.repository
    ensures KeepsTo(s, plan, run) && !CallsOne(Last(run))
  {
    var late, first := UsableUnder(s, plan, i, g);
    var prompt, second := UsableUnder(s, plan, j, h);
    run := BothLate(s, plan, i, j, late, first, prompt, second);
    assert Together(Last(run), 0, 1);
  }

  /** Every call is made while its job has a grant, in every run that follows the plan, only if nothing can be called. */
  lemma RegisteredByCall(s: Setting, plan: seq<Grant>)
    requires s.ttl > 0 && Plentiful(s) && AllConsistent(plan)
    ensures KeepsCallsRegistered(s, plan) <==> Unusable(plan)
  {
    if Unusable(plan) {
      forall run | KeepsTo(s, plan, run) ensures CallsRegistered(Last(run)) { UnusableCallsNothing(s, plan, run); }
    } else {
      var i: nat, g :| Offers(plan, i, g);
      var c, digest := UsableUnder(s, plan, i, g);
      var run := LateCall(s, plan, i, c, digest);
      assert Last(run).traffic.during[0].None?;
    }
  }
}
