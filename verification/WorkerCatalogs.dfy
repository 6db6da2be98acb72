/** When all claims of a tenure are for one repository: a condition on the grants issued, exactly. */
module WorkerCatalogs {
  import opened PreparedTable
  import opened WorkerRuns
  import opened WorkerRepositories
  import opened WorkerSafety
  import opened WorkerWitnesses

  /** The backend calls for claims of one tenure all name one repository. */
  ghost predicate OneEach(w: World) {
    forall i, j :: 0 <= i < |w.traffic.calls| && 0 <= j < |w.traffic.calls| ==> Agree(w, i, j)
  }

  ghost predicate Agree(w: World, i: nat, j: nat)
    requires i < |w.traffic.calls| && j < |w.traffic.calls|
  {
    w.traffic.calls[i] < |w.traffic.claims| && w.traffic.calls[j] < |w.traffic.claims|
    && var a, b := ClaimOf(w, i), ClaimOf(w, j);
       a.tenure == b.tenure && a.key.job == b.key.job ==> a.context.grant.repository == b.context.grant.repository
  }

  /** A run in which no other primaries than these are issued, in this order. */
  ghost predicate KeepsTo(s: Setting, plan: seq<Grant>, run: seq<World>) {
    IsRun(s, run) && Last(run).reign.issued <= plan
  }

  /** However threads and revocations interleave while the plan is followed. */
  ghost predicate KeepsOne(s: Setting, plan: seq<Grant>) {
    forall run :: KeepsTo(s, plan, run) ==> OneEach(Last(run))
  }

  ghost predicate HasDigest(s: Setting, r: Request) {
    exists digest: Digest :: s.requestOf(digest) == r
  }

  /** Every request can be made. */
  ghost predicate Plentiful(s: Setting) {
    forall r :: HasDigest(s, r)
  }

  predicate AllConsistent(plan: seq<Grant>) {
    forall i :: 0 <= i < |plan| ==> Consistent(plan[i])
  }

  lemma SoundPrefix(issued: seq<Grant>, plan: seq<Grant>)
    requires issued <= plan && Sound(plan)
    ensures Sound(issued)
  {
    forall i: nat, j: nat, g, h | Shared(issued, i, j, g) && Holds(issued[j], h) && Usable(h)
      ensures g.repository == h.repository
    {
      assert Shared(plan, i, j, g) && Holds(plan[j], h);
    }
  }

  lemma SoundAgrees(w: World)
    requires CalledOnce(w) && OneChoice(w) && Sound(w.reign.issued)
    ensures OneEach(w)
  {
    forall i, j | 0 <= i < |w.traffic.calls| && 0 <= j < |w.traffic.calls| ensures Agree(w, i, j) {
      assert w.traffic.calls[i] in w.traffic.calls && w.traffic.calls[j] in w.traffic.calls;
      var a, b := ClaimOf(w, i), ClaimOf(w, j);
      if a.tenure == b.tenure && a.key.job == b.key.job { ClaimsAgree(w, a, b); }
    }
  }

  lemma SoundKeepsOne(s: Setting, plan: seq<Grant>, run: seq<World>)
    requires KeepsTo(s, plan, run) && Sound(plan)
    ensures OneEach(Last(run))
  {
    InvHolds(s, run, |run| - 1);
    SoundPrefix(Last(run).reign.issued, plan);
    SoundAgrees(Last(run));
  }

  /**
   Every run keeps the claims of each tenure to one repository exactly if the plan is sound. Otherwise a
   thread that selected the shared object under the earlier catalog claims under the later one.
   */
  lemma OneRepositoryExactly(s: Setting, plan: seq<Grant>)
    requires s.ttl > 0 && Plentiful(s) && AllConsistent(plan)
    ensures KeepsOne(s, plan) <==> Sound(plan)
  {
    if Sound(plan) {
      forall run | KeepsTo(s, plan, run) ensures OneEach(Last(run)) { SoundKeepsOne(s, plan, run); }
    } else {
      var i: nat, j: nat, g, h :| Shared(plan, i, j, g) && Holds(plan[j], h) && Usable(h) && g.repository != h.repository;
      var run := NamesTwo(s, plan, i, j, g, h);
      assert KeepsTo(s, plan, run);
    }
  }

  // ---------------------------------------------------------------- the run that names two

  /** A request the object admits, and its digest. */
  lemma Asks(s: Setting, g: Grant, since: nat) returns (c: Context, digest: Digest)
    requires Usable(g) && Plentiful(s)
    ensures c.grant == g && Admits(g, c.operation, c.scope) && c.now < g.expires && c.since == since
    ensures s.requestOf(digest) == Wanted(c)
  {
    var operation, scope :| Admits(g, operation, scope);
    c := Context(g, operation, scope, g.expires - 1, since);
    assert HasDigest(s, Wanted(c));
    digest :| s.requestOf(digest) == Wanted(c);
  }

  /** The catalog of place `i` in the plan is issued after those before it. */
  lemma IssuedAt(s: Setting, plan: seq<Grant>, i: nat) returns (run: seq<World>)
    requires i < |plan| && AllConsistent(plan)
    ensures IsRun(s, run) && Last(run).reign.issued == plan[..i + 1] && TenureOf(Last(run), plan[i].job) == i + 1
    ensures Last(run) == BEGINNING.(table := IssueTo(BLANK, plan[i]), reign := Last(run).reign)
  {
    run := Begins(s);
    var reign;
    run, reign := Passes(s, run, plan[..i], BEGINNING);
    run := Issues(s, run, plan[i], Last(run));
  }

  /** The catalog of place `j` is issued after that of `i` was revoked, while threads stay where they are. */
  lemma IssuedThen(s: Setting, run: seq<World>, plan: seq<Grant>, i: nat, j: nat, w: World) returns (longer: seq<World>)
    requires IsRun(s, run) && Last(run) == w && w.table == BLANK && i < j < |plan| && AllConsistent(plan)
    requires w.reign.issued == plan[..i + 1]
    ensures IsRun(s, longer) && Last(longer).reign.issued == plan[..j + 1] && TenureOf(Last(longer), plan[j].job) == j + 1
    ensures Last(longer) == w.(table := IssueTo(BLANK, plan[j]), reign := Last(longer).reign)
  {
    var reign;
    longer, reign := Passes(s, run, plan[i + 1..j], w);
    longer := Issues(s, longer, plan[j], Last(longer));
    assert plan[..i + 1] + plan[i + 1..j] + [plan[j]] == plan[..j + 1];
  }

  /** The shared object is selected under the earlier catalog, whose grant is then revoked. */
  lemma LeavesStale(s: Setting, plan: seq<Grant>, i: nat, g: Grant) returns (run: seq<World>, late: Context, digest: Digest)
    requires i < |plan| && plan[i].job == g.job && Holds(plan[i], g) && Usable(g) && AllConsistent(plan) && Plentiful(s)
    ensures IsRun(s, run) && late.grant == g && s.requestOf(digest) == Wanted(late)
    ensures Last(run).reign.issued == plan[..i + 1]
    ensures Last(run) == BEGINNING.(places := map[0 := Chosen(late, late.since)], reign := Last(run).reign)
  {
    run := IssuedAt(s, plan, i);
    late, digest := Asks(s, g, i + 1);
    run := Chooses(s, run, 0, late, Last(run));
    run := Revokes(s, run, plan[i], Last(run));
  }

  /** Under the later catalog another thread selects another repository; both are on their way. */
  lemma StaleThread(s: Setting, plan: seq<Grant>, i: nat, j: nat, g: Grant, h: Grant)
    returns (run: seq<World>, late: Context, prompt: Context, first: Digest, second: Digest)
    requires Shared(plan, i, j, g) && Holds(plan[j], h) && Usable(h) && AllConsistent(plan) && Plentiful(s)
    ensures IsRun(s, run) && late.grant == g && prompt.grant == h && h.job == g.job
    ensures s.requestOf(first) == Wanted(prompt) && s.requestOf(second) == Wanted(late)
    ensures Last(run).reign.issued == plan[..j + 1]
    ensures Last(run) == World(Table(map[g.job := plan[j]], map[g.job := h.repository], map[], map[]),
                               map[0 := Chosen(late, late.since), 1 := Chosen(prompt, prompt.since)],
                               Last(run).reign, Proposals(0, map[], {}), NO_TRAFFIC)
  {
    run, late, second := LeavesStale(s, plan, i, g);
    run := IssuedThen(s, run, plan, i, j, Last(run));
    prompt, first := Asks(s, h, j + 1);
    assert Consistent(plan[j]);
    run := Chooses(s, run, 1, prompt, Last(run));
  }

  /** Both requests go to the backend, the one of the later catalog first. */
  lemma BothCall(s: Setting, run: seq<World>, late: Context, prompt: Context, first: Digest, second: Digest, w: World)
    returns (longer: seq<World>)
    requires IsRun(s, run) && Last(run) == w && s.ttl > 0 && first != second && late.grant.job == prompt.grant.job
    requires w.places == map[0 := Chosen(late, late.since), 1 := Chosen(prompt, prompt.since)]
    requires w.table.prepared == map[] && w.traffic == NO_TRAFFIC
    requires Registered(w.table, late.grant) && Registered(w.table, prompt.grant)
    requires s.requestOf(first) == Wanted(prompt) && s.requestOf(second) == Wanted(late)
    ensures IsRun(s, longer) && Last(longer).reign == w.reign
    ensures var v := Last(longer);
            && |v.traffic.claims| == 2 && v.traffic.calls == [0, 1]
            && v.traffic.claims[0].context == prompt && v.traffic.claims[1].context == late
            && v.traffic.claims[0].tenure == v.traffic.claims[1].tenure
            && v.traffic.claims[0].key.job == v.traffic.claims[1].key.job
  {
    longer := Claims(s, run, 1, first, w);
    longer := Calls(s, longer, 1, Last(longer));
    var v := Last(longer);
    assert v.table.prepared.Keys == {Key(prompt.grant.job, first)};
    assert PlaceOf(v, 0) == Chosen(late, late.since);
    longer := Claims(s, longer, 0, second, v);
    longer := Calls(s, longer, 0, Last(longer));
  }

  /** With an object shared by two catalogs the backend is called for two repositories claimed in one tenure. */
  lemma NamesTwo(s: Setting, plan: seq<Grant>, i: nat, j: nat, g: Grant, h: Grant) returns (run: seq<World>)
    requires s.ttl > 0 && Plentiful(s) && AllConsistent(plan)
    requires Shared(plan, i, j, g) && Holds(plan[j], h) && Usable(h) && g.repository != h.repository
    ensures KeepsTo(s, plan, run) && !OneEach(Last(run))
  {
    var late, prompt, first, second;
    run, late, prompt, first, second := StaleThread(s, plan, i, j, g, h);
    run := BothCall(s, run, late, prompt, first, second, Last(run));
    assert !Agree(Last(run), 0, 1);
  }
}
