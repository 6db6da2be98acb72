/** Which repository the requests of one tenure are claimed for. */
module WorkerRepositories {
  import opened Bytes
  import opened PreparedTable
  import opened WorkerRuns

  predicate Choosing(p: Place) {
    p.Chosen? || p.Proposed? || p.Ready?
  }

  predicate Running(w: World, job: Job, tenure: nat) {
    job in w.table.grants && TenureOf(w, job) == tenure
  }

  predicate SelectedIs(w: World, job: Job, repository: Repository) {
    job in w.table.selected && w.table.selected[job] == repository
  }

  /** The object belonged to the catalog issued for a tenure. */
  predicate IssuedUnder(w: World, g: Grant, tenure: nat) {
    0 < tenure <= |w.reign.issued| && w.reign.issued[tenure - 1].job == g.job && Holds(w.reign.issued[tenure - 1], g)
  }

  /** Whether the grant object admits any request. */
  ghost predicate Usable(g: Grant) {
    exists operation, scope :: Admits(g, operation, scope)
  }

  ghost predicate ContextOK(w: World, c: Context) {
    IssuedUnder(w, c.grant, c.since) && Admits(c.grant, c.operation, c.scope) && c.since <= TenureOf(w, c.grant.job)
  }

  ghost predicate ChoiceOK(w: World, c: Context, era: nat) {
    && ContextOK(w, c) && c.since <= era <= TenureOf(w, c.grant.job)
    && (Running(w, c.grant.job, era) ==> SelectedIs(w, c.grant.job, c.grant.repository))
  }

  ghost predicate StandsOK(w: World, p: Place) {
    && (p.Admitted? ==> ContextOK(w, p.context))
    && (Choosing(p) ==> ChoiceOK(w, p.context, p.era))
  }

  predicate GrantOK(w: World, j: Job, g: Grant) {
    && g.job == j && Consistent(g)
    && 0 < TenureOf(w, j) <= |w.reign.issued| && w.reign.issued[TenureOf(w, j) - 1] == g
  }

  ghost predicate ClaimedFor(w: World, c: Claim) {
    && c.context.grant.job == c.key.job && IssuedUnder(w, c.context.grant, c.tenure)
    && Admits(c.context.grant, c.context.operation, c.context.scope)
    && IssuedUnder(w, c.context.grant, c.context.since) && c.context.since <= c.era <= c.tenure
    && (c.era == c.tenure && Running(w, c.key.job, c.tenure) ==> SelectedIs(w, c.key.job, c.context.grant.repository))
  }

  /** Two claims of one tenure whose repository was selected during it. */
  predicate Settled(a: Claim, b: Claim) {
    a.tenure == b.tenure && a.key.job == b.key.job && a.era == a.tenure && b.era == b.tenure
  }

  ghost predicate OneChoice(w: World) {
    && (forall j :: j in w.table.grants ==> GrantOK(w, j, w.table.grants[j]))
    && (forall t :: t in w.places ==> StandsOK(w, w.places[t]))
    && (forall c :: c in w.traffic.claims ==> ClaimedFor(w, c))
    && (forall a, b :: a in w.traffic.claims && b in w.traffic.claims && Settled(a, b) ==>
          a.context.grant.repository == b.context.grant.repository)
  }

  /** A step that selects nothing and claims nothing: what threads chose is carried along. */
  ghost predicate Carries(w: World, v: World) {
    && v.table.grants == w.table.grants && v.table.selected == w.table.selected
    && v.reign == w.reign && v.traffic.claims == w.traffic.claims
    && forall t :: t in v.places ==> Follows(PlaceOf(w, t), v.places[t])
  }

  predicate Follows(p: Place, q: Place) {
    || p == q
    || (!q.Admitted? && !Choosing(q))
    || (Choosing(p) && Choosing(q) && q.context == p.context && q.era == p.era)
  }

  lemma CarriesPeek(s: Setting, w: World, v: World, t: Thread, found: Option<Digest>)
    requires PeekStep(s, w, v, t, found)
    ensures Carries(w, v)
  {
  }

  lemma CarriesInsert(s: Setting, w: World, v: World, t: Thread, denial: Option<Denial>)
    requires InsertStep(s, w, v, t, denial)
    ensures Carries(w, v)
  {
  }

  lemma CarriesCalm(s: Setting, w: World, step: Step, v: World)
    requires Does(s, w, step, v) && !Stirs(step) && !step.Admit? && !step.Select?
    ensures Carries(w, v)
  {
  }

  lemma CarriedOn(w: World, v: World)
    requires OneChoice(w) && Carries(w, v)
    ensures OneChoice(v)
  {
    forall t | t in v.places ensures StandsOK(v, v.places[t]) {
      if t in w.places { assert StandsOK(w, w.places[t]); }
    }
    forall c | c in v.traffic.claims ensures ClaimedFor(v, c) { assert ClaimedFor(w, c); }
  }

  lemma ChoiceIssue(s: Setting, w: World, v: World, g: Grant)
    requires ClaimedOnce(s, w) && OneChoice(w) && IssueStep(w, v, g)
    ensures OneChoice(v)
  {
    forall j | j in v.table.grants ensures GrantOK(v, j, v.table.grants[j]) {
      if j != g.job { assert GrantOK(w, j, w.table.grants[j]); }
    }
    forall t | t in v.places ensures StandsOK(v, v.places[t]) {
      assert StandsOK(w, w.places[t]);
    }
    forall c | c in v.traffic.claims ensures ClaimedFor(v, c) { assert ClaimedFor(w, c) && ClaimOK(s, w, c); }
  }

  lemma ChoiceRevoke(s: Setting, w: World, v: World, job: Job)
    requires OneChoice(w) && v == w.(table := RevokeFrom(w.table, job))
    ensures OneChoice(v)
  {
    forall j | j in v.table.grants ensures GrantOK(v, j, v.table.grants[j]) { assert GrantOK(w, j, w.table.grants[j]); }
    forall u | u in v.places ensures StandsOK(v, v.places[u]) { assert StandsOK(w, w.places[u]); }
    forall c | c in v.traffic.claims ensures ClaimedFor(v, c) { assert ClaimedFor(w, c); }
  }

  lemma ChoiceAdmit(s: Setting, w: World, v: World, t: Thread, c: Context)
    requires OneChoice(w) && AdmitStep(w, v, t, c)
    ensures OneChoice(v)
  {
    forall j | j in v.table.grants ensures GrantOK(v, j, v.table.grants[j]) { assert GrantOK(w, j, w.table.grants[j]); }
    forall u | u in v.places ensures StandsOK(v, v.places[u]) { if u != t { assert StandsOK(w, w.places[u]); } }
    forall c | c in v.traffic.claims ensures ClaimedFor(v, c) { assert ClaimedFor(w, c); }
  }

  /** A selection changes no earlier one. */
  lemma SelectKeepsClaim(w: World, v: World, c: Claim)
    requires ClaimedFor(w, c) && v.reign == w.reign && v.table.grants == w.table.grants
    requires forall j :: j in w.table.selected ==> j in v.table.selected && v.table.selected[j] == w.table.selected[j]
    ensures ClaimedFor(v, c)
  {
  }

  lemma ChoiceSelect(s: Setting, w: World, v: World, t: Thread)
    requires OneChoice(w) && SelectStep(w, v, t)
    ensures OneChoice(v)
  {
    assert StandsOK(w, PlaceOf(w, t));
    forall j | j in v.table.grants ensures GrantOK(v, j, v.table.grants[j]) { assert GrantOK(w, j, w.table.grants[j]); }
    forall u | u in v.places ensures StandsOK(v, v.places[u]) { if u != t { assert StandsOK(w, w.places[u]); } }
    forall c | c in v.traffic.claims ensures ClaimedFor(v, c) { SelectKeepsClaim(w, v, c); }
  }

  /** The claim a thread makes is for the repository its job selected. */
  lemma ChosenClaim(s: Setting, w: World, v: World, t: Thread, c: Claim)
    requires OneChoice(w) && ClaimStep(s, w, v, t) && v.traffic == Claimed(w.traffic, c)
    ensures ClaimedFor(v, c) && Running(w, c.key.job, c.tenure)
  {
    var Ready(context, era, digest) := PlaceOf(w, t);
    assert v.traffic.claims[|w.traffic.claims|] == c;
    assert StandsOK(w, PlaceOf(w, t));
    assert GrantOK(w, context.grant.job, w.table.grants[context.grant.job]);
  }

  lemma ClaimChanges(s: Setting, w: World, v: World, t: Thread)
    requires ClaimStep(s, w, v, t)
    ensures Carries(w, v.(traffic := w.traffic))
    ensures v.traffic == w.traffic || exists c :: v.traffic == Claimed(w.traffic, c)
  {
  }

  lemma ChoiceClaim(s: Setting, w: World, v: World, t: Thread)
    requires OneChoice(w) && ClaimStep(s, w, v, t)
    ensures OneChoice(v)
  {
    ClaimChanges(s, w, v, t);
    CarriedOn(w, v.(traffic := w.traffic));
    if v.traffic != w.traffic {
      var c :| v.traffic == Claimed(w.traffic, c);
      ChosenClaim(s, w, v, t, c);
      OneMoreChoice(v.(traffic := w.traffic), v, c);
    }
  }

  lemma OneMoreChoice(w: World, v: World, c: Claim)
    requires OneChoice(w) && v == w.(traffic := Claimed(w.traffic, c)) && ClaimedFor(v, c) && Running(w, c.key.job, c.tenure)
    ensures OneChoice(v)
  {
    forall t | t in v.places ensures StandsOK(v, v.places[t]) { assert StandsOK(w, w.places[t]); }
    forall d | d in w.traffic.claims ensures ClaimedFor(v, d) { assert ClaimedFor(w, d); }
    forall d | d in w.traffic.claims && Settled(c, d) ensures c.context.grant.repository == d.context.grant.repository {
      assert ClaimedFor(w, d);
    }
  }

  lemma ChoiceKept(s: Setting, w: World, step: Step, v: World)
    requires ClaimedOnce(s, w) && OneChoice(w) && Does(s, w, step, v)
    ensures OneChoice(v)
  {
    match step {
      case Issue(g) => ChoiceIssue(s, w, v, g);
      case Revoke(job) => ChoiceRevoke(s, w, v, job);
      case Admit(t, c) => ChoiceAdmit(s, w, v, t, c);
      case Select(t) => ChoiceSelect(s, w, v, t);
      case ClaimIt(t) => ChoiceClaim(s, w, v, t);
      case Peek(t, found) => CarriesPeek(s, w, v, t, found); CarriedOn(w, v);
      case Insert(t, denial) => CarriesInsert(s, w, v, t, denial); CarriedOn(w, v);
      case _ => CarriesCalm(s, w, step, v); CarriedOn(w, v);
    }
  }
}
