/** Runs of the worker RPC, built step by step. */
module WorkerWitnesses {
  import opened Bytes
  import opened PreparedTable
  import opened WorkerRuns

  function Last(run: seq<World>): World
    requires run != []
  {
    run[|run| - 1]
  }

  lemma OneStepMore(s: Setting, run: seq<World>, step: Step, v: World) returns (longer: seq<World>)
    requires IsRun(s, run) && Does(s, Last(run), step, v)
    ensures IsRun(s, longer) && Last(longer) == v
  {
    longer := run + [v];
    forall i: nat | i + 1 < |longer| ensures Moves(s, longer, i) {
      if i + 1 < |run| { assert Moves(s, run, i); }
    }
  }

  const BLANK := Table(map[], map[], map[], map[])

  const BEGINNING := World(BLANK, map[], Reign([], map[]), Proposals(0, map[], {}), NO_TRAFFIC)

  lemma Begins(s: Setting) returns (run: seq<World>)
    ensures IsRun(s, run) && Last(run) == BEGINNING
  {
    run := [BEGINNING];
  }

  // ---------------------------------------------------------------- grants

  function Reigns(reign: Reign, g: Grant): Reign {
    Reign(reign.issued + [g], reign.tenures[g.job := |reign.issued| + 1])
  }

  lemma Issues(s: Setting, run: seq<World>, g: Grant, w: World) returns (longer: seq<World>)
    requires IsRun(s, run) && Last(run) == w && w.table == BLANK && Consistent(g)
    ensures IsRun(s, longer) && Last(longer) == w.(table := IssueTo(BLANK, g), reign := Reigns(w.reign, g))
  {
    longer := OneStepMore(s, run, Issue(g), w.(table := IssueTo(BLANK, g), reign := Reigns(w.reign, g)));
  }

  lemma Revokes(s: Setting, run: seq<World>, g: Grant, w: World) returns (longer: seq<World>)
    requires IsRun(s, run) && Last(run) == w && w.table.grants == map[g.job := g] && w.table.selected.Keys <= {g.job}
    requires w.table.responses == map[] && forall k :: k in w.table.prepared ==> k.job == g.job
    ensures IsRun(s, longer) && Last(longer) == w.(table := BLANK)
  {
    assert RevokeFrom(w.table, g.job) == BLANK;
    longer := OneStepMore(s, run, Revoke(g.job), w.(table := BLANK));
  }

  /** Grants are issued and revoked one after the other while threads stay where they are. */
  lemma {:induction false} Passes(s: Setting, run: seq<World>, plan: seq<Grant>, w: World)
    returns (longer: seq<World>, after: Reign)
    requires IsRun(s, run) && Last(run) == w && w.table == BLANK && forall g :: g in plan ==> Consistent(g)
    ensures IsRun(s, longer) && Last(longer) == w.(reign := after) && after.issued == w.reign.issued + plan
    decreases |plan|
  {
    if plan == [] {
      longer, after := run, w.reign;
    } else {
      longer := Issues(s, run, plan[0], w);
      longer := Revokes(s, longer, plan[0], Last(longer));
      longer, after := Passes(s, longer, plan[1..], Last(longer));
      assert plan == [plan[0]] + plan[1..];
    }
  }

  // ---------------------------------------------------------------- one thread

  /** A thread is admitted under a registered object and selects its repository. */
  lemma Chooses(s: Setting, run: seq<World>, t: Thread, c: Context, w: World) returns (longer: seq<World>)
    requires IsRun(s, run) && Last(run) == w && PlaceOf(w, t) == Away
    requires Registered(w.table, c.grant) && Admits(c.grant, c.operation, c.scope) && c.now < c.grant.expires
    requires c.since == TenureOf(w, c.grant.job) && w.table.selected == map[]
    ensures IsRun(s, longer)
    ensures Last(longer) == Moved(w, t, Chosen(c, c.since)).(
              table := w.table.(selected := map[c.grant.job := c.grant.repository]))
  {
    longer := OneStepMore(s, run, Admit(t, c), Moved(w, t, Admitted(c)));
    var v := Moved(w, t, Chosen(c, c.since)).(table := w.table.(selected := map[c.grant.job := c.grant.repository]));
    assert v.places == Moved(Moved(w, t, Admitted(c)), t, Chosen(c, c.since)).places;
    longer := OneStepMore(s, longer, Select(t), v);
  }

  /** A request of `t` with a new digest can be recorded, the table being nearly empty. */
  ghost predicate CanRecord(s: Setting, w: World, t: Thread, digest: Digest) {
    && PlaceOf(w, t).Chosen? && Registered(w.table, PlaceOf(w, t).context.grant)
    && s.requestOf(digest) == Wanted(PlaceOf(w, t).context)
    && KeyFor(w, t, digest) !in w.table.prepared
    && (forall k :: k in w.table.prepared ==> w.table.prepared[k].dispatched) && |w.table.prepared| < MAX_PER_JOB
  }

  function KeyFor(w: World, t: Thread, digest: Digest): Key
    requires PlaceOf(w, t).Chosen?
  {
    Key(PlaceOf(w, t).context.grant.job, digest)
  }

  /** `w` once the request of `t` was recorded. */
  function WithRecord(w: World, t: Thread, digest: Digest): World
    requires PlaceOf(w, t).Chosen?
  {
    var Chosen(c, era) := PlaceOf(w, t);
    var key := KeyFor(w, t, digest);
    Moved(w.(table := w.table.(prepared := w.table.prepared[key := Fresh(w.proposals.serials, c.scope, c.operation, c.now)]),
             proposals := Made(Prepared(w, PreparationNow(w, c, digest)), Purpose(key, c.scope, c.operation))),
          t, Ready(c, era, digest))
  }

  lemma Roomy(t: Table, job: Job, now: int, ttl: nat)
    requires (forall k :: k in t.prepared ==> t.prepared[k].dispatched) && |t.prepared| < MAX_PER_JOB
    ensures RoomMade(t.prepared, job, now, ttl, t.prepared) && !NoRoom(t.prepared, job, now, ttl)
  {
    assert Unexpired(t.prepared, now, ttl) == t.prepared;
    SubsetSize(Mine(t.prepared, job), t.prepared.Keys);
  }

  lemma GetsReady(s: Setting, run: seq<World>, t: Thread, digest: Digest, w: World) returns (longer: seq<World>)
    requires IsRun(s, run) && Last(run) == w && CanRecord(s, w, t, digest)
    ensures IsRun(s, longer) && Last(longer) == WithRecord(w, t, digest)
  {
    var Chosen(c, era) := PlaceOf(w, t);
    var w1 := Moved(w, t, Proposed(c, era, digest));
    longer := OneStepMore(s, run, Propose(t, digest), w1);
    Roomy(w.table, c.grant.job, c.now, s.ttl);
    PreparesByRoom(w.table, c.grant, digest, c.scope, c.operation, c.now, s.ttl, w.proposals.serials, w.table.prepared);
    var w2 := WithRecord(w, t, digest);
    assert w2.places == Moved(w1, t, Ready(c, era, digest)).places;
    longer := OneStepMore(s, longer, Step.Insert(t, None), w2);
  }

  /** The claim `t` is about to make. */
  function NextClaim(w: World, t: Thread, digest: Digest): Claim
    requires PlaceOf(w, t).Chosen?
  {
    var Chosen(c, era) := PlaceOf(w, t);
    Claim(TenureOf(w, c.grant.job), KeyFor(w, t, digest), w.proposals.serials, c, era, c.now)
  }

  /** A chosen request whose digest is new is recorded and claimed. */
  lemma Claims(s: Setting, run: seq<World>, t: Thread, digest: Digest, w: World) returns (longer: seq<World>)
    requires IsRun(s, run) && Last(run) == w && s.ttl > 0 && CanRecord(s, w, t, digest)
    ensures IsRun(s, longer)
    ensures var v := Last(longer);
            var c := PlaceOf(w, t).context;
            && v.reign == w.reign && v.traffic == Claimed(w.traffic, NextClaim(w, t, digest))
            && v.table == w.table.(prepared := v.table.prepared)
            && v.table.prepared == w.table.prepared[KeyFor(w, t, digest) :=
                                                      Record(w.proposals.serials, c.scope, c.operation, c.now, true)]
            && v.places == w.places[t := Calling(w.proposals.serials, |w.traffic.claims|)]
  {
    longer := GetsReady(s, run, t, digest, w);
    var w2 := Last(longer);
    var Ready(c, era, _) := PlaceOf(w2, t);
    var key := KeyFor(w, t, digest);
    var w3 := Moved(w2.(table := DispatchIn(w2.table, key), traffic := Claimed(w2.traffic, NextClaim(w, t, digest))), t,
                    Calling(w.proposals.serials, |w.traffic.claims|));
    longer := OneStepMore(s, longer, ClaimIt(t), w3);
  }

  lemma Calls(s: Setting, run: seq<World>, t: Thread, w: World) returns (longer: seq<World>)
    requires IsRun(s, run) && Last(run) == w && PlaceOf(w, t).Calling?
    ensures IsRun(s, longer)
    ensures var p := PlaceOf(w, t); Last(longer) == Moved(w.(traffic := CalledNow(w, p.claim)), t, Called(p.serial, p.claim))
  {
    var p := PlaceOf(w, t);
    longer := OneStepMore(s, run, CallBackend(t), Moved(w.(traffic := CalledNow(w, p.claim)), t, Called(p.serial, p.claim)));
  }
}
