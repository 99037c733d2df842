/** The first run of an ingestion: in a store that uses one space, what succeeds without a merge
    stands afterwards; so the whole claim about running it again. */
module FirstIngest {
  import opened Json
  import opened Domain
  import opened Resolve
  import opened Tables
  import opened Store
  import opened DedupeKey
  import opened Invariants
  import opened Acceptance
  import opened Spaces
  import opened OneSpace
  import opened Ingest
  import opened Reingest
  import Runs

  // ---- the ground a run starts from ----

  function Ids(w: World, m: nat): set<string> {
    {w.ticks(m).entityId, w.ticks(m).edgeId}
  }

  /** Every id still to be minted is new, and none is minted twice. */
  ghost predicate FreshTicks(w: World, db: Db, n: nat) {
    && (forall m: nat | m >= n :: forall id | id in Ids(w, m) :: FreshId(db.log, id))
    && (forall i: nat, j: nat | n <= i < j :: Ids(w, i) !! Ids(w, j))
  }

  ghost predicate Ground(w: World, db: Db, n: nat) {
    Hashes(w.cfg) && Inv(db) && Settled(w.cfg, w.req.space, db) && FreshTicks(w, db, n)
  }

  predicate NoMerge(calls: seq<Call>) {
    forall c | c in calls :: c.LinkedUp? || !c.merged
  }

  /** Had it succeeded without a merge, a flow from db leaves all its calls standing. */
  ghost predicate Leaves<T(!new)>(w: World, db: Db, f: Flow<T>) {
    f.r.Ok? && NoMerge(f.calls) ==> Grown(db, f.db) && AllStanding(w, f.db, f.calls) && Ground(w, f.db, f.n)
  }

  lemma ThenLeaves<A(!new), B(!new)>(w: World, db: Db, a: Flow<A>, b: Flow<B>)
    requires a.r.Ok? && Leaves(w, db, a) && (NoMerge(a.calls) ==> Leaves(w, a.db, b))
    ensures Leaves(w, db, Then(a, b))
  {
    if b.r.Ok? && NoMerge(a.calls + b.calls) {
      assert forall c | c in a.calls :: c in a.calls + b.calls;
      assert forall c | c in b.calls :: c in a.calls + b.calls;
      GrownTrans(db, a.db, b.db);
      AllStandingMono(w, a.db, b.db, a.calls);
      AllAppend(w, b.db, a.calls, b.calls);
    }
  }

  lemma NothingLeaves(w: World, db: Db, n: nat)
    requires Ground(w, db, n)
    ensures Grown(db, db) && AllStanding(w, db, [])
  {
  }

  lemma TicksMove(w: World, db: Db, db': Db, n: nat)
    requires FreshTicks(w, db, n) && db.log <= db'.log
    requires forall k | |db.log| <= k < |db'.log| ::
             db'.log[k].subject in Ids(w, n) || !FreshId(db.log, db'.log[k].subject)
    ensures FreshTicks(w, db', n + 1)
  {
    forall m: nat, id | m >= n + 1 && id in Ids(w, m) ensures FreshId(db'.log, id) {
      assert Ids(w, n) !! Ids(w, m) && FreshId(db.log, id);
      forall f | f in db'.log ensures f.subject != id {
        var k :| 0 <= k < |db'.log| && db'.log[k] == f;
        if k < |db.log| {
          assert db.log[k] == f;
        }
      }
    }
  }

  lemma SameTicks(w: World, db: Db, n: nat)
    requires FreshTicks(w, db, n)
    ensures FreshTicks(w, db, n + 1)
  {
    assert db.log <= db.log;
    TicksMove(w, db, db, n);
  }

  lemma LiveIsNotFresh(db: Db, id: EntityId)
    requires Recorded(db) && id in db.t.entities
    ensures !FreshId(db.log, id)
  {
    assert AssertedBefore(db.log, id);
  }

  // ---- entity writes by ingestion ----

  /** An assertion that resolves by external ids alone, without merging. */
  predicate Plainly(cfg: Config, db: Db, in_: EntityInput, tick: Tick, d: Decision) {
    && EntityDecision(cfg, db.t, Stamped(in_, tick), EffectivePolicy(in_.policy)) == Ok(d)
    && (d.InsertNew? || d.Attach?)
  }

  lemma UpsertGrows(db: Db, main: Emission, ts: Time)
    requires Constraints(db.t) && main.payload.EntityAsserted? && Emit(db, main, ts).Ok?
    ensures Grown(db, Emit(db, main, ts).value) && main.payload.entity.id in Emit(db, main, ts).value.t.entities
  {
    var e := main.payload.entity;
    InsertKeysGrows(db.t.ext, e.id, e.space, e.externalIds);
  }

  lemma PriorOfLast(log: seq<Fact>, f: Fact)
    requires Prior(log, f.writer, f.dedupeKey, true).None? && f.payload.EntityAsserted?
    ensures Prior(log + [f], f.writer, f.dedupeKey, true) == Some(f.subject)
  {
    assert (log + [f])[..|log|] == log;
  }

  /** One assertion, emitted. */
  lemma EmittedTables(db: Db, main: Emission, ts: Time)
    requires Constraints(db.t) && main.payload.EntityAsserted? && main.subject == main.payload.entity.id
    requires Emit(db, main, ts).Ok? && Prior(db.log, main.writer, main.dedupeKey, true).None?
    ensures var db' := Emit(db, main, ts).value;
      && main.subject in db'.t.entities && |db'.log| == |db.log| + 1 && Grown(db, db')
      && Prior(db'.log, main.writer, main.dedupeKey, true) == Some(main.subject)
  {
    UpsertGrows(db, main, ts);
    PriorOfLast(db.log, FactOf(main, ts));
  }

  lemma AcceptedTables(w: World, db: Db, n: nat, in_: EntityInput, d: Decision)
    requires Constraints(db.t) && Plainly(w.cfg, db, in_, w.ticks(n), d)
             && AppendEntity(w.cfg, db, in_, w.ticks(n)).1.Accepted?
    ensures var (db', out) := AppendEntity(w.cfg, db, in_, w.ticks(n));
      && out.subject == DecisionTarget(d, w.ticks(n)) && out.subject in db'.t.entities
      && |db'.log| == |db.log| + 1 && Grown(db, db')
      && Prior(db'.log, in_.writer, EntityKey(w.cfg, in_, w.ticks(n)), true) == Some(out.subject)
  {
    var tick := w.ticks(n);
    PlainAppend(w.cfg, db, in_, tick, d);
    EmittedTables(db, AssertEmission(in_, Stamped(in_, tick), DecisionTarget(d, tick), EntityKey(w.cfg, in_, tick)),
                  tick.now);
  }

  lemma TickMinted(w: World, db: Db, n: nat, in_: EntityInput)
    requires FreshTicks(w, db, n)
    ensures Minted(db, AppendEntityOp(in_, w.ticks(n)))
  {
    assert w.ticks(n).entityId in Ids(w, n) && w.ticks(n).edgeId in Ids(w, n);
  }

  /** The facts of an accepted write are about ids of this tick, or about entities of before. */
  lemma AppendTicks(w: World, db: Db, n: nat, in_: EntityInput)
    requires Recorded(db) && FreshTicks(w, db, n) && AppendEntity(w.cfg, db, in_, w.ticks(n)).1.Accepted?
    ensures FreshTicks(w, AppendEntity(w.cfg, db, in_, w.ticks(n)).0, n + 1)
  {
    var tick, db' := w.ticks(n), AppendEntity(w.cfg, db, in_, w.ticks(n)).0;
    AcceptedTarget(w.cfg, db, in_, tick);
    var d := EntityDecision(w.cfg, db.t, Stamped(in_, tick), EffectivePolicy(in_.policy)).value;
    var added := AppendedFacts(w.cfg, db, in_, tick, d);
    forall f | f in added ensures f.subject in Ids(w, n) || !FreshId(db.log, f.subject) {
      AddedSubject(w, db, n, in_, d, f);
    }
    forall k | |db.log| <= k < |db'.log|
      ensures db'.log[k].subject in Ids(w, n) || !FreshId(db.log, db'.log[k].subject)
    {
      assert db'.log[k] == added[k - |db.log|] && added[k - |db.log|] in added;
    }
    TicksMove(w, db, db', n);
  }

  lemma AddedSubject(w: World, db: Db, n: nat, in_: EntityInput, d: Decision, f: Fact)
    requires Recorded(db)
    requires EntityDecision(w.cfg, db.t, Stamped(in_, w.ticks(n)), EffectivePolicy(in_.policy)) == Ok(d)
    requires f in FactsOf(EntityScript(in_, Stamped(in_, w.ticks(n)), d, EntityKey(w.cfg, in_, w.ticks(n)), w.ticks(n)),
                          w.ticks(n).now)
    ensures f.subject in Ids(w, n) || !FreshId(db.log, f.subject)
  {
    DecisionSound(w.cfg, db.t, Stamped(in_, w.ticks(n)), EffectivePolicy(in_.policy));
    ScriptSubjects(in_, Stamped(in_, w.ticks(n)), d, EntityKey(w.cfg, in_, w.ticks(n)), w.ticks(n), f);
    if f.subject in db.t.entities {
      LiveIsNotFresh(db, f.subject);
    }
  }

  lemma AcceptedGround(w: World, db: Db, n: nat, in_: EntityInput)
    requires Ground(w, db, n) && AppendEntity(w.cfg, db, in_, w.ticks(n)).1.Accepted? && PlainEntity(in_, w.req.space)
    ensures Ground(w, AppendEntity(w.cfg, db, in_, w.ticks(n)).0, n + 1)
  {
    TickMinted(w, db, n, in_);
    StepKeepsInv(w.cfg, db, AppendEntityOp(in_, w.ticks(n)));
    AppendKeeps(w.cfg, w.req.space, db, in_, w.ticks(n));
    AppendTicks(w, db, n, in_);
  }

  /** A replayed assertion of ingestion: the entity it was about still carries the keys. */
  lemma ReplayCarries(w: World, db: Db, n: nat, in_: EntityInput, s: EntityId)
    requires Ground(w, db, n) && PlainEntity(in_, w.req.space) && in_.writer == INGEST && s in db.t.entities
    requires EntityPrior(w.cfg, db.log, in_.candidate.typ, in_.candidate.externalIds) == Some(s)
    ensures CarriesAll(db.t.ext, s, in_.candidate.externalIds)
  {
    var c := in_.candidate;
    var key := DerivedKey(w.cfg, c.typ, c.externalIds, "");
    var f := PriorFact(db.log, INGEST, key);
    assert GoodFact(w.cfg, f);
    var e := f.payload.entity;
    assert DeriveBytes(w.cfg.lower, e.typ, e.externalIds, ExtractName(e.props))
      == DeriveBytes(w.cfg.lower, c.typ, c.externalIds, "");
    DerivedBytesIff(w.cfg.lower, e.typ, e.externalIds, ExtractName(e.props), c.typ, c.externalIds, "");
    assert ByIngest(f) && CarriesAll(db.t.ext, s, e.externalIds);
    forall i | 0 <= i < |c.externalIds| ensures Carries(db.t.ext, s, c.externalIds[i].Key()) {
      KeyIn(c.externalIds, i);
      assert c.externalIds[i].Key() in multiset(Keys(e.externalIds));
      var j :| 0 <= j < |e.externalIds| && Keys(e.externalIds)[j] == c.externalIds[i].Key();
      assert Carries(db.t.ext, s, e.externalIds[j].Key());
    }
  }

  /** A derived key is logged only by assertions, so there is no duplicate without a prior one. */
  lemma NoBareDuplicate(w: World, db: Db, n: nat, typ: string, xs: seq<ExternalId>)
    requires Ground(w, db, n) && Logged(db.log, INGEST, DerivedKey(w.cfg, typ, xs, ""))
    ensures EntityPrior(w.cfg, db.log, typ, xs).Some?
  {
    var key := DerivedKey(w.cfg, typ, xs, "");
    var f :| f in db.log && f.writer == INGEST && f.dedupeKey == key;
    assert GoodFact(w.cfg, f) && BAR !in key;
    FactHasPrior(db.log, f);
  }

  /** What an assertion of ingestion leaves, when it reports success and did not merge. */
  lemma EntityWriteLeaves(w: World, db: Db, n: nat, in_: EntityInput)
    requires Ground(w, db, n) && PlainEntity(in_, w.req.space) && in_.writer == INGEST
    requires Reported(AppendEntity(w.cfg, db, in_, w.ticks(n)).1).Ok?
    requires EntityPrior(w.cfg, db.log, in_.candidate.typ, in_.candidate.externalIds).None? ==>
               exists d :: Plainly(w.cfg, db, in_, w.ticks(n), d)
    ensures var (db', out) := AppendEntity(w.cfg, db, in_, w.ticks(n));
      && (out.Accepted? || out.Replayed?) && out.subject in db'.t.entities
      && Grown(db, db') && Ground(w, db', n + 1)
      && EntityPrior(w.cfg, db'.log, in_.candidate.typ, in_.candidate.externalIds) == Some(out.subject)
      && CarriesAll(db'.t.ext, out.subject, in_.candidate.externalIds)
  {
    var c, tick := in_.candidate, w.ticks(n);
    NameIrrelevant(w.cfg, c.typ, c.externalIds, ExtractName(c.props), "");
    IngestedKey(w.cfg, in_, tick);
    if EntityPrior(w.cfg, db.log, c.typ, c.externalIds).Some? {
      NothingLeaves(w, db, n);
      SameTicks(w, db, n);
      ReplayCarries(w, db, n, in_, EntityPrior(w.cfg, db.log, c.typ, c.externalIds).value);
    } else {
      var d :| Plainly(w.cfg, db, in_, tick, d);
      if Logged(db.log, INGEST, EntityKey(w.cfg, in_, tick)) {
        NoBareDuplicate(w, db, n, c.typ, c.externalIds);
      }
      AcceptedLeaves(w, db, n, in_, d);
    }
  }

  lemma MustBeAccepted(w: World, db: Db, n: nat, in_: EntityInput, d: Decision)
    requires Plainly(w.cfg, db, in_, w.ticks(n), d) && Reported(AppendEntity(w.cfg, db, in_, w.ticks(n)).1).Ok?
    requires !Logged(db.log, in_.writer, EntityKey(w.cfg, in_, w.ticks(n)))
    ensures AppendEntity(w.cfg, db, in_, w.ticks(n)).1.Accepted?
  {
    UnloggedHasNoPrior(db.log, in_.writer, EntityKey(w.cfg, in_, w.ticks(n)), true);
    PlainAppend(w.cfg, db, in_, w.ticks(n), d);
  }

  lemma AcceptedLeaves(w: World, db: Db, n: nat, in_: EntityInput, d: Decision)
    requires Ground(w, db, n) && PlainEntity(in_, w.req.space) && in_.writer == INGEST
    requires Plainly(w.cfg, db, in_, w.ticks(n), d) && Reported(AppendEntity(w.cfg, db, in_, w.ticks(n)).1).Ok?
    requires !Logged(db.log, INGEST, EntityKey(w.cfg, in_, w.ticks(n)))
    ensures var (db', out) := AppendEntity(w.cfg, db, in_, w.ticks(n));
      && out.Accepted? && out.subject == DecisionTarget(d, w.ticks(n)) && out.subject in db'.t.entities
      && Grown(db, db') && Ground(w, db', n + 1)
      && Prior(db'.log, INGEST, EntityKey(w.cfg, in_, w.ticks(n)), true) == Some(out.subject)
      && CarriesAll(db'.t.ext, out.subject, in_.candidate.externalIds)
  {
    MustBeAccepted(w, db, n, in_, d);
    AcceptedTables(w, db, n, in_, d);
    AcceptedGround(w, db, n, in_);
    TickMinted(w, db, n, in_);
    AppendCarriesAllKeysIff(w.cfg, db, in_, w.ticks(n));
  }

  // ---- each call of the first run ----

  lemma UpsertPlainly(w: World, db: Db, n: nat, in_: EntityInput)
    requires in_.candidate.embeddings == [] && in_.policy.Auto? && !ResolvesToMerge(w.cfg, db, in_, w.ticks(n))
    requires Prior(db.log, in_.writer, EntityKey(w.cfg, in_, w.ticks(n)), true).None?
    ensures exists d :: Plainly(w.cfg, db, in_, w.ticks(n), d)
  {
    var c := Stamped(in_, w.ticks(n));
    var hits := ExternalHits(db.t, c.space, Keys(c.externalIds));
    ExternalHitsExact(db.t, c.space, Keys(c.externalIds));
    var d := EntityDecision(w.cfg, db.t, c, Auto).value;
    DecisionOnHits(hits, [], Auto, w.cfg.th, d);
    assert Plainly(w.cfg, db, in_, w.ticks(n), d);
  }

  lemma UpsertLeaves(w: World, db: Db, n: nat, typ: string, props: map<string, Json>, ext: ExternalId, asserter: string)
    requires Ground(w, db, n) && NulFree(typ) && NulFree(ext.Key())
    requires Upsert(w, db, n, typ, props, ext, asserter).r.Ok?
    ensures var f := Upsert(w, db, n, typ, props, ext, asserter);
      Leaves(w, db, f) && (NoMerge(f.calls) ==> Carries(f.db.t.ext, f.r.value, ext.Key()))
  {
    var f, in_ := Upsert(w, db, n, typ, props, ext, asserter), UpsertInput(w.req, typ, props, ext, asserter);
    NameIrrelevant(w.cfg, typ, [ext], ExtractName(in_.candidate.props), "");
    if NoMerge(f.calls) {
      assert f.calls[0] in f.calls;
      if EntityPrior(w.cfg, db.log, typ, [ext]).None? {
        UpsertPlainly(w, db, n, in_);
      }
      EntityWriteLeaves(w, db, n, in_);
      OneCall(w, f.db, f.calls[0]);
    }
  }

  lemma AllowedNulFree(typ: string)
    requires typ in ALLOWED_TYPES
    ensures NulFree(typ)
  {
  }

  lemma AnchorPlain(w: World, db: Db, ref: EntityId, tmdb: string)
    requires InSpace(w.req.space, db.t) && ref in db.t.entities && NulFree(TmdbId(tmdb).Key())
    requires db.t.entities[ref].typ in ALLOWED_TYPES
    ensures PlainEntity(AnchorInput(w.req, db.t, ref, tmdb), w.req.space)
  {
    LoadedKeys(w.req.space, db.t, ref);
    AllowedNulFree(db.t.entities[ref].typ);
  }

  /** With a hit, an automatic decision that is no merge is an attach. */
  lemma HitAttaches(cfg: Config, t: Tables, c: Entity, id: EntityId)
    requires id in HitSet(t, c.space, Keys(c.externalIds))
    ensures EntityDecision(cfg, t, c, Auto).Ok?
            && (EntityDecision(cfg, t, c, Auto).value.Attach? || EntityDecision(cfg, t, c, Auto).value.Merge?)
  {
    var hits := ExternalHits(t, c.space, Keys(c.externalIds));
    ExternalHitsExact(t, c.space, Keys(c.externalIds));
    assert hits != [];
    DecisionOnHits(hits, DecisionNeighbors(cfg, t, c, Auto), Auto, cfg.th, EntityDecision(cfg, t, c, Auto).value);
  }

  lemma AnchorPlainly(w: World, db: Db, n: nat, ref: EntityId, tmdb: string, key: string)
    requires Ground(w, db, n) && ref in db.t.entities && Carries(db.t.ext, ref, key)
    requires var in_ := AnchorInput(w.req, db.t, ref, tmdb);
      !ResolvesToMerge(w.cfg, db, in_, w.ticks(n))
        && Prior(db.log, INGEST, EntityKey(w.cfg, in_, w.ticks(n)), true).None?
    ensures exists d :: Plainly(w.cfg, db, AnchorInput(w.req, db.t, ref, tmdb), w.ticks(n), d)
  {
    var in_ := AnchorInput(w.req, db.t, ref, tmdb);
    var c := Stamped(in_, w.ticks(n));
    AnchorIsHit(w, db, ref, tmdb, key);
    HitAttaches(w.cfg, db.t, c, ref);
    assert Plainly(w.cfg, db, in_, w.ticks(n), EntityDecision(w.cfg, db.t, c, Auto).value);
  }

  lemma AnchorIsHit(w: World, db: Db, ref: EntityId, tmdb: string, key: string)
    requires Inv(db) && InSpace(w.req.space, db.t) && ref in db.t.entities && Carries(db.t.ext, ref, key)
    ensures ref in HitSet(db.t, w.req.space, Keys(AnchorInput(w.req, db.t, ref, tmdb).candidate.externalIds))
  {
    var r :| r in db.t.ext && r.entity == ref && r.key == key;
    var xs := AnchorInput(w.req, db.t, ref, tmdb).candidate.externalIds;
    LoadedKeys(w.req.space, db.t, ref);
    var i :| 0 <= i < |LoadedIds(db.t.ext, ref)| && Keys(LoadedIds(db.t.ext, ref))[i] == key;
    assert xs[i] == LoadedIds(db.t.ext, ref)[i];
    KeyIn(xs, i);
    HolderIsHit(db.t, r, w.req.space, Keys(xs));
  }

  /** Two live entities of the space that carry one key are one. */
  lemma OneHolder(space: SpaceId, t: Tables, a: EntityId, b: EntityId, key: string)
    requires Constraints(t) && InSpace(space, t) && Carries(t.ext, a, key) && Carries(t.ext, b, key)
    ensures a == b
  {
  }

  lemma AnchorWritten(w: World, db: Db, n: nat, ref: EntityId, tmdb: string, key: string, in_: EntityInput)
    requires Ground(w, db, n) && NulFree(TmdbId(tmdb).Key()) && ref in db.t.entities && Carries(db.t.ext, ref, key)
    requires in_ == AnchorInput(w.req, db.t, ref, tmdb) && in_.candidate.typ in ALLOWED_TYPES
    requires Reported(AppendEntity(w.cfg, db, in_, w.ticks(n)).1).Ok? && !ResolvesToMerge(w.cfg, db, in_, w.ticks(n))
    ensures var (db', out) := AppendEntity(w.cfg, db, in_, w.ticks(n));
      && (out.Accepted? || out.Replayed?) && Grown(db, db') && Ground(w, db', n + 1)
      && CarriesAll(db'.t.ext, out.subject, in_.candidate.externalIds)
  {
    NameIrrelevant(w.cfg, in_.candidate.typ, in_.candidate.externalIds, ExtractName(in_.candidate.props), "");
    AnchorPlain(w, db, ref, tmdb);
    if EntityPrior(w.cfg, db.log, in_.candidate.typ, in_.candidate.externalIds).None? {
      AnchorPlainly(w, db, n, ref, tmdb, key);
    }
    EntityWriteLeaves(w, db, n, in_);
  }

  lemma ReportedIsAllowed(cfg: Config, db: Db, in_: EntityInput, tick: Tick)
    requires Reported(AppendEntity(cfg, db, in_, tick).1).Ok?
    ensures in_.candidate.typ in ALLOWED_TYPES && in_.candidate.visibility.Valid()
  {
  }

  lemma AnchorUnmerged(w: World, db: Db, n: nat, ref: EntityId, tmdb: string)
    requires Anchor(w, db, n, ref, tmdb).r.Ok? && NoMerge(Anchor(w, db, n, ref, tmdb).calls)
    ensures ref in db.t.entities && OwnerSees(w.req, db.t, ref)
    ensures var in_ := AnchorInput(w.req, db.t, ref, tmdb);
      && Reported(AppendEntity(w.cfg, db, in_, w.ticks(n)).1).Ok? && !ResolvesToMerge(w.cfg, db, in_, w.ticks(n))
      && Anchor(w, db, n, ref, tmdb).db == AppendEntity(w.cfg, db, in_, w.ticks(n)).0
      && Anchor(w, db, n, ref, tmdb).n == n + 1
  {
    assert Anchor(w, db, n, ref, tmdb).calls[0] in Anchor(w, db, n, ref, tmdb).calls;
  }

  lemma AnchorWrites(w: World, db: Db, n: nat, ref: EntityId, tmdb: string, key: string)
    requires Ground(w, db, n) && NulFree(TmdbId(tmdb).Key()) && Carries(db.t.ext, ref, key)
    requires Anchor(w, db, n, ref, tmdb).r.Ok? && NoMerge(Anchor(w, db, n, ref, tmdb).calls)
    ensures var f := Anchor(w, db, n, ref, tmdb);
      Grown(db, f.db) && Ground(w, f.db, f.n) && Carries(f.db.t.ext, ref, TmdbId(tmdb).Key())
    ensures ref in db.t.entities && db.t.entities[ref].typ in ALLOWED_TYPES && db.t.entities[ref].visibility.Valid()
  {
    AnchorUnmerged(w, db, n, ref, tmdb);
    var in_ := AnchorInput(w.req, db.t, ref, tmdb);
    var (db', out) := AppendEntity(w.cfg, db, in_, w.ticks(n));
    ReportedIsAllowed(w.cfg, db, in_, w.ticks(n));
    AnchorWritten(w, db, n, ref, tmdb, key, in_);
    AnchorCarriesBoth(w, db, ref, tmdb, key, db', out.subject);
    OneHolder(w.req.space, db'.t, ref, out.subject, key);
  }

  lemma AnchorCarriesBoth(w: World, db: Db, ref: EntityId, tmdb: string, key: string, db': Db, s: EntityId)
    requires InSpace(w.req.space, db.t) && ref in db.t.entities && Carries(db.t.ext, ref, key) && Grown(db, db')
    requires CarriesAll(db'.t.ext, s, AnchorInput(w.req, db.t, ref, tmdb).candidate.externalIds)
    ensures Carries(db'.t.ext, s, key) && Carries(db'.t.ext, s, TmdbId(tmdb).Key()) && Carries(db'.t.ext, ref, key)
  {
    var xs, ys := AnchorInput(w.req, db.t, ref, tmdb).candidate.externalIds, LoadedIds(db.t.ext, ref);
    LoadedKeys(w.req.space, db.t, ref);
    var i :| 0 <= i < |ys| && Keys(ys)[i] == key;
    assert xs[i] == ys[i] && xs[i].Key() == key && xs[|ys|] == TmdbId(tmdb);
    assert Carries(db'.t.ext, s, xs[i].Key()) && Carries(db'.t.ext, s, xs[|ys|].Key());
  }

  lemma AnchorStands(w: World, db: Db, db': Db, call: Call)
    requires call.Anchored? && OwnerSees(w.req, db.t, call.ref) && Grown(db, db')
    requires db.t.entities[call.ref].typ in ALLOWED_TYPES && db.t.entities[call.ref].visibility.Valid()
    requires Carries(db'.t.ext, call.ref, TmdbId(call.tmdb).Key())
    ensures Standing(w, db', call)
  {
    assert SameRow(db.t.entities[call.ref], db'.t.entities[call.ref]);
  }

  lemma AnchorLeaves(w: World, db: Db, n: nat, ref: EntityId, tmdb: string, key: string)
    requires Ground(w, db, n) && NulFree(TmdbId(tmdb).Key()) && Carries(db.t.ext, ref, key)
    requires Anchor(w, db, n, ref, tmdb).r.Ok?
    ensures Leaves(w, db, Anchor(w, db, n, ref, tmdb))
  {
    var f := Anchor(w, db, n, ref, tmdb);
    if NoMerge(f.calls) {
      var call := AnchorCall(w, db, n, ref, tmdb);
      AnchorUnmerged(w, db, n, ref, tmdb);
      AnchorWrites(w, db, n, ref, tmdb, key);
      AnchorStands(w, db, f.db, call);
      OneCall(w, f.db, call);
    }
  }

  lemma {:induction false} EdgePriorIsLogged(log: seq<Fact>, key: string)
    requires Prior(log, INGEST, key, false).Some?
    ensures Logged(log, INGEST, key)
  {
    var front, last := log[..|log| - 1], log[|log| - 1];
    assert log == front + [last];
    if Prior(front, INGEST, key, false).Some? {
      EdgePriorIsLogged(front, key);
      Runs.LoggedMono(front, log, INGEST, key);
    }
  }

  lemma EdgeShape(db: Db, in_: EdgeInput, tick: Tick)
    requires AppendEdge(db, in_, tick).1.Accepted?
    ensures var db' := AppendEdge(db, in_, tick).0; var ed := StampedEdge(in_, tick);
      && db'.log == db.log + [FactOf(Emission(tick.edgeId, EdgeAsserted(ed), in_.writer, EdgeKey(in_), in_.actor),
                                     tick.now)]
      && db'.t == db.t.(edges := db'.t.edges) && db'.t.edges == db.t.edges[tick.edgeId := db'.t.edges[tick.edgeId]]
      && Prior(db.log, in_.writer, EdgeKey(in_), false).None? && !Logged(db.log, in_.writer, EdgeKey(in_))
  {
  }

  lemma LinkTicks(w: World, db: Db, n: nat, in_: EdgeInput)
    requires FreshTicks(w, db, n) && AppendEdge(db, in_, w.ticks(n)).1.Accepted?
    ensures FreshTicks(w, AppendEdge(db, in_, w.ticks(n)).0, n + 1)
    ensures Minted(db, AppendEdgeOp(in_, w.ticks(n)))
  {
    EdgeShape(db, in_, w.ticks(n));
    assert w.ticks(n).edgeId in Ids(w, n);
    TicksMove(w, db, AppendEdge(db, in_, w.ticks(n)).0, n);
  }

  lemma LinkGround(w: World, db: Db, n: nat, in_: EdgeInput)
    requires Ground(w, db, n) && BAR in EdgeKey(in_) && AppendEdge(db, in_, w.ticks(n)).1.Accepted?
    ensures Ground(w, AppendEdge(db, in_, w.ticks(n)).0, n + 1)
  {
    var op := AppendEdgeOp(in_, w.ticks(n));
    LinkTicks(w, db, n, in_);
    StepKeepsInv(w.cfg, db, op);
    EdgeWritesKeep(w.cfg, w.req.space, db, op);
  }

  /** One more edge, under a new id, and its fact, under a new key. */
  ghost predicate OneEdgeMore(db: Db, db': Db, f: Fact) {
    && f.payload.EdgeAsserted? && !Logged(db.log, f.writer, f.dedupeKey)
    && Prior(db.log, f.writer, f.dedupeKey, false).None?
    && db'.log == db.log + [f] && db'.t == db.t.(edges := db'.t.edges)
    && db.t.edges.Keys + {f.subject} == db'.t.edges.Keys
  }

  lemma EdgeAdds(db: Db, in_: EdgeInput, tick: Tick) returns (f: Fact)
    requires AppendEdge(db, in_, tick).1.Accepted?
    ensures OneEdgeMore(db, AppendEdge(db, in_, tick).0, f) && f.writer == in_.writer && f.dedupeKey == EdgeKey(in_)
  {
    EdgeShape(db, in_, tick);
    f := FactOf(Emission(tick.edgeId, EdgeAsserted(StampedEdge(in_, tick)), in_.writer, EdgeKey(in_), in_.actor),
                tick.now);
  }

  lemma EdgeMoreGrows(db: Db, db': Db, f: Fact)
    requires OneEdgeMore(db, db', f)
    ensures Grown(db, db') && Logged(db'.log, f.writer, f.dedupeKey)
    ensures Prior(db'.log, f.writer, f.dedupeKey, false) == Some(f.subject) && f.subject in db'.t.edges
  {
    assert db'.log[..|db.log|] == db.log && f in db'.log;
  }

  lemma LinkGrows(w: World, db: Db, n: nat, in_: EdgeInput)
    requires in_.writer == INGEST && AppendEdge(db, in_, w.ticks(n)).1.Accepted?
    ensures Grown(db, AppendEdge(db, in_, w.ticks(n)).0)
    ensures Standing(w, AppendEdge(db, in_, w.ticks(n)).0, LinkedUp(in_))
  {
    var f := EdgeAdds(db, in_, w.ticks(n));
    EdgeMoreGrows(db, AppendEdge(db, in_, w.ticks(n)).0, f);
  }

  lemma LinkIs(w: World, db: Db, n: nat, predicate_: string, from: EntityId, to: EntityId)
    requires Reported(AppendEdge(db, LinkInput(w.req, predicate_, from, to), w.ticks(n)).1).Ok?
    ensures Link(w, db, n, predicate_, from, to) == Flow(
      AppendEdge(db, LinkInput(w.req, predicate_, from, to), w.ticks(n)).0, n + 1,
      [LinkedUp(LinkInput(w.req, predicate_, from, to))], Ok(true))
  {
  }

  lemma LinkAccepted(w: World, db: Db, n: nat, in_: EdgeInput)
    requires Ground(w, db, n) && BAR in EdgeKey(in_) && in_.writer == INGEST
             && AppendEdge(db, in_, w.ticks(n)).1.Accepted?
    ensures var db' := AppendEdge(db, in_, w.ticks(n)).0;
      Grown(db, db') && AllStanding(w, db', [LinkedUp(in_)]) && Ground(w, db', n + 1)
  {
    LinkGround(w, db, n, in_);
    LinkGrows(w, db, n, in_);
    OneCall(w, AppendEdge(db, in_, w.ticks(n)).0, LinkedUp(in_));
  }

  lemma LinkFound(w: World, db: Db, n: nat, in_: EdgeInput)
    requires Ground(w, db, n) && in_.writer == INGEST
    requires Reported(AppendEdge(db, in_, w.ticks(n)).1).Ok? && !AppendEdge(db, in_, w.ticks(n)).1.Accepted?
    ensures var db' := AppendEdge(db, in_, w.ticks(n)).0;
      Grown(db, db') && AllStanding(w, db', [LinkedUp(in_)]) && Ground(w, db', n + 1)
  {
    if Prior(db.log, INGEST, EdgeKey(in_), false).Some? {
      EdgePriorIsLogged(db.log, EdgeKey(in_));
    }
    NothingLeaves(w, db, n);
    SameTicks(w, db, n);
    OneCall(w, db, LinkedUp(in_));
  }

  lemma LinkWritten(w: World, db: Db, n: nat, in_: EdgeInput)
    requires Ground(w, db, n) && BAR in EdgeKey(in_) && in_.writer == INGEST
             && Reported(AppendEdge(db, in_, w.ticks(n)).1).Ok?
    ensures var db' := AppendEdge(db, in_, w.ticks(n)).0;
      Grown(db, db') && AllStanding(w, db', [LinkedUp(in_)]) && Ground(w, db', n + 1)
  {
    if AppendEdge(db, in_, w.ticks(n)).1.Accepted? {
      LinkAccepted(w, db, n, in_);
    } else {
      LinkFound(w, db, n, in_);
    }
  }

  lemma LinkOk(w: World, db: Db, n: nat, predicate_: string, from: EntityId, to: EntityId)
    requires Link(w, db, n, predicate_, from, to).r.Ok?
    ensures Reported(AppendEdge(db, LinkInput(w.req, predicate_, from, to), w.ticks(n)).1).Ok?
    ensures BAR in EdgeKey(LinkInput(w.req, predicate_, from, to))
            && LinkInput(w.req, predicate_, from, to).writer == INGEST
  {
    assert LinkInput(w.req, predicate_, from, to).dedupeKey[6] == BAR;
  }

  lemma LeavesFlow(w: World, db: Db, f: Flow<bool>, db': Db, n: nat, call: Call)
    requires f == Flow(db', n, [call], Ok(true)) && Grown(db, db') && AllStanding(w, db', [call]) && Ground(w, db', n)
    ensures Leaves(w, db, f)
  {
  }

  lemma LinkLeaves(w: World, db: Db, n: nat, predicate_: string, from: EntityId, to: EntityId)
    requires Ground(w, db, n) && Link(w, db, n, predicate_, from, to).r.Ok?
    ensures Leaves(w, db, Link(w, db, n, predicate_, from, to))
  {
    var f, in_ := Link(w, db, n, predicate_, from, to), LinkInput(w.req, predicate_, from, to);
    LinkOk(w, db, n, predicate_, from, to);
    LinkIs(w, db, n, predicate_, from, to);
    LinkWritten(w, db, n, in_);
    LeavesFlow(w, db, f, f.db, n + 1, LinkedUp(in_));
  }

  // ---- the workflow, part by part ----

  predicate PlainSubjects(tmdbs: seq<string>) {
    forall i | 0 <= i < |tmdbs| :: NulFree(TmdbId(tmdbs[i]).Key())
  }

  ghost predicate PlainWorks(w: World) {
    forall tmdb | w.works(tmdb).Some? :: NulFree(WorkId(w.works(tmdb).value).Key())
  }

  predicate PlainSegments(w: World, videoId: string, segs: seq<Segment>) {
    forall i | 0 <= i < |segs| :: NulFree(ClipId(w, videoId, segs[i]).Key()) && PlainSubjects(segs[i].subjects)
  }

  /** No id of the request, the metadata or heyarr holds a NUL. */
  ghost predicate PlainSource(w: World) {
    && PlainWorks(w) && PlainSubjects(w.req.subjects)
    && (w.fetched.Some? ==>
          var md := w.fetched.value;
          && NulFree(ExternalId("youtube", md.videoId).Key())
          && NulFree(ExternalId("youtube-channel", md.channelId).Key())
          && PlainSegments(w, md.videoId, md.segments))
  }

  /** A part of the flow, and then a link. */
  lemma LinkedLeaves<A(!new)>(w: World, db: Db, a: Flow<A>, predicate_: string, from: EntityId, to: EntityId)
    requires a.r.Ok? && Leaves(w, db, a) && Link(w, a.db, a.n, predicate_, from, to).r.Ok?
    ensures Leaves(w, db, Then(a, Link(w, a.db, a.n, predicate_, from, to)))
  {
    if NoMerge(a.calls) {
      LinkLeaves(w, a.db, a.n, predicate_, from, to);
    }
    ThenLeaves(w, db, a, Link(w, a.db, a.n, predicate_, from, to));
  }

  /** An upsert, and then its anchor. */
  lemma AnchoredLeaves(w: World, db: Db, a: Flow<EntityId>, tmdb: string, key: string)
    requires a.r.Ok? && Leaves(w, db, a) && Anchor(w, a.db, a.n, a.r.value, tmdb).r.Ok?
    requires NulFree(TmdbId(tmdb).Key()) && (NoMerge(a.calls) ==> Carries(a.db.t.ext, a.r.value, key))
    ensures Leaves(w, db, Then(a, Anchor(w, a.db, a.n, a.r.value, tmdb)))
  {
    if NoMerge(a.calls) {
      AnchorLeaves(w, a.db, a.n, a.r.value, tmdb, key);
    }
    ThenLeaves(w, db, a, Anchor(w, a.db, a.n, a.r.value, tmdb));
  }

  lemma AboutWorkLeaves(w: World, db: Db, n: nat, tmdb: string)
    requires Ground(w, db, n) && PlainWorks(w) && NulFree(TmdbId(tmdb).Key()) && AboutWork(w, db, n, tmdb).r.Ok?
    ensures Leaves(w, db, AboutWork(w, db, n, tmdb))
  {
    NothingLeaves(w, db, n);
    if w.works(tmdb).Some? {
      var props, id := map["name" := JStr("heyarr work " + w.works(tmdb).value)], WorkId(w.works(tmdb).value);
      var a := Upsert(w, db, n, "CreativeWork", props, id, "ingest:heyarr");
      UpsertLeaves(w, db, n, "CreativeWork", props, id, "ingest:heyarr");
      AnchoredLeaves(w, db, a, tmdb, id.Key());
    }
  }

  lemma AboutLeaves(w: World, db: Db, n: nat, from: EntityId, tmdb: string)
    requires Ground(w, db, n) && PlainWorks(w) && NulFree(TmdbId(tmdb).Key()) && About(w, db, n, from, tmdb).r.Ok?
    ensures Leaves(w, db, About(w, db, n, from, tmdb))
  {
    var a := AboutWork(w, db, n, tmdb);
    AboutWorkLeaves(w, db, n, tmdb);
    if a.r.value.Some? {
      LinkedLeaves(w, db, a, "about", from, a.r.value.value);
    }
  }

  lemma {:induction false} AboutsLeave(w: World, db: Db, n: nat, from: EntityId, tmdbs: seq<string>)
    requires Ground(w, db, n) && PlainWorks(w) && PlainSubjects(tmdbs) && Abouts(w, db, n, from, tmdbs).r.Ok?
    ensures Leaves(w, db, Abouts(w, db, n, from, tmdbs))
    decreases |tmdbs|
  {
    NothingLeaves(w, db, n);
    if tmdbs != [] {
      var front, last := tmdbs[..|tmdbs| - 1], tmdbs[|tmdbs| - 1];
      var a := Abouts(w, db, n, from, front);
      AboutsLeave(w, db, n, from, front);
      if NoMerge(a.calls) {
        AboutLeaves(w, a.db, a.n, from, last);
      }
      ThenLeaves(w, db, a, About(w, a.db, a.n, from, last));
    }
  }

  lemma ClipNodeLeaves(w: World, db: Db, n: nat, video: EntityId, videoId: string, seg: Segment)
    requires Ground(w, db, n) && NulFree(ClipId(w, videoId, seg).Key()) && ClipNode(w, db, n, video, videoId, seg).r.Ok?
    ensures Leaves(w, db, ClipNode(w, db, n, video, videoId, seg))
  {
    var a := Upsert(w, db, n, "Clip", ClipProps(seg), ClipId(w, videoId, seg), "ingest:yt-dlp");
    UpsertLeaves(w, db, n, "Clip", ClipProps(seg), ClipId(w, videoId, seg), "ingest:yt-dlp");
    LinkedLeaves(w, db, a, "isPartOf", a.r.value, video);
  }

  lemma ClipLeaves(w: World, db: Db, n: nat, video: EntityId, videoId: string, seg: Segment)
    requires Ground(w, db, n) && PlainWorks(w) && NulFree(ClipId(w, videoId, seg).Key()) && PlainSubjects(seg.subjects)
    requires ClipOf(w, db, n, video, videoId, seg).r.Ok?
    ensures Leaves(w, db, ClipOf(w, db, n, video, videoId, seg))
  {
    var a := ClipNode(w, db, n, video, videoId, seg);
    ClipNodeLeaves(w, db, n, video, videoId, seg);
    if NoMerge(a.calls) {
      AboutsLeave(w, a.db, a.n, a.r.value, seg.subjects);
    }
    ThenLeaves(w, db, a, Abouts(w, a.db, a.n, a.r.value, seg.subjects));
  }

  lemma {:induction false} ClipsLeave(w: World, db: Db, n: nat, video: EntityId, videoId: string, segs: seq<Segment>)
    requires Ground(w, db, n) && PlainWorks(w) && PlainSegments(w, videoId, segs)
             && Clips(w, db, n, video, videoId, segs).r.Ok?
    ensures Leaves(w, db, Clips(w, db, n, video, videoId, segs))
    decreases |segs|
  {
    NothingLeaves(w, db, n);
    if segs != [] {
      var front, last := segs[..|segs| - 1], segs[|segs| - 1];
      var a := Clips(w, db, n, video, videoId, front);
      ClipsLeave(w, db, n, video, videoId, front);
      if NoMerge(a.calls) {
        ClipLeaves(w, a.db, a.n, video, videoId, last);
      }
      ThenLeaves(w, db, a, ClipOf(w, a.db, a.n, video, videoId, last));
    }
  }

  lemma ChannelLeaves(w: World, db: Db, n: nat, md: Metadata, video: EntityId)
    requires Ground(w, db, n) && NulFree(ExternalId("youtube-channel", md.channelId).Key())
             && Channel(w, db, n, md, video).r.Ok?
    ensures Leaves(w, db, Channel(w, db, n, md, video))
  {
    NothingLeaves(w, db, n);
    if md.channelId != "" || md.channelName != "" {
      var props, id := PutIf(map["name" := JStr(md.channelName)], "url", md.channelUrl),
        ExternalId("youtube-channel", md.channelId);
      var a := Upsert(w, db, n, "Organization", props, id, "ingest:yt-dlp");
      UpsertLeaves(w, db, n, "Organization", props, id, "ingest:yt-dlp");
      LinkedLeaves(w, db, a, "author", video, a.r.value);
    }
  }

  lemma AfterVideoLeaves(w: World, db: Db, a: Flow<EntityId>, md: Metadata)
    requires a.r.Ok? && Leaves(w, db, a) && Channel(w, a.db, a.n, md, a.r.value).r.Ok?
    requires NulFree(ExternalId("youtube-channel", md.channelId).Key())
    ensures Leaves(w, db, Then(a, Channel(w, a.db, a.n, md, a.r.value)))
  {
    if NoMerge(a.calls) {
      ChannelLeaves(w, a.db, a.n, md, a.r.value);
    }
    ThenLeaves(w, db, a, Channel(w, a.db, a.n, md, a.r.value));
  }

  lemma NodesLeave(w: World, db: Db, n: nat, md: Metadata)
    requires Ground(w, db, n) && Nodes(w, db, n, md).r.Ok?
    requires NulFree(ExternalId("youtube", md.videoId).Key())
             && NulFree(ExternalId("youtube-channel", md.channelId).Key())
    ensures Leaves(w, db, Nodes(w, db, n, md))
  {
    var a := Video(w, db, n, md);
    UpsertLeaves(w, db, n, "VideoObject", VideoProps(md), ExternalId("youtube", md.videoId), "ingest:yt-dlp");
    AfterVideoLeaves(w, db, a, md);
  }

  lemma FrontLeaves(w: World, db: Db, n: nat, md: Metadata)
    requires Ground(w, db, n) && PlainWorks(w) && PlainSubjects(w.req.subjects) && Front(w, db, n, md).r.Ok?
    requires NulFree(ExternalId("youtube", md.videoId).Key())
             && NulFree(ExternalId("youtube-channel", md.channelId).Key())
    ensures Leaves(w, db, Front(w, db, n, md))
  {
    var a := Nodes(w, db, n, md);
    NodesLeave(w, db, n, md);
    if NoMerge(a.calls) {
      AboutsLeave(w, a.db, a.n, a.r.value.0, w.req.subjects);
    }
    ThenLeaves(w, db, a, Abouts(w, a.db, a.n, a.r.value.0, w.req.subjects));
  }

  lemma BodyLeaves(w: World, db: Db, n: nat, md: Metadata)
    requires Ground(w, db, n) && PlainSource(w) && w.fetched == Some(md) && Body(w, db, n, md).r.Ok?
    ensures Leaves(w, db, Body(w, db, n, md))
  {
    var a := Front(w, db, n, md);
    FrontLeaves(w, db, n, md);
    if NoMerge(a.calls) {
      ClipsLeave(w, a.db, a.n, a.r.value.0, md.videoId, md.segments);
    }
    ThenLeaves(w, db, a, Clips(w, a.db, a.n, a.r.value.0, md.videoId, md.segments));
  }
}
