/** Merging in place of retracting: while the only entities that go are those an append merges,
    whatever ingestion asserted keys about, and is gone, left all of them to an entity that had
    another key besides. So no key it logs about a gone entity is ever derived again. */
module Heirs {
  import opened Domain
  import opened Order
  import opened Resolve
  import opened Tables
  import opened Store
  import opened DedupeKey
  import opened Invariants
  import opened Acceptance
  import opened Merging
  import opened Spaces
  import opened OneSpace
  import opened Ingest
  import opened Reingest
  import opened FirstIngest

  function KeySet(xs: seq<ExternalId>): set<string> {
    set k | k in Keys(xs)
  }

  /** A live entity carries these keys, and others. */
  ghost predicate HasHeir(t: Tables, keys: set<string>) {
    exists h | h in t.entities :: keys < Carried(t.ext, h)
  }

  ghost predicate Succeeded(log: seq<Fact>, t: Tables) {
    forall f | f in log && ByIngest(f) && f.subject !in t.entities :: HasHeir(t, KeySet(f.payload.entity.externalIds))
  }

  /** Whatever was live is live with all its keys, or left them to an entity with more. */
  ghost predicate Inherited(a: Tables, b: Tables) {
    forall id | id in a.entities ::
      (id in b.entities && Carried(a.ext, id) <= Carried(b.ext, id)) || HasHeir(b, Carried(a.ext, id))
  }

  lemma CarriesAllIff(ext: set<ExtRow>, id: EntityId, xs: seq<ExternalId>)
    ensures CarriesAll(ext, id, xs) <==> KeySet(xs) <= Carried(ext, id)
  {
    if CarriesAll(ext, id, xs) {
      forall k | k in KeySet(xs) ensures k in Carried(ext, id) {
        var i :| 0 <= i < |xs| && Keys(xs)[i] == k;
        assert Carries(ext, id, xs[i].Key());
      }
    } else {
      var i :| 0 <= i < |xs| && !Carries(ext, id, xs[i].Key());
      KeyIn(xs, i);
      assert xs[i].Key() in KeySet(xs);
    }
  }

  lemma HeirPasses(a: Tables, b: Tables, keys: set<string>)
    requires Inherited(a, b) && HasHeir(a, keys)
    ensures HasHeir(b, keys)
  {
    var h :| h in a.entities && keys < Carried(a.ext, h);
    if HasHeir(b, Carried(a.ext, h)) {
      var g :| g in b.entities && Carried(a.ext, h) < Carried(b.ext, g);
    }
  }

  lemma SucceededKept(log: seq<Fact>, added: seq<Fact>, a: Tables, b: Tables)
    requires KeepsKeys(log, a) && Succeeded(log, a) && Inherited(a, b)
    requires forall f | f in added && ByIngest(f) :: f.subject in b.entities
    ensures Succeeded(log + added, b)
  {
    forall f | f in log + added && ByIngest(f) && f.subject !in b.entities
      ensures HasHeir(b, KeySet(f.payload.entity.externalIds))
    {
      assert f in log;
      var keys := KeySet(f.payload.entity.externalIds);
      if f.subject in a.entities {
        CarriesAllIff(a.ext, f.subject, f.payload.entity.externalIds);
        var h :| h in b.entities && Carried(a.ext, f.subject) < Carried(b.ext, h);
      } else {
        HeirPasses(a, b, keys);
      }
    }
  }

  // ---- an append ----

  lemma TargetsAreHits(cfg: Config, t: Tables, c: Entity, policy: Policy, d: Decision)
    requires EntityDecision(cfg, t, c, policy) == Ok(d) && d.Merge?
    ensures forall id | id in d.targets :: id in HitSet(t, c.space, Keys(c.externalIds))
  {
    var hits := ExternalHits(t, c.space, Keys(c.externalIds));
    ExternalHitsExact(t, c.space, Keys(c.externalIds));
    DecisionOnHits(hits, DecisionNeighbors(cfg, t, c, policy), policy, cfg.th, d);
  }

  /** In one space the survivor had a key the dropped entity could not have. */
  lemma SurvivorHasMore(
    space: SpaceId, t: Tables, base: Tables, keep: EntityId, gone: seq<EntityId>, keys: seq<string>, g: EntityId)
    requires Constraints(t) && InSpace(space, t) && KeysAbsorbed(t.ext, base.ext, keep, gone)
    requires keep in HitSet(t, space, keys) && g in gone && g != keep
    ensures Carried(t.ext, g) < Carried(base.ext, keep)
  {
    var r :| r in t.ext && r.space == space && r.key in keys && r.entity == keep;
    assert forall q | q in t.ext && q.entity == g :: q.key != r.key;
    assert r.key in Carried(t.ext, keep) && r.key !in Carried(t.ext, g);
    assert forall key | key in Carried(t.ext, g) :: key in Carried(base.ext, keep);
    assert r.key in Carried(base.ext, keep);
  }

  lemma MergedInherit(space: SpaceId, t: Tables, base: Tables, keep: EntityId, gone: seq<EntityId>, keys: seq<string>)
    requires Constraints(t) && InSpace(space, t) && Absorbed(t, base, keep, gone) && Distinct([keep] + gone)
    requires keep in t.entities && forall id | id in [keep] + gone :: id in HitSet(t, space, keys)
    ensures Inherited(t, base)
  {
    AbsorbedKeysSurvive([], t, base, keep, gone);
    assert ([keep] + gone)[0] == keep;
    forall i | 0 <= i < |gone| ensures gone[i] != keep {
      assert ([keep] + gone)[i + 1] == gone[i];
    }
    forall id | id in t.entities && id in gone ensures HasHeir(base, Carried(t.ext, id)) {
      SurvivorHasMore(space, t, base, keep, gone, keys, id);
    }
  }

  lemma PreparedInherit(space: SpaceId, t: Tables, c: Entity, d: Decision, base: Tables)
    requires Constraints(t) && InSpace(space, t) && c.space == space && Sound(t, d) && Prepared(t, d, base)
    requires d.Merge? ==> forall id | id in d.targets :: id in HitSet(t, c.space, Keys(c.externalIds))
    ensures Inherited(t, base)
  {
    if d.Merge? {
      assert [d.targets[0]] + d.targets[1..] == d.targets;
      MergedInherit(space, t, base, d.targets[0], d.targets[1..], Keys(c.externalIds));
    }
  }

  lemma InheritedTrans(a: Tables, b: Tables, c: Tables)
    requires Inherited(a, b) && Inherited(b, c)
    ensures Inherited(a, c)
  {
    forall id | id in a.entities
      ensures (id in c.entities && Carried(a.ext, id) <= Carried(c.ext, id)) || HasHeir(c, Carried(a.ext, id))
    {
      if HasHeir(b, Carried(a.ext, id)) {
        HeirPasses(b, c, Carried(a.ext, id));
      } else if HasHeir(c, Carried(b.ext, id)) {
        var h :| h in c.entities && Carried(b.ext, id) < Carried(c.ext, h);
      }
    }
  }

  lemma AssertedInherit(base: Tables, c: Entity, ts: Time, after: Tables, edgeId: EdgeId)
    requires Constraints(base) && AssertedOnto(base, c, ts, after, edgeId)
    ensures Inherited(base, after)
  {
    InsertKeysGrows(base.ext, c.id, c.space, c.externalIds);
    forall id | id in base.entities ensures Carried(base.ext, id) <= Carried(after.ext, id) {
      forall key | key in Carried(base.ext, id) ensures key in Carried(after.ext, id) {
        var r :| r in base.ext && r.entity == id && r.key == key;
        assert r in after.ext;
      }
    }
  }

  lemma AppendInherits(cfg: Config, space: SpaceId, db: Db, in_: EntityInput, tick: Tick)
    requires Inv(db) && InSpace(space, db.t) && Minted(db, AppendEntityOp(in_, tick)) && in_.candidate.space == space
    requires AppendEntity(cfg, db, in_, tick).1.Accepted?
    ensures Inherited(db.t, AppendEntity(cfg, db, in_, tick).0.t)
  {
    var c, after := Stamped(in_, tick), AppendEntity(cfg, db, in_, tick).0.t;
    var d, base := AppendShape(cfg, db, in_, tick);
    if d.Merge? {
      TargetsAreHits(cfg, db.t, c, EffectivePolicy(in_.policy), d);
    }
    PreparedInherit(space, db.t, c, d, base);
    AssertedInherit(base, c.(id := DecisionTarget(d, tick)), tick.now, after, tick.edgeId);
    InheritedTrans(db.t, base, after);
  }

  lemma AppendKeepsSucceeded(cfg: Config, space: SpaceId, db: Db, in_: EntityInput, tick: Tick)
    requires Inv(db) && Settled(cfg, space, db) && Minted(db, AppendEntityOp(in_, tick)) && PlainEntity(in_, space)
    requires Succeeded(db.log, db.t) && AppendEntity(cfg, db, in_, tick).1.Accepted?
    ensures var db' := AppendEntity(cfg, db, in_, tick).0; Succeeded(db'.log, db'.t)
  {
    var db' := AppendEntity(cfg, db, in_, tick).0;
    var d := AppendTables(cfg, space, db, in_, tick);
    var added := AppendedFacts(cfg, db, in_, tick, d);
    AppendCarriesAllKeysIff(cfg, db, in_, tick);
    AppendInherits(cfg, space, db, in_, tick);
    forall f | f in added && ByIngest(f) ensures f.subject in db'.t.entities {
      AddedFactGood(cfg, space, db, in_, tick, d, f);
    }
    SucceededKept(db.log, added, db.t, db'.t);
  }

  // ---- the other writes ----

  lemma SameHolders(log: seq<Fact>, added: seq<Fact>, a: Tables, b: Tables)
    requires Succeeded(log, a) && b.entities.Keys == a.entities.Keys && b.ext == a.ext
    requires forall f | f in added :: !ByIngest(f)
    ensures Succeeded(log + added, b)
  {
    forall f | f in log + added && ByIngest(f) && f.subject !in b.entities
      ensures HasHeir(b, KeySet(f.payload.entity.externalIds))
    {
      assert f in log;
      var h :| h in a.entities && KeySet(f.payload.entity.externalIds) < Carried(a.ext, h);
      assert h in b.entities;
    }
  }

  lemma EdgeOpKeepsSucceeded(cfg: Config, db: Db, op: Op)
    requires Succeeded(db.log, db.t) && (op.AppendEdgeOp? || op.RetractEdgeOp?)
    ensures Succeeded(Step(cfg, db, op).log, Step(cfg, db, op).t)
  {
    var db' := Step(cfg, db, op);
    if db' != db {
      SameHolders(db.log, db'.log[|db.log|..], db.t, db'.t);
      assert db.log + db'.log[|db.log|..] == db'.log;
    }
  }

  lemma RebuildKeepsSucceeded(db: Db)
    requires Inv(db) && Succeeded(db.log, db.t)
    ensures Succeeded(Rebuild(db).0.log, Rebuild(db).0.t)
  {
    assert Agrees(db.t, Fold(db.log).value);
    SameHolders(db.log, [], db.t, Fold(db.log).value);
    assert db.log + [] == db.log;
  }

  lemma EntityOpKeepsSucceeded(cfg: Config, space: SpaceId, db: Db, op: Op)
    requires Inv(db) && Settled(cfg, space, db) && Minted(db, op) && op.AppendEntityOp? && PlainEntity(op.entity, space)
    requires Succeeded(db.log, db.t)
    ensures Succeeded(Step(cfg, db, op).log, Step(cfg, db, op).t)
  {
    if AppendEntity(cfg, db, op.entity, op.tick).1.Accepted? {
      AppendKeepsSucceeded(cfg, space, db, op.entity, op.tick);
    } else {
      NotAccepted(cfg, db, op.entity, op.tick);
    }
  }

  /** A retraction of an entity, or a direct merge. */
  predicate Removes(op: Op) {
    op.RetractEntityOp? || op.MergeOp?
  }

  lemma StepKeepsSucceeded(cfg: Config, space: SpaceId, db: Db, op: Op)
    requires Inv(db) && Settled(cfg, space, db) && Minted(db, op) && Plain(op, space) && !Removes(op)
    requires Succeeded(db.log, db.t)
    ensures Succeeded(Step(cfg, db, op).log, Step(cfg, db, op).t)
  {
    if op.AppendEntityOp? {
      EntityOpKeepsSucceeded(cfg, space, db, op);
    } else if op.RebuildOp? {
      RebuildKeepsSucceeded(db);
    } else {
      EdgeOpKeepsSucceeded(cfg, db, op);
    }
  }

  // ---- what it is for ----

  lemma SameKeySet(xs: seq<ExternalId>, ys: seq<ExternalId>)
    requires multiset(Keys(xs)) == multiset(Keys(ys))
    ensures KeySet(xs) == KeySet(ys)
  {
    forall k ensures k in Keys(xs) <==> k in Keys(ys) {
      assert k in multiset(Keys(xs)) <==> k in multiset(Keys(ys));
    }
  }

  /** The keys the anchor derives from are exactly those the anchored work carries. */
  lemma AnchorKeySet(space: SpaceId, t: Tables, ref: EntityId, tmdb: string)
    requires InSpace(space, t) && Carries(t.ext, ref, TmdbId(tmdb).Key())
    ensures KeySet(LoadedIds(t.ext, ref) + [TmdbId(tmdb)]) == Carried(t.ext, ref)
  {
    var xs := LoadedIds(t.ext, ref);
    LoadedKeys(space, t, ref);
    assert Keys(xs + [TmdbId(tmdb)]) == Keys(xs) + [TmdbId(tmdb).Key()];
    CarriesAllIff(t.ext, ref, xs);
    CarriesIsCarried(t.ext, ref, TmdbId(tmdb).Key());
    forall k | k in Carried(t.ext, ref) ensures k in Keys(xs) {
      CarriesIsCarried(t.ext, ref, k);
    }
  }

  lemma SameAnchor(w: World, db: Db, ref: EntityId, tmdb: string, f: Fact)
    requires Hashes(w.cfg) && InSpace(w.req.space, db.t) && GoodFact(w.cfg, f) && ByIngest(f)
    requires ref in db.t.entities && db.t.entities[ref].typ in ALLOWED_TYPES && NulFree(TmdbId(tmdb).Key())
    requires f.dedupeKey == AnchorKey(w.cfg, db.t, ref, tmdb)
    ensures KeySet(f.payload.entity.externalIds) == KeySet(LoadedIds(db.t.ext, ref) + [TmdbId(tmdb)])
  {
    var e, xs := f.payload.entity, LoadedIds(db.t.ext, ref) + [TmdbId(tmdb)];
    LoadedKeys(w.req.space, db.t, ref);
    AllowedNulFree(db.t.entities[ref].typ);
    assert DeriveBytes(w.cfg.lower, e.typ, e.externalIds, ExtractName(e.props))
      == DeriveBytes(w.cfg.lower, db.t.entities[ref].typ, xs, "");
    DerivedBytesIff(w.cfg.lower, e.typ, e.externalIds, ExtractName(e.props), db.t.entities[ref].typ, xs, "");
    SameKeySet(e.externalIds, xs);
  }

  /** The key of a standing anchor is not logged for an entity that is gone. */
  lemma StandingIsClear(w: World, db: Db, call: Call)
    requires Hashes(w.cfg) && Inv(db) && Settled(w.cfg, w.req.space, db) && Succeeded(db.log, db.t)
    requires call.Anchored? ==> Standing(w, db, call)
    ensures Clear(w, db, call)
  {
    if call.Anchored? && Prior(db.log, INGEST, AnchorKey(w.cfg, db.t, call.ref, call.tmdb), true).Some? {
      var f := PriorFact(db.log, INGEST, AnchorKey(w.cfg, db.t, call.ref, call.tmdb));
      assert GoodFact(w.cfg, f);
      if f.subject !in db.t.entities {
        var r :| r in db.t.ext && r.entity == call.ref && r.key == TmdbId(call.tmdb).Key();
        SameAnchor(w, db, call.ref, call.tmdb, f);
        AnchorKeySet(w.req.space, db.t, call.ref, call.tmdb);
        var h :| h in db.t.entities && KeySet(f.payload.entity.externalIds) < Carried(db.t.ext, h);
        CarriesIsCarried(db.t.ext, h, r.key);
        OneHolder(w.req.space, db.t, h, call.ref, r.key);
        assert false;
      }
    }
  }
}
