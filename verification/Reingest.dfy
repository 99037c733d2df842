/** Running an ingestion again: what a first run leaves standing, and when the second finds all
    of it. */
module Reingest {
  import opened Json
  import opened Domain
  import opened Order
  import opened Resolve
  import opened Tables
  import opened Store
  import opened DedupeKey
  import opened Invariants
  import opened Spaces
  import opened OneSpace
  import opened Ingest
  import Runs

  // ---- what a call leaves standing ----

  function TmdbId(tmdb: string): ExternalId {
    ExternalId("tmdb", tmdb)
  }

  function EntityPrior(cfg: Config, log: seq<Fact>, typ: string, xs: seq<ExternalId>): Option<string> {
    Prior(log, INGEST, DerivedKey(cfg, typ, xs, ""), true)
  }

  /** The dedupe key attachTMDB derives: the stored keys with the tmdb key once more. */
  function AnchorKey(cfg: Config, t: Tables, ref: EntityId, tmdb: string): string
    requires ref in t.entities
  {
    DerivedKey(cfg, t.entities[ref].typ, LoadedIds(t.ext, ref) + [TmdbId(tmdb)], "")
  }

  /** Enough is there for the call to be found done. */
  predicate Standing(w: World, db: Db, call: Call) {
    match call
    case Upserted(in_, id, _) =>
      id in db.t.entities && EntityPrior(w.cfg, db.log, in_.candidate.typ, in_.candidate.externalIds) == Some(id)
    case LinkedUp(in_) =>
      Logged(db.log, INGEST, EdgeKey(in_)) &&
      (match Prior(db.log, INGEST, EdgeKey(in_), false)
       case Some(e) => e in db.t.edges
       case None => in_.edge.from in db.t.entities && in_.edge.to in db.t.entities)
    case Anchored(ref, tmdb, _) =>
      && OwnerSees(w.req, db.t, ref) && db.t.entities[ref].typ in ALLOWED_TYPES && db.t.entities[ref].visibility.Valid()
      && Carries(db.t.ext, ref, TmdbId(tmdb).Key())
  }

  ghost predicate AllStanding(w: World, db: Db, calls: seq<Call>) {
    forall c | c in calls :: Standing(w, db, c)
  }

  /** The key attachTMDB will derive is not that of a fact about an entity that is gone. */
  predicate Clear(w: World, db: Db, call: Call) {
    call.Anchored? && call.ref in db.t.entities ==>
      match Prior(db.log, INGEST, AnchorKey(w.cfg, db.t, call.ref, call.tmdb), true)
      case Some(s) => s in db.t.entities
      case None => true
  }

  ghost predicate AllClear(w: World, db: Db, calls: seq<Call>) {
    forall c | c in calls :: Clear(w, db, c)
  }

  /** And it is logged already. */
  predicate Quiet(w: World, db: Db, call: Call) {
    Clear(w, db, call) &&
    (call.Anchored? && call.ref in db.t.entities
     ==> Logged(db.log, INGEST, AnchorKey(w.cfg, db.t, call.ref, call.tmdb)))
  }

  ghost predicate AllQuiet(w: World, db: Db, calls: seq<Call>) {
    forall c | c in calls :: Quiet(w, db, c)
  }

  // ---- how a store may have moved on ----

  predicate SameRow(a: EntityRow, b: EntityRow) {
    b == a.(props := b.props, updatedAt := b.updatedAt)
  }

  /** More facts, under keys not logged before. */
  ghost predicate Extends(log: seq<Fact>, longer: seq<Fact>) {
    log <= longer && forall i | |log| <= i < |longer| :: !Logged(log, longer[i].writer, longer[i].dedupeKey)
  }

  lemma ExtendsTrans(a: seq<Fact>, b: seq<Fact>, c: seq<Fact>)
    requires Extends(a, b) && Extends(b, c)
    ensures Extends(a, c)
  {
    forall i | |a| <= i < |c| ensures !Logged(a, c[i].writer, c[i].dedupeKey) {
      if i < |b| {
        assert b[i] == c[i];
      } else if Logged(a, c[i].writer, c[i].dedupeKey) {
        Runs.LoggedMono(a, b, c[i].writer, c[i].dedupeKey);
      }
    }
  }

  /** Nothing was removed, and entities kept their place. */
  ghost predicate Grown(a: Db, b: Db) {
    && Extends(a.log, b.log)
    && (forall id | id in a.t.entities :: id in b.t.entities && SameRow(a.t.entities[id], b.t.entities[id]))
    && a.t.ext <= b.t.ext && a.t.edges.Keys <= b.t.edges.Keys
  }

  /** No entity and no edge came or went, and no key or vector changed; the log may have grown,
      by facts about live entities. */
  ghost predicate Same(a: Db, b: Db) {
    && Extends(a.log, b.log) && (forall i | |a.log| <= i < |b.log| :: b.log[i].subject in a.t.entities)
    && b.t.entities.Keys == a.t.entities.Keys
    && (forall id | id in a.t.entities :: SameRow(a.t.entities[id], b.t.entities[id]))
    && b.t.ext == a.t.ext && b.t.emb == a.t.emb && b.t.edges == a.t.edges
  }

  lemma SameIsGrown(a: Db, b: Db)
    requires Same(a, b)
    ensures Grown(a, b)
  {
  }

  lemma SameTrans(a: Db, b: Db, c: Db)
    requires Same(a, b) && Same(b, c)
    ensures Same(a, c)
  {
    ExtendsTrans(a.log, b.log, c.log);
    forall i | |a.log| <= i < |c.log| ensures c.log[i].subject in a.t.entities {
      if i < |b.log| {
        assert b.log[i] == c.log[i];
      }
    }
  }

  lemma GrownTrans(a: Db, b: Db, c: Db)
    requires Grown(a, b) && Grown(b, c)
    ensures Grown(a, c)
  {
    ExtendsTrans(a.log, b.log, c.log);
  }

  lemma {:induction false} PriorStays(log: seq<Fact>, longer: seq<Fact>, writer: WriterId, key: string, entity: bool)
    requires log <= longer && Prior(log, writer, key, entity).Some?
    ensures Prior(longer, writer, key, entity) == Prior(log, writer, key, entity)
    decreases |longer|
  {
    if |log| < |longer| {
      PriorStays(log, longer[..|longer| - 1], writer, key, entity);
    } else {
      assert log == longer;
    }
  }

  lemma {:induction false} PriorIsNew(
    log: seq<Fact>, longer: seq<Fact>, writer: WriterId, key: string, entity: bool) returns (i: nat)
    requires log <= longer && Prior(log, writer, key, entity).None? && Prior(longer, writer, key, entity).Some?
    ensures |log| <= i < |longer| && longer[i].subject == Prior(longer, writer, key, entity).value
    ensures longer[i].writer == writer && longer[i].dedupeKey == key
    decreases |longer|
  {
    var front := longer[..|longer| - 1];
    assert log != longer && |log| < |longer|;
    if Prior(front, writer, key, entity).Some? {
      i := PriorIsNew(log, front, writer, key, entity);
    } else {
      i := |longer| - 1;
    }
  }

  lemma {:induction false} PriorFact(log: seq<Fact>, writer: WriterId, key: string) returns (f: Fact)
    requires Prior(log, writer, key, true).Some?
    ensures f in log && f.writer == writer && f.dedupeKey == key && f.payload.EntityAsserted?
    ensures f.subject == Prior(log, writer, key, true).value
  {
    var front, last := log[..|log| - 1], log[|log| - 1];
    assert log == front + [last];
    if Prior(front, writer, key, true).Some? {
      f := PriorFact(front, writer, key);
    } else {
      f := last;
    }
  }

  lemma {:induction false} FactHasPrior(log: seq<Fact>, f: Fact)
    requires f in log && f.payload.EntityAsserted?
    ensures Prior(log, f.writer, f.dedupeKey, true).Some?
  {
    var front, last := log[..|log| - 1], log[|log| - 1];
    assert log == front + [last];
    if f in front {
      FactHasPrior(front, f);
    }
  }

  lemma StandingMono(w: World, a: Db, b: Db, call: Call)
    requires Grown(a, b) && Standing(w, a, call)
    ensures Standing(w, b, call)
  {
    match call
    case Upserted(in_, id, _) =>
      PriorStays(a.log, b.log, INGEST, DerivedKey(w.cfg, in_.candidate.typ, in_.candidate.externalIds, ""), true);
    case LinkedUp(in_) =>
      Runs.LoggedMono(a.log, b.log, INGEST, EdgeKey(in_));
      if Prior(a.log, INGEST, EdgeKey(in_), false).Some? {
        PriorStays(a.log, b.log, INGEST, EdgeKey(in_), false);
      } else if Prior(b.log, INGEST, EdgeKey(in_), false).Some? {
        var i := PriorIsNew(a.log, b.log, INGEST, EdgeKey(in_), false);
      }
    case Anchored(ref, tmdb, _) =>
      assert SameRow(a.t.entities[ref], b.t.entities[ref]);
  }

  lemma AnchorKeySame(w: World, a: Db, b: Db, ref: EntityId, tmdb: string)
    requires Same(a, b) && ref in a.t.entities
    ensures AnchorKey(w.cfg, a.t, ref, tmdb) == AnchorKey(w.cfg, b.t, ref, tmdb)
  {
    assert SameRow(a.t.entities[ref], b.t.entities[ref]);
  }

  lemma ClearSame(w: World, a: Db, b: Db, call: Call)
    requires Same(a, b)
    ensures Clear(w, a, call) <==> Clear(w, b, call)
    ensures Quiet(w, a, call) ==> Quiet(w, b, call)
  {
    if call.Anchored? && call.ref in a.t.entities {
      AnchorKeySame(w, a, b, call.ref, call.tmdb);
      var key := AnchorKey(w.cfg, a.t, call.ref, call.tmdb);
      if Prior(a.log, INGEST, key, true).Some? {
        PriorStays(a.log, b.log, INGEST, key, true);
      } else if Prior(b.log, INGEST, key, true).Some? {
        var i := PriorIsNew(a.log, b.log, INGEST, key, true);
      }
      if Logged(a.log, INGEST, key) {
        Runs.LoggedMono(a.log, b.log, INGEST, key);
      }
    }
  }

  lemma AllStandingMono(w: World, a: Db, b: Db, calls: seq<Call>)
    requires Grown(a, b) && AllStanding(w, a, calls)
    ensures AllStanding(w, b, calls)
  {
    forall c | c in calls ensures Standing(w, b, c) {
      StandingMono(w, a, b, c);
    }
  }

  lemma AllClearSame(w: World, a: Db, b: Db, calls: seq<Call>)
    requires Same(a, b)
    ensures AllClear(w, a, calls) <==> AllClear(w, b, calls)
    ensures AllQuiet(w, a, calls) ==> AllQuiet(w, b, calls)
  {
    forall c | c in calls ensures (Clear(w, a, c) <==> Clear(w, b, c)) && (Quiet(w, a, c) ==> Quiet(w, b, c)) {
      ClearSame(w, a, b, c);
    }
  }

  lemma AllAppend(w: World, db: Db, a: seq<Call>, b: seq<Call>)
    ensures AllStanding(w, db, a + b) <==> AllStanding(w, db, a) && AllStanding(w, db, b)
    ensures AllClear(w, db, a + b) <==> AllClear(w, db, a) && AllClear(w, db, b)
    ensures AllQuiet(w, db, a + b) <==> AllQuiet(w, db, a) && AllQuiet(w, db, b)
  {
    assert forall c :: c in a + b <==> c in a || c in b;
  }

  // ---- a flow run again ----

  /** b, run where all of a's calls stand, redoes a: it changes nothing but the log, it succeeds
      with a's answer exactly when the keys are clear, and changes nothing at all when they are
      quiet, which they are afterwards. */
  ghost predicate Repeats<T(!new)>(w: World, a: Flow<T>, db: Db, b: Flow<T>) {
    && Same(db, b.db)
    && (if AllClear(w, db, a.calls) then b.r == a.r && AllQuiet(w, b.db, a.calls) else b.r.Err?)
    && (AllQuiet(w, db, a.calls) ==> b.db == db)
  }

  ghost predicate Base(w: World, db: Db) {
    Constraints(db.t) && InSpace(w.req.space, db.t)
  }

  lemma BaseSame(w: World, a: Db, b: Db)
    requires Base(w, a) && Same(a, b)
    ensures Base(w, b)
  {
    forall id | id in b.t.entities ensures b.t.entities[id].space == w.req.space {
      assert SameRow(a.t.entities[id], b.t.entities[id]);
    }
  }

  lemma ThenRepeats<A(!new), B(!new)>(w: World, a1: Flow<A>, a2: Flow<B>, db: Db, b1: Flow<A>, b2: Flow<B>)
    requires a1.r.Ok? && a2.r.Ok? && Repeats(w, a1, db, b1)
    requires b1.r == a1.r ==> Repeats(w, a2, b1.db, b2)
    ensures Repeats(w, Then(a1, a2), db, Then(b1, b2))
  {
    AllAppend(w, db, a1.calls, a2.calls);
    AllClearSame(w, db, b1.db, a2.calls);
    if b1.r == a1.r {
      SameTrans(db, b1.db, b2.db);
      AllAppend(w, b2.db, a1.calls, a2.calls);
      AllClearSame(w, b1.db, b2.db, a1.calls);
    }
  }

  /** Where a part of a flow was repeated, the next part finds its own calls standing. */
  lemma PartRepeated<A(!new)>(w: World, a: Flow<A>, rest: seq<Call>, db: Db, b: Flow<A>)
    requires Base(w, db) && AllStanding(w, db, a.calls + rest) && Repeats(w, a, db, b)
    ensures Base(w, b.db) && AllStanding(w, b.db, rest)
  {
    AllAppend(w, db, a.calls, rest);
    BaseSame(w, db, b.db);
    SameIsGrown(db, b.db);
    AllStandingMono(w, db, b.db, rest);
  }

  // ---- each call run again ----

  lemma NameIrrelevant(cfg: Config, typ: string, xs: seq<ExternalId>, n1: string, n2: string)
    requires xs != []
    ensures DerivedKey(cfg, typ, xs, n1) == DerivedKey(cfg, typ, xs, n2)
  {
  }

  lemma PriorIsLogged(log: seq<Fact>, key: string)
    requires Prior(log, INGEST, key, true).Some?
    ensures Logged(log, INGEST, key)
  {
    var f := PriorFact(log, INGEST, key);
  }

  lemma SameSelf(db: Db)
    ensures Same(db, db)
  {
  }

  lemma UpsertRepeats(
    w: World, was: Db, m: nat, typ: string, props: map<string, Json>, ext: ExternalId, asserter: string, db: Db, n: nat)
    requires Upsert(w, was, m, typ, props, ext, asserter).r.Ok?
    requires AllStanding(w, db, Upsert(w, was, m, typ, props, ext, asserter).calls)
    ensures Repeats(w, Upsert(w, was, m, typ, props, ext, asserter), db, Upsert(w, db, n, typ, props, ext, asserter))
  {
    var a, in_ := Upsert(w, was, m, typ, props, ext, asserter), UpsertInput(w.req, typ, props, ext, asserter);
    assert a.calls[0] in a.calls && Standing(w, db, a.calls[0]);
    NameIrrelevant(w.cfg, typ, [ext], ExtractName(in_.candidate.props), "");
    SameSelf(db);
  }

  lemma LinkRepeats(w: World, was: Db, m: nat, predicate_: string, from: EntityId, to: EntityId, db: Db, n: nat)
    requires Link(w, was, m, predicate_, from, to).r.Ok?
    requires AllStanding(w, db, Link(w, was, m, predicate_, from, to).calls)
    ensures Repeats(w, Link(w, was, m, predicate_, from, to), db, Link(w, db, n, predicate_, from, to))
  {
    var a := Link(w, was, m, predicate_, from, to);
    assert a.calls[0] in a.calls && Standing(w, db, a.calls[0]);
    SameSelf(db);
  }

  lemma LoadedKeys(space: SpaceId, t: Tables, id: EntityId)
    requires InSpace(space, t)
    ensures CarriesAll(t.ext, id, LoadedIds(t.ext, id)) && NulFreeIds(LoadedIds(t.ext, id))
    ensures forall key | Carries(t.ext, id, key) :: key in Keys(LoadedIds(t.ext, id))
  {
    var xs := LoadedIds(t.ext, id);
    XidOrder();
    SortSetSorts(XidLe, XidsOf(t.ext, id));
    forall i | 0 <= i < |xs| ensures Carries(t.ext, id, xs[i].Key()) && NulFree(xs[i].Key()) {
      assert xs[i] in xs && xs[i] in XidsOf(t.ext, id);
      var r :| r in t.ext && r.entity == id && r.xid == xs[i];
      assert r.key == xs[i].Key();
    }
    forall key | Carries(t.ext, id, key) ensures key in Keys(xs) {
      var r :| r in t.ext && r.entity == id && r.key == key;
      assert r.xid in XidsOf(t.ext, id) && r.xid in xs;
      var i :| 0 <= i < |xs| && xs[i] == r.xid;
      KeyIn(xs, i);
    }
  }

  lemma BaseSpaces(w: World, t: Tables)
    requires Constraints(t) && InSpace(w.req.space, t)
    ensures SpacesAgree(t)
  {
  }

  lemma AnchorCarried(w: World, db: Db, ref: EntityId, tmdb: string)
    requires Base(w, db) && ref in db.t.entities && Carries(db.t.ext, ref, TmdbId(tmdb).Key())
    ensures CarriesAll(db.t.ext, ref, AnchorInput(w.req, db.t, ref, tmdb).candidate.externalIds)
  {
    LoadedKeys(w.req.space, db.t, ref);
  }

  /** An anchored work takes its own anchor again. */
  lemma AnchorDecision(w: World, db: Db, ref: EntityId, tmdb: string, tick: Tick)
    requires Base(w, db) && ref in db.t.entities && Carries(db.t.ext, ref, TmdbId(tmdb).Key())
    ensures var in_ := AnchorInput(w.req, db.t, ref, tmdb);
      EntityDecision(w.cfg, db.t, Stamped(in_, tick), EffectivePolicy(in_.policy)) == Ok(Attach(ref, MatchExternal))
  {
    var in_ := AnchorInput(w.req, db.t, ref, tmdb);
    var c := Stamped(in_, tick);
    AnchorCarried(w, db, ref, tmdb);
    BaseSpaces(w, db.t);
    CarriedIsHeldHere(db.t, ref, c.externalIds);
    SoleHit(db.t, ref, c.space, c.externalIds);
    DecisionOnHits([ref], DecisionNeighbors(w.cfg, db.t, c, Auto), Auto, w.cfg.th,
                   EntityDecision(w.cfg, db.t, c, Auto).value);
  }

  lemma {:induction false} InsertHeldKeys(ext: set<ExtRow>, id: EntityId, space: SpaceId, xs: seq<ExternalId>)
    requires CarriesAll(ext, id, xs)
    ensures InsertKeys(ext, id, space, xs) == ext
  {
    if xs != [] {
      InsertHeldKeys(ext, id, space, xs[..|xs| - 1]);
    }
  }

  lemma {:induction false} PutHeldVectors(emb: map<EmbKey, Vector>, id: EntityId, es: seq<Embedding>)
    requires forall i | 0 <= i < |es| ::
             EmbKey(id, es[i].model, es[i].field) in emb && emb[EmbKey(id, es[i].model, es[i].field)] == es[i].vector
    ensures PutVectors(emb, id, es) == emb
  {
    if es != [] {
      PutHeldVectors(emb, id, es[..|es| - 1]);
    }
  }

  lemma LoadedVectorsHeld(emb: map<EmbKey, Vector>, id: EntityId)
    ensures PutVectors(emb, id, LoadedVectors(emb, id)) == emb
  {
    EmbOrder();
    var ks := SortSet(EmbLe, EmbKeysOf(emb, id));
    SortSetSorts(EmbLe, EmbKeysOf(emb, id));
    forall i | 0 <= i < |ks| ensures ks[i] in emb && ks[i].entity == id {
      assert ks[i] in ks;
    }
    PutHeldVectors(emb, id, LoadedVectors(emb, id));
  }

  /** Writing back what was read changes only the row's bag and its time. */
  lemma AnchorTables(w: World, db: Db, ref: EntityId, tmdb: string, c: Entity, ts: Time)
    requires Base(w, db) && ref in db.t.entities && Carries(db.t.ext, ref, TmdbId(tmdb).Key())
    requires c == AnchorInput(w.req, db.t, ref, tmdb).candidate.(prov := c.prov)
    ensures UpsertEntity(db.t, c, ts).Ok?
    ensures var t := UpsertEntity(db.t, c, ts).value;
      && t.entities == db.t.entities[ref := t.entities[ref]] && SameRow(db.t.entities[ref], t.entities[ref])
      && t.ext == db.t.ext && t.emb == db.t.emb && t.edges == db.t.edges
  {
    AnchorCarried(w, db, ref, tmdb);
    InsertHeldKeys(db.t.ext, ref, c.space, c.externalIds);
    LoadedVectorsHeld(db.t.emb, ref);
  }

  /** An entity write whose script is its own assertion. */
  lemma PlainAppend(cfg: Config, db: Db, in_: EntityInput, tick: Tick, d: Decision)
    requires in_.candidate.typ in ALLOWED_TYPES && in_.candidate.visibility.Valid()
             && EffectivePolicy(in_.policy).Valid()
    requires Prior(db.log, in_.writer, EntityKey(cfg, in_, tick), true).None?
    requires EntityDecision(cfg, db.t, Stamped(in_, tick), EffectivePolicy(in_.policy)) == Ok(d)
             && (d.Attach? || d.InsertNew?)
    ensures var main := AssertEmission(in_, Stamped(in_, tick), DecisionTarget(d, tick), EntityKey(cfg, in_, tick));
      AppendEntity(cfg, db, in_, tick) == match Emit(db, main, tick.now)
        case Err(e) => (db, Rejected(e))
        case Ok(db') => (db', Accepted(DecisionTarget(d, tick)))
  {
    OneEmission(db, AssertEmission(in_, Stamped(in_, tick), DecisionTarget(d, tick), EntityKey(cfg, in_, tick)),
                tick.now);
  }

  function AnchorMain(w: World, db: Db, ref: EntityId, tmdb: string, tick: Tick): Emission
    requires ref in db.t.entities
  {
    var in_ := AnchorInput(w.req, db.t, ref, tmdb);
    AssertEmission(in_, Stamped(in_, tick), ref, AnchorKey(w.cfg, db.t, ref, tmdb))
  }

  lemma AnchorAppend(w: World, db: Db, ref: EntityId, tmdb: string, tick: Tick)
    requires Base(w, db) && Standing(w, db, Anchored(ref, tmdb, false))
    requires Prior(db.log, INGEST, AnchorKey(w.cfg, db.t, ref, tmdb), true).None?
    ensures AppendEntity(w.cfg, db, AnchorInput(w.req, db.t, ref, tmdb), tick) ==
      match Emit(db, AnchorMain(w, db, ref, tmdb, tick), tick.now)
      case Err(e) => (db, Rejected(e))
      case Ok(db') => (db', Accepted(ref))
  {
    var in_ := AnchorInput(w.req, db.t, ref, tmdb);
    NameIrrelevant(w.cfg, in_.candidate.typ, in_.candidate.externalIds, ExtractName(in_.candidate.props), "");
    AnchorDecision(w, db, ref, tmdb, tick);
    PlainAppend(w.cfg, db, in_, tick, Attach(ref, MatchExternal));
  }

  lemma AnchorLogged(w: World, db: Db, ref: EntityId, tmdb: string, main: Emission, ts: Time)
    requires Base(w, db) && ref in db.t.entities && Carries(db.t.ext, ref, TmdbId(tmdb).Key())
    requires main.payload.EntityAsserted? && main.subject == ref && !Logged(db.log, main.writer, main.dedupeKey)
    requires main.payload.entity == AnchorInput(w.req, db.t, ref, tmdb).candidate.(prov := main.payload.entity.prov)
    ensures var e := Emit(db, main, ts);
      e.Ok? && Same(db, e.value) && Logged(e.value.log, main.writer, main.dedupeKey)
  {
    AnchorTables(w, db, ref, tmdb, main.payload.entity, ts);
    var db' := Emit(db, main, ts).value;
    assert db'.log[|db.log|] in db'.log;
  }

  /** The repeated anchor: refused as a duplicate under a logged key, else one more fact. */
  lemma AnchorEmits(w: World, db: Db, ref: EntityId, tmdb: string, tick: Tick)
    requires Base(w, db) && Standing(w, db, Anchored(ref, tmdb, false))
    ensures var e := Emit(db, AnchorMain(w, db, ref, tmdb, tick), tick.now);
      if Logged(db.log, INGEST, AnchorKey(w.cfg, db.t, ref, tmdb)) then e == Err(DuplicateFact)
      else e.Ok? && Same(db, e.value) && Logged(e.value.log, INGEST, AnchorKey(w.cfg, db.t, ref, tmdb))
  {
    var main := AnchorMain(w, db, ref, tmdb, tick);
    if Logged(db.log, INGEST, main.dedupeKey) {
      AnchorTables(w, db, ref, tmdb, main.payload.entity, tick.now);
    } else {
      AnchorLogged(w, db, ref, tmdb, main, tick.now);
    }
  }

  lemma AnchorIs(w: World, db: Db, n: nat, ref: EntityId, tmdb: string)
    requires OwnerSees(w.req, db.t, ref)
    ensures var (db', out) := AppendEntity(w.cfg, db, AnchorInput(w.req, db.t, ref, tmdb), w.ticks(n));
            var f := Anchor(w, db, n, ref, tmdb);
      f.db == db' && f.r == if Reported(out).Ok? then Ok(true) else Err(Reported(out).error)
  {
  }

  /** Under a key already asserted, the write is answered from the entity it was about. */
  lemma AnchorReplays(w: World, db: Db, ref: EntityId, tmdb: string, tick: Tick)
    requires Standing(w, db, Anchored(ref, tmdb, false))
    requires Prior(db.log, INGEST, AnchorKey(w.cfg, db.t, ref, tmdb), true).Some?
    ensures var s := Prior(db.log, INGEST, AnchorKey(w.cfg, db.t, ref, tmdb), true).value;
      AppendEntity(w.cfg, db, AnchorInput(w.req, db.t, ref, tmdb), tick)
      == (db, if s in db.t.entities then Replayed(s) else Rejected(NotFound))
  {
    var in_ := AnchorInput(w.req, db.t, ref, tmdb);
    NameIrrelevant(w.cfg, in_.candidate.typ, in_.candidate.externalIds, ExtractName(in_.candidate.props), "");
  }

  lemma OneCall(w: World, db: Db, call: Call)
    ensures AllStanding(w, db, [call]) <==> Standing(w, db, call)
    ensures AllClear(w, db, [call]) <==> Clear(w, db, call)
    ensures AllQuiet(w, db, [call]) <==> Quiet(w, db, call)
  {
    assert call in [call];
  }

  ghost predicate RepeatsOne(w: World, call: Call, db: Db, f: Flow<bool>) {
    && Same(db, f.db)
    && (if Clear(w, db, call) then f.r == Ok(true) && Quiet(w, f.db, call) else f.r.Err?)
    && (Quiet(w, db, call) ==> f.db == db)
  }

  lemma AnchorKnown(w: World, db: Db, n: nat, ref: EntityId, tmdb: string, call: Call)
    requires call.Anchored? && call.ref == ref && call.tmdb == tmdb && Standing(w, db, call)
    requires Prior(db.log, INGEST, AnchorKey(w.cfg, db.t, ref, tmdb), true).Some?
    ensures RepeatsOne(w, call, db, Anchor(w, db, n, ref, tmdb))
  {
    SameSelf(db);
    AnchorIs(w, db, n, ref, tmdb);
    PriorIsLogged(db.log, AnchorKey(w.cfg, db.t, ref, tmdb));
    AnchorReplays(w, db, ref, tmdb, w.ticks(n));
  }

  lemma AnchorNew(w: World, db: Db, n: nat, ref: EntityId, tmdb: string, call: Call)
    requires call.Anchored? && call.ref == ref && call.tmdb == tmdb && Standing(w, db, call) && Base(w, db)
    requires Prior(db.log, INGEST, AnchorKey(w.cfg, db.t, ref, tmdb), true).None?
    ensures RepeatsOne(w, call, db, Anchor(w, db, n, ref, tmdb))
  {
    var tick, e := w.ticks(n), Emit(db, AnchorMain(w, db, ref, tmdb, w.ticks(n)), w.ticks(n).now);
    AnchorIs(w, db, n, ref, tmdb);
    AnchorAppend(w, db, ref, tmdb, tick);
    AnchorEmits(w, db, ref, tmdb, tick);
    if e.Err? {
      SameSelf(db);
    } else {
      ClearSame(w, db, e.value, call);
      AnchorKeySame(w, db, e.value, ref, tmdb);
    }
  }

  lemma AnchorRepeats(w: World, was: Db, m: nat, ref: EntityId, tmdb: string, db: Db, n: nat)
    requires Anchor(w, was, m, ref, tmdb).r.Ok? && Base(w, db)
    requires AllStanding(w, db, Anchor(w, was, m, ref, tmdb).calls)
    ensures Repeats(w, Anchor(w, was, m, ref, tmdb), db, Anchor(w, db, n, ref, tmdb))
  {
    var a, b := Anchor(w, was, m, ref, tmdb), Anchor(w, db, n, ref, tmdb);
    var call := AnchorCall(w, was, m, ref, tmdb);
    OneCall(w, db, call);
    OneCall(w, b.db, call);
    if Prior(db.log, INGEST, AnchorKey(w.cfg, db.t, ref, tmdb), true).Some? {
      AnchorKnown(w, db, n, ref, tmdb, call);
    } else {
      AnchorNew(w, db, n, ref, tmdb, call);
    }
    OneRepeats(w, a, call, db, b);
  }

  lemma AnchorCall(w: World, db: Db, n: nat, ref: EntityId, tmdb: string) returns (call: Call)
    requires Anchor(w, db, n, ref, tmdb).r.Ok?
    ensures Anchor(w, db, n, ref, tmdb).calls == [call] && call.Anchored? && call.ref == ref && call.tmdb == tmdb
    ensures Anchor(w, db, n, ref, tmdb).r == Ok(true)
  {
    call := Anchor(w, db, n, ref, tmdb).calls[0];
  }

  lemma OneRepeats(w: World, a: Flow<bool>, call: Call, db: Db, b: Flow<bool>)
    requires a.calls == [call] && a.r == Ok(true) && RepeatsOne(w, call, db, b)
    ensures Repeats(w, a, db, b)
  {
    OneCall(w, db, call);
    OneCall(w, b.db, call);
  }

  // ---- the workflow run again, part by part ----

  lemma AboutWorkRepeats(w: World, was: Db, m: nat, tmdb: string, db: Db, n: nat)
    requires AboutWork(w, was, m, tmdb).r.Ok? && Base(w, db)
    requires AllStanding(w, db, AboutWork(w, was, m, tmdb).calls)
    ensures Repeats(w, AboutWork(w, was, m, tmdb), db, AboutWork(w, db, n, tmdb))
  {
    SameSelf(db);
    if w.works(tmdb).Some? {
      var props, id := map["name" := JStr("heyarr work " + w.works(tmdb).value)], WorkId(w.works(tmdb).value);
      var a := Upsert(w, was, m, "CreativeWork", props, id, "ingest:heyarr");
      var b := Upsert(w, db, n, "CreativeWork", props, id, "ingest:heyarr");
      var a2 := Anchor(w, a.db, a.n, a.r.value, tmdb);
      AllAppend(w, db, a.calls, a2.calls);
      UpsertRepeats(w, was, m, "CreativeWork", props, id, "ingest:heyarr", db, n);
      PartRepeated(w, a, a2.calls, db, b);
      if b.r == a.r {
        AnchorRepeats(w, a.db, a.n, a.r.value, tmdb, b.db, b.n);
        ThenRepeats(w, a, a2, db, b, Anchor(w, b.db, b.n, b.r.value, tmdb));
      }
    }
  }

  lemma AboutRepeats(w: World, was: Db, m: nat, from: EntityId, tmdb: string, db: Db, n: nat)
    requires About(w, was, m, from, tmdb).r.Ok? && Base(w, db)
    requires AllStanding(w, db, About(w, was, m, from, tmdb).calls)
    ensures Repeats(w, About(w, was, m, from, tmdb), db, About(w, db, n, from, tmdb))
  {
    var a, b := AboutWork(w, was, m, tmdb), AboutWork(w, db, n, tmdb);
    if a.r.value.None? {
      AboutWorkRepeats(w, was, m, tmdb, db, n);
    } else {
      var a2 := Link(w, a.db, a.n, "about", from, a.r.value.value);
      AllAppend(w, db, a.calls, a2.calls);
      AboutWorkRepeats(w, was, m, tmdb, db, n);
      PartRepeated(w, a, a2.calls, db, b);
      if b.r == a.r {
        LinkRepeats(w, a.db, a.n, "about", from, a.r.value.value, b.db, b.n);
        ThenRepeats(w, a, a2, db, b, Link(w, b.db, b.n, "about", from, b.r.value.value));
      }
    }
  }

  lemma {:induction false} AboutsRepeats(w: World, was: Db, m: nat, from: EntityId, tmdbs: seq<string>, db: Db, n: nat)
    requires Abouts(w, was, m, from, tmdbs).r.Ok? && Base(w, db)
    requires AllStanding(w, db, Abouts(w, was, m, from, tmdbs).calls)
    ensures Repeats(w, Abouts(w, was, m, from, tmdbs), db, Abouts(w, db, n, from, tmdbs))
    decreases |tmdbs|
  {
    SameSelf(db);
    if tmdbs != [] {
      var front, last := tmdbs[..|tmdbs| - 1], tmdbs[|tmdbs| - 1];
      var a, b := Abouts(w, was, m, from, front), Abouts(w, db, n, from, front);
      var a2 := About(w, a.db, a.n, from, last);
      AllAppend(w, db, a.calls, a2.calls);
      AboutsRepeats(w, was, m, from, front, db, n);
      PartRepeated(w, a, a2.calls, db, b);
      if b.r == a.r {
        AboutRepeats(w, a.db, a.n, from, last, b.db, b.n);
        ThenRepeats(w, a, a2, db, b, About(w, b.db, b.n, from, last));
      }
    }
  }

  lemma ClipNodeRepeats(w: World, was: Db, m: nat, video: EntityId, videoId: string, seg: Segment, db: Db, n: nat)
    requires ClipNode(w, was, m, video, videoId, seg).r.Ok? && Base(w, db)
    requires AllStanding(w, db, ClipNode(w, was, m, video, videoId, seg).calls)
    ensures Repeats(w, ClipNode(w, was, m, video, videoId, seg), db, ClipNode(w, db, n, video, videoId, seg))
  {
    var props, id := ClipProps(seg), ClipId(w, videoId, seg);
    var a := Upsert(w, was, m, "Clip", props, id, "ingest:yt-dlp");
    var b := Upsert(w, db, n, "Clip", props, id, "ingest:yt-dlp");
    var a2 := Link(w, a.db, a.n, "isPartOf", a.r.value, video);
    AllAppend(w, db, a.calls, a2.calls);
    UpsertRepeats(w, was, m, "Clip", props, id, "ingest:yt-dlp", db, n);
    PartRepeated(w, a, a2.calls, db, b);
    if b.r == a.r {
      LinkRepeats(w, a.db, a.n, "isPartOf", a.r.value, video, b.db, b.n);
      ThenRepeats(w, a, a2, db, b, Link(w, b.db, b.n, "isPartOf", b.r.value, video));
    }
  }

  lemma ClipRepeats(w: World, was: Db, m: nat, video: EntityId, videoId: string, seg: Segment, db: Db, n: nat)
    requires ClipOf(w, was, m, video, videoId, seg).r.Ok? && Base(w, db)
    requires AllStanding(w, db, ClipOf(w, was, m, video, videoId, seg).calls)
    ensures Repeats(w, ClipOf(w, was, m, video, videoId, seg), db, ClipOf(w, db, n, video, videoId, seg))
  {
    var a, b := ClipNode(w, was, m, video, videoId, seg), ClipNode(w, db, n, video, videoId, seg);
    var a2 := Abouts(w, a.db, a.n, a.r.value, seg.subjects);
    AllAppend(w, db, a.calls, a2.calls);
    ClipNodeRepeats(w, was, m, video, videoId, seg, db, n);
    PartRepeated(w, a, a2.calls, db, b);
    if b.r == a.r {
      AboutsRepeats(w, a.db, a.n, a.r.value, seg.subjects, b.db, b.n);
      ThenRepeats(w, a, a2, db, b, Abouts(w, b.db, b.n, b.r.value, seg.subjects));
    }
  }

  lemma ClipsJoin(
    w: World, a: Flow<(EntityId, seq<EntityId>)>, db: Db, b: Flow<(EntityId, seq<EntityId>)>,
    front: (seq<EntityId>, seq<EntityId>))
    requires a.r.Ok? && Repeats(w, a, db, b)
    ensures Repeats(w, Joined(a, front), db, Joined(b, front))
  {
  }

  lemma {:induction false} ClipsRepeat(
    w: World, was: Db, m: nat, video: EntityId, videoId: string, segs: seq<Segment>, db: Db, n: nat)
    requires Clips(w, was, m, video, videoId, segs).r.Ok? && Base(w, db)
    requires AllStanding(w, db, Clips(w, was, m, video, videoId, segs).calls)
    ensures Repeats(w, Clips(w, was, m, video, videoId, segs), db, Clips(w, db, n, video, videoId, segs))
    decreases |segs|
  {
    SameSelf(db);
    if segs != [] {
      var front, last := segs[..|segs| - 1], segs[|segs| - 1];
      var a, b := Clips(w, was, m, video, videoId, front), Clips(w, db, n, video, videoId, front);
      var a2 := ClipOf(w, a.db, a.n, video, videoId, last);
      AllAppend(w, db, a.calls, a2.calls);
      ClipsRepeat(w, was, m, video, videoId, front, db, n);
      PartRepeated(w, a, a2.calls, db, b);
      if b.r == a.r {
        var b2 := ClipOf(w, b.db, b.n, video, videoId, last);
        ClipRepeats(w, a.db, a.n, video, videoId, last, b.db, b.n);
        ThenRepeats(w, a, a2, db, b, b2);
        ClipsJoin(w, Then(a, a2), db, Then(b, b2), a.r.value);
      }
    }
  }

  lemma ChannelRepeats(w: World, was: Db, m: nat, md: Metadata, video: EntityId, db: Db, n: nat)
    requires Channel(w, was, m, md, video).r.Ok? && Base(w, db)
    requires AllStanding(w, db, Channel(w, was, m, md, video).calls)
    ensures Repeats(w, Channel(w, was, m, md, video), db, Channel(w, db, n, md, video))
  {
    SameSelf(db);
    if md.channelId != "" || md.channelName != "" {
      var props, id := PutIf(map["name" := JStr(md.channelName)], "url", md.channelUrl),
        ExternalId("youtube-channel", md.channelId);
      var a := Upsert(w, was, m, "Organization", props, id, "ingest:yt-dlp");
      var b := Upsert(w, db, n, "Organization", props, id, "ingest:yt-dlp");
      var a2 := Link(w, a.db, a.n, "author", video, a.r.value);
      AllAppend(w, db, a.calls, a2.calls);
      UpsertRepeats(w, was, m, "Organization", props, id, "ingest:yt-dlp", db, n);
      PartRepeated(w, a, a2.calls, db, b);
      if b.r == a.r {
        LinkRepeats(w, a.db, a.n, "author", video, a.r.value, b.db, b.n);
        ThenRepeats(w, a, a2, db, b, Link(w, b.db, b.n, "author", video, b.r.value));
      }
    }
  }

  lemma VideoRepeats(w: World, was: Db, m: nat, md: Metadata, db: Db, n: nat)
    requires Video(w, was, m, md).r.Ok? && AllStanding(w, db, Video(w, was, m, md).calls)
    ensures Repeats(w, Video(w, was, m, md), db, Video(w, db, n, md))
  {
    UpsertRepeats(w, was, m, "VideoObject", VideoProps(md), ExternalId("youtube", md.videoId), "ingest:yt-dlp", db, n);
  }

  lemma AfterVideoRepeats(w: World, a: Flow<EntityId>, md: Metadata, db: Db, b: Flow<EntityId>)
    requires a.r.Ok? && Channel(w, a.db, a.n, md, a.r.value).r.Ok? && Repeats(w, a, db, b) && b.r == a.r
    requires Base(w, b.db) && AllStanding(w, b.db, Channel(w, a.db, a.n, md, a.r.value).calls)
    ensures Repeats(w, Then(a, Channel(w, a.db, a.n, md, a.r.value)), db, Then(b, Channel(w, b.db, b.n, md, b.r.value)))
  {
    ChannelRepeats(w, a.db, a.n, md, a.r.value, b.db, b.n);
    ThenRepeats(w, a, Channel(w, a.db, a.n, md, a.r.value), db, b, Channel(w, b.db, b.n, md, b.r.value));
  }

  lemma WithChannelRepeats(w: World, a: Flow<EntityId>, md: Metadata, db: Db, b: Flow<EntityId>)
    requires a.r.Ok? && WithChannel(w, a, md).r.Ok? && Repeats(w, a, db, b) && Base(w, db)
    requires AllStanding(w, db, WithChannel(w, a, md).calls)
    ensures Repeats(w, WithChannel(w, a, md), db, WithChannel(w, b, md))
  {
    var rest := Channel(w, a.db, a.n, md, a.r.value).calls;
    AllAppend(w, db, a.calls, rest);
    PartRepeated(w, a, rest, db, b);
    if b.r == a.r {
      AfterVideoRepeats(w, a, md, db, b);
    }
  }

  lemma VideoStands(w: World, a: Flow<EntityId>, md: Metadata, db: Db)
    requires a.r.Ok? && WithChannel(w, a, md).r.Ok? && AllStanding(w, db, WithChannel(w, a, md).calls)
    ensures AllStanding(w, db, a.calls)
  {
    AllAppend(w, db, a.calls, Channel(w, a.db, a.n, md, a.r.value).calls);
  }

  lemma NodesRepeat(w: World, was: Db, m: nat, md: Metadata, db: Db, n: nat)
    requires Nodes(w, was, m, md).r.Ok? && Base(w, db)
    requires AllStanding(w, db, Nodes(w, was, m, md).calls)
    ensures Repeats(w, Nodes(w, was, m, md), db, Nodes(w, db, n, md))
  {
    VideoStands(w, Video(w, was, m, md), md, db);
    VideoRepeats(w, was, m, md, db, n);
    WithChannelRepeats(w, Video(w, was, m, md), md, db, Video(w, db, n, md));
  }

  lemma FrontRepeats(w: World, was: Db, m: nat, md: Metadata, db: Db, n: nat)
    requires Front(w, was, m, md).r.Ok? && Base(w, db)
    requires AllStanding(w, db, Front(w, was, m, md).calls)
    ensures Repeats(w, Front(w, was, m, md), db, Front(w, db, n, md))
  {
    var a, b := Nodes(w, was, m, md), Nodes(w, db, n, md);
    var a2 := Abouts(w, a.db, a.n, a.r.value.0, w.req.subjects);
    AllAppend(w, db, a.calls, a2.calls);
    NodesRepeat(w, was, m, md, db, n);
    PartRepeated(w, a, a2.calls, db, b);
    if b.r == a.r {
      AboutsRepeats(w, a.db, a.n, a.r.value.0, w.req.subjects, b.db, b.n);
      ThenRepeats(w, a, a2, db, b, Abouts(w, b.db, b.n, b.r.value.0, w.req.subjects));
    }
  }

  lemma BodyRepeats(w: World, was: Db, m: nat, md: Metadata, db: Db, n: nat)
    requires Body(w, was, m, md).r.Ok? && Base(w, db)
    requires AllStanding(w, db, Body(w, was, m, md).calls)
    ensures Repeats(w, Body(w, was, m, md), db, Body(w, db, n, md))
  {
    var a, b := Front(w, was, m, md), Front(w, db, n, md);
    var a2 := Clips(w, a.db, a.n, a.r.value.0, md.videoId, md.segments);
    AllAppend(w, db, a.calls, a2.calls);
    FrontRepeats(w, was, m, md, db, n);
    PartRepeated(w, a, a2.calls, db, b);
    if b.r == a.r {
      ClipsRepeat(w, a.db, a.n, a.r.value.0, md.videoId, md.segments, b.db, b.n);
      ThenRepeats(w, a, a2, db, b, Clips(w, b.db, b.n, b.r.value.0, md.videoId, md.segments));
    }
  }
}
