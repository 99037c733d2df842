/** A store that uses one space, written to by ingestion among others: what its history
    guarantees about the facts ingestion left in the log. */
module OneSpace {
  import opened Domain
  import opened Resolve
  import opened Tables
  import opened Store
  import opened DedupeKey
  import opened Invariants
  import opened Merging
  import opened Spaces

  /** The fixed writer id ingestion stamps on its facts. */
  const INGEST: WriterId := "ingest"

  const BAR := '|'

  predicate NulFreeIds(xs: seq<ExternalId>) {
    forall i | 0 <= i < |xs| :: NulFree(xs[i].Key())
  }

  function DerivedKey(cfg: Config, typ: string, xs: seq<ExternalId>, name: string): string {
    cfg.digest(DeriveBytes(cfg.lower, typ, xs, name))
  }

  /** The digest is injective and spells no bar (it is hexadecimal). */
  ghost predicate Hashes(cfg: Config) {
    && (forall x, y | cfg.digest(x) == cfg.digest(y) :: x == y)
    && (forall x :: BAR !in cfg.digest(x))
  }

  // ---- what the writes must be like ----

  predicate PlainEntity(in_: EntityInput, space: SpaceId) {
    && in_.candidate.space == space && NulFreeIds(in_.candidate.externalIds)
    && (in_.writer == INGEST ==>
          in_.dedupeKey == "" && !in_.policy.ForceNew? && in_.candidate.externalIds != [] && NulFree(in_.candidate.typ))
  }

  /** A write into the one space; under the ingest writer it derives its key (entities) or brings
      one with a bar in it (the rest), as every key Ingest and the store itself make up has. */
  predicate Plain(op: Op, space: SpaceId) {
    match op
    case AppendEntityOp(in_, _) => PlainEntity(in_, space)
    case AppendEdgeOp(in_, _) => in_.writer == INGEST ==> BAR in EdgeKey(in_)
    case MergeOp(_, _, actor, key, _) => actor == INGEST ==> key == "" || BAR in key
    case RetractEntityOp(_, actor, key, _) => actor == INGEST ==> key == "" || BAR in key
    case RetractEdgeOp(_, actor, key, _) => actor == INGEST ==> key == "" || BAR in key
    case RebuildOp => true
  }

  // ---- what they leave ----

  predicate TidyRows(space: SpaceId, ext: set<ExtRow>) {
    forall r | r in ext :: r.space == space && r.key == r.xid.Key() && NulFree(r.key)
  }

  predicate InSpace(space: SpaceId, t: Tables) {
    TidyRows(space, t.ext) && forall id | id in t.entities :: t.entities[id].space == space
  }

  predicate GoodFact(cfg: Config, f: Fact) {
    f.writer == INGEST ==>
      if f.payload.EntityAsserted? then
        var e := f.payload.entity;
        && f.subject == e.id && f.dedupeKey == DerivedKey(cfg, e.typ, e.externalIds, ExtractName(e.props))
        && e.externalIds != [] && NulFreeIds(e.externalIds) && NulFree(e.typ)
      else BAR in f.dedupeKey
  }

  predicate ByIngest(f: Fact) {
    f.writer == INGEST && f.payload.EntityAsserted?
  }

  /** Whatever ingestion asserted keys about still carries them, while it lives. */
  ghost predicate KeepsKeys(log: seq<Fact>, t: Tables) {
    forall f | f in log && ByIngest(f) && f.subject in t.entities ::
      CarriesAll(t.ext, f.subject, f.payload.entity.externalIds)
  }

  ghost predicate Settled(cfg: Config, space: SpaceId, db: Db) {
    InSpace(space, db.t) && (forall f | f in db.log :: GoodFact(cfg, f)) && KeepsKeys(db.log, db.t)
  }

  // ---- every plain write keeps that ----

  /** Entities that stay keep their keys, and entities that appear are new to the log. */
  ghost predicate KeysSurvive(log: seq<Fact>, a: Tables, b: Tables) {
    && (forall id | id in b.entities && id in a.entities :: Carried(a.ext, id) <= Carried(b.ext, id))
    && (forall id | id in b.entities && id !in a.entities :: FreshId(log, id))
  }

  lemma CarriesIsCarried(ext: set<ExtRow>, id: EntityId, key: string)
    ensures Carries(ext, id, key) <==> key in Carried(ext, id)
  {
  }

  lemma CarriesAllMono(a: set<ExtRow>, b: set<ExtRow>, id: EntityId, xs: seq<ExternalId>)
    requires Carried(a, id) <= Carried(b, id) && CarriesAll(a, id, xs)
    ensures CarriesAll(b, id, xs)
  {
    forall i | 0 <= i < |xs| ensures Carries(b, id, xs[i].Key()) {
      CarriesIsCarried(a, id, xs[i].Key());
      CarriesIsCarried(b, id, xs[i].Key());
    }
  }

  lemma KeepsKeysSurvives(log: seq<Fact>, added: seq<Fact>, a: Tables, b: Tables)
    requires KeepsKeys(log, a) && KeysSurvive(log, a, b)
    requires forall f | f in added && ByIngest(f) && f.subject in b.entities ::
             CarriesAll(b.ext, f.subject, f.payload.entity.externalIds)
    ensures KeepsKeys(log + added, b)
  {
    forall f | f in log + added && ByIngest(f) && f.subject in b.entities
      ensures CarriesAll(b.ext, f.subject, f.payload.entity.externalIds)
    {
      if f in log {
        CarriesAllMono(a.ext, b.ext, f.subject, f.payload.entity.externalIds);
      }
    }
  }

  lemma {:induction false} InsertKeepsTidy(ext: set<ExtRow>, id: EntityId, space: SpaceId, xs: seq<ExternalId>)
    requires TidyRows(space, ext) && NulFreeIds(xs)
    ensures TidyRows(space, InsertKeys(ext, id, space, xs))
  {
    if xs != [] {
      InsertKeepsTidy(ext, id, space, xs[..|xs| - 1]);
    }
  }

  lemma AbsorbedInSpace(space: SpaceId, t: Tables, base: Tables, keep: EntityId, gone: seq<EntityId>)
    requires InSpace(space, t) && Absorbed(t, base, keep, gone)
    ensures InSpace(space, base)
  {
    forall r | r in base.ext ensures r.space == space && r.key == r.xid.Key() && NulFree(r.key) {
      var h :| HeldBy(t.ext, r, h) && r.entity == RepointAll(h, keep, gone);
      assert r.(entity := h) in t.ext;
    }
    forall id | id in base.entities ensures base.entities[id].space == space {
      assert base.entities[id].(updatedAt := "") == t.entities[id].(updatedAt := "");
    }
  }

  lemma AbsorbedKeysSurvive(log: seq<Fact>, t: Tables, base: Tables, keep: EntityId, gone: seq<EntityId>)
    requires Absorbed(t, base, keep, gone)
    ensures KeysSurvive(log, t, base)
  {
    forall id | id in base.entities && id in t.entities ensures Carried(t.ext, id) <= Carried(base.ext, id) {
      if id != keep && id !in gone {
        forall key | key in Carried(t.ext, id) ensures key in Carried(base.ext, id) {
          var r :| r in t.ext && r.entity == id && r.key == key;
          assert r in RowsOf(t.ext, id);
          assert r in RowsOf(base.ext, id);
        }
      }
    }
  }

  lemma PreparedSurvives(space: SpaceId, log: seq<Fact>, t: Tables, d: Decision, base: Tables)
    requires InSpace(space, t) && Prepared(t, d, base)
    ensures InSpace(space, base) && KeysSurvive(log, t, base) && base.entities.Keys <= t.entities.Keys
  {
    if d.Merge? {
      AbsorbedInSpace(space, t, base, d.targets[0], d.targets[1..]);
      AbsorbedKeysSurvive(log, t, base, d.targets[0], d.targets[1..]);
    }
  }

  lemma AssertedSurvives(
    space: SpaceId, log: seq<Fact>, t: Tables, base: Tables, c: Entity, ts: Time, after: Tables, edgeId: EdgeId)
    requires InSpace(space, base) && KeysSurvive(log, t, base) && base.entities.Keys <= t.entities.Keys
             && Constraints(base)
    requires AssertedOnto(base, c, ts, after, edgeId)
    requires c.space == space && NulFreeIds(c.externalIds) && (c.id !in t.entities ==> FreshId(log, c.id))
    requires c.id in t.entities ==> c.id in base.entities
    ensures InSpace(space, after) && KeysSurvive(log, t, after)
  {
    InsertKeepsTidy(base.ext, c.id, c.space, c.externalIds);
    InsertKeysGrows(base.ext, c.id, c.space, c.externalIds);
    forall id | id in after.entities && id in t.entities ensures Carried(t.ext, id) <= Carried(after.ext, id) {
      assert id in base.entities;
      forall key | key in Carried(t.ext, id) ensures key in Carried(after.ext, id) {
        var r :| r in base.ext && r.entity == id && r.key == key;
        assert r in after.ext;
      }
    }
  }

  lemma WireName(p: RawJson)
    ensures ExtractName(WireProps(p)) == ExtractName(p)
  {
  }

  /** The facts of an entity write: its own assertion, and others whose keys hold a bar. */
  lemma ScriptFacts(cfg: Config, in_: EntityInput, c: Entity, d: Decision, key: string, tick: Tick, f: Fact)
    requires f in FactsOf(EntityScript(in_, c, d, key, tick), tick.now)
    ensures f.writer == in_.writer
    ensures f.payload.EntityAsserted? ==> f == FactOf(AssertEmission(in_, c, DecisionTarget(d, tick), key), tick.now)
    ensures !f.payload.EntityAsserted? ==> BAR in f.dedupeKey
  {
    var ems := EntityScript(in_, c, d, key, tick);
    var i :| 0 <= i < |ems| && f == FactOf(ems[i], tick.now);
    if d.Merge? {
      if i < |ems| - 1 {
        assert MergeKey(key, d.targets[1..][i])[|key|] == BAR;
      }
    } else if i == 1 {
      assert ems[1].dedupeKey[|key|] == BAR;
    }
  }

  /** What they are about: the entity written, an entity merged into it, or the flagging edge. */
  lemma ScriptSubjects(in_: EntityInput, c: Entity, d: Decision, key: string, tick: Tick, f: Fact)
    requires f in FactsOf(EntityScript(in_, c, d, key, tick), tick.now)
    ensures f.subject == DecisionTarget(d, tick) || f.subject == tick.edgeId || (d.Merge? && f.subject in d.targets)
  {
    var ems := EntityScript(in_, c, d, key, tick);
    var i :| 0 <= i < |ems| && f == FactOf(ems[i], tick.now);
    if d.Merge? && i < |ems| - 1 {
      assert f.subject == d.targets[1..][i] && d.targets[1..][i] in d.targets;
    }
  }

  lemma IngestedKey(cfg: Config, in_: EntityInput, tick: Tick)
    requires in_.dedupeKey == "" && in_.candidate.externalIds != []
    ensures EntityKey(cfg, in_, tick)
            == DerivedKey(cfg, in_.candidate.typ, in_.candidate.externalIds, ExtractName(in_.candidate.props))
  {
  }

  lemma MainFactGood(cfg: Config, in_: EntityInput, tick: Tick, space: SpaceId, id: EntityId)
    requires PlainEntity(in_, space)
    ensures GoodFact(cfg, FactOf(AssertEmission(in_, Stamped(in_, tick), id, EntityKey(cfg, in_, tick)), tick.now))
  {
    WireName(in_.candidate.props);
    if in_.writer == INGEST {
      IngestedKey(cfg, in_, tick);
    }
  }

  lemma TargetStays(t: Tables, d: Decision, base: Tables, tick: Tick)
    requires Prepared(t, d, base) && Sound(t, d)
    ensures DecisionTarget(d, tick) in t.entities ==> DecisionTarget(d, tick) in base.entities
  {
    if d.Merge? {
      assert d.targets == [d.targets[0]] + d.targets[1..];
    }
  }

  lemma AppendTables(cfg: Config, space: SpaceId, db: Db, in_: EntityInput, tick: Tick) returns (d: Decision)
    requires Inv(db) && InSpace(space, db.t) && Minted(db, AppendEntityOp(in_, tick)) && PlainEntity(in_, space)
    requires AppendEntity(cfg, db, in_, tick).1.Accepted?
    ensures InSpace(space, AppendEntity(cfg, db, in_, tick).0.t)
    ensures KeysSurvive(db.log, db.t, AppendEntity(cfg, db, in_, tick).0.t)
    ensures EntityDecision(cfg, db.t, Stamped(in_, tick), EffectivePolicy(in_.policy)) == Ok(d)
    ensures AppendEntity(cfg, db, in_, tick).1.subject == DecisionTarget(d, tick)
  {
    var base;
    d, base := AppendShape(cfg, db, in_, tick);
    PreparedSurvives(space, db.log, db.t, d, base);
    TargetStays(db.t, d, base, tick);
    AssertedSurvives(space, db.log, db.t, base, Stamped(in_, tick).(id := DecisionTarget(d, tick)), tick.now,
                     AppendEntity(cfg, db, in_, tick).0.t, tick.edgeId);
  }

  lemma AppendKeeps(cfg: Config, space: SpaceId, db: Db, in_: EntityInput, tick: Tick)
    requires Inv(db) && Settled(cfg, space, db) && Minted(db, AppendEntityOp(in_, tick)) && PlainEntity(in_, space)
    requires AppendEntity(cfg, db, in_, tick).1.Accepted?
    ensures Settled(cfg, space, AppendEntity(cfg, db, in_, tick).0)
  {
    var d := AppendTables(cfg, space, db, in_, tick);
    AppendCarriesAllKeysIff(cfg, db, in_, tick);
    var added := AppendedFacts(cfg, db, in_, tick, d);
    var db' := AppendEntity(cfg, db, in_, tick).0;
    forall f | f in added
      ensures GoodFact(cfg, f)
      ensures ByIngest(f) ==> CarriesAll(db'.t.ext, f.subject, f.payload.entity.externalIds)
    {
      AddedFactGood(cfg, space, db, in_, tick, d, f);
    }
    SettledWith(cfg, space, db, db', added);
  }

  lemma AddedFactGood(cfg: Config, space: SpaceId, db: Db, in_: EntityInput, tick: Tick, d: Decision, f: Fact)
    requires f in FactsOf(EntityScript(in_, Stamped(in_, tick), d, EntityKey(cfg, in_, tick), tick), tick.now)
    requires PlainEntity(in_, space)
    ensures GoodFact(cfg, f)
    ensures ByIngest(f) ==> in_.writer == INGEST && f.subject == DecisionTarget(d, tick)
                            && f.payload.entity.externalIds == in_.candidate.externalIds
  {
    ScriptFacts(cfg, in_, Stamped(in_, tick), d, EntityKey(cfg, in_, tick), tick, f);
    MainFactGood(cfg, in_, tick, space, DecisionTarget(d, tick));
  }

  lemma SettledWith(cfg: Config, space: SpaceId, db: Db, db': Db, added: seq<Fact>)
    requires Settled(cfg, space, db) && db'.log == db.log + added
    requires InSpace(space, db'.t) && KeysSurvive(db.log, db.t, db'.t)
    requires forall f | f in added :: GoodFact(cfg, f)
    requires forall f | f in added && ByIngest(f) :: CarriesAll(db'.t.ext, f.subject, f.payload.entity.externalIds)
    ensures Settled(cfg, space, db')
  {
    KeepsKeysSurvives(db.log, added, db.t, db'.t);
  }

  /** The writes that log one fact, not an entity assertion. */
  lemma OtherWriteKeeps(cfg: Config, space: SpaceId, db: Db, db': Db, f: Fact)
    requires Settled(cfg, space, db) && db'.log == db.log + [f] && !f.payload.EntityAsserted? && GoodFact(cfg, f)
    requires InSpace(space, db'.t) && KeysSurvive(db.log, db.t, db'.t)
    ensures Settled(cfg, space, db')
  {
    SettledWith(cfg, space, db, db', [f]);
  }

  lemma DeleteSurvives(space: SpaceId, log: seq<Fact>, t: Tables, id: EntityId)
    requires InSpace(space, t)
    ensures InSpace(space, DeleteEntity(t, id)) && KeysSurvive(log, t, DeleteEntity(t, id))
  {
    var t' := DeleteEntity(t, id);
    forall x | x in t'.entities ensures Carried(t.ext, x) <= Carried(t'.ext, x) {
      forall key | key in Carried(t.ext, x) ensures key in Carried(t'.ext, x) {
        var r :| r in t.ext && r.entity == x && r.key == key;
        assert r in t'.ext;
      }
    }
  }

  lemma MergeTables(space: SpaceId, log: seq<Fact>, t: Tables, keep: EntityId, drop: EntityId, ts: Time)
    requires Constraints(t) && InSpace(space, t) && keep in t.entities && drop in t.entities
             && MergeEntities(t, keep, drop, ts).Ok?
    ensures InSpace(space, MergeEntities(t, keep, drop, ts).value)
    ensures KeysSurvive(log, t, MergeEntities(t, keep, drop, ts).value)
  {
    if keep != drop {
      var t' := MergeEntities(t, keep, drop, ts).value;
      MergeAbsorbs(t, keep, drop, ts);
      AbsorbedInSpace(space, t, t', keep, [drop]);
      AbsorbedKeysSurvive(log, t, t', keep, [drop]);
    }
  }

  lemma MergeKeepsSettled(
    cfg: Config, space: SpaceId, db: Db, keep: EntityId, drop: EntityId, actor: PrincipalId, key: string, now: Time)
    requires Inv(db) && Settled(cfg, space, db) && (actor == INGEST ==> key == "" || BAR in key)
    requires MergeDirect(db, keep, drop, actor, key, now).1.Accepted?
    ensures Settled(cfg, space, MergeDirect(db, keep, drop, actor, key, now).0)
  {
    var k := if key == "" then keep + "|merge|" + drop else key;
    MergeDirectShape(db, keep, drop, actor, key, now);
    MergeTables(space, db.log, db.t, keep, drop, now);
    assert (keep + "|merge|" + drop)[|keep|] == BAR;
    OtherWriteKeeps(cfg, space, db, MergeDirect(db, keep, drop, actor, key, now).0,
                    FactOf(Emission(drop, EntityMerged(keep, drop), actor, k, actor), now));
  }

  lemma RetractKeepsSettled(
    cfg: Config, space: SpaceId, db: Db, id: EntityId, actor: PrincipalId, key: string, now: Time)
    requires Settled(cfg, space, db) && (actor == INGEST ==> key == "" || BAR in key)
    requires RetractEntity(db, id, actor, key, now).1.Accepted?
    ensures Settled(cfg, space, RetractEntity(db, id, actor, key, now).0)
  {
    DeleteSurvives(space, db.log, db.t, id);
    assert (id + "|retract")[|id|] == BAR;
    OtherWriteKeeps(cfg, space, db, RetractEntity(db, id, actor, key, now).0,
                    FactOf(Emission(id, EntityRetracted, actor, if key == "" then id + "|retract" else key, actor),
                           now));
  }

  lemma EdgeWritesKeep(cfg: Config, space: SpaceId, db: Db, op: Op)
    requires Settled(cfg, space, db) && Plain(op, space) && (op.AppendEdgeOp? || op.RetractEdgeOp?)
    ensures Settled(cfg, space, Step(cfg, db, op))
  {
    var db' := Step(cfg, db, op);
    if db' != db {
      match op
      case AppendEdgeOp(in_, tick) =>
        var ed := StampedEdge(in_, tick);
        OtherWriteKeeps(cfg, space, db, db',
                        FactOf(Emission(ed.id, EdgeAsserted(ed), in_.writer, EdgeKey(in_), in_.actor), tick.now));
      case RetractEdgeOp(id, actor, key, now) =>
        assert (id + "|retract")[|id|] == BAR;
        OtherWriteKeeps(cfg, space, db, db',
                        FactOf(Emission(id, EdgeRetracted, actor, if key == "" then id + "|retract" else key, actor),
                               now));
    }
  }

  lemma RebuildKeepsSettled(cfg: Config, space: SpaceId, db: Db)
    requires Inv(db) && Settled(cfg, space, db)
    ensures Settled(cfg, space, Rebuild(db).0)
  {
    var b := Fold(db.log).value;
    assert Agrees(db.t, b);
    forall id | id in b.entities ensures b.entities[id].space == space {
      assert db.t.entities[id].(props := Json.JNull) == b.entities[id].(props := Json.JNull);
    }
  }

  lemma StepKeepsSettled(cfg: Config, space: SpaceId, db: Db, op: Op)
    requires Inv(db) && Settled(cfg, space, db) && Minted(db, op) && Plain(op, space)
    ensures Settled(cfg, space, Step(cfg, db, op))
  {
    match op
    case AppendEntityOp(in_, tick) =>
      if AppendEntity(cfg, db, in_, tick).1.Accepted? {
        AppendKeeps(cfg, space, db, in_, tick);
      }
    case MergeOp(keep, drop, actor, key, now) =>
      if MergeDirect(db, keep, drop, actor, key, now).1.Accepted? {
        MergeKeepsSettled(cfg, space, db, keep, drop, actor, key, now);
      }
    case RetractEntityOp(id, actor, key, now) =>
      if RetractEntity(db, id, actor, key, now).1.Accepted? {
        RetractKeepsSettled(cfg, space, db, id, actor, key, now);
      }
    case RebuildOp => RebuildKeepsSettled(cfg, space, db);
    case _ => EdgeWritesKeep(cfg, space, db, op);
  }
}
