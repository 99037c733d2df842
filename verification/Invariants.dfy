/** What every write keeps: the table constraints, one full-text row per live entity, unique
    dedupe keys, recorded ids, and agreement with the tables a rebuild would fold. */
module Invariants {
  import opened Json
  import opened Domain
  import opened Order
  import opened Resolve
  import opened Tables
  import opened Store

  // ---- the parts of the invariant ----

  /** Each live entity has exactly one full-text row, built from its stored props. */
  ghost predicate FtsCurrent(t: Tables) {
    forall id | id in t.entities :: RowsFor(t.fts, id) == [RowText(t.entities[id])]
  }

  predicate AssertedBefore(log: seq<Fact>, id: string) {
    exists f | f in log :: f.subject == id && f.payload.EntityAsserted?
  }

  predicate EdgeAssertedBefore(log: seq<Fact>, id: string) {
    exists f | f in log :: f.subject == id && f.payload.EdgeAsserted?
  }

  ghost predicate Recorded(db: Db) {
    && (forall id | id in db.t.entities :: AssertedBefore(db.log, id))
    && (forall e | e in db.t.edges :: EdgeAssertedBefore(db.log, e))
  }

  function EdgeOnWire(row: EdgeRow): EdgeRow {
    row.(props := Some(if row.props.Some? then row.props.value else JNull))
  }

  /** The same edges, reading SQL NULL props and the JSON text `null` as one. */
  ghost predicate SameEdges(a: map<EdgeId, EdgeRow>, b: map<EdgeId, EdgeRow>) {
    a.Keys == b.Keys && forall e | e in a :: EdgeOnWire(a[e]) == EdgeOnWire(b[e])
  }

  ghost predicate SameButProps(a: map<EntityId, EntityRow>, b: map<EntityId, EntityRow>) {
    a.Keys == b.Keys && forall id | id in a :: a[id].(props := JNull) == b[id].(props := JNull)
  }

  /** The same projection up to entity props (full text left aside). */
  ghost predicate Agrees(a: Tables, b: Tables) {
    SameButProps(a.entities, b.entities) && a.ext == b.ext && a.emb == b.emb && SameEdges(a.edges, b.edges)
  }

  /** The same projection (full text left aside). */
  ghost predicate Matches(a: Tables, b: Tables) {
    Agrees(a, b) && a.entities == b.entities
  }

  /** A rebuild would succeed, and would give back this projection up to entity props. */
  ghost predicate Tracks(db: Db) {
    Fold(db.log).Ok? && Agrees(db.t, Fold(db.log).value) && FtsCurrent(Fold(db.log).value)
  }

  ghost predicate Inv(db: Db) {
    UniqueKeys(db.log) && Constraints(db.t) && FtsCurrent(db.t) && Recorded(db) && Tracks(db)
  }

  /** What the resolve step guarantees about a fact before it is written. */
  predicate Admissible(db: Db, em: Emission) {
    match em.payload
    case EntityAsserted(e) => em.subject == e.id && (e.id in db.t.entities || FreshId(db.log, e.id))
    case EdgeAsserted(ed) => em.subject == ed.id && ed.id !in db.t.edges && !EdgeAssertedBefore(db.log, ed.id)
    case EntityMerged(keep, drop) => em.subject == drop && keep in db.t.entities && drop in db.t.entities
    case _ => true
  }

  // ---- external ids ----

  lemma {:induction false} InsertKeysGrows(ext: set<ExtRow>, id: EntityId, space: SpaceId, xs: seq<ExternalId>)
    requires ExtKeys(ext)
    ensures var ext' := InsertKeys(ext, id, space, xs);
            && ExtKeys(ext') && ext <= ext'
            && (forall r | r in ext' && r !in ext :: r.entity == id && r.space == space && r.key in Keys(xs))
            && (forall r | r in ext' && r !in ext :: !Taken(ext, space, r.key) && !Carries(ext, id, r.key))
            && (forall i | 0 <= i < |xs| :: Carries(ext', id, xs[i].Key()) || Taken(ext', space, xs[i].Key()))
  {
    if xs != [] {
      var n := |xs| - 1;
      var front := InsertKeys(ext, id, space, xs[..n]);
      InsertKeysGrows(ext, id, space, xs[..n]);
      var ext' := InsertKeys(ext, id, space, xs);
      assert forall i | 0 <= i < n :: Keys(xs)[i] == Keys(xs[..n])[i];
      assert Keys(xs)[n] == xs[n].Key();
      var new_ := ExtRow(id, xs[n], xs[n].Key(), space);
      if ext' != front {
        assert ext' == front + {new_} && new_ in ext';
      }
      forall i | 0 <= i < |xs| ensures Carries(ext', id, xs[i].Key()) || Taken(ext', space, xs[i].Key()) {
        if i < n {
          assert xs[..n][i] == xs[i];
        }
      }
    }
  }

  lemma MergedExtKeys(ext: set<ExtRow>, keep: EntityId, drop: EntityId)
    requires ExtKeys(ext) && keep != drop
    ensures ExtKeys(MergedExt(ext, keep, drop))
    ensures forall r | r in MergedExt(ext, keep, drop) :: r.entity != drop
  {
    var merged := MergedExt(ext, keep, drop);
    forall r, q | r in merged && q in merged && r.key == q.key && (r.entity == q.entity || r.space == q.space)
      ensures r == q
    {
      var r0 :| r0 in ext && !(r0.entity == drop && Carries(ext, keep, r0.key))
        && r == r0.(entity := Repoint(r0.entity, keep, drop));
      var q0 :| q0 in ext && !(q0.entity == drop && Carries(ext, keep, q0.key))
        && q == q0.(entity := Repoint(q0.entity, keep, drop));
      assert r0 == q0;
    }
  }

  // ---- embeddings ----

  lemma {:induction false} PutVectorsKeys(emb: map<EmbKey, Vector>, id: EntityId, es: seq<Embedding>)
    ensures emb.Keys <= PutVectors(emb, id, es).Keys
    ensures forall k | k in PutVectors(emb, id, es) ::
            (k in emb && (k.entity != id ==> PutVectors(emb, id, es)[k] == emb[k])) || k.entity == id
  {
    if es != [] {
      PutVectorsKeys(emb, id, es[..|es| - 1]);
    }
  }

  // ---- one application keeps the constraints and the full-text rows ----

  lemma UpsertKeeps(t: Tables, e: Entity, ts: Time)
    requires Constraints(t) && UpsertEntity(t, e, ts).Ok?
    ensures Constraints(UpsertEntity(t, e, ts).value)
  {
    InsertKeysGrows(t.ext, e.id, e.space, e.externalIds);
    PutVectorsKeys(t.emb, e.id, e.embeddings);
  }

  lemma UpsertKeepsFts(t: Tables, e: Entity, ts: Time)
    requires FtsCurrent(t) && UpsertEntity(t, e, ts).Ok?
    ensures FtsCurrent(UpsertEntity(t, e, ts).value)
  {
    var t' := UpsertEntity(t, e, ts).value;
    var row := FtsRow(e.id, RowText(t'.entities[e.id]));
    forall id | id in t'.entities ensures RowsFor(t'.fts, id) == [RowText(t'.entities[id])] {
      RowsAfterDrop(t.fts, e.id, id);
      RowsAfterAppend(DropRows(t.fts, e.id), row, id);
    }
  }

  lemma MergeKeeps(t: Tables, keep: EntityId, drop: EntityId, ts: Time)
    requires Constraints(t) && keep in t.entities && drop in t.entities
    ensures MergeEntities(t, keep, drop, ts).Ok? && Constraints(MergeEntities(t, keep, drop, ts).value)
  {
    if keep != drop {
      MergedExtKeys(t.ext, keep, drop);
    }
  }

  lemma ApplyKeepsFts(t: Tables, subject: string, p: Payload, ts: Time)
    requires FtsCurrent(t) && ApplyLive(t, subject, p, ts).Ok?
    ensures FtsCurrent(ApplyLive(t, subject, p, ts).value)
    ensures p.EntityRetracted? ==> FtsCurrent(DeleteEntity(t, subject))
  {
    match p
    case EntityAsserted(e) => UpsertKeepsFts(t, e, ts);
    case EntityRetracted =>
      forall id | id in t.entities && id != subject
        ensures RowsFor(DropRows(t.fts, subject), id) == RowsFor(t.fts, id)
      {
        RowsAfterDrop(t.fts, subject, id);
      }
    case EntityMerged(keep, drop) =>
      forall id | id in t.entities && id != drop ensures RowsFor(DropRows(t.fts, drop), id) == RowsFor(t.fts, id) {
        RowsAfterDrop(t.fts, drop, id);
      }
    case _ =>
  }

  lemma ApplyKeepsConstraints(db: Db, em: Emission, ts: Time)
    requires Constraints(db.t) && Admissible(db, em) && ApplyLive(db.t, em.subject, em.payload, ts).Ok?
    ensures Constraints(ApplyLive(db.t, em.subject, em.payload, ts).value)
  {
    match em.payload
    case EntityAsserted(e) => UpsertKeeps(db.t, e, ts);
    case EntityMerged(keep, drop) => MergeKeeps(db.t, keep, drop, ts);
    case _ =>
  }

  // ---- the fold follows the live tables ----

  lemma UpsertAgrees(a: Tables, b: Tables, e: Entity, ts: Time)
    requires Agrees(a, b) && UpsertEntity(a, e, ts).Ok?
    ensures UpsertEntity(b, e.(props := WireProps(e.props)), ts).Ok?
    ensures Agrees(UpsertEntity(a, e, ts).value, UpsertEntity(b, e.(props := WireProps(e.props)), ts).value)
  {
  }

  lemma MergedRowsAgree(
    a: map<EntityId, EntityRow>, b: map<EntityId, EntityRow>, keep: EntityId, drop: EntityId, ts: Time)
    requires SameButProps(a, b) && keep in a
    ensures SameButProps(a[keep := a[keep].(updatedAt := ts)] - {drop}, b[keep := b[keep].(updatedAt := ts)] - {drop})
  {
    forall id | id in a ensures a[id].(updatedAt := ts, props := JNull) == b[id].(updatedAt := ts, props := JNull) {
      assert a[id].(props := JNull) == b[id].(props := JNull);
    }
  }

  lemma MergedEdgesAgree(a: map<EdgeId, EdgeRow>, b: map<EdgeId, EdgeRow>, keep: EntityId, drop: EntityId)
    requires SameEdges(a, b)
    ensures SameEdges(MergedEdges(a, keep, drop), MergedEdges(b, keep, drop))
  {
    forall e | e in a ensures EdgeOnWire(MergedEdges(a, keep, drop)[e]) == EdgeOnWire(MergedEdges(b, keep, drop)[e]) {
      assert EdgeOnWire(a[e]) == EdgeOnWire(b[e]);
    }
  }

  lemma MergeAgrees(a: Tables, b: Tables, keep: EntityId, drop: EntityId, ts: Time)
    requires Agrees(a, b) && keep in a.entities
    ensures MergeEntities(a, keep, drop, ts).Ok? && MergeEntities(b, keep, drop, ts).Ok?
    ensures Agrees(MergeEntities(a, keep, drop, ts).value, MergeEntities(b, keep, drop, ts).value)
  {
    MergedRowsAgree(a.entities, b.entities, keep, drop, ts);
    MergedEdgesAgree(a.edges, b.edges, keep, drop);
  }

  lemma DeleteAgrees(a: Tables, b: Tables, id: EntityId)
    requires Agrees(a, b)
    ensures Agrees(DeleteEntity(a, id), DeleteEntity(b, id))
  {
  }

  lemma EdgeAgrees(a: Tables, b: Tables, ed: Edge, ts: Time)
    requires Agrees(a, b) && UpsertEdge(a, ed, ts).Ok?
    ensures UpsertEdge(b, ed.(props := WireProps(ed.props)), ts).Ok?
    ensures Agrees(UpsertEdge(a, ed, ts).value, UpsertEdge(b, ed.(props := WireProps(ed.props)), ts).value)
  {
  }

  lemma ApplyAgrees(db: Db, b: Tables, em: Emission, ts: Time)
    requires Agrees(db.t, b) && Admissible(db, em) && ApplyLive(db.t, em.subject, em.payload, ts).Ok?
    ensures FoldFact(b, FactOf(em, ts)).Ok?
    ensures Agrees(ApplyLive(db.t, em.subject, em.payload, ts).value, FoldFact(b, FactOf(em, ts)).value)
  {
    match em.payload
    case EntityAsserted(e) => UpsertAgrees(db.t, b, e, ts);
    case EntityRetracted => DeleteAgrees(db.t, b, em.subject);
    case EdgeAsserted(ed) => EdgeAgrees(db.t, b, ed, ts);
    case EntityMerged(keep, drop) => MergeAgrees(db.t, b, keep, drop, ts);
    case EdgeRetracted =>
  }

  /** The emission whose logged payload says as much as the write did: it carried props, or
      it attached to an entity whose stored props hold no null. */
  predicate Faithful(t: Tables, p: Payload) {
    p.EntityAsserted? && p.entity.props.Absent? ==>
      p.entity.id in t.entities && NullFree(t.entities[p.entity.id].props)
  }

  lemma UpsertMatchesIff(a: Tables, b: Tables, e: Entity, ts: Time)
    requires a.entities == b.entities && UpsertEntity(a, e, ts).Ok?
    requires UpsertEntity(b, e.(props := WireProps(e.props)), ts).Ok?
    ensures UpsertEntity(a, e, ts).value.entities == UpsertEntity(b, e.(props := WireProps(e.props)), ts).value.entities
            <==> Faithful(a, EntityAsserted(e))
  {
    var a', b' := UpsertEntity(a, e, ts).value, UpsertEntity(b, e.(props := WireProps(e.props)), ts).value;
    assert forall id | id in a'.entities && id != e.id :: a'.entities[id] == b'.entities[id];
    if e.id in a.entities && e.props.Absent? {
      NullTargetIff(a.entities[e.id].props);
    }
    assert a'.entities == b'.entities <==> a'.entities[e.id] == b'.entities[e.id];
  }

  lemma OthersMatch(a: Tables, b: Tables, em: Emission, ts: Time)
    requires a.entities == b.entities && !em.payload.EntityAsserted? && ApplyLive(a, em.subject, em.payload, ts).Ok?
    requires FoldFact(b, FactOf(em, ts)).Ok?
    ensures ApplyLive(a, em.subject, em.payload, ts).value.entities == FoldFact(b, FactOf(em, ts)).value.entities
  {
  }

  /** From matching tables, one fact folds to matching tables exactly when it is faithful. */
  lemma ApplyMatchesIff(db: Db, b: Tables, em: Emission, ts: Time)
    requires Matches(db.t, b) && Admissible(db, em) && ApplyLive(db.t, em.subject, em.payload, ts).Ok?
    ensures FoldFact(b, FactOf(em, ts)).Ok?
    ensures Matches(ApplyLive(db.t, em.subject, em.payload, ts).value, FoldFact(b, FactOf(em, ts)).value)
            <==> Faithful(db.t, em.payload)
  {
    ApplyAgrees(db, b, em, ts);
    if em.payload.EntityAsserted? {
      UpsertMatchesIff(db.t, b, em.payload.entity, ts);
    } else {
      OthersMatch(db.t, b, em, ts);
    }
  }

  lemma ApplyRecords(db: Db, em: Emission, ts: Time)
    requires Recorded(db) && Admissible(db, em) && ApplyLive(db.t, em.subject, em.payload, ts).Ok?
    ensures Recorded(Db(db.log + [FactOf(em, ts)], ApplyLive(db.t, em.subject, em.payload, ts).value))
  {
    var log' := db.log + [FactOf(em, ts)];
    var t' := ApplyLive(db.t, em.subject, em.payload, ts).value;
    assert FactOf(em, ts) in log' && forall f | f in db.log :: f in log';
    forall id | id in t'.entities ensures AssertedBefore(log', id) {
      if id in db.t.entities {
        assert AssertedBefore(db.log, id);
      }
    }
    forall e | e in t'.edges ensures EdgeAssertedBefore(log', e) {
      if e in db.t.edges {
        assert EdgeAssertedBefore(db.log, e);
      }
    }
  }

  lemma EmitKeepsInv(db: Db, em: Emission, ts: Time)
    requires Inv(db) && Admissible(db, em) && Emit(db, em, ts).Ok?
    ensures Inv(Emit(db, em, ts).value)
  {
    var db' := Emit(db, em, ts).value;
    var b := Fold(db.log).value;
    ApplyKeepsConstraints(db, em, ts);
    ApplyKeepsFts(db.t, em.subject, em.payload, ts);
    ApplyRecords(db, em, ts);
    ApplyAgrees(db, b, em, ts);
    assert db'.log[..|db'.log| - 1] == db.log;
    assert FtsCurrent(FoldFact(b, FactOf(em, ts)).value) by {
      if em.payload.EntityRetracted? {
        ApplyKeepsFts(b, em.subject, em.payload, ts);
      } else {
        ApplyKeepsFts(b, em.subject, Wire(em.payload), ts);
      }
    }
    assert UniqueKeys(db'.log) by {
      assert forall i | 0 <= i < |db.log| :: db'.log[i] == db.log[i] && db.log[i] in db.log;
    }
  }

  // ---- scripts ----

  ghost predicate AdmissibleAll(db: Db, ems: seq<Emission>, ts: Time) {
    ems == [] ||
    (AdmissibleAll(db, ems[..|ems| - 1], ts) &&
     (EmitAll(db, ems[..|ems| - 1], ts).Ok? ==> Admissible(EmitAll(db, ems[..|ems| - 1], ts).value, ems[|ems| - 1])))
  }

  lemma {:induction false} EmitAllKeepsInv(db: Db, ems: seq<Emission>, ts: Time)
    requires Inv(db) && AdmissibleAll(db, ems, ts) && EmitAll(db, ems, ts).Ok?
    ensures Inv(EmitAll(db, ems, ts).value)
  {
    if ems != [] {
      EmitAllKeepsInv(db, ems[..|ems| - 1], ts);
      EmitKeepsInv(EmitAll(db, ems[..|ems| - 1], ts).value, ems[|ems| - 1], ts);
    }
  }

  lemma ExternalHitsExact(t: Tables, space: SpaceId, keys: seq<string>)
    ensures var hits := ExternalHits(t, space, keys);
            && Distinct(hits) && SortedBy(AgeLe(t.entities), hits)
            && forall id :: id in hits <==> id in HitSet(t, space, keys)
  {
    AgeOrder(t.entities);
    SortSetSorts(AgeLe(t.entities), HitSet(t, space, keys));
  }

  /** What a decision may name: live entities, and for a merge at least two different ones. */
  ghost predicate Sound(t: Tables, d: Decision) {
    match d
    case Attach(target, _) => target in t.entities
    case Merge(targets) => |targets| >= 2 && Distinct(targets) && forall id | id in targets :: id in t.entities
    case InsertFlagged(to, _) => to in t.entities
    case InsertNew => true
  }

  lemma NeighborsLive(cfg: Config, t: Tables, model: string, typ: string, query: Vector, limit: int)
    ensures forall m | m in Knn(cfg, t, model, typ, query, limit) :: m.id in t.entities
  {
    var best := BestScores(cfg.sim, t.emb, ModelRows(t, model, typ), query);
    RankedIsExact(best);
    forall m | m in Top(Ranked(best), limit) ensures m.id in t.entities {
      assert m in Ranked(best);
    }
  }

  lemma DecisionSound(cfg: Config, t: Tables, c: Entity, policy: Policy)
    requires EntityDecision(cfg, t, c, policy).Ok?
    ensures Sound(t, EntityDecision(cfg, t, c, policy).value)
  {
    var hits, neighbors := ExternalHits(t, c.space, Keys(c.externalIds)), DecisionNeighbors(cfg, t, c, policy);
    ExternalHitsExact(t, c.space, Keys(c.externalIds));
    DecisionOnHits(hits, neighbors, policy, cfg.th, EntityDecision(cfg, t, c, policy).value);
    if neighbors != [] {
      NeighborsLive(cfg, t, c.embeddings[0].model, c.typ, c.embeddings[0].vector, 5);
      MaxScoreIsFirstMax(neighbors);
    }
  }

  lemma EmitAllSnoc(db: Db, front: seq<Emission>, em: Emission, ts: Time)
    ensures EmitAll(db, front + [em], ts) ==
            if EmitAll(db, front, ts).Ok? then Emit(EmitAll(db, front, ts).value, em, ts) else EmitAll(db, front, ts)
    ensures AdmissibleAll(db, front + [em], ts) <==>
            AdmissibleAll(db, front, ts)
              && (EmitAll(db, front, ts).Ok? ==> Admissible(EmitAll(db, front, ts).value, em))
  {
    assert (front + [em])[..|front|] == front;
  }

  lemma MergeShrinks(db: Db, em: Emission, ts: Time)
    requires em.payload.EntityMerged? && em.payload.keep != em.payload.drop && em.payload.keep in db.t.entities
    requires Emit(db, em, ts).Ok?
    ensures GoneAre(db, Emit(db, em, ts).value, [em.payload.drop])
  {
  }

  /** b has exactly the entities of a, less those listed, with unchanged rows up to updated_at. */
  ghost predicate GoneAre(a: Db, b: Db, gone: seq<EntityId>) {
    && (forall id :: id in b.t.entities <==> id in a.t.entities && id !in gone)
    && forall id | id in b.t.entities ::
         b.t.entities[id].(updatedAt := "") == a.t.entities[id].(updatedAt := "")
  }

  lemma GoneTrans(a: Db, b: Db, c: Db, front: seq<EntityId>, last: EntityId)
    requires GoneAre(a, b, front) && GoneAre(b, c, [last])
    ensures GoneAre(a, c, front + [last])
  {
  }

  lemma MergeEmissionsSnoc(
    keep: EntityId, front: seq<EntityId>, last: EntityId, writer: WriterId, key: string, actor: PrincipalId)
    ensures MergeEmissions(keep, front + [last], writer, key, actor) ==
            MergeEmissions(keep, front, writer, key, actor) +
            [Emission(last, EntityMerged(keep, last), writer, MergeKey(key, last), actor)]
  {
  }

  /** After the merges exactly the drops have gone. */
  lemma {:induction false} MergesShrink(
    db: Db, keep: EntityId, drops: seq<EntityId>, writer: WriterId, key: string, actor: PrincipalId, ts: Time)
    requires keep in db.t.entities && keep !in drops
    requires EmitAll(db, MergeEmissions(keep, drops, writer, key, actor), ts).Ok?
    ensures GoneAre(db, EmitAll(db, MergeEmissions(keep, drops, writer, key, actor), ts).value, drops)
  {
    if drops != [] {
      var n := |drops| - 1;
      var front, last := drops[..n], drops[n];
      assert drops == front + [last];
      var before := MergeEmissions(keep, front, writer, key, actor);
      var em := Emission(last, EntityMerged(keep, last), writer, MergeKey(key, last), actor);
      MergeEmissionsSnoc(keep, front, last, writer, key, actor);
      EmitAllSnoc(db, before, em, ts);
      MergesShrink(db, keep, front, writer, key, actor, ts);
      var mid := EmitAll(db, before, ts).value;
      MergeShrinks(mid, em, ts);
      GoneTrans(db, mid, EmitAll(db, before + [em], ts).value, front, last);
    }
  }

  lemma NextMergeAdmissible(
    db: Db, keep: EntityId, front: seq<EntityId>, last: EntityId, writer: WriterId, key: string, actor: PrincipalId,
    ts: Time)
    requires keep in db.t.entities && keep !in front && last in db.t.entities && last !in front
    requires EmitAll(db, MergeEmissions(keep, front, writer, key, actor), ts).Ok?
    ensures Admissible(EmitAll(db, MergeEmissions(keep, front, writer, key, actor), ts).value,
                       Emission(last, EntityMerged(keep, last), writer, MergeKey(key, last), actor))
  {
    MergesShrink(db, keep, front, writer, key, actor, ts);
  }

  lemma MergesAdmissibleSnoc(
    db: Db, keep: EntityId, front: seq<EntityId>, last: EntityId, writer: WriterId, key: string, actor: PrincipalId,
    ts: Time)
    requires keep in db.t.entities && keep !in front && last in db.t.entities && last !in front
    requires AdmissibleAll(db, MergeEmissions(keep, front, writer, key, actor), ts)
    ensures AdmissibleAll(db, MergeEmissions(keep, front + [last], writer, key, actor), ts)
  {
    var before := MergeEmissions(keep, front, writer, key, actor);
    if EmitAll(db, before, ts).Ok? {
      NextMergeAdmissible(db, keep, front, last, writer, key, actor, ts);
    }
    MergeEmissionsSnoc(keep, front, last, writer, key, actor);
    EmitAllSnoc(db, before, Emission(last, EntityMerged(keep, last), writer, MergeKey(key, last), actor), ts);
  }

  lemma {:induction false} MergesAdmissible(
    db: Db, keep: EntityId, drops: seq<EntityId>, writer: WriterId, key: string, actor: PrincipalId, ts: Time)
    requires keep in db.t.entities && keep !in drops && Distinct(drops)
    requires forall d | d in drops :: d in db.t.entities
    ensures AdmissibleAll(db, MergeEmissions(keep, drops, writer, key, actor), ts)
  {
    if drops != [] {
      var front, last := drops[..|drops| - 1], drops[|drops| - 1];
      assert drops == front + [last] && last !in front && last in drops;
      MergesAdmissible(db, keep, front, writer, key, actor, ts);
      MergesAdmissibleSnoc(db, keep, front, last, writer, key, actor, ts);
    }
  }

  function FactsOf(ems: seq<Emission>, ts: Time): seq<Fact> {
    seq(|ems|, i requires 0 <= i < |ems| => FactOf(ems[i], ts))
  }

  lemma {:induction false} EmitAllExtends(db: Db, ems: seq<Emission>, ts: Time)
    requires EmitAll(db, ems, ts).Ok?
    ensures EmitAll(db, ems, ts).value.log == db.log + FactsOf(ems, ts)
  {
    if ems != [] {
      EmitAllExtends(db, ems[..|ems| - 1], ts);
    }
  }

  lemma OneEmission(db: Db, em: Emission, ts: Time)
    ensures EmitAll(db, [em], ts) == Emit(db, em, ts)
    ensures AdmissibleAll(db, [em], ts) <==> Admissible(db, em)
  {
    var none: seq<Emission> := [];
    assert none + [em] == [em];
    EmitAllSnoc(db, none, em, ts);
    assert EmitAll(db, none, ts) == Ok(db) && AdmissibleAll(db, none, ts);
  }

  lemma EntityScriptAdmissible(db: Db, in_: EntityInput, c: Entity, d: Decision, key: string, tick: Tick)
    requires Recorded(db) && Sound(db.t, d) && FreshId(db.log, tick.entityId) && FreshId(db.log, tick.edgeId)
    ensures AdmissibleAll(db, EntityScript(in_, c, d, key, tick), tick.now)
  {
    var ems := EntityScript(in_, c, d, key, tick);
    var main := AssertEmission(in_, c, DecisionTarget(d, tick), key);
    match d
    case Merge(targets) =>
      var merges := MergeEmissions(targets[0], targets[1..], in_.writer, key, in_.actor);
      assert targets == [targets[0]] + targets[1..];
      MergesAdmissible(db, targets[0], targets[1..], in_.writer, key, in_.actor, tick.now);
      EmitAllSnoc(db, merges, main, tick.now);
      if EmitAll(db, merges, tick.now).Ok? {
        MergesShrink(db, targets[0], targets[1..], in_.writer, key, in_.actor, tick.now);
      }
    case InsertFlagged(to, score) =>
      OneEmission(db, main, tick.now);
      assert tick.edgeId !in db.t.edges;
      if to != "" {
        assert ems == [main] + [ems[1]];
        EmitAllSnoc(db, [main], ems[1], tick.now);
      }
    case _ => OneEmission(db, main, tick.now);
  }

  /** Every write other than a rebuild either leaves the store alone or plays an admissible script. */
  lemma StepPlaysScript(cfg: Config, db: Db, op: Op) returns (ems: seq<Emission>, ts: Time)
    requires Recorded(db) && Minted(db, op) && !op.RebuildOp?
    ensures Step(cfg, db, op) == db ||
            (AdmissibleAll(db, ems, ts) && EmitAll(db, ems, ts) == Ok(Step(cfg, db, op)))
    ensures !op.AppendEntityOp? ==> |ems| == 1 && !ems[0].payload.EntityAsserted?
  {
    ems, ts := [], "";
    match op
    case AppendEntityOp(in_, tick) =>
      var c, key := Stamped(in_, tick), EntityKey(cfg, in_, tick);
      if Step(cfg, db, op) != db {
        DecisionSound(cfg, db.t, c, EffectivePolicy(in_.policy));
        var d := EntityDecision(cfg, db.t, c, EffectivePolicy(in_.policy)).value;
        EntityScriptAdmissible(db, in_, c, d, key, tick);
        ems, ts := EntityScript(in_, c, d, key, tick), tick.now;
      }
    case AppendEdgeOp(in_, tick) =>
      var ed := StampedEdge(in_, tick);
      var em := Emission(ed.id, EdgeAsserted(ed), in_.writer, EdgeKey(in_), in_.actor);
      assert tick.edgeId !in db.t.edges;
      OneEmission(db, em, tick.now);
      ems, ts := [em], tick.now;
    case MergeOp(keep, drop, actor, key, now) =>
      var k := if key == "" then keep + "|merge|" + drop else key;
      var em := Emission(drop, EntityMerged(keep, drop), actor, k, actor);
      OneEmission(db, em, now);
      ems, ts := [em], now;
    case RetractEntityOp(id, actor, key, now) =>
      var em := Emission(id, EntityRetracted, actor, if key == "" then id + "|retract" else key, actor);
      OneEmission(db, em, now);
      ems, ts := [em], now;
    case RetractEdgeOp(id, actor, key, now) =>
      var em := Emission(id, EdgeRetracted, actor, if key == "" then id + "|retract" else key, actor);
      OneEmission(db, em, now);
      ems, ts := [em], now;
  }

  lemma RebuildKeepsInv(db: Db)
    requires Inv(db)
    ensures Rebuild(db).1 == Accepted("") && Inv(Rebuild(db).0)
  {
  }

  lemma StepKeepsInv(cfg: Config, db: Db, op: Op)
    requires Inv(db) && Minted(db, op)
    ensures Inv(Step(cfg, db, op))
  {
    if op.RebuildOp? {
      RebuildKeepsInv(db);
    } else {
      var ems, ts := StepPlaysScript(cfg, db, op);
      if Step(cfg, db, op) != db {
        EmitAllKeepsInv(db, ems, ts);
      }
    }
  }

  /** Over every run: unique dedupe keys, table constraints, edges between live entities, one
      current full-text row per live entity, and a log that folds back to the projection. */
  lemma {:induction false} RunKeepsInv(cfg: Config, ops: seq<Op>)
    requires IsRun(cfg, ops)
    ensures Inv(Run(cfg, ops))
  {
    if ops != [] {
      RunKeepsInv(cfg, ops[..|ops| - 1]);
      StepKeepsInv(cfg, Run(cfg, ops[..|ops| - 1]), ops[|ops| - 1]);
    }
  }
}
