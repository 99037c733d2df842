/** What an accepted append leaves in the tables, column by column, told from the request and the
    tables before it: whom it is written to, what that row, its keys and its vectors hold, which
    edges there are, and what is logged. */
module Effects {
  import opened Json
  import opened Domain
  import opened Order
  import opened Resolve
  import opened Tables
  import opened Store
  import opened DedupeKey
  import opened Invariants
  import opened Merging
  import opened Spaces
  import opened Search

  // ---- the holders of the candidate's keys, oldest first ----

  /** The row files one of these external ids in this space. */
  predicate Files(r: ExtRow, space: SpaceId, xs: seq<ExternalId>) {
    r.space == space && exists x | x in xs :: r.key == x.scheme + ":" + x.value
  }

  /** A live entity under which one of the candidate's ids is filed in the candidate's space. */
  predicate Holds(t: Tables, c: Entity, id: EntityId) {
    id in t.entities && exists r | r in t.ext :: r.entity == id && Files(r, c.space, c.externalIds)
  }

  /** x was created before y, or at the same time with no greater id. */
  predicate NoYounger(t: Tables, x: EntityId, y: EntityId)
    requires x in t.entities && y in t.entities
  {
    var a, b := t.entities[x].createdAt, t.entities[y].createdAt;
    TextLe(a, b) && (a == b ==> TextLe(x, y))
  }

  lemma FiledIsKey(xs: seq<ExternalId>, key: string)
    ensures key in Keys(xs) <==> exists x | x in xs :: key == x.scheme + ":" + x.value
  {
    if x :| x in xs && key == x.scheme + ":" + x.value {
      var i :| 0 <= i < |xs| && xs[i] == x;
      KeyIn(xs, i);
    }
    if key in Keys(xs) {
      var i :| 0 <= i < |Keys(xs)| && Keys(xs)[i] == key;
      assert xs[i] in xs && xs[i].Key() == key;
    }
  }

  lemma HoldersAreHits(t: Tables, c: Entity)
    ensures forall id :: Holds(t, c, id) <==> id in HitSet(t, c.space, Keys(c.externalIds))
  {
    forall r | r in t.ext ensures Files(r, c.space, c.externalIds)
      <==> r.space == c.space && r.key in Keys(c.externalIds)
    {
      FiledIsKey(c.externalIds, r.key);
    }
  }

  /** The lookup lists the holders by the time they were created, equal times by id. */
  lemma HitsOldestFirst(t: Tables, c: Entity)
    ensures var hits := ExternalHits(t, c.space, Keys(c.externalIds));
      && Distinct(hits) && (forall id :: id in hits <==> Holds(t, c, id))
      && forall i, j | 0 <= i < j < |hits| ::
           hits[i] in t.entities && hits[j] in t.entities && NoYounger(t, hits[i], hits[j])
  {
    var hits := ExternalHits(t, c.space, Keys(c.externalIds));
    HoldersAreHits(t, c);
    ExternalHitsExact(t, c.space, Keys(c.externalIds));
    forall i, j | 0 <= i < j < |hits|
      ensures hits[i] in t.entities && hits[j] in t.entities && NoYounger(t, hits[i], hits[j])
    {
      assert hits[i] in hits && hits[j] in hits && AgeLe(t.entities)(hits[i], hits[j]);
      TextLeTotal(t.entities[hits[i]].createdAt, t.entities[hits[j]].createdAt);
    }
  }

  lemma FirstIsOldest(t: Tables, c: Entity)
    requires ExternalHits(t, c.space, Keys(c.externalIds)) != []
    ensures var first := ExternalHits(t, c.space, Keys(c.externalIds))[0];
      Holds(t, c, first) && forall h | Holds(t, c, h) :: NoYounger(t, first, h)
  {
    var hits := ExternalHits(t, c.space, Keys(c.externalIds));
    HitsOldestFirst(t, c);
    assert hits[0] in hits;
    forall h | Holds(t, c, h) ensures NoYounger(t, hits[0], h) {
      var i :| 0 <= i < |hits| && hits[i] == h;
      if i == 0 {
        TextLeTotal(t.entities[h].createdAt, t.entities[h].createdAt);
        TextLeTotal(h, h);
      }
    }
  }

  /** The decision an external match leads to names the holders and nobody else, the oldest first. */
  lemma MatchDecides(cfg: Config, t: Tables, c: Entity, policy: Policy, d: Decision)
    requires EntityDecision(cfg, t, c, policy) == Ok(d) && !policy.ForceNew? && exists h :: Holds(t, c, h)
    ensures var hits := ExternalHits(t, c.space, Keys(c.externalIds));
      hits != [] && if |hits| == 1 then d == Attach(hits[0], MatchExternal) else d == Merge(hits)
  {
    var hits := ExternalHits(t, c.space, Keys(c.externalIds));
    HitsOldestFirst(t, c);
    DecisionOnHits(hits, DecisionNeighbors(cfg, t, c, policy), policy, cfg.th, d);
  }

  lemma MatchLeaves(
    t: Tables, c: Entity, d: Decision, base: Tables, ts: Time, after: Tables, edgeId: EdgeId, tick: Tick)
    requires var hits := ExternalHits(t, c.space, Keys(c.externalIds));
      hits != [] && if |hits| == 1 then d == Attach(hits[0], MatchExternal) else d == Merge(hits)
    requires Prepared(t, d, base) && AssertedOnto(base, c.(id := DecisionTarget(d, tick)), ts, after, edgeId)
    ensures forall id :: id in after.entities <==>
              id in t.entities && (Holds(t, c, id) ==> id == DecisionTarget(d, tick))
  {
    var hits := ExternalHits(t, c.space, Keys(c.externalIds));
    HitsOldestFirst(t, c);
    assert hits[0] in hits && hits == [hits[0]] + hits[1..];
    forall id ensures id in after.entities <==> id in t.entities && (Holds(t, c, id) ==> id == hits[0]) {
      assert id in base.entities <==> id in t.entities && id !in hits[1..];
      assert id in hits <==> id == hits[0] || id in hits[1..];
    }
  }

  /** An accepted append that finds holders of its keys, and is not forced, is written to the oldest of
      them; the other holders are gone, and everyone else is still there. */
  lemma OldestSurvives(cfg: Config, db: Db, in_: EntityInput, tick: Tick)
    requires Inv(db) && Minted(db, AppendEntityOp(in_, tick)) && AppendEntity(cfg, db, in_, tick).1.Accepted?
    requires !in_.policy.ForceNew? && exists h :: Holds(db.t, in_.candidate, h)
    ensures var (db', out) := AppendEntity(cfg, db, in_, tick); var c := in_.candidate;
      && Holds(db.t, c, out.subject)
      && (forall h | Holds(db.t, c, h) :: NoYounger(db.t, out.subject, h))
      && (forall id :: id in db'.t.entities <==> id in db.t.entities && (Holds(db.t, c, id) ==> id == out.subject))
  {
    var c, s := in_.candidate, Stamped(in_, tick);
    var d, base := AppendShape(cfg, db, in_, tick);
    SameHolders(db.t, c, s);
    MatchDecides(cfg, db.t, s, EffectivePolicy(in_.policy), d);
    FirstIsOldest(db.t, s);
    MatchLeaves(db.t, s, d, base, tick.now, AppendEntity(cfg, db, in_, tick).0.t, tick.edgeId, tick);
  }

  // ---- the row ----

  /** The provenance p as it is stored: no method counts as asserted, an assertion without a
      confidence is certain, a time not given is the clock's. */
  predicate StoredAs(p: Provenance, q: Provenance, ts: Time) {
    && q.asserter == p.asserter && q.source == p.source
    && q.how == (if p.how.UnsetMethod? then Asserted else p.how)
    && q.confidence == (if p.confidence == 0.0 && (p.how.UnsetMethod? || p.how.Asserted?) then 1.0 else p.confidence)
    && q.assertedAt == (if p.assertedAt.Some? then p.assertedAt else Some(ts))
  }

  /** A new entity's row holds what the candidate said. */
  predicate RowIsNew(row: EntityRow, c: Entity, tick: Tick) {
    && row.typ == c.typ && row.space == c.space && row.owner == c.owner && row.visibility == c.visibility
    && (c.props.Doc? ==> row.props == c.props.value) && (c.props.Absent? ==> row.props == JObj(map[]))
    && row.createdAt == tick.now && row.updatedAt == tick.now && StoredAs(c.prov, row.prov, tick.asserted)
  }

  /** A row attached to keeps everything but its bag, which takes in the candidate's, and the time. */
  ghost predicate RowTookIn(was: EntityRow, row: EntityRow, c: Entity, now: Time) {
    && row.typ == was.typ && row.space == was.space && row.owner == was.owner && row.visibility == was.visibility
    && row.prov == was.prov && row.createdAt == was.createdAt && row.updatedAt == now
    && (c.props.Absent? ==> row.props == was.props)
    && (c.props.Doc? ==> Attached(c.props.value, was.props, row.props))
  }

  lemma UpsertedRow(t: Tables, c: Entity, tick: Tick, s: Entity, id: EntityId)
    requires s == c.(prov := NormalizeProvenance(c.prov, tick.asserted), id := id) && UpsertEntity(t, s, tick.now).Ok?
    ensures var t' := UpsertEntity(t, s, tick.now).value;
      && id in t'.entities && !c.props.Malformed?
      && (id in t.entities ==> RowTookIn(t.entities[id], t'.entities[id], c, tick.now))
      && (id !in t.entities ==> RowIsNew(t'.entities[id], c, tick))
      && forall x | x != id ::
         (x in t'.entities <==> x in t.entities) && (x in t.entities ==> t'.entities[x] == t.entities[x])
  {
    if id in t.entities && c.props.Doc? {
      UnionAttaches(c.props.value, t.entities[id].props);
    }
  }

  lemma TargetBase(t: Tables, d: Decision, base: Tables, tick: Tick)
    requires Sound(t, d) && Prepared(t, d, base) && tick.entityId !in t.entities
    ensures var id := DecisionTarget(d, tick);
      && (id in base.entities <==> id in t.entities) && (id !in t.entities ==> id == tick.entityId)
      && (id in t.entities ==> base.entities[id].(updatedAt := "") == t.entities[id].(updatedAt := ""))
      && forall x | x in base.entities && x != id :: x in t.entities && base.entities[x] == t.entities[x]
  {
    if d.Merge? {
      assert d.targets == [d.targets[0]] + d.targets[1..] && d.targets[0] in d.targets;
    }
  }

  /** After an accepted append: its entity's row is new, with an id of its own, or took the candidate's bag
      in; and every other row there is was there, and is the same. */
  lemma RowAfterAppend(cfg: Config, db: Db, in_: EntityInput, tick: Tick)
    requires Inv(db) && Minted(db, AppendEntityOp(in_, tick)) && AppendEntity(cfg, db, in_, tick).1.Accepted?
    ensures var (db', out) := AppendEntity(cfg, db, in_, tick); var c, id := in_.candidate, out.subject;
      && id in db'.t.entities && !c.props.Malformed?
      && (if id in db.t.entities then RowTookIn(db.t.entities[id], db'.t.entities[id], c, tick.now)
          else id == tick.entityId && RowIsNew(db'.t.entities[id], c, tick))
      && forall x | x in db'.t.entities && x != id :: x in db.t.entities && db'.t.entities[x] == db.t.entities[x]
  {
    var d, base := AppendShape(cfg, db, in_, tick);
    TargetBase(db.t, d, base, tick);
    UpsertedRow(base, in_.candidate, tick, Stamped(in_, tick).(id := DecisionTarget(d, tick)), DecisionTarget(d, tick));
  }

  // ---- its external ids ----

  lemma {:induction false} InsertedRows(ext: set<ExtRow>, id: EntityId, space: SpaceId, xs: seq<ExternalId>)
    ensures forall r | r in InsertKeys(ext, id, space, xs) && r !in ext ::
      r.entity == id && r.space == space && r.xid in xs && r.key == r.xid.scheme + ":" + r.xid.value
  {
    if xs != [] {
      InsertedRows(ext, id, space, xs[..|xs| - 1]);
    }
  }

  /** The row was h's, and is now where h's rows are. */
  predicate RowFrom(t: Tables, c: Entity, id: EntityId, r: ExtRow, h: EntityId) {
    r.(entity := h) in t.ext && (h == r.entity || (r.entity == id && Holds(t, c, h)))
  }

  /** A row of one of the candidate's ids. */
  predicate RowBrought(c: Entity, id: EntityId, r: ExtRow) {
    r.entity == id && r.space == c.space && r.xid in c.externalIds && r.key == r.xid.scheme + ":" + r.xid.value
  }

  lemma BaseRows(t: Tables, c: Entity, d: Decision, base: Tables, tick: Tick, r: ExtRow)
    requires Prepared(t, d, base) && r in base.ext
    requires d.Merge? ==> forall h | h in d.targets :: Holds(t, c, h)
    ensures exists h :: RowFrom(t, c, DecisionTarget(d, tick), r, h)
  {
    if d.Merge? {
      var keep, gone := d.targets[0], d.targets[1..];
      var h :| HeldBy(t.ext, r, h) && r.entity == RepointAll(h, keep, gone);
      assert d.targets == [keep] + gone && DecisionTarget(d, tick) == keep;
      assert h in gone ==> h in d.targets;
      assert RowFrom(t, c, keep, r, h);
    } else {
      assert r.(entity := r.entity) == r;
      assert RowFrom(t, c, DecisionTarget(d, tick), r, r.entity);
    }
  }

  lemma MergeTargetsHold(cfg: Config, t: Tables, c: Entity, policy: Policy, d: Decision)
    requires EntityDecision(cfg, t, c, policy) == Ok(d) && d.Merge?
    ensures forall h | h in d.targets :: Holds(t, c, h)
  {
    var hits := ExternalHits(t, c.space, Keys(c.externalIds));
    HitsOldestFirst(t, c);
    DecisionOnHits(hits, DecisionNeighbors(cfg, t, c, policy), policy, cfg.th, d);
  }

  lemma IdsShape(
    t: Tables, c: Entity, d: Decision, base: Tables, ts: Time, after: Tables, edgeId: EdgeId, tick: Tick, s: Entity)
    requires Prepared(t, d, base) && (d.Merge? ==> forall h | h in d.targets :: Holds(t, c, h))
    requires s.id == DecisionTarget(d, tick) && s.space == c.space && s.externalIds == c.externalIds
    requires AssertedOnto(base, s, ts, after, edgeId)
    ensures forall r | r in after.ext :: RowBrought(c, s.id, r) || exists h :: RowFrom(t, c, s.id, r, h)
    ensures forall x | x != s.id && !Holds(t, c, x) :: RowsOf(after.ext, x) == RowsOf(t.ext, x)
  {
    InsertedRows(base.ext, s.id, c.space, c.externalIds);
    InsertKeysGrows(base.ext, s.id, c.space, c.externalIds);
    forall r | r in after.ext ensures RowBrought(c, s.id, r) || exists h :: RowFrom(t, c, s.id, r, h) {
      if r in base.ext {
        BaseRows(t, c, d, base, tick, r);
      }
    }
    forall x | x != s.id && !Holds(t, c, x) ensures RowsOf(after.ext, x) == RowsOf(t.ext, x) {
      assert d.Merge? ==> d.targets == [s.id] + d.targets[1..];
      assert RowsOf(base.ext, x) == RowsOf(t.ext, x);
    }
  }

  lemma SameHolders(t: Tables, c: Entity, s: Entity)
    requires s.space == c.space && s.externalIds == c.externalIds
    ensures forall h :: Holds(t, c, h) <==> Holds(t, s, h)
  {
  }

  /** Every external-id row after an accepted append was there, on the same entity or on a holder that was
      merged into it, or files one of the candidate's ids; and an entity that is neither written to nor a
      holder has the rows it had. */
  lemma IdsAfterAppend(cfg: Config, db: Db, in_: EntityInput, tick: Tick)
    requires Inv(db) && Minted(db, AppendEntityOp(in_, tick)) && AppendEntity(cfg, db, in_, tick).1.Accepted?
    ensures var (db', out) := AppendEntity(cfg, db, in_, tick); var c, id := in_.candidate, out.subject;
      && (forall r | r in db'.t.ext :: RowBrought(c, id, r) || exists h :: RowFrom(db.t, c, id, r, h))
      && (forall x | x != id && !Holds(db.t, c, x) :: RowsOf(db'.t.ext, x) == RowsOf(db.t.ext, x))
  {
    var c, s := in_.candidate, Stamped(in_, tick);
    var d, base := AppendShape(cfg, db, in_, tick);
    if d.Merge? {
      MergeTargetsHold(cfg, db.t, s, EffectivePolicy(in_.policy), d);
    }
    SameHolders(db.t, c, s);
    IdsShape(db.t, c, d, base, tick.now, AppendEntity(cfg, db, in_, tick).0.t, tick.edgeId, tick,
             s.(id := DecisionTarget(d, tick)));
  }

  // ---- its vectors ----

  /** The vector of the last embedding listed for the slot. */
  ghost predicate LastListed(es: seq<Embedding>, model: string, field: string, v: Vector) {
    exists i :: 0 <= i < |es| && es[i] == Embedding(model, field, v)
      && forall j | i < j < |es| :: !(es[j].model == model && es[j].field == field)
  }

  predicate Listed(es: seq<Embedding>, model: string, field: string) {
    exists e | e in es :: e.model == model && e.field == field
  }

  lemma ListedBefore(front: seq<Embedding>, last: Embedding, model: string, field: string, v: Vector)
    requires LastListed(front, model, field, v) && !(last.model == model && last.field == field)
    ensures LastListed(front + [last], model, field, v)
  {
    var es := front + [last];
    var i :| 0 <= i < |front| && front[i] == Embedding(model, field, v)
      && forall j | i < j < |front| :: !(front[j].model == model && front[j].field == field);
    assert es[i] == front[i] && forall j | i < j < |front| :: es[j] == front[j];
  }

  lemma ListedLast(front: seq<Embedding>, last: Embedding)
    ensures LastListed(front + [last], last.model, last.field, last.vector)
  {
    assert (front + [last])[|front|] == last;
  }

  lemma {:induction false} PutVectorsIs(
    emb: map<EmbKey, Vector>, id: EntityId, es: seq<Embedding>, model: string, field: string)
    ensures var now := VectorAt(PutVectors(emb, id, es), id, model, field);
      if Listed(es, model, field) then now.Some? && LastListed(es, model, field, now.value)
      else now == VectorAt(emb, id, model, field)
  {
    if es != [] {
      var n := |es| - 1;
      var front, last := es[..n], es[n];
      assert es == front + [last];
      PutVectorsIs(emb, id, front, model, field);
      if last.model == model && last.field == field {
        ListedLast(front, last);
      } else if Listed(front, model, field) {
        ListedBefore(front, last, model, field, VectorAt(PutVectors(emb, id, front), id, model, field).value);
      }
    }
  }

  /** The entities whose vectors the target may take over, in order. */
  function Holders(c: Entity, policy: Policy, t: Tables, id: EntityId): seq<EntityId> {
    var hits := ExternalHits(t, c.space, Keys(c.externalIds));
    if policy.ForceNew? || hits == [] then [id] else hits
  }

  lemma BaseVectors(t: Tables, d: Decision, base: Tables, tick: Tick, model: string, field: string)
    requires Prepared(t, d, base)
    ensures var id := DecisionTarget(d, tick);
      VectorAt(base.emb, id, model, field) == FirstVector(t.emb, if d.Merge? then d.targets else [id], model, field)
  {
    var id := DecisionTarget(d, tick);
    if d.Merge? {
      assert d.targets == [id] + d.targets[1..];
      AbsorbedVector(t.emb, base.emb, id, d.targets[1..], model, field);
    } else {
      OwnVector(t.emb, id, model, field);
    }
  }

  lemma AbsorbedVector(
    a: map<EmbKey, Vector>, b: map<EmbKey, Vector>, keep: EntityId, gone: seq<EntityId>, model: string, field: string)
    requires VectorsAbsorbed(a, b, keep, gone)
    ensures VectorAt(b, keep, model, field) == FirstVector(a, [keep] + gone, model, field)
  {
  }

  lemma OwnVector(emb: map<EmbKey, Vector>, id: EntityId, model: string, field: string)
    ensures FirstVector(emb, [id], model, field) == VectorAt(emb, id, model, field)
  {
    FirstVectorSnoc(emb, [], id, model, field);
    assert [] + [id] == [id];
  }

  lemma VectorsElsewhere(t: Tables, c: Entity, d: Decision, base: Tables, id: EntityId, es: seq<Embedding>)
    requires Prepared(t, d, base) && (d.Merge? ==> d.targets[0] == id && forall h | h in d.targets :: Holds(t, c, h))
    ensures forall x | x != id && !Holds(t, c, x) :: SameVectors(PutVectors(base.emb, id, es), t.emb, x)
  {
    PutVectorsKeys(base.emb, id, es);
    forall x | x != id && !Holds(t, c, x) ensures SameVectors(base.emb, t.emb, x) {
      assert d.Merge? ==> d.targets == [id] + d.targets[1..];
    }
  }

  lemma DecisionHolders(cfg: Config, t: Tables, c: Entity, policy: Policy, d: Decision, tick: Tick)
    requires EntityDecision(cfg, t, c, policy) == Ok(d)
    ensures Holders(c, policy, t, DecisionTarget(d, tick)) == if d.Merge? then d.targets else [DecisionTarget(d, tick)]
  {
    var hits := ExternalHits(t, c.space, Keys(c.externalIds));
    HitsOldestFirst(t, c);
    DecisionOnHits(hits, DecisionNeighbors(cfg, t, c, policy), policy, cfg.th, d);
  }

  /** After an accepted append each slot the candidate lists holds the last vector listed for it; the
      entity's other slots hold what it, or failing that the next oldest holder merged into it, had
      there; and nobody else's vectors change. */
  lemma VectorsAfterAppend(cfg: Config, db: Db, in_: EntityInput, tick: Tick, model: string, field: string)
    requires Inv(db) && Minted(db, AppendEntityOp(in_, tick)) && AppendEntity(cfg, db, in_, tick).1.Accepted?
    ensures var (db', out) := AppendEntity(cfg, db, in_, tick); var c, id := in_.candidate, out.subject;
      var now := VectorAt(db'.t.emb, id, model, field);
      && (if Listed(c.embeddings, model, field) then now.Some? && LastListed(c.embeddings, model, field, now.value)
          else now == FirstVector(db.t.emb, Holders(c, in_.policy, db.t, id), model, field))
      && forall x | x != id && !Holds(db.t, c, x) :: SameVectors(db'.t.emb, db.t.emb, x)
  {
    var c, s := in_.candidate, Stamped(in_, tick);
    var d, base := AppendShape(cfg, db, in_, tick);
    if d.Merge? {
      MergeTargetsHold(cfg, db.t, s, EffectivePolicy(in_.policy), d);
    }
    SameHolders(db.t, c, s);
    DecisionHolders(cfg, db.t, s, EffectivePolicy(in_.policy), d, tick);
    BaseVectors(db.t, d, base, tick, model, field);
    PutVectorsIs(base.emb, DecisionTarget(d, tick), c.embeddings, model, field);
    VectorsElsewhere(db.t, c, d, base, DecisionTarget(d, tick), c.embeddings);
  }

  // ---- the nearest neighbour, when nobody holds a key ----

  /** A slot the candidate's first embedding is compared with: its model, and a live entity of its type. */
  predicate Near(t: Tables, c: Entity, k: EmbKey) {
    && c.embeddings != [] && k in t.emb && k.model == c.embeddings[0].model && k.entity in t.entities
    && (c.typ == "" || t.entities[k.entity].typ == c.typ)
  }

  function Score(cfg: Config, t: Tables, c: Entity, k: EmbKey): real
    requires Near(t, c, k)
  {
    cfg.sim(c.embeddings[0].vector, t.emb[k])
  }

  /** Some slot of id reaches the score; no slot has a greater one, and none of a smaller id the same. */
  ghost predicate Nearest(cfg: Config, t: Tables, c: Entity, id: EntityId, score: real) {
    && (exists k | Near(t, c, k) :: k.entity == id && Score(cfg, t, c, k) == score)
    && (forall k | Near(t, c, k) ::
          Score(cfg, t, c, k) < score || (Score(cfg, t, c, k) == score && TextLe(id, k.entity)))
  }

  lemma NearestIsTop(cfg: Config, t: Tables, c: Entity)
    requires c.embeddings != []
    ensures var top := MaxScore(Knn(cfg, t, c.embeddings[0].model, c.typ, c.embeddings[0].vector, 5));
      if exists k :: Near(t, c, k) then top.Some? && Nearest(cfg, t, c, top.value.id, top.value.score) else top.None?
  {
    var model, query := c.embeddings[0].model, c.embeddings[0].vector;
    var rows := ModelRows(t, model, c.typ);
    var best := BestScores(cfg.sim, t.emb, rows, query);
    assert forall k :: k in rows <==> Near(t, c, k);
    if k :| Near(t, c, k) {
      BestIsGreatest(cfg.sim, t.emb, rows, query, k.entity);
      NearestIsChosen(best, 5);
      TopIsNearest(cfg, t, c, rows, MaxScore(Knn(cfg, t, model, c.typ, query, 5)).value);
    } else {
      assert rows == {};
      RankedIsExact(best);
      assert |Ranked(best)| == 0;
    }
  }

  lemma TopIsNearest(cfg: Config, t: Tables, c: Entity, rows: set<EmbKey>, top: ScoredMatch)
    requires c.embeddings != [] && rows <= t.emb.Keys && forall k :: k in rows <==> Near(t, c, k)
    requires var best := BestScores(cfg.sim, t.emb, rows, c.embeddings[0].vector);
      && top.id in best && top.score == best[top.id]
      && forall id | id in best :: best[id] < top.score || (best[id] == top.score && TextLe(top.id, id))
    ensures Nearest(cfg, t, c, top.id, top.score)
  {
    var query := c.embeddings[0].vector;
    BestIsGreatest(cfg.sim, t.emb, rows, query, top.id);
    var k :| k in rows && k.entity == top.id && cfg.sim(query, t.emb[k]) == top.score;
    assert Score(cfg, t, c, k) == top.score;
    forall k | Near(t, c, k)
      ensures Score(cfg, t, c, k) < top.score || (Score(cfg, t, c, k) == top.score && TextLe(top.id, k.entity))
    {
      BestIsGreatest(cfg.sim, t.emb, rows, query, k.entity);
      assert Score(cfg, t, c, k) in ScoresOf(cfg.sim, t.emb, rows, query, k.entity);
    }
  }

  lemma OneNearest(cfg: Config, t: Tables, c: Entity, a: EntityId, x: real, b: EntityId, y: real)
    requires Nearest(cfg, t, c, a, x) && Nearest(cfg, t, c, b, y)
    ensures a == b && x == y
  {
    var k :| Near(t, c, k) && k.entity == a && Score(cfg, t, c, k) == x;
    var l :| Near(t, c, l) && l.entity == b && Score(cfg, t, c, l) == y;
    TextLeTotal(a, b);
  }

  /** Where no external match decides, the nearest neighbour does under the auto policy: above the
      one threshold it is attached to, above the other it is flagged, and otherwise all is new. */
  lemma NeighborDecides(cfg: Config, t: Tables, c: Entity, policy: Policy, d: Decision)
    requires EntityDecision(cfg, t, c, policy) == Ok(d) && (policy.ForceNew? || forall h :: !Holds(t, c, h))
    ensures !policy.Auto? || (forall k :: !Near(t, c, k)) ==> d == InsertNew
    ensures policy.Auto? ==> forall id, score | Nearest(cfg, t, c, id, score) ::
              d == if score >= cfg.th.autoMerge then Attach(id, MatchVector)
                   else if score >= cfg.th.review then InsertFlagged(id, score) else InsertNew
  {
    var hits := ExternalHits(t, c.space, Keys(c.externalIds));
    HitsOldestFirst(t, c);
    assert policy.ForceNew? || hits == [] by {
      assert hits != [] ==> hits[0] in hits;
    }
    if c.embeddings != [] {
      NearestIsTop(cfg, t, c);
      forall id, score | Nearest(cfg, t, c, id, score)
        ensures MaxScore(Knn(cfg, t, c.embeddings[0].model, c.typ, c.embeddings[0].vector, 5))
                == Some(ScoredMatch(id, score))
      {
        var top := MaxScore(Knn(cfg, t, c.embeddings[0].model, c.typ, c.embeddings[0].vector, 5)).value;
        OneNearest(cfg, t, c, id, score, top.id, top.score);
      }
    }
  }

  // ---- the edges ----

  /** Whether this append leaves a flagging edge, to whom and with what score. */
  ghost predicate Flags(cfg: Config, t: Tables, in_: EntityInput, to: EntityId, score: real) {
    && (in_.policy.Auto? || in_.policy.UnsetPolicy?) && (forall h :: !Holds(t, in_.candidate, h))
    && Nearest(cfg, t, in_.candidate, to, score) && cfg.th.review <= score < cfg.th.autoMerge && to != ""
  }

  /** The row of a flagging edge. */
  predicate FlagRow(row: EdgeRow, in_: EntityInput, tick: Tick, to: EntityId, score: real) {
    var c := in_.candidate;
    && row.predicate_ == "sameAs?" && row.from == tick.entityId && row.to == to && row.props.None?
    && row.space == c.space && row.owner == c.owner && row.visibility == c.visibility && row.createdAt == tick.now
    && row.prov.asserter == in_.writer && row.prov.how.Inferred? && row.prov.source == "resolve:vector-review"
    && row.prov.confidence == score && row.prov.assertedAt == Some(tick.now)
  }

  /** Where an end of an edge is afterwards: a holder's are the entity's that was written to. */
  predicate EndMoved(t: Tables, in_: EntityInput, id: EntityId, was: EntityId, now: EntityId) {
    now == if !in_.policy.ForceNew? && Holds(t, in_.candidate, was) then id else was
  }

  /** b's row is a's, with the ends moved. */
  predicate EdgeMoved(t: Tables, in_: EntityInput, id: EntityId, a: EdgeRow, b: EdgeRow) {
    && b.(from := a.from, to := a.to) == a
    && EndMoved(t, in_, id, a.from, b.from) && EndMoved(t, in_, id, a.to, b.to)
  }

  predicate Flagging(d: Decision) {
    d.InsertFlagged? && d.flagTo != ""
  }

  function FlagEmission(in_: EntityInput, c: Entity, d: Decision, key: string, tick: Tick): Emission
    requires Flagging(d)
  {
    Emission(tick.edgeId, EdgeAsserted(FlagEdge(in_, c, d.flagTo, d.flagScore, tick)), in_.writer,
             key + "|sameas|" + d.flagTo, in_.actor)
  }

  lemma PlainScript(in_: EntityInput, c: Entity, d: Decision, key: string, tick: Tick)
    requires !d.Merge?
    ensures var main := AssertEmission(in_, c, DecisionTarget(d, tick), key);
      EntityScript(in_, c, d, key, tick)
      == if Flagging(d) then [main] + [FlagEmission(in_, c, d, key, tick)] else [main]
  {
  }

  lemma PlainEdges(db: Db, main: Emission, ts: Time)
    requires main.payload.EntityAsserted? && EmitAll(db, [main], ts).Ok?
    ensures EmitAll(db, [main], ts).value.t.edges == db.t.edges
  {
    OneEmission(db, main, ts);
    AssertionKeepsEdges(db, main, ts);
  }

  lemma FlaggedEdges(db: Db, main: Emission, flag: Emission, ts: Time)
    requires main.payload.EntityAsserted? && flag.payload.EdgeAsserted? && EmitAll(db, [main] + [flag], ts).Ok?
    ensures var ed := flag.payload.edge;
      EmitAll(db, [main] + [flag], ts).value.t.edges == db.t.edges[ed.id := NewEdgeRow(ed, ts)]
  {
    EmitAllSnoc(db, [main], flag, ts);
    PlainEdges(db, main, ts);
    EdgeAdded(EmitAll(db, [main], ts).value, flag, ts);
  }

  lemma AssertionKeepsEdges(db: Db, main: Emission, ts: Time)
    requires main.payload.EntityAsserted? && Emit(db, main, ts).Ok?
    ensures Emit(db, main, ts).value.t.edges == db.t.edges
  {
  }

  lemma EdgeAdded(db: Db, em: Emission, ts: Time)
    requires em.payload.EdgeAsserted? && Emit(db, em, ts).Ok?
    ensures Emit(db, em, ts).value.t.edges == db.t.edges[em.payload.edge.id := NewEdgeRow(em.payload.edge, ts)]
  {
  }

  lemma MergeEdges(db: Db, in_: EntityInput, c: Entity, d: Decision, key: string, tick: Tick)
    requires Constraints(db.t) && d.Merge? && Sound(db.t, d)
    requires EmitAll(db, EntityScript(in_, c, d, key, tick), tick.now).Ok?
    ensures EmitAll(db, EntityScript(in_, c, d, key, tick), tick.now).value.t.edges.Keys == db.t.edges.Keys
  {
    var id := d.targets[0];
    var merges := MergeEmissions(id, d.targets[1..], in_.writer, key, in_.actor);
    assert d.targets == [id] + d.targets[1..];
    EmitAllSnoc(db, merges, AssertEmission(in_, c, id, key), tick.now);
    MergesKeepEdges(db, id, d.targets[1..], in_.writer, key, in_.actor, tick.now);
    AssertionKeepsEdges(EmitAll(db, merges, tick.now).value, AssertEmission(in_, c, id, key), tick.now);
  }

  lemma MergesKeepEdges(
    db: Db, keep: EntityId, drops: seq<EntityId>, writer: WriterId, key: string, actor: PrincipalId, ts: Time)
    requires Constraints(db.t) && keep in db.t.entities && keep !in drops && Distinct(drops)
    requires forall d | d in drops :: d in db.t.entities
    requires EmitAll(db, MergeEmissions(keep, drops, writer, key, actor), ts).Ok?
    ensures EmitAll(db, MergeEmissions(keep, drops, writer, key, actor), ts).value.t.edges.Keys == db.t.edges.Keys
  {
    MergeListAbsorbs(db, keep, drops, writer, key, actor, ts);
  }

  /** The one edge an append may add is the flagging edge. */
  predicate FlagLeft(a: map<EdgeId, EdgeRow>, b: map<EdgeId, EdgeRow>, in_: EntityInput, d: Decision, tick: Tick) {
    && (forall e | e in b && e !in a :: e == tick.edgeId && Flagging(d))
    && (Flagging(d) ==> tick.edgeId in b && FlagRow(b[tick.edgeId], in_, tick, d.flagTo, d.flagScore))
  }

  lemma ScriptEdges(db: Db, in_: EntityInput, d: Decision, key: string, tick: Tick)
    requires Constraints(db.t) && Sound(db.t, d) && tick.edgeId !in db.t.edges
    requires EmitAll(db, EntityScript(in_, Stamped(in_, tick), d, key, tick), tick.now).Ok?
    ensures FlagLeft(db.t.edges,
                     EmitAll(db, EntityScript(in_, Stamped(in_, tick), d, key, tick), tick.now).value.t.edges,
                     in_, d, tick)
  {
    var c := Stamped(in_, tick);
    if d.Merge? {
      MergeEdges(db, in_, c, d, key, tick);
    } else {
      var main := AssertEmission(in_, c, DecisionTarget(d, tick), key);
      PlainScript(in_, c, d, key, tick);
      if Flagging(d) {
        FlaggedEdges(db, main, FlagEmission(in_, c, d, key, tick), tick.now);
        FlagRowIs(in_, d, tick);
      } else {
        PlainEdges(db, main, tick.now);
      }
    }
  }

  lemma FlagRowIs(in_: EntityInput, d: Decision, tick: Tick)
    requires Flagging(d)
    ensures FlagRow(NewEdgeRow(FlagEdge(in_, Stamped(in_, tick), d.flagTo, d.flagScore, tick), tick.now), in_, tick,
                    d.flagTo, d.flagScore)
  {
  }

  lemma AppendEdges(cfg: Config, db: Db, in_: EntityInput, tick: Tick, d: Decision)
    requires Inv(db) && Minted(db, AppendEntityOp(in_, tick)) && AppendEntity(cfg, db, in_, tick).1.Accepted?
    requires EntityDecision(cfg, db.t, Stamped(in_, tick), EffectivePolicy(in_.policy)) == Ok(d)
    ensures FlagLeft(db.t.edges, AppendEntity(cfg, db, in_, tick).0.t.edges, in_, d, tick)
  {
    DecisionSound(cfg, db.t, Stamped(in_, tick), EffectivePolicy(in_.policy));
    assert tick.edgeId !in db.t.edges;
    ScriptEdges(db, in_, d, EntityKey(cfg, in_, tick), tick);
  }

  lemma SameNearest(cfg: Config, t: Tables, a: Entity, b: Entity, id: EntityId, score: real)
    requires a == b.(prov := a.prov) && Nearest(cfg, t, a, id, score)
    ensures Nearest(cfg, t, b, id, score)
  {
    var k :| Near(t, a, k) && k.entity == id && Score(cfg, t, a, k) == score;
    assert Near(t, b, k) && Score(cfg, t, b, k) == score;
    forall k | Near(t, b, k)
      ensures Score(cfg, t, b, k) < score || (Score(cfg, t, b, k) == score && TextLe(id, k.entity))
    {
      assert Near(t, a, k) && Score(cfg, t, a, k) == Score(cfg, t, b, k);
    }
  }

  lemma FlaggedIsNearest(cfg: Config, t: Tables, c: Entity, policy: Policy, to: EntityId, score: real)
    requires EntityDecision(cfg, t, c, policy) == Ok(InsertFlagged(to, score))
    ensures policy.Auto? && (forall h :: !Holds(t, c, h)) && Nearest(cfg, t, c, to, score)
    ensures cfg.th.review <= score < cfg.th.autoMerge
  {
    var hits := ExternalHits(t, c.space, Keys(c.externalIds));
    HitsOldestFirst(t, c);
    DecisionOnHits(hits, DecisionNeighbors(cfg, t, c, policy), policy, cfg.th, InsertFlagged(to, score));
    assert hits == [];
    NearestIsTop(cfg, t, c);
  }

  lemma FlaggedIff(cfg: Config, t: Tables, in_: EntityInput, c: Entity, d: Decision, to: EntityId, score: real)
    requires c == in_.candidate.(prov := c.prov) && EntityDecision(cfg, t, c, EffectivePolicy(in_.policy)) == Ok(d)
    ensures d == InsertFlagged(to, score) && to != "" <==> Flags(cfg, t, in_, to, score)
  {
    SameHolders(t, in_.candidate, c);
    if d == InsertFlagged(to, score) {
      FlaggedIsNearest(cfg, t, c, EffectivePolicy(in_.policy), to, score);
      SameNearest(cfg, t, c, in_.candidate, to, score);
    }
    if Flags(cfg, t, in_, to, score) {
      SameNearest(cfg, t, in_.candidate, c, to, score);
      NeighborDecides(cfg, t, c, EffectivePolicy(in_.policy), d);
    }
  }

  /** The decision names exactly the holders it may, the target besides. */
  ghost predicate Reaches(t: Tables, in_: EntityInput, d: Decision, id: EntityId) {
    var free := in_.policy.ForceNew?;
    && (d.Merge? ==> d.targets != [] && id == d.targets[0] && !free)
    && (forall h | d.Merge? && h in d.targets :: Holds(t, in_.candidate, h))
    && (forall h | !free && Holds(t, in_.candidate, h) :: h == id || (d.Merge? && h in d.targets))
  }

  lemma EndMoves(t: Tables, in_: EntityInput, d: Decision, id: EntityId, was: EntityId)
    requires Reaches(t, in_, d, id)
    ensures EndMoved(t, in_, id, was, if d.Merge? then RepointAll(was, id, d.targets[1..]) else was)
  {
    if d.Merge? {
      assert d.targets == [id] + d.targets[1..];
      assert was in d.targets <==> was == id || was in d.targets[1..];
    }
  }

  lemma EndsMove(t: Tables, in_: EntityInput, d: Decision, base: Tables, id: EntityId, e: EdgeId)
    requires Prepared(t, d, base) && e in t.edges && Reaches(t, in_, d, id)
    ensures e in base.edges && EdgeMoved(t, in_, id, t.edges[e], base.edges[e])
  {
    EndMoves(t, in_, d, id, t.edges[e].from);
    EndMoves(t, in_, d, id, t.edges[e].to);
  }

  lemma DecisionReaches(cfg: Config, t: Tables, in_: EntityInput, c: Entity, d: Decision, tick: Tick)
    requires c == in_.candidate.(prov := c.prov) && EntityDecision(cfg, t, c, EffectivePolicy(in_.policy)) == Ok(d)
    ensures Reaches(t, in_, d, DecisionTarget(d, tick))
  {
    var hits := ExternalHits(t, c.space, Keys(c.externalIds));
    var policy := EffectivePolicy(in_.policy);
    SameHolders(t, in_.candidate, c);
    HitsOldestFirst(t, c);
    DecisionOnHits(hits, DecisionNeighbors(cfg, t, c, policy), policy, cfg.th, d);
  }

  /** After an accepted append every edge is there as it was, with the ends that stood at holders
      moved to the entity written to; and one flagging edge more exactly when it flags. */
  lemma EdgesAfterAppend(cfg: Config, db: Db, in_: EntityInput, tick: Tick)
    requires Inv(db) && Minted(db, AppendEntityOp(in_, tick)) && AppendEntity(cfg, db, in_, tick).1.Accepted?
    ensures var (db', out) := AppendEntity(cfg, db, in_, tick); var a, b := db.t.edges, db'.t.edges;
      && (forall e | e in a :: e in b && EdgeMoved(db.t, in_, out.subject, a[e], b[e]))
      && (forall e | e in b && e !in a :: e == tick.edgeId && exists to, score :: Flags(cfg, db.t, in_, to, score))
      && (forall to, score | Flags(cfg, db.t, in_, to, score) ::
            tick.edgeId in b && FlagRow(b[tick.edgeId], in_, tick, to, score))
  {
    var d, base := AppendShape(cfg, db, in_, tick);
    var a, b, s := db.t.edges, AppendEntity(cfg, db, in_, tick).0.t.edges, Stamped(in_, tick);
    AppendEdges(cfg, db, in_, tick, d);
    DecisionReaches(cfg, db.t, in_, s, d, tick);
    forall e | e in a ensures e in b && EdgeMoved(db.t, in_, DecisionTarget(d, tick), a[e], b[e]) {
      EndsMove(db.t, in_, d, base, DecisionTarget(d, tick), e);
      SameButOne(b, base.edges, tick.edgeId, e);
    }
    forall to, score ensures d == InsertFlagged(to, score) && to != "" <==> Flags(cfg, db.t, in_, to, score) {
      FlaggedIff(cfg, db.t, in_, s, d, to, score);
    }
    if d.InsertFlagged? && d.flagTo != "" {
      assert Flags(cfg, db.t, in_, d.flagTo, d.flagScore);
    }
  }

  lemma SameButOne<K, V>(a: map<K, V>, b: map<K, V>, out: K, k: K)
    requires a - {out} == b - {out} && k in b && k != out
    ensures k in a && a[k] == b[k]
  {
    assert k in b - {out} && (a - {out})[k] == a[k] && (b - {out})[k] == b[k];
  }

  /** Where no external match decides, the write goes to the nearest neighbour when it is near
      enough, and to a new entity otherwise. */
  lemma NearestIsWritten(cfg: Config, db: Db, in_: EntityInput, tick: Tick)
    requires Inv(db) && Minted(db, AppendEntityOp(in_, tick)) && AppendEntity(cfg, db, in_, tick).1.Accepted?
    requires in_.policy.ForceNew? || forall h :: !Holds(db.t, in_.candidate, h)
    ensures var out, c := AppendEntity(cfg, db, in_, tick).1, in_.candidate;
      var auto := in_.policy.Auto? || in_.policy.UnsetPolicy?;
      && (!auto || (forall k :: !Near(db.t, c, k)) ==> out.subject == tick.entityId)
      && (auto ==> forall id, score | Nearest(cfg, db.t, c, id, score) ::
            out.subject == if score >= cfg.th.autoMerge then id else tick.entityId)
  {
    var c, s := in_.candidate, Stamped(in_, tick);
    var d, base := AppendShape(cfg, db, in_, tick);
    SameHolders(db.t, c, s);
    NeighborDecides(cfg, db.t, s, EffectivePolicy(in_.policy), d);
    forall id, score | Nearest(cfg, db.t, c, id, score) ensures Nearest(cfg, db.t, s, id, score) {
      SameNearest(cfg, db.t, c, s, id, score);
    }
    assert forall k :: Near(db.t, s, k) ==> Near(db.t, c, k);
  }

  // ---- the log ----

  /** The assertion's fact: the snapshot as it came, under the entity's id, with absent props as null. */
  predicate AssertionFact(f: Fact, in_: EntityInput, id: EntityId, key: string, tick: Tick) {
    var c := in_.candidate;
    && f.subject == id && f.writer == in_.writer && f.dedupeKey == key && f.actor == in_.actor
    && f.createdAt == tick.now
    && f.payload.EntityAsserted?
    && var e := f.payload.entity;
      && e.id == id && e.typ == c.typ && e.externalIds == c.externalIds && e.embeddings == c.embeddings
      && e.space == c.space && e.owner == c.owner && e.visibility == c.visibility
      && e.props == (if c.props.Absent? then Doc(JNull) else c.props) && StoredAs(c.prov, e.prov, tick.asserted)
  }

  /** The fact of a holder's merge, under a key of its own. */
  predicate MergeFact(f: Fact, in_: EntityInput, id: EntityId, key: string, tick: Tick) {
    f == Fact(f.subject, in_.writer, key + "|merge|" + f.subject, EntityMerged(id, f.subject), in_.actor, tick.now)
  }

  /** The fact of the flagging edge. */
  predicate FlagFact(f: Fact, in_: EntityInput, key: string, tick: Tick) {
    && f.payload.EdgeAsserted? && f.subject == tick.edgeId && f.writer == in_.writer && f.actor == in_.actor
    && f.createdAt == tick.now && f.dedupeKey == key + "|sameas|" + f.payload.edge.to
    && f.payload.edge.id == tick.edgeId && f.payload.edge.from == tick.entityId
  }

  lemma AddedFacts(in_: EntityInput, d: Decision, key: string, tick: Tick, f: Fact)
    requires f in FactsOf(EntityScript(in_, Stamped(in_, tick), d, key, tick), tick.now)
    ensures var id := DecisionTarget(d, tick);
      || AssertionFact(f, in_, id, key, tick)
      || (MergeFact(f, in_, id, key, tick) && d.Merge? && d.targets != [] && f.subject in d.targets[1..])
      || (FlagFact(f, in_, key, tick) && d.InsertFlagged? && d.flagTo == f.payload.edge.to != "")
  {
    var ems := EntityScript(in_, Stamped(in_, tick), d, key, tick);
    var i :| 0 <= i < |ems| && f == FactOf(ems[i], tick.now);
    if d.Merge? && d.targets != [] && i < |ems| - 1 {
      assert ems[i] == MergeEmissions(d.targets[0], d.targets[1..], in_.writer, key, in_.actor)[i];
    }
  }

  lemma MergesAdded(in_: EntityInput, c: Entity, d: Decision, key: string, tick: Tick, h: EntityId) returns (f: Fact)
    requires d.Merge? && d.targets != [] && h in d.targets[1..]
    ensures f in FactsOf(EntityScript(in_, c, d, key, tick), tick.now)
    ensures f.subject == h && MergeFact(f, in_, d.targets[0], key, tick)
  {
    var i :| 0 <= i < |d.targets[1..]| && d.targets[1..][i] == h;
    var ems := EntityScript(in_, c, d, key, tick);
    assert ems[i] == MergeEmissions(d.targets[0], d.targets[1..], in_.writer, key, in_.actor)[i];
    f := FactsOf(ems, tick.now)[i];
  }

  lemma AssertionAdded(in_: EntityInput, d: Decision, key: string, tick: Tick) returns (f: Fact)
    ensures f in FactsOf(EntityScript(in_, Stamped(in_, tick), d, key, tick), tick.now)
    ensures AssertionFact(f, in_, DecisionTarget(d, tick), key, tick)
  {
    var ems := EntityScript(in_, Stamped(in_, tick), d, key, tick);
    var i := if d.Merge? then |ems| - 1 else 0;
    f := FactsOf(ems, tick.now)[i];
  }

  predicate OtherHolder(t: Tables, in_: EntityInput, id: EntityId, h: EntityId) {
    !in_.policy.ForceNew? && Holds(t, in_.candidate, h) && h != id
  }

  /** The facts an append to id may log. */
  ghost predicate Loggable(cfg: Config, t: Tables, in_: EntityInput, id: EntityId, key: string, tick: Tick, f: Fact) {
    || AssertionFact(f, in_, id, key, tick)
    || (OtherHolder(t, in_, id, f.subject) && MergeFact(f, in_, id, key, tick))
    || (FlagFact(f, in_, key, tick) && exists score :: Flags(cfg, t, in_, f.payload.edge.to, score))
  }

  lemma AddedLoggable(cfg: Config, t: Tables, in_: EntityInput, d: Decision, key: string, tick: Tick, f: Fact)
    requires EntityDecision(cfg, t, Stamped(in_, tick), EffectivePolicy(in_.policy)) == Ok(d) && Sound(t, d)
    requires f in FactsOf(EntityScript(in_, Stamped(in_, tick), d, key, tick), tick.now)
    ensures Loggable(cfg, t, in_, DecisionTarget(d, tick), key, tick, f)
  {
    var id := DecisionTarget(d, tick);
    AddedFacts(in_, d, key, tick, f);
    if !AssertionFact(f, in_, id, key, tick) {
      if d.Merge? {
        DecisionReaches(cfg, t, in_, Stamped(in_, tick), d, tick);
        DropIsOther(t, in_, d, id, f.subject);
      } else {
        FlaggedIff(cfg, t, in_, Stamped(in_, tick), d, d.flagTo, d.flagScore);
      }
    }
  }

  lemma DropIsOther(t: Tables, in_: EntityInput, d: Decision, id: EntityId, h: EntityId)
    requires Reaches(t, in_, d, id) && d.Merge? && Distinct(d.targets) && h in d.targets[1..]
    ensures OtherHolder(t, in_, id, h)
  {
    assert d.targets == [id] + d.targets[1..];
    var i :| 0 <= i < |d.targets[1..]| && d.targets[1..][i] == h;
    assert d.targets[i + 1] == h && h in d.targets;
  }

  lemma HolderMerged(cfg: Config, t: Tables, in_: EntityInput, d: Decision, key: string, tick: Tick, h: EntityId)
    returns (f: Fact)
    requires EntityDecision(cfg, t, Stamped(in_, tick), EffectivePolicy(in_.policy)) == Ok(d) && Sound(t, d)
    requires OtherHolder(t, in_, DecisionTarget(d, tick), h)
    ensures f in FactsOf(EntityScript(in_, Stamped(in_, tick), d, key, tick), tick.now)
    ensures f.subject == h && MergeFact(f, in_, DecisionTarget(d, tick), key, tick)
  {
    DecisionReaches(cfg, t, in_, Stamped(in_, tick), d, tick);
    assert d.Merge? && d.targets == [d.targets[0]] + d.targets[1..];
    f := MergesAdded(in_, Stamped(in_, tick), d, key, tick, h);
  }

  /** An accepted append logs its assertion under the given key, one merge for every holder but the
      one written to, the flagging edge if it left one, and nothing else. */
  lemma LogAfterAppend(cfg: Config, db: Db, in_: EntityInput, tick: Tick) returns (key: string, added: seq<Fact>)
    requires AppendEntity(cfg, db, in_, tick).1.Accepted?
    ensures AppendEntity(cfg, db, in_, tick).0.log == db.log + added
    ensures in_.dedupeKey != "" ==> key == in_.dedupeKey
    ensures var id := AppendEntity(cfg, db, in_, tick).1.subject;
      && (exists f :: f in added && AssertionFact(f, in_, id, key, tick))
      && (forall h | OtherHolder(db.t, in_, id, h) ::
            exists f :: f in added && f.subject == h && MergeFact(f, in_, id, key, tick))
      && (forall f | f in added :: Loggable(cfg, db.t, in_, id, key, tick, f))
  {
    AcceptedTarget(cfg, db, in_, tick);
    var d := EntityDecision(cfg, db.t, Stamped(in_, tick), EffectivePolicy(in_.policy)).value;
    DecisionSound(cfg, db.t, Stamped(in_, tick), EffectivePolicy(in_.policy));
    key := EntityKey(cfg, in_, tick);
    added := AppendedFacts(cfg, db, in_, tick, d);
    forall f | f in added ensures Loggable(cfg, db.t, in_, DecisionTarget(d, tick), key, tick, f) {
      AddedLoggable(cfg, db.t, in_, d, key, tick, f);
    }
    forall h | OtherHolder(db.t, in_, DecisionTarget(d, tick), h)
      ensures exists f :: f in added && f.subject == h && MergeFact(f, in_, DecisionTarget(d, tick), key, tick)
    {
      var f := HolderMerged(cfg, db.t, in_, d, key, tick, h);
    }
    var f := AssertionAdded(in_, d, key, tick);
  }

  /** With no key given, NULs nowhere, at least one external id each and an injective digest, two writes
      derive one key exactly when they agree on the type and on how often they name each external id. */
  lemma DerivedKeysIff(cfg: Config, a: EntityInput, x: Tick, b: EntityInput, y: Tick)
    requires forall m, n | cfg.digest(m) == cfg.digest(n) :: m == n
    requires a.dedupeKey == "" && a.candidate.externalIds != [] && NulFree(a.candidate.typ)
    requires b.dedupeKey == "" && b.candidate.externalIds != [] && NulFree(b.candidate.typ)
    requires forall i | 0 <= i < |a.candidate.externalIds| :: NulFree(a.candidate.externalIds[i].Key())
    requires forall i | 0 <= i < |b.candidate.externalIds| :: NulFree(b.candidate.externalIds[i].Key())
    ensures EntityKey(cfg, a, x) == EntityKey(cfg, b, y) <==>
            && a.candidate.typ == b.candidate.typ
            && multiset(Keys(a.candidate.externalIds)) == multiset(Keys(b.candidate.externalIds))
  {
    var c, d := a.candidate, b.candidate;
    DerivedBytesIff(cfg.lower, c.typ, c.externalIds, ExtractName(c.props), d.typ, d.externalIds, ExtractName(d.props));
  }
}
