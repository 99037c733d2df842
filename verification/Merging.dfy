/** What folding one entity, or a list of them, into another keeps. */
module Merging {
  import opened Domain
  import opened Order
  import opened Tables
  import opened Store
  import opened Invariants

  /** The external keys an entity carries. */
  function Carried(ext: set<ExtRow>, id: EntityId): set<string> {
    set r | r in ext && r.entity == id :: r.key
  }

  function RowsOf(ext: set<ExtRow>, id: EntityId): set<ExtRow> {
    set r | r in ext && r.entity == id
  }

  function RepointAll(id: EntityId, keep: EntityId, gone: seq<EntityId>): EntityId {
    if id in gone then keep else id
  }

  /** The row r, as held by h. */
  predicate HeldBy(ext: set<ExtRow>, r: ExtRow, h: EntityId) {
    r.(entity := h) in ext
  }

  ghost predicate SameVectors(a: map<EmbKey, Vector>, b: map<EmbKey, Vector>, id: EntityId) {
    forall k: EmbKey | k.entity == id :: (k in a <==> k in b) && (k in a ==> a[k] == b[k])
  }

  /** The slot's vector in keep, or failing that in the first of the drops that fills it. */
  function FirstVector(emb: map<EmbKey, Vector>, holders: seq<EntityId>, model: string, field: string): Option<Vector> {
    if holders == [] then None
    else
      match FirstVector(emb, holders[..|holders| - 1], model, field)
      case Some(v) => Some(v)
      case None =>
        var k := EmbKey(holders[|holders| - 1], model, field);
        if k in emb then Some(emb[k]) else None
  }

  function VectorAt(emb: map<EmbKey, Vector>, id: EntityId, model: string, field: string): Option<Vector> {
    if EmbKey(id, model, field) in emb then Some(emb[EmbKey(id, model, field)]) else None
  }

  ghost predicate EntitiesAbsorbed(
    a: map<EntityId, EntityRow>, b: map<EntityId, EntityRow>, keep: EntityId, gone: seq<EntityId>) {
    && (forall id :: id in b <==> id in a && id !in gone)
    && (forall id | id in b :: b[id].(updatedAt := "") == a[id].(updatedAt := ""))
    && (forall id | id in b && id != keep :: b[id] == a[id])
  }

  /** keep has the union of the keys; every row was somebody's, in the same space; others keep theirs. */
  ghost predicate KeysAbsorbed(a: set<ExtRow>, b: set<ExtRow>, keep: EntityId, gone: seq<EntityId>) {
    && (forall key ::
          key in Carried(b, keep) <==> key in Carried(a, keep) || exists h | h in gone :: key in Carried(a, h))
    && (forall r | r in b :: exists h :: HeldBy(a, r, h) && r.entity == RepointAll(h, keep, gone))
    && (forall id | id != keep && id !in gone :: RowsOf(b, id) == RowsOf(a, id))
  }

  /** keep has the union of the slots, its own vectors winning, then the earlier drop's. */
  ghost predicate VectorsAbsorbed(a: map<EmbKey, Vector>, b: map<EmbKey, Vector>, keep: EntityId, gone: seq<EntityId>) {
    && (forall model, field :: VectorAt(b, keep, model, field) == FirstVector(a, [keep] + gone, model, field))
    && (forall id | id != keep && id !in gone :: SameVectors(b, a, id))
  }

  /** Every edge id stays, with its endpoints repointed and nothing else changed. */
  ghost predicate EdgesAbsorbed(a: map<EdgeId, EdgeRow>, b: map<EdgeId, EdgeRow>, keep: EntityId, gone: seq<EntityId>) {
    && b.Keys == a.Keys
    && forall e | e in a ::
         b[e] == a[e].(from := RepointAll(a[e].from, keep, gone), to := RepointAll(a[e].to, keep, gone))
  }

  /** b is a with the entities listed in gone folded into keep. */
  ghost predicate Absorbed(a: Tables, b: Tables, keep: EntityId, gone: seq<EntityId>) {
    && EntitiesAbsorbed(a.entities, b.entities, keep, gone)
    && KeysAbsorbed(a.ext, b.ext, keep, gone)
    && VectorsAbsorbed(a.emb, b.emb, keep, gone)
    && EdgesAbsorbed(a.edges, b.edges, keep, gone)
  }

  lemma MergedKeys(ext: set<ExtRow>, keep: EntityId, drop: EntityId)
    requires keep != drop
    ensures KeysAbsorbed(ext, MergedExt(ext, keep, drop), keep, [drop])
  {
    var merged := MergedExt(ext, keep, drop);
    forall key | key in Carried(ext, keep) + Carried(ext, drop) ensures key in Carried(merged, keep) {
      if key in Carried(ext, keep) {
        var r :| r in ext && r.entity == keep && r.key == key;
        assert r.(entity := keep) in merged;
      } else {
        var r :| r in ext && r.entity == drop && r.key == key;
        assert r.(entity := keep) in merged;
      }
    }
    forall r | r in merged ensures exists h :: HeldBy(ext, r, h) && r.entity == RepointAll(h, keep, [drop]) {
      var q :| q in ext && !(q.entity == drop && Carries(ext, keep, q.key))
        && r == q.(entity := Repoint(q.entity, keep, drop));
      assert r.(entity := q.entity) == q && HeldBy(ext, r, q.entity);
    }
    forall key | key in Carried(merged, keep) ensures key in Carried(ext, keep) + Carried(ext, drop) {
      var r :| r in merged && r.entity == keep && r.key == key;
      var h :| HeldBy(ext, r, h) && r.entity == RepointAll(h, keep, [drop]);
    }
    forall id | id != keep && id != drop ensures RowsOf(merged, id) == RowsOf(ext, id) {
      forall r | r in RowsOf(ext, id) ensures r in RowsOf(merged, id) {
        assert r == r.(entity := Repoint(r.entity, keep, drop));
      }
      forall r | r in RowsOf(merged, id) ensures r in RowsOf(ext, id) {
        var h :| HeldBy(ext, r, h) && r.entity == RepointAll(h, keep, [drop]);
        assert r.(entity := h) == r;
      }
    }
  }

  lemma MergedVectors(emb: map<EmbKey, Vector>, keep: EntityId, drop: EntityId, model: string, field: string)
    requires keep != drop
    ensures VectorAt(MergedEmb(emb, keep, drop), keep, model, field) ==
            if VectorAt(emb, keep, model, field).Some? then VectorAt(emb, keep, model, field)
            else VectorAt(emb, drop, model, field)
  {
    var k, d := EmbKey(keep, model, field), EmbKey(drop, model, field);
    var moved := MovedKeys(emb, keep, drop);
    assert k.(entity := drop) == d && d.(entity := keep) == k;
    assert k in moved <==> d in emb && k !in emb by {
      if k in moved {
        var q :| q in emb && q.entity == drop && q.(entity := keep) !in emb && k == q.(entity := keep);
        assert q == d;
      }
    }
  }

  lemma MergedSlots(emb: map<EmbKey, Vector>, keep: EntityId, drop: EntityId)
    requires keep != drop
    ensures VectorsAbsorbed(emb, MergedEmb(emb, keep, drop), keep, [drop])
  {
    var emb' := MergedEmb(emb, keep, drop);
    forall model, field
      ensures VectorAt(emb', keep, model, field) == FirstVector(emb, [keep] + [drop], model, field)
    {
      MergedVectors(emb, keep, drop, model, field);
      FirstVectorSnoc(emb, [keep], drop, model, field);
      assert [keep][..0] == [];
    }
    assert forall k | k in MovedKeys(emb, keep, drop) :: k.entity == keep;
  }

  lemma FirstVectorSnoc(emb: map<EmbKey, Vector>, holders: seq<EntityId>, last: EntityId, model: string, field: string)
    ensures FirstVector(emb, holders + [last], model, field) ==
            if FirstVector(emb, holders, model, field).Some? then FirstVector(emb, holders, model, field)
            else VectorAt(emb, last, model, field)
  {
    assert (holders + [last])[..|holders|] == holders;
  }

  lemma MergedRows(entities: map<EntityId, EntityRow>, keep: EntityId, drop: EntityId, ts: Time)
    requires keep in entities && keep != drop
    ensures EntitiesAbsorbed(entities, entities[keep := entities[keep].(updatedAt := ts)] - {drop}, keep, [drop])
  {
  }

  lemma MergedEndpoints(edges: map<EdgeId, EdgeRow>, keep: EntityId, drop: EntityId)
    ensures EdgesAbsorbed(edges, MergedEdges(edges, keep, drop), keep, [drop])
  {
  }

  /** Merging two live entities breaks no constraint and absorbs drop into keep. */
  lemma MergeAbsorbs(t: Tables, keep: EntityId, drop: EntityId, ts: Time)
    requires Constraints(t) && keep in t.entities && drop in t.entities && keep != drop
    ensures MergeEntities(t, keep, drop, ts).Ok? && Constraints(MergeEntities(t, keep, drop, ts).value)
    ensures Absorbed(t, MergeEntities(t, keep, drop, ts).value, keep, [drop])
  {
    MergeKeeps(t, keep, drop, ts);
    MergedRows(t.entities, keep, drop, ts);
    MergedKeys(t.ext, keep, drop);
    MergedSlots(t.emb, keep, drop);
    MergedEndpoints(t.edges, keep, drop);
  }

  // ---- a list of drops ----

  lemma KeysCompose(a: set<ExtRow>, b: set<ExtRow>, c: set<ExtRow>, keep: EntityId, gone: seq<EntityId>, last: EntityId)
    requires KeysAbsorbed(a, b, keep, gone) && KeysAbsorbed(b, c, keep, [last]) && last != keep && last !in gone
    ensures KeysAbsorbed(a, c, keep, gone + [last])
  {
    assert RowsOf(b, last) == RowsOf(a, last);
    assert forall key :: key in Carried(b, last) <==> exists r | r in RowsOf(b, last) :: r.key == key;
    assert forall key :: key in Carried(a, last) <==> exists r | r in RowsOf(a, last) :: r.key == key;
    forall r | r in c ensures exists h :: HeldBy(a, r, h) && r.entity == RepointAll(h, keep, gone + [last]) {
      var h :| HeldBy(b, r, h) && r.entity == RepointAll(h, keep, [last]);
      var q := r.(entity := h);
      var g :| HeldBy(a, q, g) && q.entity == RepointAll(g, keep, gone);
      assert q.(entity := g) == r.(entity := g) && HeldBy(a, r, g);
    }
  }

  lemma VectorsCompose(
    a: map<EmbKey, Vector>, b: map<EmbKey, Vector>, c: map<EmbKey, Vector>, keep: EntityId, gone: seq<EntityId>,
    last: EntityId)
    requires VectorsAbsorbed(a, b, keep, gone) && VectorsAbsorbed(b, c, keep, [last]) && last != keep && last !in gone
    ensures VectorsAbsorbed(a, c, keep, gone + [last])
  {
    forall model, field
      ensures VectorAt(c, keep, model, field) == FirstVector(a, [keep] + (gone + [last]), model, field)
    {
      assert [keep] + (gone + [last]) == ([keep] + gone) + [last];
      FirstVectorSnoc(a, [keep] + gone, last, model, field);
      FirstVectorSnoc(b, [keep], last, model, field);
      assert [keep][..0] == [];
      assert SameVectors(b, a, last);
      assert VectorAt(b, last, model, field) == VectorAt(a, last, model, field);
    }
  }

  lemma NextAbsorbs(a: Tables, mid: Tables, keep: EntityId, last: EntityId, front: seq<EntityId>, ts: Time)
    requires keep in a.entities && keep !in front && last in a.entities && last !in front && keep != last
    requires Constraints(mid) && Absorbed(a, mid, keep, front)
    ensures MergeEntities(mid, keep, last, ts).Ok? && Constraints(MergeEntities(mid, keep, last, ts).value)
    ensures Absorbed(a, MergeEntities(mid, keep, last, ts).value, keep, front + [last])
  {
    MergeAbsorbs(mid, keep, last, ts);
    AbsorbedCompose(a, mid, MergeEntities(mid, keep, last, ts).value, keep, front, last);
  }

  lemma MergeEmissionAbsorbs(a: Tables, mid: Db, em: Emission, front: seq<EntityId>, ts: Time)
    requires em.payload.EntityMerged? && Emit(mid, em, ts).Ok?
    requires var keep, last := em.payload.keep, em.payload.drop;
             && keep in a.entities && keep !in front && last in a.entities && last !in front && keep != last
             && Constraints(mid.t) && Absorbed(a, mid.t, keep, front)
    ensures Constraints(Emit(mid, em, ts).value.t)
    ensures Absorbed(a, Emit(mid, em, ts).value.t, em.payload.keep, front + [em.payload.drop])
  {
    NextAbsorbs(a, mid.t, em.payload.keep, em.payload.drop, front, ts);
  }

  /** Playing a merge list absorbs every drop: the union over the list, earlier holders winning. */
  lemma {:induction false} MergeListAbsorbs(
    db: Db, keep: EntityId, drops: seq<EntityId>, writer: WriterId, key: string, actor: PrincipalId, ts: Time)
    requires Constraints(db.t) && keep in db.t.entities && keep !in drops && Distinct(drops)
    requires forall d | d in drops :: d in db.t.entities
    requires EmitAll(db, MergeEmissions(keep, drops, writer, key, actor), ts).Ok?
    ensures Constraints(EmitAll(db, MergeEmissions(keep, drops, writer, key, actor), ts).value.t)
    ensures Absorbed(db.t, EmitAll(db, MergeEmissions(keep, drops, writer, key, actor), ts).value.t, keep, drops)
  {
    if drops == [] {
      NothingAbsorbed(db.t, keep);
    } else {
      var n := |drops| - 1;
      var front, last := drops[..n], drops[n];
      assert drops == front + [last];
      var before := MergeEmissions(keep, front, writer, key, actor);
      var em := Emission(last, EntityMerged(keep, last), writer, MergeKey(key, last), actor);
      MergeEmissionsSnoc(keep, front, last, writer, key, actor);
      EmitAllSnoc(db, before, em, ts);
      MergeListAbsorbs(db, keep, front, writer, key, actor, ts);
      assert last !in front && last in drops;
      MergeEmissionAbsorbs(db.t, EmitAll(db, before, ts).value, em, front, ts);
    }
  }

  lemma NothingAbsorbed(t: Tables, keep: EntityId)
    ensures Absorbed(t, t, keep, [])
  {
    forall r | r in t.ext ensures exists h :: HeldBy(t.ext, r, h) && r.entity == RepointAll(h, keep, []) {
      assert r.(entity := r.entity) == r && HeldBy(t.ext, r, r.entity);
    }
    forall model, field ensures VectorAt(t.emb, keep, model, field) == FirstVector(t.emb, [keep] + [], model, field) {
      FirstVectorSnoc(t.emb, [], keep, model, field);
      assert [] + [keep] == [keep] + [];
    }
  }

  lemma AbsorbedCompose(a: Tables, b: Tables, c: Tables, keep: EntityId, gone: seq<EntityId>, last: EntityId)
    requires Absorbed(a, b, keep, gone) && Absorbed(b, c, keep, [last]) && last != keep && last !in gone
    ensures Absorbed(a, c, keep, gone + [last])
  {
    KeysCompose(a.ext, b.ext, c.ext, keep, gone, last);
    VectorsCompose(a.emb, b.emb, c.emb, keep, gone, last);
  }
}
