/** What an edge write, a retraction and a direct merge leave, told from the request and the store
    before it. */
module OtherWrites {
  import opened Json
  import opened Domain
  import opened Tables
  import opened Store
  import opened Invariants
  import opened Acceptance
  import opened Merging
  import opened Effects

  /** The two maps agree everywhere but at k. */
  ghost predicate SameBut<K(!new), V>(a: map<K, V>, b: map<K, V>, k: K) {
    forall x | x != k :: (x in a <==> x in b) && (x in a ==> a[x] == b[x])
  }

  // ---- edges ----

  /** The edge's row holds what the request said. */
  predicate EdgeRowIs(row: EdgeRow, ed: Edge, tick: Tick) {
    && row.predicate_ == ed.predicate_ && row.from == ed.from && row.to == ed.to
    && row.space == ed.space && row.owner == ed.owner && row.visibility == ed.visibility
    && (ed.props.Doc? ==> row.props == Some(ed.props.value)) && (ed.props.Absent? ==> row.props == None)
    && row.createdAt == tick.now && StoredAs(ed.prov, row.prov, tick.asserted)
  }

  /** The fact that asserts it holds the same. */
  predicate EdgeFact(f: Fact, in_: EdgeInput, tick: Tick) {
    var ed := in_.edge;
    && f.subject == tick.edgeId && f.writer == in_.writer && f.dedupeKey == EdgeKey(in_) && f.actor == in_.actor
    && f.createdAt == tick.now && f.payload.EdgeAsserted?
    && var g := f.payload.edge;
      && g.id == tick.edgeId && g.predicate_ == ed.predicate_ && g.from == ed.from && g.to == ed.to
      && g.space == ed.space && g.owner == ed.owner && g.visibility == ed.visibility
      && g.props == (if ed.props.Absent? then Doc(JNull) else ed.props) && StoredAs(ed.prov, g.prov, tick.asserted)
  }

  /** An accepted edge write adds one edge under a new id, as requested, and one fact; nothing else
      in the store changes. */
  lemma EdgeWritten(db: Db, in_: EdgeInput, tick: Tick)
    requires Recorded(db) && Minted(db, AppendEdgeOp(in_, tick)) && AppendEdge(db, in_, tick).1.Accepted?
    ensures var (db', out) := AppendEdge(db, in_, tick); var id := tick.edgeId;
      && out.subject == id && id !in db.t.edges && id in db'.t.edges && EdgeRowIs(db'.t.edges[id], in_.edge, tick)
      && SameBut(db.t.edges, db'.t.edges, id) && db'.t.(edges := db.t.edges) == db.t
      && |db'.log| == |db.log| + 1 && db.log <= db'.log && EdgeFact(db'.log[|db.log|], in_, tick)
      && (in_.dedupeKey != "" ==> db'.log[|db.log|].dedupeKey == in_.dedupeKey)
  {
  }

  /** Any other answer leaves the store alone; a replay names the edge first asserted under the key,
      which is still there. */
  lemma EdgeNotWritten(db: Db, in_: EdgeInput, tick: Tick)
    requires !AppendEdge(db, in_, tick).1.Accepted?
    ensures var (db', out) := AppendEdge(db, in_, tick);
      db' == db && (out.Replayed? ==>
        out.subject in db.t.edges && FirstUnder(db.log, in_.writer, EdgeKey(in_), false, out.subject))
  {
    EdgeAnswers(db, in_, tick);
  }

  // ---- retractions ----

  function RetractKey(id: string, key: string): string {
    if key == "" then id + "|retract" else key
  }

  /** Retracting an edge goes through exactly when its key is unused; then that edge is gone, one
      fact says so, and nothing else changes. */
  lemma EdgeRetraction(db: Db, id: EdgeId, actor: PrincipalId, key: string, now: Time)
    ensures var (db', out) := RetractEdge(db, id, actor, key, now); var k := RetractKey(id, key);
      if Logged(db.log, actor, k) then db' == db && out == Rejected(DuplicateFact)
      else
        && out == Accepted(id) && db'.log == db.log + [Fact(id, actor, k, EdgeRetracted, actor, now)]
        && id !in db'.t.edges && SameBut(db.t.edges, db'.t.edges, id) && db'.t.(edges := db.t.edges) == db.t
  {
  }

  /** Without the entity, the rows filed under it, its vectors, the edges at it and its text; and
      without nothing else. */
  ghost predicate EntityGone(a: Tables, b: Tables, id: EntityId) {
    && id !in b.entities && SameBut(a.entities, b.entities, id)
    && (forall r :: r in b.ext <==> r in a.ext && r.entity != id)
    && (forall k :: k in b.emb <==> k in a.emb && k.entity != id) && (forall k | k in b.emb :: b.emb[k] == a.emb[k])
    && (forall e :: e in b.edges <==> e in a.edges && a.edges[e].from != id && a.edges[e].to != id)
    && (forall e | e in b.edges :: b.edges[e] == a.edges[e])
    && (forall x :: RowsFor(b.fts, x) == if x == id then [] else RowsFor(a.fts, x))
  }

  lemma EntityRetraction(db: Db, id: EntityId, actor: PrincipalId, key: string, now: Time)
    ensures var (db', out) := RetractEntity(db, id, actor, key, now); var k := RetractKey(id, key);
      if Logged(db.log, actor, k) then db' == db && out == Rejected(DuplicateFact)
      else
        && out == Accepted(id) && db'.log == db.log + [Fact(id, actor, k, EntityRetracted, actor, now)]
        && EntityGone(db.t, db'.t, id)
  {
    forall x ensures RowsFor(DropRows(db.t.fts, id), x) == if x == id then [] else RowsFor(db.t.fts, x) {
      RowsAfterDrop(db.t.fts, id, x);
    }
  }

  // ---- direct merges ----

  /** A direct merge of two entities goes through exactly when both are there and its key is unused;
      then the one is absorbed into the other, whose time of update is the merge's. */
  lemma DirectMerge(db: Db, keep: EntityId, drop: EntityId, actor: PrincipalId, key: string, now: Time)
    requires Constraints(db.t)
    ensures var (db', out) := MergeDirect(db, keep, drop, actor, key, now);
      var k := if key == "" then keep + "|merge|" + drop else key;
      if keep !in db.t.entities || drop !in db.t.entities then db' == db && out == Rejected(NotFound)
      else if Logged(db.log, actor, k) then db' == db && out == Rejected(DuplicateFact)
      else
        && out == Accepted(drop) && db'.log == db.log + [Fact(drop, actor, k, EntityMerged(keep, drop), actor, now)]
        && (keep == drop ==> db'.t == db.t)
        && (keep != drop ==>
              && Absorbed(db.t, db'.t, keep, [drop]) && db'.t.entities[keep].updatedAt == now
              && forall x :: RowsFor(db'.t.fts, x) == if x == drop then [] else RowsFor(db.t.fts, x))
  {
    if keep in db.t.entities && drop in db.t.entities && keep != drop {
      MergeAbsorbs(db.t, keep, drop, now);
      forall x ensures RowsFor(DropRows(db.t.fts, drop), x) == if x == drop then [] else RowsFor(db.t.fts, x) {
        RowsAfterDrop(db.t.fts, drop, x);
      }
    }
  }
}
