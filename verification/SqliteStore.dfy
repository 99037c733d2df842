/** The SQLite adapter: tables updated in place, statement by statement, inside transactions
    that roll back on any error. Each method is proved against the Store specification. */
module SqliteStore {
  import opened Json
  import opened Domain
  import opened Order
  import opened Resolve
  import opened Tables
  import Spec = Tables
  import opened Store
  import opened Invariants
  import opened Merging
  import opened Search
  import Access

  // ---- facts the methods need ----

  lemma {:induction false} EmitAllErrs(db: Db, front: seq<Emission>, rest: seq<Emission>, ts: Time)
    requires EmitAll(db, front, ts).Err?
    ensures EmitAll(db, front + rest, ts) == EmitAll(db, front, ts)
    decreases |rest|
  {
    if rest == [] {
      assert front + rest == front;
    } else {
      var n := |rest| - 1;
      assert front + rest == (front + rest[..n]) + [rest[n]];
      EmitAllErrs(db, front, rest[..n], ts);
      EmitAllSnoc(db, front + rest[..n], rest[n], ts);
    }
  }

  lemma MergeListStops(start: Db, merges: seq<Emission>, i: nat, ts: Time)
    requires i <= |merges| && EmitAll(start, merges[..i], ts).Err?
    ensures EmitAll(start, merges, ts) == EmitAll(start, merges[..i], ts)
  {
    EmitAllErrs(start, merges[..i], merges[i..], ts);
    assert merges == merges[..i] + merges[i..];
  }

  /** One more merge of the list: it goes on from what the earlier ones gave, or stops them all. */
  lemma MergeListStep(
    start: Db, keep: EntityId, drops: seq<EntityId>, i: nat, writer: WriterId, key: string, actor: PrincipalId,
    ts: Time)
    requires i < |drops| && EmitAll(start, MergeEmissions(keep, drops[..i], writer, key, actor), ts).Ok?
    ensures var em := Emission(drops[i], EntityMerged(keep, drops[i]), writer, MergeKey(key, drops[i]), actor);
            var next := Emit(EmitAll(start, MergeEmissions(keep, drops[..i], writer, key, actor), ts).value, em, ts);
            && EmitAll(start, MergeEmissions(keep, drops[..i + 1], writer, key, actor), ts) == next
            && (next.Err? ==> EmitAll(start, MergeEmissions(keep, drops, writer, key, actor), ts) == next)
  {
    var done := MergeEmissions(keep, drops[..i], writer, key, actor);
    var em := Emission(drops[i], EntityMerged(keep, drops[i]), writer, MergeKey(key, drops[i]), actor);
    NextMerge(keep, drops, i, writer, key, actor);
    EmitAllSnoc(start, done, em, ts);
    if EmitAll(start, done + [em], ts).Err? {
      MergesPrefix(keep, drops, i + 1, writer, key, actor);
      MergeListStops(start, MergeEmissions(keep, drops, writer, key, actor), i + 1, ts);
    }
  }

  lemma NextMerge(
    keep: EntityId, drops: seq<EntityId>, i: nat, writer: WriterId, key: string, actor: PrincipalId)
    requires i < |drops|
    ensures MergeEmissions(keep, drops[..i + 1], writer, key, actor) ==
            MergeEmissions(keep, drops[..i], writer, key, actor)
            + [Emission(drops[i], EntityMerged(keep, drops[i]), writer, MergeKey(key, drops[i]), actor)]
  {
    assert drops[..i + 1] == drops[..i] + [drops[i]];
    MergeEmissionsSnoc(keep, drops[..i], drops[i], writer, key, actor);
  }

  lemma MergesPrefix(
    keep: EntityId, drops: seq<EntityId>, i: nat, writer: WriterId, key: string, actor: PrincipalId)
    requires i <= |drops|
    ensures MergeEmissions(keep, drops, writer, key, actor)[..i] == MergeEmissions(keep, drops[..i], writer, key, actor)
  {
  }

  lemma MergeListConstraints(
    start: Db, keep: EntityId, drops: seq<EntityId>, writer: WriterId, key: string, actor: PrincipalId, ts: Time)
    requires Constraints(start.t) && keep in start.t.entities && keep !in drops && Distinct(drops)
    requires forall d | d in drops :: d in start.t.entities
    requires EmitAll(start, MergeEmissions(keep, drops, writer, key, actor), ts).Ok?
    ensures Constraints(EmitAll(start, MergeEmissions(keep, drops, writer, key, actor), ts).value.t)
  {
    MergeListAbsorbs(start, keep, drops, writer, key, actor, ts);
  }

  lemma BestScoresStep(
    sim: (Vector, Vector) -> real, emb: map<EmbKey, Vector>, rows: set<EmbKey>, query: Vector, k: EmbKey)
    requires rows <= emb.Keys && k in emb && k !in rows
    ensures var before, c := BestScores(sim, emb, rows, query), sim(query, emb[k]);
            BestScores(sim, emb, rows + {k}, query) ==
            if k.entity !in before || c > before[k.entity] then before[k.entity := c] else before
  {
    var before, after, c := BestScores(sim, emb, rows, query), BestScores(sim, emb, rows + {k}, query),
      sim(query, emb[k]);
    forall id
      ensures id in after <==> id in before || id == k.entity
      ensures id in after ==> after[id] == if id == k.entity && (id !in before || c > before[id]) then c else before[id]
    {
      var s, s' := ScoresOf(sim, emb, rows, query, id), ScoresOf(sim, emb, rows + {k}, query, id);
      BestIsGreatest(sim, emb, rows, query, id);
      BestIsGreatest(sim, emb, rows + {k}, query, id);
      assert s' == if id == k.entity then s + {c} else s;
    }
  }

  lemma BothEndsMove(edges: map<EdgeId, EdgeRow>, keep: EntityId, drop: EntityId)
    ensures var moved := map e | e in edges :: if edges[e].from == drop then edges[e].(from := keep) else edges[e];
      (map e | e in moved :: if moved[e].to == drop then moved[e].(to := keep) else moved[e])
      == MergedEdges(edges, keep, drop)
  {
  }

  /** Deleting drop's rows under keys that keep carries: what is left, and that nothing clashes. */
  lemma TakenKeys(ext: set<ExtRow>, keep: EntityId, drop: EntityId)
    requires keep != drop
    ensures var taken := set r | r in ext && r.entity == keep :: r.key;
            var left := set r | r in ext && !(r.entity == drop && r.key in taken);
      && left == (set r | r in ext && !(r.entity == drop && Carries(ext, keep, r.key)))
      && (forall r, q | r in left && q in left && r.entity == drop && q.entity == keep :: r.key != q.key)
  {
    var taken := set r | r in ext && r.entity == keep :: r.key;
    assert forall r | r in ext :: r.key in taken <==> Carries(ext, keep, r.key);
  }

  lemma DedupedMoves(ext: set<ExtRow>, keep: EntityId, drop: EntityId)
    requires keep != drop
    ensures var deduped := set r | r in ext && !(r.entity == drop && Carries(ext, keep, r.key));
            (set r | r in deduped :: r.(entity := Repoint(r.entity, keep, drop))) == MergedExt(ext, keep, drop)
  {
    var deduped := set r | r in ext && !(r.entity == drop && Carries(ext, keep, r.key));
    var moved := set r | r in deduped :: r.(entity := Repoint(r.entity, keep, drop));
    forall q | q in MergedExt(ext, keep, drop) ensures q in moved {
      var r :| r in ext && !(r.entity == drop && Carries(ext, keep, r.key))
        && q == r.(entity := Repoint(r.entity, keep, drop));
      assert r in deduped;
    }
    forall q | q in moved ensures q in MergedExt(ext, keep, drop) {
      var r :| r in deduped && q == r.(entity := Repoint(r.entity, keep, drop));
    }
  }

  function DedupedEmb(emb: map<EmbKey, Vector>, keep: EntityId, drop: EntityId): map<EmbKey, Vector> {
    map k | k in emb && !(k.entity == drop && k.(entity := keep) in emb) :: emb[k]
  }

  lemma DedupedSlots(emb: map<EmbKey, Vector>, keep: EntityId, drop: EntityId)
    requires keep != drop
    ensures var moving := set k | k in DedupedEmb(emb, keep, drop) && k.entity == drop :: k.(entity := keep);
            && moving == MovedKeys(emb, keep, drop)
            && (forall k | k in moving :: k.(entity := drop) in DedupedEmb(emb, keep, drop))
  {
    var deduped := DedupedEmb(emb, keep, drop);
    var moving := set k | k in deduped && k.entity == drop :: k.(entity := keep);
    forall q | q in moving ensures q in MovedKeys(emb, keep, drop) && q.(entity := drop) in deduped {
      var k :| k in deduped && k.entity == drop && q == k.(entity := keep);
      assert q.(entity := drop) == k;
    }
    forall q | q in MovedKeys(emb, keep, drop) ensures q in moving {
      var k :| k in emb && k.entity == drop && k.(entity := keep) !in emb && q == k.(entity := keep);
      assert k in deduped;
    }
  }

  lemma DedupedSlotsMove(emb: map<EmbKey, Vector>, keep: EntityId, drop: EntityId, moving: set<EmbKey>)
    requires keep != drop && moving == MovedKeys(emb, keep, drop)
    requires forall k | k in moving :: k.(entity := drop) in DedupedEmb(emb, keep, drop)
    ensures var deduped := DedupedEmb(emb, keep, drop);
            (map k | k in deduped && k.entity != drop :: deduped[k])
              + (map k | k in moving :: deduped[k.(entity := drop)])
            == MergedEmb(emb, keep, drop)
  {
  }

  /** After the moves nothing hangs off drop, and keep only gains if it is live or drop is bare. */
  lemma NothingLeftOn(t: Tables, keep: EntityId, drop: EntityId)
    requires Constraints(t) && keep != drop
    ensures forall r | r in MergedExt(t.ext, keep, drop) :: r.entity != drop
    ensures forall k | k in MergedEmb(t.emb, keep, drop) :: k.entity != drop
    ensures forall e | e in MergedEdges(t.edges, keep, drop) ::
              MergedEdges(t.edges, keep, drop)[e].from != drop && MergedEdges(t.edges, keep, drop)[e].to != drop
    ensures keep !in t.entities
            ==> ((exists k :: k in MovedKeys(t.emb, keep, drop)) <==> (exists k :: k in t.emb && k.entity == drop))
  {
    MergedExtKeys(t.ext, keep, drop);
    assert forall k | k in MovedKeys(t.emb, keep, drop) :: k.entity == keep;
    if keep !in t.entities && exists k :: k in t.emb && k.entity == drop {
      var k :| k in t.emb && k.entity == drop;
      assert k.(entity := keep).entity == keep;
      assert k.(entity := keep) in MovedKeys(t.emb, keep, drop);
    }
  }

  lemma BareDelete(t: Tables, id: EntityId)
    requires forall r | r in t.ext :: r.entity != id
    requires forall k | k in t.emb :: k.entity != id
    requires forall e | e in t.edges :: t.edges[e].from != id && t.edges[e].to != id
    ensures DeleteEntity(t, id) == t.(entities := t.entities - {id})
  {
  }

  lemma {:induction false} FoldErrs(log: seq<Fact>, n: nat)
    requires n <= |log| && Fold(log[..n]).Err?
    ensures Fold(log) == Fold(log[..n])
    decreases |log| - n
  {
    if n == |log| {
      assert log[..n] == log;
    } else {
      assert log[..n + 1][..n] == log[..n];
      FoldErrs(log, n + 1);
    }
  }

  /** Whatever the log holds, a fold that goes through breaks no constraint. */
  lemma FoldKeepsConstraints(t: Tables, f: Fact)
    requires Constraints(t) && FoldFact(t, f).Ok?
    ensures Constraints(FoldFact(t, f).value)
  {
    match f.payload
    case EntityAsserted(e) => UpsertKeeps(t, e, f.createdAt);
    case EntityMerged(keep, drop) =>
      if keep != drop {
        NothingLeftOn(t, keep, drop);
        MergedExtKeys(t.ext, keep, drop);
      }
    case _ =>
  }

  class Sqlite {
    const cfg: Config
    var log: seq<Fact>
    var entities: map<EntityId, EntityRow>
    var ext: set<ExtRow>
    var emb: map<EmbKey, Vector>
    var edges: map<EdgeId, EdgeRow>
    var fts: seq<FtsRow>

    function T(): Tables
      reads this
    {
      Tables(entities, ext, emb, edges, fts)
    }

    function Current(): Db
      reads this
    {
      Db(log, T())
    }

    constructor (cfg: Config)
      ensures this.cfg == cfg && Current() == EMPTY_DB
    {
      this.cfg := cfg;
      log, entities, ext, emb, edges, fts := [], map[], {}, map[], map[], [];
    }

    /** tx.Rollback: everything since BeginTx is undone. */
    method Rollback(saved: Db)
      modifies this
      ensures Current() == saved
    {
      log := saved.log;
      entities, ext, emb, edges, fts := saved.t.entities, saved.t.ext, saved.t.emb, saved.t.edges, saved.t.fts;
    }

    /** Afterwards the entity has exactly the one row its stored props give, or none if it is gone,
        and every other entity has the rows it had. */
    method SyncEntityFTS(id: EntityId)
      modifies `fts
      ensures fts == SyncFts(old(T()), id)
      ensures RowsFor(fts, id) == if id in entities then [RowText(entities[id])] else []
      ensures forall other | other != id :: RowsFor(fts, other) == RowsFor(old(fts), other)
    {
      ghost var rows := fts;
      fts := DropRows(fts, id);
      forall x ensures RowsFor(fts, x) == if x == id then [] else RowsFor(rows, x) {
        RowsAfterDrop(rows, id, x);
      }
      if id in entities {
        ghost var kept := fts;
        fts := fts + [FtsRow(id, TextOf(entities[id].typ, entities[id].props))];
        forall x ensures RowsFor(fts, x) == RowsFor(kept, x) + if x == id then [RowText(entities[id])] else [] {
          RowsAfterAppend(kept, FtsRow(id, RowText(entities[id])), x);
        }
        assert RowsFor(kept, id) == [];
      }
    }

    method UpsertEntitySnapshot(e: Entity, ts: Time) returns (err: Option<Error>)
      modifies this
      ensures log == old(log)
      ensures match UpsertEntity(old(T()), e, ts)
              case Ok(t) => err == None && T() == t
              case Err(x) => err == Some(x)
    {
      err := PutRow(e, ts);
      if err.Some? {
        return;
      }
      InsertExternalIds(e.id, e.space, e.externalIds);
      ReplaceEmbeddings(e.id, e.embeddings);
      SyncEntityFTS(e.id);
    }

    /** The entity's own row: inserted, patched, or only touched. */
    method PutRow(e: Entity, ts: Time) returns (err: Option<Error>)
      modifies `entities
      ensures err == if e.props.Malformed? || (e.id !in old(entities) && !Insertable(e, ts))
                     then Some(Constraint) else None
      ensures entities == if err.Some? then old(entities)
                          else if e.id in old(entities)
                          then old(entities)[e.id := AttachedRow(old(entities)[e.id], e.props, ts)]
                          else old(entities)[e.id := NewRow(e, ts)]
    {
      var p := NormalizeProvenance(e.prov, ts);
      if e.id !in entities {
        var props := e.props;
        if props.Absent? {
          props := Doc(JObj(map[]));
        }
        if props.Malformed? || !e.visibility.Valid() || !(p.how.Asserted? || p.how.Inferred?) {
          return Some(Constraint);
        }
        entities := entities[e.id := EntityRow(e.typ, props.value, e.space, e.owner, e.visibility, p, ts, ts)];
      } else if !e.props.Absent? {
        if e.props.Malformed? {
          return Some(Constraint);
        }
        var row := entities[e.id];
        entities := entities[e.id := row.(props := MergePatch(e.props.value, row.props), updatedAt := ts)];
      } else {
        entities := entities[e.id := entities[e.id].(updatedAt := ts)];
      }
      err := None;
    }

    method InsertExternalIds(id: EntityId, space: SpaceId, xs: seq<ExternalId>)
      modifies `ext
      ensures ext == InsertKeys(old(ext), id, space, xs)
    {
      for i := 0 to |xs|
        invariant ext == InsertKeys(old(ext), id, space, xs[..i])
      {
        assert xs[..i + 1][..i] == xs[..i];
        if !Carries(ext, id, xs[i].Key()) && !Taken(ext, space, xs[i].Key()) {
          ext := ext + {ExtRow(id, xs[i], xs[i].Key(), space)};
        }
      }
      assert xs[..|xs|] == xs;
    }

    method ReplaceEmbeddings(id: EntityId, es: seq<Embedding>)
      modifies `emb
      ensures emb == PutVectors(old(emb), id, es)
    {
      for i := 0 to |es|
        invariant emb == PutVectors(old(emb), id, es[..i])
      {
        assert es[..i + 1][..i] == es[..i];
        emb := emb[EmbKey(id, es[i].model, es[i].field) := es[i].vector];
      }
      assert es[..|es|] == es;
    }

    method UpsertEdgeSnapshot(ed: Edge, ts: Time) returns (err: Option<Error>)
      modifies `edges
      ensures match UpsertEdge(old(T()), ed, ts)
              case Ok(t) => err == None && T() == t
              case Err(x) => err == Some(x) && T() == old(T())
    {
      var p := NormalizeProvenance(ed.prov, ts);
      var props: Option<Json> := None;
      if !ed.props.Absent? {
        if ed.props.Malformed? {
          return Some(Constraint);
        }
        props := Some(ed.props.value);
      }
      if ed.from !in entities || ed.to !in entities || !ed.visibility.Valid() || !(p.how.Asserted? || p.how.Inferred?) {
        return Some(Constraint);
      }
      edges := edges[ed.id := EdgeRow(ed.predicate_, ed.from, ed.to, props, ed.space, ed.owner, ed.visibility, p, ts)];
      err := None;
    }

    method DeleteEntityRow(id: EntityId)
      modifies this
      ensures log == old(log) && T() == DeleteEntity(old(T()), id)
    {
      entities := entities - {id};
      ext := set r | r in ext && r.entity != id;
      emb := map k | k in emb && k.entity != id :: emb[k];
      edges := map e | e in edges && edges[e].from != id && edges[e].to != id :: edges[e];
    }

    method InsertFact(subject: string, payload: Payload, writer: WriterId, key: string, actor: PrincipalId, ts: Time)
      returns (err: Option<Error>)
      modifies `log
      ensures if Logged(old(log), writer, key) then err == Some(DuplicateFact) && log == old(log)
              else err == None && log == old(log) + [Fact(subject, writer, key, Wire(payload), actor, ts)]
    {
      if exists f | f in log :: f.writer == writer && f.dedupeKey == key {
        return Some(DuplicateFact);
      }
      log := log + [Fact(subject, writer, key, Wire(payload), actor, ts)];
      err := None;
    }

    /** The statement list of a merge. With both entities live no statement can fail. */
    method MergeEntitiesTx(keep: EntityId, drop: EntityId, ts: Time) returns (err: Option<Error>)
      requires Constraints(T())
      modifies this
      ensures log == old(log)
      ensures match Spec.MergeEntities(old(T()), keep, drop, ts)
              case Ok(t) => err == None && T() == t
              case Err(x) => err == Some(x)
    {
      if keep == drop {
        return None;
      }
      NothingLeftOn(T(), keep, drop);
      err := MoveExternalIds(keep, drop);
      if err.Some? {
        return;
      }
      err := MoveEmbeddings(keep, drop);
      if err.Some? {
        return;
      }
      err := MoveEdges(keep, drop);
      if err.Some? {
        return;
      }
      BareDelete(T(), drop);
      DeleteEntityRow(drop);
      fts := DropRows(fts, drop);
      if keep in entities {
        entities := entities[keep := entities[keep].(updatedAt := ts)];
      }
    }

    /** Delete drop's rows whose key keep already has, then re-point the rest. */
    method MoveExternalIds(keep: EntityId, drop: EntityId) returns (err: Option<Error>)
      requires keep != drop && Constraints(T())
      modifies `ext
      ensures if keep !in entities && exists r :: r in old(ext) && r.entity == drop then err == Some(Constraint)
              else err == None && ext == MergedExt(old(ext), keep, drop)
    {
      var taken := set r | r in ext && r.entity == keep :: r.key;
      TakenKeys(ext, keep, drop);
      ext := set r | r in ext && !(r.entity == drop && r.key in taken);
      if keep !in entities && exists r | r in ext :: r.entity == drop {
        return Some(Constraint);
      }
      if exists r, q | r in ext && q in ext :: r.entity == drop && q.entity == keep && r.key == q.key {
        assert false;
        return Some(Constraint);
      }
      ext := set r | r in ext :: r.(entity := if r.entity == drop then keep else r.entity);
      DedupedMoves(old(ext), keep, drop);
      err := None;
    }

    method MoveEmbeddings(keep: EntityId, drop: EntityId) returns (err: Option<Error>)
      requires keep != drop
      modifies `emb
      ensures if keep !in entities && exists k :: k in MovedKeys(old(emb), keep, drop) then err == Some(Constraint)
              else err == None && emb == MergedEmb(old(emb), keep, drop)
    {
      DedupedSlots(emb, keep, drop);
      emb := map k | k in emb && !(k.entity == drop && k.(entity := keep) in emb) :: emb[k];
      var moving := set k | k in emb && k.entity == drop :: k.(entity := keep);
      if keep !in entities && moving != {} {
        var k :| k in moving;
        assert k in MovedKeys(old(emb), keep, drop);
        return Some(Constraint);
      }
      DedupedSlotsMove(old(emb), keep, drop, moving);
      emb := (map k | k in emb && k.entity != drop :: emb[k]) + (map k | k in moving :: emb[k.(entity := drop)]);
      err := None;
    }

    method MoveEdges(keep: EntityId, drop: EntityId) returns (err: Option<Error>)
      modifies `edges
      ensures if keep !in entities
                 && exists e :: e in old(edges) && (old(edges)[e].from == drop || old(edges)[e].to == drop)
              then err == Some(Constraint)
              else err == None && edges == MergedEdges(old(edges), keep, drop)
    {
      if keep !in entities && exists e | e in edges :: edges[e].from == drop {
        return Some(Constraint);
      }
      edges := map e | e in edges :: if edges[e].from == drop then edges[e].(from := keep) else edges[e];
      assert forall e | e in edges :: edges[e].to == old(edges)[e].to;
      if keep !in entities && exists e | e in edges :: edges[e].to == drop {
        return Some(Constraint);
      }
      edges := map e | e in edges :: if edges[e].to == drop then edges[e].(to := keep) else edges[e];
      BothEndsMove(old(edges), keep, drop);
      err := None;
    }

    // ---- reads of the resolve step ----

    /** Every embedding of the model is scored; the best per entity is kept, sorted and cut. The
        rows and the score map come in whatever order the engine and Go's map walk give. */
    method KnnByModel(model: string, typ: string, af: Option<Access.Filter>, query: Vector, limit: int)
      returns (out: seq<ScoredMatch>)
      ensures out == FilteredKnn(cfg, T(), model, typ, af, query, limit)
    {
      var best := Accumulate(cfg.sim, emb, FilteredRows(T(), model, typ, af), query);
      out := WalkScores(best);
      out := SortAndCut(best, out, limit);
    }

    /** Row by row, the best score per entity. */
    static method Accumulate(
      sim: (Vector, Vector) -> real, emb: map<EmbKey, Vector>, rows: set<EmbKey>, query: Vector)
      returns (best: map<EntityId, real>)
      requires rows <= emb.Keys
      ensures best == BestScores(sim, emb, rows, query)
    {
      best := map[];
      var left := rows;
      assert rows - left == {};
      while left != {}
        invariant left <= rows && best == BestScores(sim, emb, rows - left, query)
        decreases |left|
      {
        var k :| k in left;
        BestScoresStep(sim, emb, rows - left, query, k);
        assert rows - (left - {k}) == (rows - left) + {k};
        left := left - {k};
        var c := sim(query, emb[k]);
        if k.entity !in best || c > best[k.entity] {
          best := best[k.entity := c];
        }
      }
      assert rows - left == rows;
    }

    static method SortAndCut(best: map<EntityId, real>, walked: seq<ScoredMatch>, limit: int)
      returns (out: seq<ScoredMatch>)
      requires Distinct(walked) && forall m :: m in walked <==> m in Items(best)
      ensures out == Top(Ranked(best), limit)
    {
      WalkOrderIrrelevant(best, walked);
      out := SortSlice(RankLe, walked);
      if limit > 0 && |out| > limit {
        out := out[..limit];
      }
    }

    static method WalkScores(best: map<EntityId, real>) returns (out: seq<ScoredMatch>)
      ensures Distinct(out) && forall m :: m in out <==> m in Items(best)
    {
      out := [];
      var left := best.Keys;
      while left != {}
        invariant left <= best.Keys && Distinct(out)
        invariant forall m :: m in out <==> m.id in best && m.id !in left && m.score == best[m.id]
        decreases |left|
      {
        var id :| id in left;
        left := left - {id};
        out := out + [ScoredMatch(id, best[id])];
      }
      ItemsMembership(best);
    }

    // ---- writes ----

    /** Assert the snapshot and log it. */
    method AssertEntity(in_: EntityInput, c: Entity, id: EntityId, key: string, ts: Time) returns (err: Option<Error>)
      modifies this
      ensures match Emit(old(Current()), AssertEmission(in_, c, id, key), ts)
              case Ok(db) => err == None && Current() == db
              case Err(x) => err == Some(x)
    {
      err := UpsertEntitySnapshot(c.(id := id), ts);
      if err.None? {
        err := InsertFact(id, EntityAsserted(c.(id := id)), in_.writer, key, in_.actor, ts);
      }
    }

    /** Fold drop into keep and log it. */
    method MergeAndLog(keep: EntityId, drop: EntityId, writer: WriterId, key: string, actor: PrincipalId, ts: Time)
      returns (err: Option<Error>)
      requires Constraints(T())
      modifies this
      ensures match Emit(old(Current()), Emission(drop, EntityMerged(keep, drop), writer, key, actor), ts)
              case Ok(db) => err == None && Current() == db
              case Err(x) => err == Some(x)
    {
      err := MergeEntitiesTx(keep, drop, ts);
      if err.None? {
        err := InsertFact(drop, EntityMerged(keep, drop), writer, key, actor, ts);
      }
    }

    /** Every one of these into keep, in order, each logged. */
    method MergeAll(
      keep: EntityId, drops: seq<EntityId>, writer: WriterId, key: string, actor: PrincipalId, ts: Time)
      returns (err: Option<Error>)
      requires Constraints(T()) && keep in entities && keep !in drops && Distinct(drops)
      requires forall id | id in drops :: id in entities
      modifies this
      ensures match EmitAll(old(Current()), MergeEmissions(keep, drops, writer, key, actor), ts)
              case Ok(db) => err == None && Current() == db && Constraints(T())
              case Err(x) => err == Some(x)
    {
      ghost var start := Current();
      for i := 0 to |drops|
        invariant Constraints(T())
        invariant EmitAll(start, MergeEmissions(keep, drops[..i], writer, key, actor), ts) == Ok(Current())
      {
        MergeListStep(start, keep, drops, i, writer, key, actor, ts);
        err := MergeAndLog(keep, drops[i], writer, MergeKey(key, drops[i]), actor, ts);
        if err.Some? {
          return;
        }
        MergeListConstraints(start, keep, drops[..i + 1], writer, key, actor, ts);
      }
      assert drops[..|drops|] == drops;
      err := None;
    }

    /** The merge branch: every later target into the first, then the candidate onto it. */
    method MergeThenAssert(
      in_: EntityInput, c: Entity, targets: seq<EntityId>, key: string, ts: Time) returns (err: Option<Error>)
      requires Constraints(T()) && |targets| >= 2 && Distinct(targets) && forall id | id in targets :: id in entities
      modifies this
      ensures match EmitAll(old(Current()), MergeEmissions(targets[0], targets[1..], in_.writer, key, in_.actor)
                                            + [AssertEmission(in_, c, targets[0], key)], ts)
              case Ok(db) => err == None && Current() == db
              case Err(x) => err == Some(x)
    {
      ghost var start := Current();
      ghost var merges := MergeEmissions(targets[0], targets[1..], in_.writer, key, in_.actor);
      assert targets == [targets[0]] + targets[1..];
      EmitAllSnoc(start, merges, AssertEmission(in_, c, targets[0], key), ts);
      err := MergeAll(targets[0], targets[1..], in_.writer, key, in_.actor, ts);
      if err.Some? {
        return;
      }
      err := AssertEntity(in_, c, targets[0], key, ts);
    }

    /** Insert, and in the review band leave an inferred sameAs? edge to the near-duplicate. */
    method InsertAndFlag(in_: EntityInput, c: Entity, d: Decision, key: string, tick: Tick) returns (err: Option<Error>)
      requires d.InsertNew? || d.InsertFlagged?
      modifies this
      ensures match EmitAll(old(Current()), EntityScript(in_, c, d, key, tick), tick.now)
              case Ok(db) => err == None && Current() == db
              case Err(x) => err == Some(x)
    {
      ghost var start := Current();
      ghost var main := AssertEmission(in_, c, tick.entityId, key);
      OneEmission(start, main, tick.now);
      err := AssertEntity(in_, c, tick.entityId, key, tick.now);
      if d.InsertFlagged? && d.flagTo != "" {
        var edge := FlagEdge(in_, c, d.flagTo, d.flagScore, tick);
        var flagKey := key + "|sameas|" + d.flagTo;
        ghost var flag := Emission(edge.id, EdgeAsserted(edge), in_.writer, flagKey, in_.actor);
        assert EntityScript(in_, c, d, key, tick) == [main] + [flag];
        EmitAllSnoc(start, [main], flag, tick.now);
        if err.None? {
          err := UpsertEdgeSnapshot(edge, tick.now);
          if err.None? {
            err := InsertFact(edge.id, EdgeAsserted(edge), in_.writer, flagKey, in_.actor, tick.now);
          }
        }
      }
    }

    method AppendEntityFact(in_: EntityInput, tick: Tick) returns (outcome: Outcome)
      requires Constraints(T())
      modifies this
      ensures (Current(), outcome) == AppendEntity(cfg, old(Current()), in_, tick)
    {
      if in_.candidate.typ !in ALLOWED_TYPES || !in_.candidate.visibility.Valid() {
        return Rejected(InvalidInput);
      }
      var policy := in_.policy;
      if policy.UnsetPolicy? {
        policy := Auto;
      }
      if !policy.Valid() {
        return Rejected(InvalidPolicy);
      }
      var c := in_.candidate.(prov := NormalizeProvenance(in_.candidate.prov, tick.asserted));
      var key := EntityKey(cfg, in_, tick);
      var saved := Current();

      match Prior(log, in_.writer, key, true) {
        case Some(subject) =>
          return if subject in entities then Replayed(subject) else Rejected(NotFound);
        case None =>
      }
      var hits := ExternalHits(T(), c.space, Keys(c.externalIds));
      var neighbors: seq<ScoredMatch> := [];
      if policy.Auto? && hits == [] && c.embeddings != [] {
        neighbors := KnnByModel(c.embeddings[0].model, c.typ, None, c.embeddings[0].vector, 5);
        UnfilteredIsKnn(cfg, T(), c.embeddings[0].model, c.typ, c.embeddings[0].vector, 5);
      }
      var decided := Decide(hits, neighbors, policy, cfg.th);
      if decided.Err? {
        return Rejected(decided.error);
      }
      var d := decided.value;
      assert decided == EntityDecision(cfg, T(), c, policy);
      DecisionSound(cfg, T(), c, policy);
      var err: Option<Error>;
      match d {
        case InsertNew => err := InsertAndFlag(in_, c, d, key, tick);
        case InsertFlagged(_, _) => err := InsertAndFlag(in_, c, d, key, tick);
        case Attach(target, _) =>
          OneEmission(saved, AssertEmission(in_, c, target, key), tick.now);
          err := AssertEntity(in_, c, target, key, tick.now);
        case Merge(targets) => err := MergeThenAssert(in_, c, targets, key, tick.now);
      }
      if err.Some? {
        Rollback(saved);
        return Rejected(err.value);
      }
      outcome := Accepted(DecisionTarget(d, tick));
    }

    method AppendEdgeFact(in_: EdgeInput, tick: Tick) returns (outcome: Outcome)
      modifies this
      ensures (Current(), outcome) == AppendEdge(old(Current()), in_, tick)
    {
      if in_.edge.predicate_ !in ALLOWED_PREDICATES || !in_.edge.visibility.Valid() {
        return Rejected(InvalidInput);
      }
      var ed := StampedEdge(in_, tick);
      var saved := Current();
      match Prior(log, in_.writer, EdgeKey(in_), false) {
        case Some(subject) =>
          return if subject in edges then Replayed(subject) else Rejected(NotFound);
        case None =>
      }
      var err := UpsertEdgeSnapshot(ed, tick.now);
      if err.None? {
        err := InsertFact(ed.id, EdgeAsserted(ed), in_.writer, EdgeKey(in_), in_.actor, tick.now);
      }
      if err.Some? {
        Rollback(saved);
        return Rejected(err.value);
      }
      outcome := Accepted(ed.id);
    }

    method MergeEntities(
      keep: EntityId, drop: EntityId, actor: PrincipalId, key: string, now: Time) returns (outcome: Outcome)
      requires Constraints(T())
      modifies this
      ensures (Current(), outcome) == MergeDirect(old(Current()), keep, drop, actor, key, now)
    {
      var k := if key == "" then keep + "|merge|" + drop else key;
      var saved := Current();
      if keep !in entities || drop !in entities {
        return Rejected(NotFound);
      }
      var err := MergeAndLog(keep, drop, actor, k, actor, now);
      if err.Some? {
        Rollback(saved);
        return Rejected(err.value);
      }
      outcome := Accepted(drop);
    }

    method RetractEntity(id: EntityId, actor: PrincipalId, key: string, now: Time) returns (outcome: Outcome)
      modifies this
      ensures (Current(), outcome) == Store.RetractEntity(old(Current()), id, actor, key, now)
    {
      var k := if key == "" then id + "|retract" else key;
      var saved := Current();
      DeleteEntityRow(id);
      fts := DropRows(fts, id);
      var err := InsertFact(id, EntityRetracted, actor, k, actor, now);
      if err.Some? {
        Rollback(saved);
        return Rejected(err.value);
      }
      outcome := Accepted(id);
    }

    method RetractEdge(id: EdgeId, actor: PrincipalId, key: string, now: Time) returns (outcome: Outcome)
      modifies this
      ensures (Current(), outcome) == Store.RetractEdge(old(Current()), id, actor, key, now)
    {
      var k := if key == "" then id + "|retract" else key;
      var saved := Current();
      edges := edges - {id};
      var err := InsertFact(id, EdgeRetracted, actor, k, actor, now);
      if err.Some? {
        Rollback(saved);
        return Rejected(err.value);
      }
      outcome := Accepted(id);
    }

    // ---- rebuild ----

    method FoldOne(f: Fact) returns (err: Option<Error>)
      requires Constraints(T())
      modifies this
      ensures log == old(log)
      ensures match FoldFact(old(T()), f)
              case Ok(t) => err == None && T() == t
              case Err(x) => err == Some(x)
    {
      match f.payload {
        case EntityAsserted(e) => err := UpsertEntitySnapshot(e, f.createdAt);
        case EntityRetracted =>
          DeleteEntityRow(f.subject);
          err := None;
        case EdgeAsserted(ed) => err := UpsertEdgeSnapshot(ed, f.createdAt);
        case EdgeRetracted =>
          edges := edges - {f.subject};
          err := None;
        case EntityMerged(keep, drop) => err := MergeEntitiesTx(keep, drop, f.createdAt);
      }
    }

    /** Clear the projection and fold the log over it. */
    method RebuildProjection() returns (outcome: Outcome)
      modifies this
      ensures (Current(), outcome) == Rebuild(old(Current()))
    {
      var saved := Current();
      edges, emb, ext, fts, entities := map[], map[], {}, [], map[];
      for i := 0 to |log|
        invariant log == saved.log && Fold(log[..i]) == Ok(T()) && Constraints(T())
      {
        var f := log[i];
        assert log[..i + 1][..i] == log[..i];
        ghost var before := T();
        var err := FoldOne(f);
        if err.Some? {
          FoldErrs(saved.log, i + 1);
          Rollback(saved);
          return Rejected(err.value);
        }
        FoldKeepsConstraints(before, f);
      }
      assert log[..|log|] == log;
      outcome := Accepted("");
    }
  }
}
