/** The vector search with an access filter: rows the caller may not read are left out before
    anything is scored, so the answer is the exact top of what the caller can read. */
module Search {
  import opened Domain
  import opened Order
  import opened Resolve
  import opened Tables
  import opened Store
  import opened Access

  /** The columns of an entity row the WHERE fragment reads. */
  function EntityColumns(t: Tables, id: EntityId): Row
    requires id in t.entities
  {
    var row := t.entities[id];
    (c: Col) =>
      match c.name
      case IdCol => id
      case VisibilityCol => VisText(row.visibility)
      case SpaceCol => row.space
      case OwnerCol => row.owner
      case TypeCol => row.typ
      case _ => ""
  }

  predicate PassesFilter(t: Tables, af: Option<Filter>, id: EntityId) {
    id in t.entities && (af.Some? ==> Admits(af.value, NodeAlias, true, EntityColumns(t, id)))
  }

  /** The rows the query scans, under an optional filter. */
  function FilteredRows(t: Tables, model: string, typ: string, af: Option<Filter>): set<EmbKey> {
    set k | k in ModelRows(t, model, typ) && PassesFilter(t, af, k.entity)
  }

  function FilteredKnn(
    cfg: Config, t: Tables, model: string, typ: string, af: Option<Filter>, query: Vector,
    limit: int): seq<ScoredMatch> {
    Top(Ranked(BestScores(cfg.sim, t.emb, FilteredRows(t, model, typ, af), query)), limit)
  }

  /** Without a filter it is the lookup of the resolve step. */
  lemma UnfilteredIsKnn(cfg: Config, t: Tables, model: string, typ: string, query: Vector, limit: int)
    ensures FilteredKnn(cfg, t, model, typ, None, query, limit) == Knn(cfg, t, model, typ, query, limit)
  {
    assert FilteredRows(t, model, typ, None) == ModelRows(t, model, typ);
  }

  /** An embedding of the model, of a readable entity of the type (any, when none is asked for). */
  predicate Candidate(t: Tables, denyTypes: seq<string>, caller: Caller, model: string, typ: string, k: EmbKey) {
    && k in t.emb && k.model == model && k.entity in t.entities
    && (typ == "" || t.entities[k.entity].typ == typ)
    && CanRead(denyTypes, caller, GuardOf(t.entities[k.entity]))
  }

  lemma FilterReads(t: Tables, denyTypes: seq<string>, caller: Caller, id: EntityId)
    requires id in t.entities && t.entities[id].visibility.Valid()
    ensures PassesFilter(t, Some(FilterFor(denyTypes, caller)), id)
            <==> CanRead(denyTypes, caller, GuardOf(t.entities[id]))
  {
    FilterIsCanRead(denyTypes, caller, GuardOf(t.entities[id]), NodeAlias, EntityColumns(t, id));
  }

  /** The best score of an entity over its readable candidates. */
  ghost predicate IsBest(
    cfg: Config, t: Tables, denyTypes: seq<string>, caller: Caller, model: string, typ: string, query: Vector,
    m: ScoredMatch)
  {
    && (exists k | k in t.emb ::
          Candidate(t, denyTypes, caller, model, typ, k) && k.entity == m.id && cfg.sim(query, t.emb[k]) == m.score)
    && (forall k | Candidate(t, denyTypes, caller, model, typ, k) && k.entity == m.id ::
          cfg.sim(query, t.emb[k]) <= m.score)
  }

  lemma BestIsGreatest(
    sim: (Vector, Vector) -> real, emb: map<EmbKey, Vector>, rows: set<EmbKey>, query: Vector, id: EntityId)
    requires rows <= emb.Keys
    ensures var best := BestScores(sim, emb, rows, query);
            && (id in best <==> exists k :: k in rows && k.entity == id)
            && (id in best ==> best[id] in ScoresOf(sim, emb, rows, query, id))
            && (id in best ==> forall x | x in ScoresOf(sim, emb, rows, query, id) :: best[id] >= x)
            && (id !in best ==> ScoresOf(sim, emb, rows, query, id) == {})
  {
    RealOrder();
  }

  /** Greater scores first, equal ones by id. */
  predicate BestFirst(ms: seq<ScoredMatch>) {
    forall i, j | 0 <= i < j < |ms| ::
      ms[i].score > ms[j].score || (ms[i].score == ms[j].score && TextLe(ms[i].id, ms[j].id))
  }

  /** Under a caller's filter and no limit the search lists exactly the entities the caller can read
      that have an embedding of the model and type, each once with its best score, best first and
      equal scores by id; a limit keeps the first of them. */
  lemma FilteredKnnIsExact(
    cfg: Config, t: Tables, denyTypes: seq<string>, caller: Caller, model: string, typ: string, query: Vector,
    limit: int)
    requires forall id | id in t.entities :: t.entities[id].visibility.Valid()
    ensures var all := FilteredKnn(cfg, t, model, typ, Some(FilterFor(denyTypes, caller)), query, 0);
      && BestFirst(all) && Distinct(all)
      && (forall m :: m in all <==> IsBest(cfg, t, denyTypes, caller, model, typ, query, m))
      && FilteredKnn(cfg, t, model, typ, Some(FilterFor(denyTypes, caller)), query, limit)
         == if 0 < limit < |all| then all[..limit] else all
  {
    var af := Some(FilterFor(denyTypes, caller));
    var rows := FilteredRows(t, model, typ, af);
    var best := BestScores(cfg.sim, t.emb, rows, query);
    RankedIsExact(best);
    forall k ensures k in rows <==> Candidate(t, denyTypes, caller, model, typ, k) {
      if k in t.emb && k.entity in t.entities {
        FilterReads(t, denyTypes, caller, k.entity);
      }
    }
    forall m ensures m in Ranked(best) <==> IsBest(cfg, t, denyTypes, caller, model, typ, query, m) {
      RankedIsBest(cfg, t, denyTypes, caller, model, typ, rows, query, m);
    }
  }

  lemma RankedIsBest(
    cfg: Config, t: Tables, denyTypes: seq<string>, caller: Caller, model: string, typ: string, rows: set<EmbKey>,
    query: Vector, m: ScoredMatch)
    requires rows <= t.emb.Keys && forall k :: k in rows <==> Candidate(t, denyTypes, caller, model, typ, k)
    ensures var best := BestScores(cfg.sim, t.emb, rows, query);
      m in Ranked(best) <==> IsBest(cfg, t, denyTypes, caller, model, typ, query, m)
  {
    var best := BestScores(cfg.sim, t.emb, rows, query);
    var scores := ScoresOf(cfg.sim, t.emb, rows, query, m.id);
    RankedIsExact(best);
    BestIsGreatest(cfg.sim, t.emb, rows, query, m.id);
    if m.id in best && m.score == best[m.id] {
      var k :| k in rows && k.entity == m.id && cfg.sim(query, t.emb[k]) == m.score;
      assert forall k | k in rows && k.entity == m.id :: cfg.sim(query, t.emb[k]) in scores;
    }
    if IsBest(cfg, t, denyTypes, caller, model, typ, query, m) {
      var k :| k in t.emb && Candidate(t, denyTypes, caller, model, typ, k) && k.entity == m.id
               && cfg.sim(query, t.emb[k]) == m.score;
      assert k in rows && m.score in scores;
    }
  }
}
