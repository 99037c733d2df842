/** The projection tables, their key and foreign-key constraints, and what one fact
    does to them. These are specifications: the store's statement-by-statement code
    (SqliteStore) is proved against them. */
module Tables {
  import opened Json
  import opened Domain

  datatype EntityRow = EntityRow(
    typ: string, props: Json, space: SpaceId, owner: PrincipalId, visibility: Visibility,
    prov: Provenance, createdAt: Time, updatedAt: Time)

  datatype ExtRow = ExtRow(entity: EntityId, xid: ExternalId, key: string, space: SpaceId)

  datatype EmbKey = EmbKey(entity: EntityId, model: string, field: string)

  datatype EdgeRow = EdgeRow(
    predicate_: string, from: EntityId, to: EntityId, props: Option<Json>,
    space: SpaceId, owner: PrincipalId, visibility: Visibility, prov: Provenance, createdAt: Time)

  /** The indexed text: the type and every non-empty top-level string, in no fixed order. */
  datatype SearchText = SearchText(typ: string, values: map<string, string>)

  datatype FtsRow = FtsRow(entity: EntityId, text: SearchText)

  datatype Tables = Tables(
    entities: map<EntityId, EntityRow>,
    ext: set<ExtRow>,
    emb: map<EmbKey, Vector>,
    edges: map<EdgeId, EdgeRow>,
    fts: seq<FtsRow>)

  const EMPTY: Tables := Tables(map[], {}, map[], map[], [])

  // ---- constraints ----

  /** PRIMARY KEY (entity_id, key) and UNIQUE (space, key). */
  ghost predicate ExtKeys(ext: set<ExtRow>) {
    forall r, q | r in ext && q in ext && r.key == q.key && (r.entity == q.entity || r.space == q.space) :: r == q
  }

  ghost predicate ForeignKeys(t: Tables) {
    && (forall r | r in t.ext :: r.entity in t.entities)
    && (forall k | k in t.emb :: k.entity in t.entities)
    && (forall e | e in t.edges :: t.edges[e].from in t.entities && t.edges[e].to in t.entities)
  }

  ghost predicate Constraints(t: Tables) {
    ExtKeys(t.ext) && ForeignKeys(t)
  }

  predicate Carries(ext: set<ExtRow>, id: EntityId, key: string) {
    exists r | r in ext :: r.entity == id && r.key == key
  }

  predicate Taken(ext: set<ExtRow>, space: SpaceId, key: string) {
    exists r | r in ext :: r.space == space && r.key == key
  }

  predicate HasChildren(t: Tables, id: EntityId) {
    || (exists r | r in t.ext :: r.entity == id)
    || (exists k | k in t.emb :: k.entity == id)
    || (exists e | e in t.edges :: t.edges[e].from == id || t.edges[e].to == id)
  }

  // ---- full text ----

  function TextOf(typ: string, props: Json): SearchText {
    SearchText(typ, map k | k in Members(props) && Members(props)[k].JStr? && Members(props)[k].s != "" ::
      Members(props)[k].s)
  }

  function RowText(row: EntityRow): SearchText {
    TextOf(row.typ, row.props)
  }

  function DropRows(fts: seq<FtsRow>, id: EntityId): seq<FtsRow> {
    if fts == [] then []
    else if fts[0].entity == id then DropRows(fts[1..], id)
    else [fts[0]] + DropRows(fts[1..], id)
  }

  function RowsFor(fts: seq<FtsRow>, id: EntityId): seq<SearchText> {
    if fts == [] then []
    else if fts[0].entity == id then [fts[0].text] + RowsFor(fts[1..], id)
    else RowsFor(fts[1..], id)
  }

  lemma {:induction false} RowsAfterDrop(fts: seq<FtsRow>, dropped: EntityId, id: EntityId)
    ensures RowsFor(DropRows(fts, dropped), id) == if id == dropped then [] else RowsFor(fts, id)
  {
    if fts != [] {
      RowsAfterDrop(fts[1..], dropped, id);
      if fts[0].entity != dropped {
        var kept := [fts[0]] + DropRows(fts[1..], dropped);
        assert kept[0] == fts[0] && kept[1..] == DropRows(fts[1..], dropped);
      }
    }
  }

  lemma {:induction false} RowsAfterAppend(fts: seq<FtsRow>, row: FtsRow, id: EntityId)
    ensures RowsFor(fts + [row], id) == RowsFor(fts, id) + if id == row.entity then [row.text] else []
  {
    if fts == [] {
      assert fts + [row] == [row];
    } else {
      RowsAfterAppend(fts[1..], row, id);
      assert (fts + [row])[0] == fts[0] && (fts + [row])[1..] == fts[1..] + [row];
    }
  }

  /** syncEntityFTS: the row is rebuilt from the stored props, or removed with its entity. */
  function SyncFts(t: Tables, id: EntityId): seq<FtsRow> {
    if id in t.entities then DropRows(t.fts, id) + [FtsRow(id, RowText(t.entities[id]))]
    else DropRows(t.fts, id)
  }

  // ---- entity snapshots ----

  /** INSERT OR IGNORE of one external id. */
  function InsertKey(ext: set<ExtRow>, id: EntityId, space: SpaceId, x: ExternalId): set<ExtRow> {
    if Carries(ext, id, x.Key()) || Taken(ext, space, x.Key()) then ext
    else ext + {ExtRow(id, x, x.Key(), space)}
  }

  function InsertKeys(ext: set<ExtRow>, id: EntityId, space: SpaceId, xs: seq<ExternalId>): set<ExtRow> {
    if xs == [] then ext
    else InsertKey(InsertKeys(ext, id, space, xs[..|xs| - 1]), id, space, xs[|xs| - 1])
  }

  /** INSERT OR REPLACE of each embedding, in order. */
  function PutVectors(emb: map<EmbKey, Vector>, id: EntityId, es: seq<Embedding>): map<EmbKey, Vector> {
    if es == [] then emb
    else
      var last := es[|es| - 1];
      PutVectors(emb, id, es[..|es| - 1])[EmbKey(id, last.model, last.field) := last.vector]
  }

  function NewRow(e: Entity, ts: Time): EntityRow {
    EntityRow(e.typ, if e.props.Doc? then e.props.value else JObj(map[]),
              e.space, e.owner, e.visibility, NormalizeProvenance(e.prov, ts), ts, ts)
  }

  function AttachedRow(row: EntityRow, props: RawJson, ts: Time): EntityRow {
    row.(props := if props.Doc? then Union(props.value, row.props) else row.props, updatedAt := ts)
  }

  /** The CHECK constraints an insert must pass. */
  predicate Insertable(e: Entity, ts: Time) {
    var how := NormalizeProvenance(e.prov, ts).how;
    e.visibility.Valid() && (how.Asserted? || how.Inferred?)
  }

  function UpsertEntity(t: Tables, e: Entity, ts: Time): Result<Tables> {
    if e.props.Malformed? || (e.id !in t.entities && !Insertable(e, ts)) then Err(Constraint)
    else
      var row := if e.id in t.entities then AttachedRow(t.entities[e.id], e.props, ts) else NewRow(e, ts);
      var t' := Tables(
        t.entities[e.id := row],
        InsertKeys(t.ext, e.id, e.space, e.externalIds),
        PutVectors(t.emb, e.id, e.embeddings),
        t.edges, t.fts);
      Ok(t'.(fts := SyncFts(t', e.id)))
  }

  /** DELETE FROM entities, with its ON DELETE CASCADE children. */
  function DeleteEntity(t: Tables, id: EntityId): Tables {
    t.(entities := t.entities - {id},
       ext := (set r | r in t.ext && r.entity != id),
       emb := (map k | k in t.emb && k.entity != id :: t.emb[k]),
       edges := (map e | e in t.edges && t.edges[e].from != id && t.edges[e].to != id :: t.edges[e]))
  }

  // ---- edges ----

  predicate EdgeInsertable(t: Tables, ed: Edge, ts: Time) {
    var how := NormalizeProvenance(ed.prov, ts).how;
    && ed.from in t.entities && ed.to in t.entities
    && ed.visibility.Valid() && (how.Asserted? || how.Inferred?) && !ed.props.Malformed?
  }

  function NewEdgeRow(ed: Edge, ts: Time): EdgeRow {
    EdgeRow(ed.predicate_, ed.from, ed.to, if ed.props.Doc? then Some(ed.props.value) else None,
            ed.space, ed.owner, ed.visibility, NormalizeProvenance(ed.prov, ts), ts)
  }

  function UpsertEdge(t: Tables, ed: Edge, ts: Time): Result<Tables> {
    if EdgeInsertable(t, ed, ts) then Ok(t.(edges := t.edges[ed.id := NewEdgeRow(ed, ts)])) else Err(Constraint)
  }

  // ---- merging drop into keep ----

  function Repoint(id: EntityId, keep: EntityId, drop: EntityId): EntityId {
    if id == drop then keep else id
  }

  function MergedExt(ext: set<ExtRow>, keep: EntityId, drop: EntityId): set<ExtRow> {
    set r | r in ext && !(r.entity == drop && Carries(ext, keep, r.key)) :: r.(entity := Repoint(r.entity, keep, drop))
  }

  function MergedEmb(emb: map<EmbKey, Vector>, keep: EntityId, drop: EntityId): map<EmbKey, Vector> {
    (map k | k in emb && k.entity != drop :: emb[k]) +
    (map k: EmbKey | k in MovedKeys(emb, keep, drop) :: emb[k.(entity := drop)])
  }

  /** The (model, field) slots keep takes over: those only drop has filled. */
  function MovedKeys(emb: map<EmbKey, Vector>, keep: EntityId, drop: EntityId): set<EmbKey> {
    set k | k in emb && k.entity == drop && k.(entity := keep) !in emb :: k.(entity := keep)
  }

  function MergedEdges(edges: map<EdgeId, EdgeRow>, keep: EntityId, drop: EntityId): map<EdgeId, EdgeRow> {
    map e | e in edges ::
      edges[e].(from := Repoint(edges[e].from, keep, drop), to := Repoint(edges[e].to, keep, drop))
  }

  function MergeEntities(t: Tables, keep: EntityId, drop: EntityId, ts: Time): Result<Tables> {
    if keep == drop then Ok(t)
    else if keep !in t.entities && HasChildren(t, drop) then Err(Constraint)
    else
      var kept := if keep in t.entities then t.entities[keep := t.entities[keep].(updatedAt := ts)] else t.entities;
      Ok(Tables(kept - {drop}, MergedExt(t.ext, keep, drop), MergedEmb(t.emb, keep, drop),
                MergedEdges(t.edges, keep, drop), DropRows(t.fts, drop)))
  }

  // ---- one fact ----

  /** What an online write does to the tables; a retraction also clears the full-text row. */
  function ApplyLive(t: Tables, subject: string, payload: Payload, ts: Time): Result<Tables> {
    match payload
    case EntityAsserted(e) => UpsertEntity(t, e, ts)
    case EntityRetracted => Ok(DeleteEntity(t, subject).(fts := DropRows(t.fts, subject)))
    case EdgeAsserted(ed) => UpsertEdge(t, ed, ts)
    case EdgeRetracted => Ok(t.(edges := t.edges - {subject}))
    case EntityMerged(keep, drop) => MergeEntities(t, keep, drop, ts)
  }

  /** foldFact: what a rebuild does with one logged fact. */
  function FoldFact(t: Tables, f: Fact): Result<Tables> {
    match f.payload
    case EntityRetracted => Ok(DeleteEntity(t, f.subject))
    case p => ApplyLive(t, f.subject, p, f.createdAt)
  }

  function Fold(log: seq<Fact>): Result<Tables> {
    if log == [] then Ok(EMPTY)
    else
      var t :- Fold(log[..|log| - 1]);
      FoldFact(t, log[|log| - 1])
  }
}
