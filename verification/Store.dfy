/** The store as a state machine: the fact log with its projection, and every write as a
    script of emissions, each of which changes the tables and logs the fact that says so. */
module Store {
  import opened Domain
  import opened Order
  import opened Resolve
  import opened Tables
  import opened DedupeKey

  /** Thresholds, cosine similarity, case folding and the (injective) key digest. */
  datatype Config = Config(
    th: Thresholds, sim: (Vector, Vector) -> real, lower: string -> string, digest: string -> string)

  datatype Db = Db(log: seq<Fact>, t: Tables)

  const EMPTY_DB: Db := Db([], EMPTY)

  datatype EntityInput = EntityInput(
    candidate: Entity, writer: WriterId, dedupeKey: string, actor: PrincipalId, policy: Policy)

  datatype EdgeInput = EdgeInput(edge: Edge, writer: WriterId, dedupeKey: string, actor: PrincipalId)

  /** The clock readings and minted ids one call may use. */
  datatype Tick = Tick(asserted: Time, now: Time, entityId: EntityId, edgeId: EdgeId, randomKey: string)

  datatype Outcome = Accepted(subject: string) | Replayed(subject: string) | Rejected(error: Error)

  // ---- the log ----

  predicate Logged(log: seq<Fact>, writer: WriterId, key: string) {
    exists f | f in log :: f.writer == writer && f.dedupeKey == key
  }

  ghost predicate UniqueKeys(log: seq<Fact>) {
    forall i, j | 0 <= i < j < |log| :: !(log[i].writer == log[j].writer && log[i].dedupeKey == log[j].dedupeKey)
  }

  predicate FreshId(log: seq<Fact>, id: string) {
    forall f | f in log :: f.subject != id
  }

  /** The subject of the first assertion under (writer, key): an entity's or an edge's. */
  function Prior(log: seq<Fact>, writer: WriterId, key: string, entity: bool): Option<string> {
    if log == [] then None
    else
      var last := log[|log| - 1];
      match Prior(log[..|log| - 1], writer, key, entity)
      case Some(s) => Some(s)
      case None =>
        if last.writer == writer && last.dedupeKey == key
           && (if entity then last.payload.EntityAsserted? else last.payload.EdgeAsserted?)
        then Some(last.subject) else None
  }

  // ---- emissions ----

  datatype Emission = Emission(
    subject: string, payload: Payload, writer: WriterId, dedupeKey: string, actor: PrincipalId)

  function FactOf(em: Emission, ts: Time): Fact {
    Fact(em.subject, em.writer, em.dedupeKey, Wire(em.payload), em.actor, ts)
  }

  function Emit(db: Db, em: Emission, ts: Time): Result<Db> {
    var t :- ApplyLive(db.t, em.subject, em.payload, ts);
    if Logged(db.log, em.writer, em.dedupeKey) then Err(DuplicateFact)
    else Ok(Db(db.log + [FactOf(em, ts)], t))
  }

  function EmitAll(db: Db, ems: seq<Emission>, ts: Time): Result<Db> {
    if ems == [] then Ok(db)
    else
      var db' :- EmitAll(db, ems[..|ems| - 1], ts);
      Emit(db', ems[|ems| - 1], ts)
  }

  // ---- reads the resolve decision uses ----

  function Created(entities: map<EntityId, EntityRow>, id: EntityId): Time {
    if id in entities then entities[id].createdAt else ""
  }

  /** ORDER BY created_at, id: both columns compared as text. */
  predicate OlderOrSame(entities: map<EntityId, EntityRow>, x: EntityId, y: EntityId) {
    var cx, cy := Created(entities, x), Created(entities, y);
    if cx == cy then TextLe(x, y) else TextLe(cx, cy)
  }

  function AgeLe(entities: map<EntityId, EntityRow>): (EntityId, EntityId) -> bool {
    (x, y) => OlderOrSame(entities, x, y)
  }

  lemma AgeOrder(entities: map<EntityId, EntityRow>)
    ensures TotalOrder(AgeLe(entities))
  {
    var le := AgeLe(entities);
    forall x, y ensures (le(x, y) || le(y, x)) && (le(x, y) && le(y, x) ==> x == y) {
      TextLeTotal(x, y);
      TextLeTotal(Created(entities, x), Created(entities, y));
    }
    forall x, y, z | le(x, y) && le(y, z) ensures le(x, z) {
      var cx, cy, cz := Created(entities, x), Created(entities, y), Created(entities, z);
      TextLeTotal(cx, cy);
      TextLeTotal(cy, cz);
      if cx == cy == cz {
        TextLeTransitive(x, y, z);
      } else {
        TextLeTransitive(cx, cy, cz);
        TextLeTotal(cx, cz);
      }
    }
  }

  function HitSet(t: Tables, space: SpaceId, keys: seq<string>): set<EntityId> {
    set r | r in t.ext && r.space == space && r.key in keys && r.entity in t.entities :: r.entity
  }

  /** externalHitsTx: the entities holding any of the keys in this space, oldest first. */
  function ExternalHits(t: Tables, space: SpaceId, keys: seq<string>): seq<EntityId> {
    AgeOrder(t.entities);
    SortSet(AgeLe(t.entities), HitSet(t, space, keys))
  }

  /** The rows knnByModel scans: every space, one model, optionally one type. */
  function ModelRows(t: Tables, model: string, typ: string): set<EmbKey> {
    set k | k in t.emb && k.model == model && k.entity in t.entities && (typ == "" || t.entities[k.entity].typ == typ)
  }

  predicate RealGe(x: real, y: real) {
    x >= y
  }

  lemma RealOrder()
    ensures TotalOrder(RealGe)
  {
  }

  function ScoresOf(
    sim: (Vector, Vector) -> real, emb: map<EmbKey, Vector>, rows: set<EmbKey>, query: Vector, id: EntityId): set<real>
    requires rows <= emb.Keys
  {
    set k | k in rows && k.entity == id :: sim(query, emb[k])
  }

  /** The best score per entity over the scanned rows. */
  function BestScores(
    sim: (Vector, Vector) -> real, emb: map<EmbKey, Vector>, rows: set<EmbKey>, query: Vector): map<EntityId, real>
    requires rows <= emb.Keys
  {
    map id | id in (set k | k in rows :: k.entity) :: (
      RealOrder();
      var k :| k in rows && k.entity == id;
      assert sim(query, emb[k]) in ScoresOf(sim, emb, rows, query, id);
      Least(RealGe, ScoresOf(sim, emb, rows, query, id)))
  }

  function Knn(cfg: Config, t: Tables, model: string, typ: string, query: Vector, limit: int): seq<ScoredMatch> {
    Top(Ranked(BestScores(cfg.sim, t.emb, ModelRows(t, model, typ), query)), limit)
  }

  // ---- AppendEntityFact ----

  function EffectivePolicy(p: Policy): Policy {
    if p.UnsetPolicy? then Auto else p
  }

  function EntityKey(cfg: Config, in_: EntityInput, tick: Tick): string {
    var c := in_.candidate;
    if in_.dedupeKey != "" then in_.dedupeKey
    else if RandomKeyNeeded(cfg.lower, c.externalIds, ExtractName(c.props)) then tick.randomKey
    else cfg.digest(DeriveBytes(cfg.lower, c.typ, c.externalIds, ExtractName(c.props)))
  }

  function DecisionNeighbors(cfg: Config, t: Tables, c: Entity, policy: Policy): seq<ScoredMatch> {
    if policy.Auto? && ExternalHits(t, c.space, Keys(c.externalIds)) == [] && c.embeddings != []
    then Knn(cfg, t, c.embeddings[0].model, c.typ, c.embeddings[0].vector, 5)
    else []
  }

  function EntityDecision(cfg: Config, t: Tables, c: Entity, policy: Policy): Result<Decision> {
    Decide(ExternalHits(t, c.space, Keys(c.externalIds)), DecisionNeighbors(cfg, t, c, policy), policy, cfg.th)
  }

  function AssertEmission(in_: EntityInput, c: Entity, id: EntityId, key: string): Emission {
    Emission(id, EntityAsserted(c.(id := id)), in_.writer, key, in_.actor)
  }

  function MergeKey(key: string, drop: EntityId): string {
    key + "|merge|" + drop
  }

  function MergeEmissions(
    keep: EntityId, drops: seq<EntityId>, writer: WriterId, key: string, actor: PrincipalId): seq<Emission> {
    seq(|drops|, i requires 0 <= i < |drops| =>
      Emission(drops[i], EntityMerged(keep, drops[i]), writer, MergeKey(key, drops[i]), actor))
  }

  /** The inferred sameAs? edge a review-band match leaves behind. */
  function FlagEdge(in_: EntityInput, c: Entity, to: EntityId, score: real, tick: Tick): Edge {
    Edge(tick.edgeId, "sameAs?", tick.entityId, to, Absent,
         Provenance(in_.writer, Inferred, "resolve:vector-review", score, Some(tick.now)),
         c.space, c.owner, c.visibility)
  }

  function DecisionTarget(d: Decision, tick: Tick): EntityId {
    match d
    case Attach(target, _) => target
    case Merge(targets) => if targets == [] then tick.entityId else targets[0]
    case _ => tick.entityId
  }

  function EntityScript(in_: EntityInput, c: Entity, d: Decision, key: string, tick: Tick): seq<Emission> {
    var id := DecisionTarget(d, tick);
    var main := AssertEmission(in_, c, id, key);
    match d
    case Merge(targets) =>
      (if targets == [] then [] else MergeEmissions(id, targets[1..], in_.writer, key, in_.actor)) + [main]
    case InsertFlagged(to, score) =>
      if to == "" then [main]
      else
        var edge := FlagEdge(in_, c, to, score, tick);
        [main, Emission(edge.id, EdgeAsserted(edge), in_.writer, key + "|sameas|" + to, in_.actor)]
    case _ => [main]
  }

  function Stamped(in_: EntityInput, tick: Tick): Entity {
    in_.candidate.(prov := NormalizeProvenance(in_.candidate.prov, tick.asserted))
  }

  function AppendEntity(cfg: Config, db: Db, in_: EntityInput, tick: Tick): (Db, Outcome) {
    var policy := EffectivePolicy(in_.policy);
    if in_.candidate.typ !in ALLOWED_TYPES || !in_.candidate.visibility.Valid() then (db, Rejected(InvalidInput))
    else if !policy.Valid() then (db, Rejected(InvalidPolicy))
    else
      var c := Stamped(in_, tick);
      var key := EntityKey(cfg, in_, tick);
      match Prior(db.log, in_.writer, key, true)
      case Some(subject) => (db, if subject in db.t.entities then Replayed(subject) else Rejected(NotFound))
      case None =>
        match EntityDecision(cfg, db.t, c, policy)
        case Err(e) => (db, Rejected(e))
        case Ok(d) =>
          match EmitAll(db, EntityScript(in_, c, d, key, tick), tick.now)
          case Err(e) => (db, Rejected(e))
          case Ok(db') => (db', Accepted(DecisionTarget(d, tick)))
  }

  // ---- the other writes ----

  function DefaultEdgeKey(ed: Edge): string {
    "edge|" + ed.space + "|" + ed.predicate_ + "|" + ed.from + "|" + ed.to
  }

  function EdgeKey(in_: EdgeInput): string {
    if in_.dedupeKey != "" then in_.dedupeKey else DefaultEdgeKey(in_.edge)
  }

  function StampedEdge(in_: EdgeInput, tick: Tick): Edge {
    in_.edge.(prov := NormalizeProvenance(in_.edge.prov, tick.asserted), id := tick.edgeId)
  }

  function AppendEdge(db: Db, in_: EdgeInput, tick: Tick): (Db, Outcome) {
    if in_.edge.predicate_ !in ALLOWED_PREDICATES || !in_.edge.visibility.Valid() then (db, Rejected(InvalidInput))
    else
      var ed := StampedEdge(in_, tick);
      match Prior(db.log, in_.writer, EdgeKey(in_), false)
      case Some(subject) => (db, if subject in db.t.edges then Replayed(subject) else Rejected(NotFound))
      case None =>
        match Emit(db, Emission(ed.id, EdgeAsserted(ed), in_.writer, EdgeKey(in_), in_.actor), tick.now)
        case Err(e) => (db, Rejected(e))
        case Ok(db') => (db', Accepted(ed.id))
  }

  /** The script of the writes that take no decision, or the error that stops them. */
  function Committed(db: Db, em: Emission, ts: Time): (Db, Outcome) {
    match Emit(db, em, ts)
    case Err(e) => (db, Rejected(e))
    case Ok(db') => (db', Accepted(em.subject))
  }

  function MergeDirect(
    db: Db, keep: EntityId, drop: EntityId, actor: PrincipalId, key: string, now: Time): (Db, Outcome) {
    if keep !in db.t.entities || drop !in db.t.entities then (db, Rejected(NotFound))
    else
      var k := if key == "" then keep + "|merge|" + drop else key;
      Committed(db, Emission(drop, EntityMerged(keep, drop), actor, k, actor), now)
  }

  function RetractEntity(db: Db, id: EntityId, actor: PrincipalId, key: string, now: Time): (Db, Outcome) {
    var k := if key == "" then id + "|retract" else key;
    Committed(db, Emission(id, EntityRetracted, actor, k, actor), now)
  }

  function RetractEdge(db: Db, id: EdgeId, actor: PrincipalId, key: string, now: Time): (Db, Outcome) {
    var k := if key == "" then id + "|retract" else key;
    Committed(db, Emission(id, EdgeRetracted, actor, k, actor), now)
  }

  function Rebuild(db: Db): (Db, Outcome) {
    match Fold(db.log)
    case Err(e) => (db, Rejected(e))
    case Ok(t) => (db.(t := t), Accepted(""))
  }

  // ---- runs ----

  datatype Op =
    | AppendEntityOp(entity: EntityInput, tick: Tick)
    | AppendEdgeOp(edge: EdgeInput, tick: Tick)
    | MergeOp(keep: EntityId, drop: EntityId, actor: PrincipalId, key: string, now: Time)
    | RetractEntityOp(id: EntityId, actor: PrincipalId, key: string, now: Time)
    | RetractEdgeOp(id: EdgeId, actor: PrincipalId, key: string, now: Time)
    | RebuildOp

  function Perform(cfg: Config, db: Db, op: Op): (Db, Outcome) {
    match op
    case AppendEntityOp(in_, tick) => AppendEntity(cfg, db, in_, tick)
    case AppendEdgeOp(in_, tick) => AppendEdge(db, in_, tick)
    case MergeOp(keep, drop, actor, key, now) => MergeDirect(db, keep, drop, actor, key, now)
    case RetractEntityOp(id, actor, key, now) => RetractEntity(db, id, actor, key, now)
    case RetractEdgeOp(id, actor, key, now) => RetractEdge(db, id, actor, key, now)
    case RebuildOp => Rebuild(db)
  }

  function Step(cfg: Config, db: Db, op: Op): Db {
    Perform(cfg, db, op).0
  }

  /** Minted ids are new: no fact is about them yet. */
  predicate Minted(db: Db, op: Op) {
    match op
    case AppendEntityOp(_, tick) => FreshId(db.log, tick.entityId) && FreshId(db.log, tick.edgeId)
    case AppendEdgeOp(_, tick) => FreshId(db.log, tick.edgeId)
    case _ => true
  }

  function Run(cfg: Config, ops: seq<Op>): Db {
    if ops == [] then EMPTY_DB else Step(cfg, Run(cfg, ops[..|ops| - 1]), ops[|ops| - 1])
  }

  /** A run of the store: every op mints ids that are new where it happens. */
  predicate IsRun(cfg: Config, ops: seq<Op>) {
    ops == [] || (IsRun(cfg, ops[..|ops| - 1]) && Minted(Run(cfg, ops[..|ops| - 1]), ops[|ops| - 1]))
  }
}
