/** The graph a first ingestion draws: on an empty store, exactly the nodes and edges the metadata,
    the request and heyarr's answers call for, each once. */
module IngestedGraph {
  import opened Json
  import opened Domain
  import opened Order
  import opened Resolve
  import opened Tables
  import opened Store
  import opened DedupeKey
  import opened Invariants
  import opened Acceptance
  import opened Spaces
  import opened Effects
  import opened OtherWrites
  import opened OneSpace
  import opened Ingest
  import opened Reingest
  import opened FirstIngest

  // ---- nodes, by the scheme of the keys they carry ----

  /** The type of the nodes that carry keys of the scheme. */
  predicate KindOf(scheme: string, typ: string) {
    || (scheme == "youtube" && typ == "VideoObject") || (scheme == "youtube-channel" && typ == "Organization")
    || (scheme == "youtube-clip" && typ == "Clip")
    || ((scheme == "heyarr-work" || scheme == "tmdb") && typ == "CreativeWork")
  }

  predicate TypedKeys(t: Tables) {
    forall r | r in t.ext :: r.entity in t.entities && KindOf(r.xid.scheme, t.entities[r.entity].typ)
  }

  function AsserterOf(typ: string): string {
    if typ == "CreativeWork" then "ingest:heyarr" else "ingest:yt-dlp"
  }

  /** Filed as the request asks, and asserted outright from its reference. */
  predicate AskedNode(req: Request, row: EntityRow) {
    && row.space == req.space && row.owner == req.owner
    && row.visibility == (if req.visibility.Some? then req.visibility.value else Private)
    && row.prov.asserter == AsserterOf(row.typ) && row.prov.source == req.ref
    && row.prov.how == Asserted && row.prov.confidence == 1.0
  }

  predicate AskedFor(req: Request, c: Entity) {
    && c.space == req.space && c.owner == req.owner && c.visibility == req.VisOrDefault()
    && c.prov == IngestProv(req, AsserterOf(c.typ))
  }

  /** Rows of other types are as they were. */
  predicate SparedBut(a: map<EntityId, EntityRow>, b: map<EntityId, EntityRow>, typ: string) {
    forall x | x in a && a[x].typ != typ :: x in b && b[x] == a[x]
  }

  /** A live entity of the type that carries the key. */
  predicate Named(t: Tables, id: EntityId, typ: string, scheme: string, value: string) {
    id in t.entities && t.entities[id].typ == typ && Carries(t.ext, id, scheme + ":" + value)
  }

  lemma KindIsPlain(scheme: string, typ: string)
    requires KindOf(scheme, typ)
    ensures ':' !in scheme
  {
  }

  lemma SameKey(a: ExternalId, b: ExternalId)
    requires a.Key() == b.Key() && ':' !in a.scheme && ':' !in b.scheme
    ensures a == b
  {
    assert a.Key() == a.scheme + ([':'] + a.value) && b.Key() == b.scheme + ([':'] + b.value);
    CutAt(':', a.scheme, b.scheme, a.value, b.value);
  }

  lemma OneKind(scheme: string, a: string, b: string)
    requires KindOf(scheme, a) && KindOf(scheme, b)
    ensures a == b
  {
  }

  lemma HolderTyped(space: SpaceId, t: Tables, id: EntityId, x: ExternalId, typ: string)
    requires TypedKeys(t) && TidyRows(space, t.ext) && Carries(t.ext, id, x.Key()) && KindOf(x.scheme, typ)
    ensures Named(t, id, typ, x.scheme, x.value)
  {
    var r :| r in t.ext && r.entity == id && r.key == x.Key();
    KindIsPlain(r.xid.scheme, t.entities[id].typ);
    KindIsPlain(x.scheme, typ);
    SameKey(r.xid, x);
    OneKind(x.scheme, typ, t.entities[id].typ);
  }

  // ---- and what their props tell ----

  /** Every stored leaf but a null is still there. */
  ghost predicate LeavesStay(a: Json, b: Json) {
    forall path, v | IsLeafAt(a, path, v) && v != JNull :: IsLeafAt(b, path, v)
  }

  /** What the props of a node that carries the key must say: a work is named after its id, a clip has
      the offsets its key prints. */
  ghost predicate Told(w: World, x: ExternalId, props: Json) {
    && (x.scheme == "heyarr-work" ==> IsLeafAt(props, ["name"], JStr("heyarr work " + x.value)))
    && (x.scheme == "youtube-clip" ==> exists video, from, to :: ClipTold(w, x, props, video, from, to))
  }

  predicate ClipTold(w: World, x: ExternalId, props: Json, video: string, from: real, to: real) {
    && x.value == video + "@" + w.fmt(from) + "-" + w.fmt(to)
    && IsLeafAt(props, ["startOffset"], JNum(from)) && IsLeafAt(props, ["endOffset"], JNum(to))
  }

  ghost predicate TextsTold(w: World, t: Tables) {
    forall r | r in t.ext :: r.entity in t.entities && Told(w, r.xid, t.entities[r.entity].props)
  }

  lemma StillTold(w: World, x: ExternalId, a: Json, b: Json)
    requires Told(w, x, a) && LeavesStay(a, b)
    ensures Told(w, x, b)
  {
    if x.scheme == "youtube-clip" {
      var video, from, to :| ClipTold(w, x, a, video, from, to);
      assert ClipTold(w, x, b, video, from, to);
    }
  }

  lemma HolderTold(w: World, space: SpaceId, t: Tables, id: EntityId, x: ExternalId, typ: string)
    requires TypedKeys(t) && TidyRows(space, t.ext) && TextsTold(w, t)
    requires Carries(t.ext, id, x.Key()) && KindOf(x.scheme, typ)
    ensures id in t.entities && Told(w, x, t.entities[id].props)
  {
    var r :| r in t.ext && r.entity == id && r.key == x.Key();
    KindIsPlain(r.xid.scheme, t.entities[id].typ);
    KindIsPlain(x.scheme, typ);
    SameKey(r.xid, x);
  }

  lemma OthersTell(w: World, value: string, props: Json)
    ensures Told(w, ExternalId("youtube", value), props) && Told(w, ExternalId("youtube-channel", value), props)
    ensures Told(w, TmdbId(value), props)
  {
    assert "tmdb"[0] != "heyarr-work"[0] && "tmdb"[0] != "youtube-clip"[0];
    assert |"youtube"| != |"youtube-clip"| && |"youtube-channel"| != |"youtube-clip"|;
    assert "youtube"[0] != "heyarr-work"[0] && "youtube-channel"[0] != "heyarr-work"[0];
  }

  // ---- edges, by their ends ----

  datatype Tie = Tie(predicate_: string, from: EntityId, to: EntityId)

  function TieOf(row: EdgeRow): Tie {
    Tie(row.predicate_, row.from, row.to)
  }

  predicate AsAsked(req: Request, row: EdgeRow) {
    && row.space == req.space && row.owner == req.owner && row.props.None?
    && row.visibility == (if req.visibility.Some? then req.visibility.value else Private)
  }

  /** The edges are these ties, each once. */
  predicate Ties(req: Request, edges: map<EdgeId, EdgeRow>, ties: set<Tie>) {
    && (forall e | e in edges :: TieOf(edges[e]) in ties && AsAsked(req, edges[e]))
    && (forall l | l in ties :: exists e | e in edges :: TieOf(edges[e]) == l)
    && (forall e, f | e in edges && f in edges && TieOf(edges[e]) == TieOf(edges[f]) :: e == f)
  }

  predicate PlainTie(l: Tie) {
    BAR !in l.predicate_ && BAR !in l.from && BAR !in l.to
  }

  function TieKey(l: Tie): string {
    "ingest|" + l.predicate_ + "|" + l.from + "|" + l.to
  }

  lemma TieKeysDiffer(a: Tie, b: Tie)
    requires PlainTie(a) && PlainTie(b) && TieKey(a) == TieKey(b)
    ensures a == b
  {
    var x, y := a.from + ([BAR] + a.to), b.from + ([BAR] + b.to);
    assert TieKey(a) == "ingest|" + (a.predicate_ + ([BAR] + x))
      && TieKey(b) == "ingest|" + (b.predicate_ + ([BAR] + y));
    assert TieKey(a)[7..] == TieKey(b)[7..];
    CutAt(BAR, a.predicate_, b.predicate_, x, y);
    CutAt(BAR, a.from, b.from, a.to, b.to);
  }

  /** The link keys in the log are those of these ties. */
  ghost predicate TiesLogged(log: seq<Fact>, ties: set<Tie>) {
    && (forall l | l in ties :: PlainTie(l))
    && (forall l | PlainTie(l) :: Logged(log, INGEST, TieKey(l)) <==> l in ties)
  }

  // ---- what is drawn so far ----

  /** The store holds exactly these nodes and ties. */
  ghost predicate Holding(w: World, db: Db, ties: set<Tie>, nodes: set<EntityId>) {
    && TypedKeys(db.t) && db.t.entities.Keys == nodes
    && (forall id | id in nodes :: BAR !in id && AskedNode(w.req, db.t.entities[id])) && TextsTold(w, db.t)
    && Ties(w.req, db.t.edges, ties) && TiesLogged(db.log, ties)
  }

  ghost predicate Drawn(w: World, db: Db, n: nat, ties: set<Tie>, nodes: set<EntityId>) {
    Ground(w, db, n) && Holding(w, db, ties, nodes)
  }

  /** No minted id holds a bar. */
  ghost predicate BarFree(w: World) {
    forall m: nat :: BAR !in w.ticks(m).entityId
  }

  lemma NothingDrawn(w: World, n: nat)
    requires Hashes(w.cfg) && FreshTicks(w, EMPTY_DB, n)
    ensures Drawn(w, EMPTY_DB, n, {}, {})
  {
    assert Inv(EMPTY_DB);
  }

  // ---- one entity write ----

  lemma PlainTables(w: World, db: Db, n: nat, in_: EntityInput, d: Decision, db': Db, id: EntityId)
    requires Plainly(w.cfg, db, in_, w.ticks(n), d) && AppendEntity(w.cfg, db, in_, w.ticks(n)) == (db', Accepted(id))
    ensures id == DecisionTarget(d, w.ticks(n)) && db'.t.edges == db.t.edges
    ensures db'.t.ext == InsertKeys(db.t.ext, id, in_.candidate.space, in_.candidate.externalIds)
    ensures |db'.log| == |db.log| + 1 && db.log <= db'.log
    ensures db'.log[|db.log|].dedupeKey == EntityKey(w.cfg, in_, w.ticks(n))
  {
    PlainAppend(w.cfg, db, in_, w.ticks(n), d);
  }

  lemma SameTiesLogged(log: seq<Fact>, longer: seq<Fact>, ties: set<Tie>)
    requires TiesLogged(log, ties) && log <= longer && |longer| == |log| + 1 && BAR !in longer[|log|].dedupeKey
    ensures TiesLogged(longer, ties)
  {
    forall l | PlainTie(l) ensures Logged(longer, INGEST, TieKey(l)) <==> Logged(log, INGEST, TieKey(l)) {
      assert TieKey(l)[6] == BAR;
      assert longer == log + [longer[|log|]];
      if Logged(log, INGEST, TieKey(l)) {
        var f :| f in log && f.writer == INGEST && f.dedupeKey == TieKey(l);
        assert f in longer;
      }
    }
  }

  lemma {:induction false} TypedInserts(
    t: Tables, id: EntityId, space: SpaceId, xs: seq<ExternalId>, b: Tables, typ: string)
    requires TypedKeys(t) && b.ext == InsertKeys(t.ext, id, space, xs)
    requires id in b.entities && b.entities[id].typ == typ && forall x | x in xs :: KindOf(x.scheme, typ)
    requires forall e | e in t.entities :: e in b.entities && b.entities[e].typ == t.entities[e].typ
    ensures TypedKeys(b)
  {
    InsertedRows(t.ext, id, space, xs);
  }

  /** One node more, filed as asked, or none; every other row is as it was. */
  ghost predicate OneNode(
    req: Request, a: map<EntityId, EntityRow>, b: map<EntityId, EntityRow>, id: EntityId, typ: string)
  {
    && b.Keys == a.Keys + {id} && b[id].typ == typ && (id !in a ==> AskedNode(req, b[id]))
    && (forall x | x in a :: SameRow(a[x], b[x]) && LeavesStay(a[x].props, b[x].props))
    && (forall x | x in a && x != id :: b[x] == a[x])
  }

  lemma GrownNodes(req: Request, a: Db, b: Db, id: EntityId, typ: string)
    requires Grown(a, b) && id in b.t.entities && b.t.entities[id].typ == typ
    requires if id in a.t.entities then LeavesStay(a.t.entities[id].props, b.t.entities[id].props)
             else AskedNode(req, b.t.entities[id])
    requires forall x | x in b.t.entities && x != id :: x in a.t.entities && b.t.entities[x] == a.t.entities[x]
    ensures OneNode(req, a.t.entities, b.t.entities, id, typ)
  {
  }

  lemma NewRowAsked(req: Request, c: Entity, row: EntityRow, tick: Tick)
    requires AskedFor(req, c) && RowIsNew(row, c, tick)
    ensures AskedNode(req, row)
  {
  }

  lemma WrittenRow(w: World, db: Db, n: nat, in_: EntityInput, db': Db, id: EntityId)
    requires Ground(w, db, n) && AppendEntity(w.cfg, db, in_, w.ticks(n)) == (db', Accepted(id))
    requires id in db.t.entities ==> db.t.entities[id].typ == in_.candidate.typ
    ensures id in db'.t.entities && db'.t.entities[id].typ == in_.candidate.typ
    ensures if id in db.t.entities then LeavesStay(db.t.entities[id].props, db'.t.entities[id].props)
            else id == w.ticks(n).entityId && RowIsNew(db'.t.entities[id], in_.candidate, w.ticks(n))
    ensures forall x | x in db'.t.entities && x != id :: x in db.t.entities && db'.t.entities[x] == db.t.entities[x]
  {
    TickMinted(w, db, n, in_);
    RowAfterAppend(w.cfg, db, in_, w.ticks(n));
    if id in db.t.entities {
      TakingInKeeps(db.t.entities[id], db'.t.entities[id], in_.candidate, w.ticks(n).now);
    }
  }

  lemma TakingInKeeps(was: EntityRow, row: EntityRow, c: Entity, now: Time)
    requires RowTookIn(was, row, c, now) && !c.props.Malformed?
    ensures LeavesStay(was.props, row.props)
  {
  }

  lemma AcceptedNodes(w: World, db: Db, n: nat, in_: EntityInput, d: Decision, db': Db, id: EntityId)
    requires Ground(w, db, n) && Plainly(w.cfg, db, in_, w.ticks(n), d)
    requires AppendEntity(w.cfg, db, in_, w.ticks(n)) == (db', Accepted(id))
    requires if id in db.t.entities then db.t.entities[id].typ == in_.candidate.typ else AskedFor(w.req, in_.candidate)
    ensures OneNode(w.req, db.t.entities, db'.t.entities, id, in_.candidate.typ)
    ensures id !in db.t.entities ==> id == w.ticks(n).entityId
  {
    WrittenRow(w, db, n, in_, db', id);
    AcceptedTables(w, db, n, in_, d);
    if id !in db.t.entities {
      NewRowAsked(w.req, in_.candidate, db'.t.entities[id], w.ticks(n));
    }
    GrownNodes(w.req, db, db', id, in_.candidate.typ);
  }

  lemma AcceptedTies(
    w: World, db: Db, n: nat, in_: EntityInput, d: Decision, db': Db, id: EntityId, ties: set<Tie>)
    requires Hashes(w.cfg) && TiesLogged(db.log, ties) && PlainEntity(in_, w.req.space) && in_.writer == INGEST
    requires Plainly(w.cfg, db, in_, w.ticks(n), d) && AppendEntity(w.cfg, db, in_, w.ticks(n)) == (db', Accepted(id))
    ensures TiesLogged(db'.log, ties)
  {
    PlainTables(w, db, n, in_, d, db', id);
    IngestedKey(w.cfg, in_, w.ticks(n));
    SameTiesLogged(db.log, db'.log, ties);
  }

  lemma NodeHeld(
    w: World, db: Db, db': Db, id: EntityId, typ: string, xs: seq<ExternalId>, ties: set<Tie>,
    nodes: set<EntityId>)
    requires Holding(w, db, ties, nodes) && TiesLogged(db'.log, ties)
    requires db'.t.edges == db.t.edges && db'.t.ext == InsertKeys(db.t.ext, id, w.req.space, xs)
    requires OneNode(w.req, db.t.entities, db'.t.entities, id, typ) && forall x | x in xs :: KindOf(x.scheme, typ)
    requires id !in db.t.entities ==> BAR !in id
    requires forall x | x in xs :: Told(w, x, db'.t.entities[id].props)
    ensures Holding(w, db', ties, nodes + {id})
  {
    TypedInserts(db.t, id, w.req.space, xs, db'.t, typ);
    ToldInserts(w, db.t, id, xs, db'.t, typ);
  }

  lemma ToldInserts(w: World, a: Tables, id: EntityId, xs: seq<ExternalId>, b: Tables, typ: string)
    requires TextsTold(w, a) && b.ext == InsertKeys(a.ext, id, w.req.space, xs)
    requires OneNode(w.req, a.entities, b.entities, id, typ)
    requires forall x | x in xs :: Told(w, x, b.entities[id].props)
    ensures TextsTold(w, b)
  {
    InsertedRows(a.ext, id, w.req.space, xs);
    forall r | r in b.ext ensures r.entity in b.entities && Told(w, r.xid, b.entities[r.entity].props) {
      if r in a.ext {
        StillTold(w, r.xid, a.entities[r.entity].props, b.entities[r.entity].props);
      }
    }
  }

  /** The entity, or the candidate where it is new, tells of each of the candidate's keys. */
  ghost predicate ToldBefore(w: World, t: Tables, c: Entity, id: EntityId) {
    c.props.Doc? && forall x | x in c.externalIds ::
      Told(w, x, if id in t.entities then t.entities[id].props else c.props.value)
  }

  lemma ToldAfter(w: World, db: Db, n: nat, in_: EntityInput, db': Db, id: EntityId)
    requires Ground(w, db, n) && AppendEntity(w.cfg, db, in_, w.ticks(n)) == (db', Accepted(id))
    requires id in db.t.entities ==> db.t.entities[id].typ == in_.candidate.typ
    requires ToldBefore(w, db.t, in_.candidate, id)
    ensures id in db'.t.entities && forall x | x in in_.candidate.externalIds :: Told(w, x, db'.t.entities[id].props)
  {
    WrittenRow(w, db, n, in_, db', id);
    forall x | x in in_.candidate.externalIds ensures Told(w, x, db'.t.entities[id].props) {
      if id in db.t.entities {
        StillTold(w, x, db.t.entities[id].props, db'.t.entities[id].props);
      }
    }
  }

  /** An accepted write of ingestion that merges nothing adds at most its own node. */
  lemma AcceptedDraws(
    w: World, db: Db, n: nat, in_: EntityInput, d: Decision, db': Db, id: EntityId, ties: set<Tie>,
    nodes: set<EntityId>)
    requires Drawn(w, db, n, ties, nodes) && BarFree(w) && PlainEntity(in_, w.req.space) && in_.writer == INGEST
    requires Plainly(w.cfg, db, in_, w.ticks(n), d) && AppendEntity(w.cfg, db, in_, w.ticks(n)) == (db', Accepted(id))
    requires forall x | x in in_.candidate.externalIds :: KindOf(x.scheme, in_.candidate.typ)
    requires if id in db.t.entities then db.t.entities[id].typ == in_.candidate.typ else AskedFor(w.req, in_.candidate)
    requires ToldBefore(w, db.t, in_.candidate, id)
    ensures Drawn(w, db', n + 1, ties, nodes + {id})
    ensures SparedBut(db.t.entities, db'.t.entities, in_.candidate.typ)
  {
    ToldAfter(w, db, n, in_, db', id);
    PlainTables(w, db, n, in_, d, db', id);
    AcceptedNodes(w, db, n, in_, d, db', id);
    AcceptedTies(w, db, n, in_, d, db', id, ties);
    AcceptedGround(w, db, n, in_);
    NodeHeld(w, db, db', id, in_.candidate.typ, in_.candidate.externalIds, ties, nodes);
  }

  /** Replaying draws nothing. */
  lemma StillDrawn(w: World, db: Db, n: nat, ties: set<Tie>, nodes: set<EntityId>, id: EntityId)
    requires Drawn(w, db, n, ties, nodes) && id in db.t.entities
    ensures Drawn(w, db, n + 1, ties, nodes + {id})
  {
    SameTicks(w, db, n);
    assert nodes + {id} == nodes;
  }

  /** Where there is no vector to compare, an attach found one of the keys. */
  lemma PlainTarget(w: World, db: Db, n: nat, in_: EntityInput, d: Decision)
    requires Plainly(w.cfg, db, in_, w.ticks(n), d) && in_.candidate.embeddings == []
    ensures d.Attach? ==> Holds(db.t, in_.candidate, d.target)
  {
    var c, policy := Stamped(in_, w.ticks(n)), EffectivePolicy(in_.policy);
    var hits := ExternalHits(db.t, c.space, Keys(c.externalIds));
    HitsOldestFirst(db.t, c);
    SameHolders(db.t, in_.candidate, c);
    DecisionOnHits(hits, DecisionNeighbors(w.cfg, db.t, c, policy), policy, w.cfg.th, d);
  }

  lemma HolderCarries(t: Tables, c: Entity, id: EntityId, x: ExternalId)
    requires Holds(t, c, id) && c.externalIds == [x]
    ensures Carries(t.ext, id, x.Key())
  {
  }

  // ---- the calls ----

  lemma UpsertTarget(w: World, db: Db, n: nat, in_: EntityInput, d: Decision, x: ExternalId, id: EntityId)
    requires TypedKeys(db.t) && TidyRows(w.req.space, db.t.ext) && KindOf(x.scheme, in_.candidate.typ)
    requires Plainly(w.cfg, db, in_, w.ticks(n), d) && in_.candidate.embeddings == []
             && in_.candidate.externalIds == [x]
    requires id == DecisionTarget(d, w.ticks(n)) && (d.InsertNew? ==> id !in db.t.entities)
    requires TextsTold(w, db.t) && in_.candidate.props.Doc? && Told(w, x, in_.candidate.props.value)
    ensures id in db.t.entities ==> db.t.entities[id].typ == in_.candidate.typ
    ensures ToldBefore(w, db.t, in_.candidate, id)
  {
    PlainTarget(w, db, n, in_, d);
    if d.Attach? {
      HolderCarries(db.t, in_.candidate, id, x);
      HolderTyped(w.req.space, db.t, id, x, in_.candidate.typ);
      HolderTold(w, w.req.space, db.t, id, x, in_.candidate.typ);
    }
  }

  lemma AcceptedPlainly(w: World, db: Db, n: nat, in_: EntityInput)
    requires in_.candidate.embeddings == [] && in_.policy.Auto? && !ResolvesToMerge(w.cfg, db, in_, w.ticks(n))
    requires AppendEntity(w.cfg, db, in_, w.ticks(n)).1.Accepted?
    ensures exists d :: Plainly(w.cfg, db, in_, w.ticks(n), d)
  {
    UpsertPlainly(w, db, n, in_);
  }

  lemma TargetIsMinted(w: World, db: Db, n: nat, in_: EntityInput, d: Decision, db': Db, id: EntityId)
    requires Ground(w, db, n) && Plainly(w.cfg, db, in_, w.ticks(n), d)
    requires AppendEntity(w.cfg, db, in_, w.ticks(n)) == (db', Accepted(id))
    ensures id == DecisionTarget(d, w.ticks(n)) && (d.InsertNew? ==> id !in db.t.entities)
  {
    PlainTables(w, db, n, in_, d, db', id);
    TickMinted(w, db, n, in_);
    if w.ticks(n).entityId in db.t.entities {
      LiveIsNotFresh(db, w.ticks(n).entityId);
    }
  }

  /** An assertion under one key, when accepted. */
  lemma OneKeyAccepted(
    w: World, db: Db, n: nat, in_: EntityInput, x: ExternalId, db': Db, id: EntityId, ties: set<Tie>,
    nodes: set<EntityId>)
    requires Drawn(w, db, n, ties, nodes) && BarFree(w) && PlainEntity(in_, w.req.space) && in_.writer == INGEST
    requires in_.candidate.embeddings == [] && in_.candidate.externalIds == [x] && in_.policy.Auto?
    requires KindOf(x.scheme, in_.candidate.typ) && !ResolvesToMerge(w.cfg, db, in_, w.ticks(n))
    requires AskedFor(w.req, in_.candidate) && AppendEntity(w.cfg, db, in_, w.ticks(n)) == (db', Accepted(id))
    requires in_.candidate.props.Doc? && Told(w, x, in_.candidate.props.value)
    ensures Drawn(w, db', n + 1, ties, nodes + {id})
    ensures SparedBut(db.t.entities, db'.t.entities, in_.candidate.typ)
  {
    AcceptedPlainly(w, db, n, in_);
    var d :| Plainly(w.cfg, db, in_, w.ticks(n), d);
    TargetIsMinted(w, db, n, in_, d, db', id);
    UpsertTarget(w, db, n, in_, d, x, id);
    AcceptedDraws(w, db, n, in_, d, db', id, ties, nodes);
  }

  lemma OneKeyWritten(
    w: World, db: Db, n: nat, in_: EntityInput, x: ExternalId, db': Db, out: Outcome, ties: set<Tie>,
    nodes: set<EntityId>)
    requires Drawn(w, db, n, ties, nodes) && BarFree(w) && PlainEntity(in_, w.req.space) && in_.writer == INGEST
    requires in_.candidate.embeddings == [] && in_.candidate.externalIds == [x] && in_.policy.Auto?
    requires KindOf(x.scheme, in_.candidate.typ) && !ResolvesToMerge(w.cfg, db, in_, w.ticks(n))
    requires AskedFor(w.req, in_.candidate) && in_.candidate.props.Doc? && Told(w, x, in_.candidate.props.value)
    requires AppendEntity(w.cfg, db, in_, w.ticks(n)) == (db', out) && (out.Accepted? || out.Replayed?)
    requires out.subject in db'.t.entities && CarriesAll(db'.t.ext, out.subject, [x])
    ensures Drawn(w, db', n + 1, ties, nodes + {out.subject})
    ensures SparedBut(db.t.entities, db'.t.entities, in_.candidate.typ)
    ensures Named(db'.t, out.subject, in_.candidate.typ, x.scheme, x.value)
  {
    assert [x][0] == x;
    if out.Accepted? {
      OneKeyAccepted(w, db, n, in_, x, db', out.subject, ties, nodes);
    } else {
      NotAccepted(w.cfg, db, in_, w.ticks(n));
      StillDrawn(w, db, n, ties, nodes, out.subject);
    }
    HolderTyped(w.req.space, db'.t, out.subject, x, in_.candidate.typ);
  }

  lemma UpsertReports(
    w: World, db: Db, n: nat, typ: string, props: map<string, Json>, ext: ExternalId, asserter: string,
    in_: EntityInput)
    requires Ground(w, db, n) && NulFree(typ) && NulFree(ext.Key())
    requires Upsert(w, db, n, typ, props, ext, asserter).r.Ok?
             && NoMerge(Upsert(w, db, n, typ, props, ext, asserter).calls)
    requires in_ == UpsertInput(w.req, typ, props, ext, asserter)
    ensures !ResolvesToMerge(w.cfg, db, in_, w.ticks(n)) && PlainEntity(in_, w.req.space)
    ensures Reported(AppendEntity(w.cfg, db, in_, w.ticks(n)).1).Ok?
    ensures EntityPrior(w.cfg, db.log, typ, [ext]).None? ==> exists d :: Plainly(w.cfg, db, in_, w.ticks(n), d)
  {
    var f := Upsert(w, db, n, typ, props, ext, asserter);
    NameIrrelevant(w.cfg, typ, [ext], ExtractName(in_.candidate.props), "");
    assert f.calls[0] in f.calls;
    if EntityPrior(w.cfg, db.log, typ, [ext]).None? {
      UpsertPlainly(w, db, n, in_);
    }
  }

  /** An upsert adds at most its own node, of its own type and under its own key. */
  lemma UpsertDraws(
    w: World, db: Db, n: nat, typ: string, props: map<string, Json>, ext: ExternalId, asserter: string, ties: set<Tie>,
    nodes: set<EntityId>)
    requires Drawn(w, db, n, ties, nodes) && BarFree(w) && NulFree(typ) && NulFree(ext.Key()) && KindOf(ext.scheme, typ)
    requires asserter == AsserterOf(typ) && Told(w, ext, JObj(props))
    requires Upsert(w, db, n, typ, props, ext, asserter).r.Ok?
    requires NoMerge(Upsert(w, db, n, typ, props, ext, asserter).calls)
    ensures var f := Upsert(w, db, n, typ, props, ext, asserter);
      && Drawn(w, f.db, f.n, ties, nodes + {f.r.value}) && Named(f.db.t, f.r.value, typ, ext.scheme, ext.value)
      && Grown(db, f.db) && SparedBut(db.t.entities, f.db.t.entities, typ)
  {
    var in_ := UpsertInput(w.req, typ, props, ext, asserter);
    UpsertReports(w, db, n, typ, props, ext, asserter, in_);
    EntityWriteLeaves(w, db, n, in_);
    var (db', out) := AppendEntity(w.cfg, db, in_, w.ticks(n));
    OneKeyWritten(w, db, n, in_, ext, db', out, ties, nodes);
  }

  lemma TieLogged(log: seq<Fact>, longer: seq<Fact>, ties: set<Tie>, l: Tie)
    requires TiesLogged(log, ties) && PlainTie(l) && log <= longer && |longer| == |log| + 1
    requires longer[|log|].writer == INGEST && longer[|log|].dedupeKey == TieKey(l)
    ensures TiesLogged(longer, ties + {l})
  {
    assert longer == log + [longer[|log|]];
    forall x | PlainTie(x) ensures Logged(longer, INGEST, TieKey(x)) <==> x in ties + {l} {
      if Logged(log, INGEST, TieKey(x)) {
        var f :| f in log && f.writer == INGEST && f.dedupeKey == TieKey(x);
        assert f in longer;
      }
      if Logged(longer, INGEST, TieKey(x)) && !Logged(log, INGEST, TieKey(x)) {
        TieKeysDiffer(x, l);
      }
      assert longer[|log|] in longer;
    }
  }

  lemma TieAdded(req: Request, a: map<EdgeId, EdgeRow>, b: map<EdgeId, EdgeRow>, id: EdgeId, ties: set<Tie>, l: Tie)
    requires Ties(req, a, ties) && l !in ties && id !in a && id in b && SameBut(a, b, id)
    requires TieOf(b[id]) == l && AsAsked(req, b[id])
    ensures Ties(req, b, ties + {l})
  {
    forall x | x in ties + {l} ensures exists e | e in b :: TieOf(b[e]) == x {
      if x in ties {
        var e :| e in a && TieOf(a[e]) == x;
        assert e in b && b[e] == a[e];
      }
    }
    assert forall e | e in b && e != id :: e in a && b[e] == a[e] && TieOf(b[e]) in ties;
  }

  /** The link whose key is new goes through. */
  lemma NewLink(w: World, db: Db, n: nat, in_: EdgeInput, db': Db, out: Outcome)
    requires AppendEdge(db, in_, w.ticks(n)) == (db', out) && Reported(out).Ok?
    requires !Logged(db.log, in_.writer, EdgeKey(in_))
    ensures out.Accepted?
  {
    EdgeAnswers(db, in_, w.ticks(n));
    assert forall f | f in db.log :: !AssertsUnder(f, in_.writer, EdgeKey(in_), false);
  }

  lemma OldLink(w: World, db: Db, n: nat, in_: EdgeInput, db': Db, out: Outcome)
    requires AppendEdge(db, in_, w.ticks(n)) == (db', out) && Logged(db.log, in_.writer, EdgeKey(in_))
    ensures db' == db
  {
    EdgeAcceptedIff(db, in_, w.ticks(n));
    EdgeNotWritten(db, in_, w.ticks(n));
  }

  lemma HeldAlready(w: World, db: Db, ties: set<Tie>, l: Tie, nodes: set<EntityId>)
    requires Holding(w, db, ties, nodes) && l in ties
    ensures Holding(w, db, ties + {l}, nodes)
  {
    assert ties + {l} == ties;
  }

  lemma KeyLogged(log: seq<Fact>, ties: set<Tie>, l: Tie)
    requires TiesLogged(log, ties) && PlainTie(l)
    ensures Logged(log, INGEST, TieKey(l)) <==> l in ties
  {
  }

  lemma LinkAdds(w: World, db: Db, n: nat, l: Tie, in_: EdgeInput, db': Db, ties: set<Tie>, nodes: set<EntityId>)
    requires Drawn(w, db, n, ties, nodes) && PlainTie(l) && l !in ties
    requires in_ == LinkInput(w.req, l.predicate_, l.from, l.to) && EdgeKey(in_) == TieKey(l)
    requires AppendEdge(db, in_, w.ticks(n)).0 == db' && AppendEdge(db, in_, w.ticks(n)).1.Accepted?
    ensures Holding(w, db', ties + {l}, nodes) && db'.t.entities == db.t.entities
  {
    LinkTicks(w, db, n, in_);
    EdgeWritten(db, in_, w.ticks(n));
    TieAdded(w.req, db.t.edges, db'.t.edges, w.ticks(n).edgeId, ties, l);
    TieLogged(db.log, db'.log, ties, l);
  }

  lemma LinkOnce(
    w: World, db: Db, n: nat, l: Tie, in_: EdgeInput, db': Db, out: Outcome, ties: set<Tie>, nodes: set<EntityId>)
    requires Drawn(w, db, n, ties, nodes) && PlainTie(l)
    requires in_ == LinkInput(w.req, l.predicate_, l.from, l.to) && EdgeKey(in_) == TieKey(l)
    requires AppendEdge(db, in_, w.ticks(n)) == (db', out) && Reported(out).Ok?
    ensures Holding(w, db', ties + {l}, nodes) && db'.t.entities == db.t.entities
  {
    KeyLogged(db.log, ties, l);
    if l in ties {
      OldLink(w, db, n, in_, db', out);
      HeldAlready(w, db, ties, l, nodes);
    } else {
      NewLink(w, db, n, in_, db', out);
      LinkAdds(w, db, n, l, in_, db', ties, nodes);
    }
  }

  /** A link adds its tie, unless that is there. */
  lemma LinkDraws(
    w: World, db: Db, n: nat, predicate_: string, from: EntityId, to: EntityId, ties: set<Tie>, nodes: set<EntityId>)
    requires Drawn(w, db, n, ties, nodes) && BAR !in predicate_ && from in nodes && to in nodes
    requires Link(w, db, n, predicate_, from, to).r.Ok?
    ensures var f := Link(w, db, n, predicate_, from, to);
      && Drawn(w, f.db, f.n, ties + {Tie(predicate_, from, to)}, nodes) && Grown(db, f.db)
      && f.db.t.entities == db.t.entities
  {
    var l, in_ := Tie(predicate_, from, to), LinkInput(w.req, predicate_, from, to);
    var (db', out) := AppendEdge(db, in_, w.ticks(n));
    LinkWrites(w, db, n, predicate_, from, to, in_, db', out);
    LinkKey(w.req, l);
    LinkOnce(w, db, n, l, in_, db', out, ties, nodes);
  }

  lemma LinkWrites(
    w: World, db: Db, n: nat, predicate_: string, from: EntityId, to: EntityId, in_: EdgeInput, db': Db, out: Outcome)
    requires Ground(w, db, n) && in_ == LinkInput(w.req, predicate_, from, to)
    requires Link(w, db, n, predicate_, from, to).r.Ok? && AppendEdge(db, in_, w.ticks(n)) == (db', out)
    ensures Reported(out).Ok? && Grown(db, db') && Ground(w, db', n + 1)
    ensures Link(w, db, n, predicate_, from, to).db == db' && Link(w, db, n, predicate_, from, to).n == n + 1
  {
    LinkOk(w, db, n, predicate_, from, to);
    LinkIs(w, db, n, predicate_, from, to);
    LinkLeaves(w, db, n, predicate_, from, to);
  }

  lemma LinkKey(req: Request, l: Tie)
    ensures EdgeKey(LinkInput(req, l.predicate_, l.from, l.to)) == TieKey(l)
  {
    assert LinkInput(req, l.predicate_, l.from, l.to).dedupeKey[0] == 'i';
  }

  lemma AnchorKinds(req: Request, t: Tables, ref: EntityId, tmdb: string)
    requires TypedKeys(t) && ref in t.entities && t.entities[ref].typ == "CreativeWork"
    ensures forall x | x in AnchorInput(req, t, ref, tmdb).candidate.externalIds :: KindOf(x.scheme, "CreativeWork")
  {
    XidOrder();
    SortSetSorts(XidLe, XidsOf(t.ext, ref));
    assert forall x | x in LoadedIds(t.ext, ref) :: x in XidsOf(t.ext, ref);
  }

  lemma AnchorTold(w: World, t: Tables, ref: EntityId, tmdb: string)
    requires TextsTold(w, t) && ref in t.entities
    ensures ToldBefore(w, t, AnchorInput(w.req, t, ref, tmdb).candidate, ref)
  {
    XidOrder();
    SortSetSorts(XidLe, XidsOf(t.ext, ref));
    OthersTell(w, tmdb, t.entities[ref].props);
    forall x | x in AnchorInput(w.req, t, ref, tmdb).candidate.externalIds ensures Told(w, x, t.entities[ref].props) {
      if x != TmdbId(tmdb) {
        assert x in LoadedIds(t.ext, ref) && x in XidsOf(t.ext, ref);
      }
    }
  }

  lemma AcceptedIsFirst(cfg: Config, db: Db, in_: EntityInput, tick: Tick)
    requires AppendEntity(cfg, db, in_, tick).1.Accepted?
    ensures Prior(db.log, in_.writer, EntityKey(cfg, in_, tick), true).None?
  {
  }

  /** The anchor's write goes to the work itself. */
  lemma AnchorTarget(
    w: World, db: Db, n: nat, ref: EntityId, tmdb: string, key: string, in_: EntityInput, db': Db, id: EntityId)
    requires Ground(w, db, n) && NulFree(TmdbId(tmdb).Key()) && ref in db.t.entities && Carries(db.t.ext, ref, key)
    requires in_ == AnchorInput(w.req, db.t, ref, tmdb) && in_.candidate.typ in ALLOWED_TYPES
    requires AppendEntity(w.cfg, db, in_, w.ticks(n)) == (db', Accepted(id))
    requires !ResolvesToMerge(w.cfg, db, in_, w.ticks(n))
    ensures id == ref
  {
    AnchorWritten(w, db, n, ref, tmdb, key, in_);
    AnchorCarriesBoth(w, db, ref, tmdb, key, db', id);
    OneHolder(w.req.space, db'.t, ref, id, key);
  }

  lemma AnchorAccepted(
    w: World, db: Db, n: nat, ref: EntityId, tmdb: string, key: string, in_: EntityInput, db': Db, ties: set<Tie>,
    nodes: set<EntityId>)
    requires Drawn(w, db, n, ties, nodes) && BarFree(w) && NulFree(TmdbId(tmdb).Key())
    requires ref in db.t.entities && Carries(db.t.ext, ref, key) && db.t.entities[ref].typ in ALLOWED_TYPES
    requires in_ == AnchorInput(w.req, db.t, ref, tmdb) && !ResolvesToMerge(w.cfg, db, in_, w.ticks(n))
    requires forall x | x in in_.candidate.externalIds :: KindOf(x.scheme, in_.candidate.typ)
    requires ToldBefore(w, db.t, in_.candidate, ref)
    requires AppendEntity(w.cfg, db, in_, w.ticks(n)) == (db', Accepted(ref))
    ensures Drawn(w, db', n + 1, ties, nodes + {ref}) && SparedBut(db.t.entities, db'.t.entities, in_.candidate.typ)
  {
    AnchorPlain(w, db, ref, tmdb);
    AcceptedIsFirst(w.cfg, db, in_, w.ticks(n));
    AnchorPlainly(w, db, n, ref, tmdb, key);
    var d :| Plainly(w.cfg, db, in_, w.ticks(n), d);
    AcceptedDraws(w, db, n, in_, d, db', ref, ties, nodes);
  }

  lemma NodeWasThere(w: World, db: Db, ties: set<Tie>, nodes: set<EntityId>, id: EntityId)
    requires Holding(w, db, ties, nodes + {id}) && id in nodes
    ensures Holding(w, db, ties, nodes)
  {
    assert nodes + {id} == nodes;
  }

  lemma AnchorHolds(
    w: World, db: Db, n: nat, ref: EntityId, tmdb: string, key: string, in_: EntityInput, db': Db, out: Outcome,
    ties: set<Tie>, nodes: set<EntityId>)
    requires Drawn(w, db, n, ties, nodes) && BarFree(w) && NulFree(TmdbId(tmdb).Key())
    requires ref in db.t.entities && Carries(db.t.ext, ref, key) && db.t.entities[ref].typ in ALLOWED_TYPES
    requires in_ == AnchorInput(w.req, db.t, ref, tmdb) && !ResolvesToMerge(w.cfg, db, in_, w.ticks(n))
    requires forall x | x in in_.candidate.externalIds :: KindOf(x.scheme, in_.candidate.typ)
    requires ToldBefore(w, db.t, in_.candidate, ref)
    requires AppendEntity(w.cfg, db, in_, w.ticks(n)) == (db', out)
    ensures Holding(w, db', ties, nodes) && SparedBut(db.t.entities, db'.t.entities, in_.candidate.typ)
  {
    if out.Accepted? {
      AnchorTarget(w, db, n, ref, tmdb, key, in_, db', out.subject);
      AnchorAccepted(w, db, n, ref, tmdb, key, in_, db', ties, nodes);
      NodeWasThere(w, db', ties, nodes, ref);
    } else {
      NotAccepted(w.cfg, db, in_, w.ticks(n));
    }
  }

  lemma StillNamed(a: Db, b: Db, id: EntityId, typ: string, scheme: string, value: string)
    requires Grown(a, b) && Named(a.t, id, typ, scheme, value)
    ensures Named(b.t, id, typ, scheme, value)
  {
    assert SameRow(a.t.entities[id], b.t.entities[id]);
  }

  /** An anchor adds nothing but the work's tmdb key. */
  lemma AnchorDraws(
    w: World, db: Db, n: nat, ref: EntityId, tmdb: string, scheme: string, value: string, ties: set<Tie>,
    nodes: set<EntityId>)
    requires Drawn(w, db, n, ties, nodes) && BarFree(w) && NulFree(TmdbId(tmdb).Key())
    requires Named(db.t, ref, "CreativeWork", scheme, value)
    requires Anchor(w, db, n, ref, tmdb).r.Ok? && NoMerge(Anchor(w, db, n, ref, tmdb).calls)
    ensures var f := Anchor(w, db, n, ref, tmdb);
      && Drawn(w, f.db, f.n, ties, nodes) && Named(f.db.t, ref, "CreativeWork", "tmdb", tmdb) && Grown(db, f.db)
      && SparedBut(db.t.entities, f.db.t.entities, "CreativeWork")
  {
    var key, in_ := scheme + ":" + value, AnchorInput(w.req, db.t, ref, tmdb);
    AnchorUnmerged(w, db, n, ref, tmdb);
    AnchorWrites(w, db, n, ref, tmdb, key);
    AnchorKinds(w.req, db.t, ref, tmdb);
    AnchorTold(w, db.t, ref, tmdb);
    var (db', out) := AppendEntity(w.cfg, db, in_, w.ticks(n));
    AnchorHolds(w, db, n, ref, tmdb, key, in_, db', out, ties, nodes);
    StillNamed(db, db', ref, "CreativeWork", scheme, value);
    assert TmdbId(tmdb).Key() == "tmdb" + ":" + tmdb;
  }

  // ---- the workflow, part by part ----

  lemma NoMergeSplit(a: seq<Call>, b: seq<Call>)
    requires NoMerge(a + b)
    ensures NoMerge(a) && NoMerge(b)
  {
    assert forall c | c in a :: c in a + b;
    assert forall c | c in b :: c in a + b;
  }

  /** Nothing was lost, and the rows of videos and channels are as they were. */
  ghost predicate Kept(a: Db, b: Db) {
    && Grown(a, b)
    && forall x | x in a.t.entities && a.t.entities[x].typ in ["VideoObject", "Organization"] ::
         x in b.t.entities && b.t.entities[x] == a.t.entities[x]
  }

  lemma SparedKept(a: Db, b: Db, typ: string)
    requires Grown(a, b) && SparedBut(a.t.entities, b.t.entities, typ) && (typ == "CreativeWork" || typ == "Clip")
    ensures Kept(a, b)
  {
  }

  lemma KeptTrans(a: Db, b: Db, c: Db)
    requires Kept(a, b) && Kept(b, c)
    ensures Kept(a, c)
  {
    GrownTrans(a, b, c);
  }

  /** The part ended well, in a store that holds these ties and nodes. */
  ghost predicate Drew<T(!new)>(w: World, db: Db, f: Flow<T>, ties: set<Tie>, nodes: set<EntityId>) {
    Drawn(w, f.db, f.n, ties, nodes) && Kept(db, f.db)
  }

  /** A live work carrying the tmdb id, and the id heyarr gave for it. */
  predicate WorkFor(w: World, t: Tables, id: EntityId, tmdb: string) {
    && w.works(tmdb).Some? && Named(t, id, "CreativeWork", "heyarr-work", w.works(tmdb).value)
    && Named(t, id, "CreativeWork", "tmdb", tmdb)
  }

  function Only<T>(x: Option<T>): set<T> {
    if x.Some? then {x.value} else {}
  }

  lemma WorkTold(w: World, work: string)
    ensures Told(w, WorkId(work), JObj(map["name" := JStr("heyarr work " + work)]))
  {
    OneStep(JObj(map["name" := JStr("heyarr work " + work)]), "name");
    assert "heyarr-work"[0] != "youtube-clip"[0];
  }

  lemma WorkWords()
    ensures KindOf("heyarr-work", "CreativeWork") && NulFree("CreativeWork")
    ensures AsserterOf("CreativeWork") == "ingest:heyarr" && BAR !in "about"
  {
  }

  lemma WorkDraws(w: World, db: Db, n: nat, tmdb: string, work: string, ties: set<Tie>, nodes: set<EntityId>)
    requires Drawn(w, db, n, ties, nodes) && BarFree(w) && PlainWorks(w) && NulFree(TmdbId(tmdb).Key())
    requires w.works(tmdb) == Some(work)
    requires AboutWork(w, db, n, tmdb).r.Ok? && NoMerge(AboutWork(w, db, n, tmdb).calls)
    ensures var f := AboutWork(w, db, n, tmdb);
      f.r.value.Some? && Drew(w, db, f, ties, nodes + {f.r.value.value}) && WorkFor(w, f.db.t, f.r.value.value, tmdb)
  {
    var props := map["name" := JStr("heyarr work " + work)];
    var a := Upsert(w, db, n, "CreativeWork", props, WorkId(work), "ingest:heyarr");
    NoMergeSplit(a.calls, Anchor(w, a.db, a.n, a.r.value, tmdb).calls);
    WorkWords();
    WorkTold(w, work);
    UpsertDraws(w, db, n, "CreativeWork", props, WorkId(work), "ingest:heyarr", ties, nodes);
    SparedKept(db, a.db, "CreativeWork");
    WorkAnchored(w, db, a, tmdb, work, ties, nodes + {a.r.value});
  }

  lemma WorkAnchored(
    w: World, db: Db, a: Flow<EntityId>, tmdb: string, work: string, ties: set<Tie>, nodes: set<EntityId>)
    requires BarFree(w) && NulFree(TmdbId(tmdb).Key()) && w.works(tmdb) == Some(work) && a.r.Ok?
    requires Drew(w, db, a, ties, nodes) && Named(a.db.t, a.r.value, "CreativeWork", "heyarr-work", work)
    requires Anchor(w, a.db, a.n, a.r.value, tmdb).r.Ok? && NoMerge(Anchor(w, a.db, a.n, a.r.value, tmdb).calls)
    ensures var b := Anchor(w, a.db, a.n, a.r.value, tmdb);
      Drawn(w, b.db, b.n, ties, nodes) && Kept(db, b.db) && WorkFor(w, b.db.t, a.r.value, tmdb)
  {
    var b := Anchor(w, a.db, a.n, a.r.value, tmdb);
    AnchorDraws(w, a.db, a.n, a.r.value, tmdb, "heyarr-work", work, ties, nodes);
    StillNamed(a.db, b.db, a.r.value, "CreativeWork", "heyarr-work", work);
    SparedKept(a.db, b.db, "CreativeWork");
    KeptTrans(db, a.db, b.db);
  }

  lemma AboutWorkDraws(w: World, db: Db, n: nat, tmdb: string, ties: set<Tie>, nodes: set<EntityId>)
    requires Drawn(w, db, n, ties, nodes) && BarFree(w) && PlainWorks(w) && NulFree(TmdbId(tmdb).Key())
    requires AboutWork(w, db, n, tmdb).r.Ok? && NoMerge(AboutWork(w, db, n, tmdb).calls)
    ensures var f := AboutWork(w, db, n, tmdb);
      && (f.r.value.Some? <==> w.works(tmdb).Some?) && Drew(w, db, f, ties, nodes + Only(f.r.value))
      && (f.r.value.Some? ==> WorkFor(w, f.db.t, f.r.value.value, tmdb))
  {
    if w.works(tmdb).Some? {
      WorkDraws(w, db, n, tmdb, w.works(tmdb).value, ties, nodes);
    } else {
      NothingLeaves(w, db, n);
      assert nodes + {} == nodes;
    }
  }

  function AboutTies(from: EntityId, works: seq<EntityId>): set<Tie> {
    set x | x in works :: Tie("about", from, x)
  }

  function AllOf(xs: seq<EntityId>): set<EntityId> {
    set x | x in xs
  }

  lemma OneAbout(from: EntityId, id: EntityId, ties: set<Tie>, nodes: set<EntityId>)
    ensures ties + AboutTies(from, [id]) == ties + {Tie("about", from, id)} && nodes + AllOf([id]) == nodes + {id}
  {
  }

  lemma NoAbout(from: EntityId, ties: set<Tie>, nodes: set<EntityId>)
    ensures ties + AboutTies(from, []) == ties && nodes + AllOf([]) == nodes && nodes + {} == nodes
  {
  }

  lemma StillWork(w: World, a: Db, b: Db, id: EntityId, tmdb: string)
    requires Grown(a, b) && WorkFor(w, a.t, id, tmdb)
    ensures WorkFor(w, b.t, id, tmdb)
  {
    StillNamed(a, b, id, "CreativeWork", "heyarr-work", w.works(tmdb).value);
    StillNamed(a, b, id, "CreativeWork", "tmdb", tmdb);
  }

  lemma WorkLinked(
    w: World, db: Db, n: nat, from: EntityId, id: EntityId, tmdb: string, ties: set<Tie>, nodes: set<EntityId>)
    requires Drawn(w, db, n, ties, nodes) && from in nodes && id in nodes && WorkFor(w, db.t, id, tmdb)
    requires Link(w, db, n, "about", from, id).r.Ok?
    ensures var f := Link(w, db, n, "about", from, id);
      Drew(w, db, f, ties + {Tie("about", from, id)}, nodes) && WorkFor(w, f.db.t, id, tmdb)
  {
    WorkWords();
    LinkDraws(w, db, n, "about", from, id, ties, nodes);
    StillWork(w, db, Link(w, db, n, "about", from, id).db, id, tmdb);
  }

  lemma AboutIs(w: World, db: Db, n: nat, from: EntityId, tmdb: string)
    requires About(w, db, n, from, tmdb).r.Ok? && NoMerge(About(w, db, n, from, tmdb).calls)
    ensures var a, f := AboutWork(w, db, n, tmdb), About(w, db, n, from, tmdb);
      && a.r.Ok? && NoMerge(a.calls)
      && match a.r.value
         case None => f.db == a.db && f.n == a.n && f.r.value == []
         case Some(id) =>
           var b := Link(w, a.db, a.n, "about", from, id);
           b.r.Ok? && f.db == b.db && f.n == b.n && f.r.value == [id]
  {
    var a := AboutWork(w, db, n, tmdb);
    if a.r.Ok? && a.r.value.Some? {
      NoMergeSplit(a.calls, Link(w, a.db, a.n, "about", from, a.r.value.value).calls);
    }
  }

  lemma AboutDraws(w: World, db: Db, n: nat, from: EntityId, tmdb: string, ties: set<Tie>, nodes: set<EntityId>)
    requires Drawn(w, db, n, ties, nodes) && BarFree(w) && PlainWorks(w) && NulFree(TmdbId(tmdb).Key()) && from in nodes
    requires About(w, db, n, from, tmdb).r.Ok? && NoMerge(About(w, db, n, from, tmdb).calls)
    ensures var f := About(w, db, n, from, tmdb);
      && |f.r.value| == (if w.works(tmdb).Some? then 1 else 0)
      && Drew(w, db, f, ties + AboutTies(from, f.r.value), nodes + AllOf(f.r.value))
      && (f.r.value != [] ==> WorkFor(w, f.db.t, f.r.value[0], tmdb))
  {
    var a := AboutWork(w, db, n, tmdb);
    AboutIs(w, db, n, from, tmdb);
    AboutWorkDraws(w, db, n, tmdb, ties, nodes);
    if a.r.value.Some? {
      var id := a.r.value.value;
      WorkLinked(w, a.db, a.n, from, id, tmdb, ties, nodes + {id});
      KeptTrans(db, a.db, Link(w, a.db, a.n, "about", from, id).db);
      OneAbout(from, id, ties, nodes);
    } else {
      NoAbout(from, ties, nodes);
    }
  }

  /** The subjects heyarr has a work for, in order. */
  function Found(w: World, tmdbs: seq<string>): seq<string> {
    if tmdbs == [] then []
    else
      var last := tmdbs[|tmdbs| - 1];
      Found(w, tmdbs[..|tmdbs| - 1]) + if w.works(last).Some? then [last] else []
  }

  /** One work for each of them. */
  predicate WorksFor(w: World, t: Tables, ids: seq<EntityId>, tmdbs: seq<string>) {
    |ids| == |Found(w, tmdbs)| && forall i | 0 <= i < |ids| :: WorkFor(w, t, ids[i], Found(w, tmdbs)[i])
  }

  lemma StillFor(w: World, a: Db, b: Db, ids: seq<EntityId>, tmdbs: seq<string>)
    requires Grown(a, b) && WorksFor(w, a.t, ids, tmdbs)
    ensures WorksFor(w, b.t, ids, tmdbs)
  {
    var found := Found(w, tmdbs);
    forall i | 0 <= i < |ids| ensures WorkFor(w, b.t, ids[i], found[i]) {
      StillWork(w, a, b, ids[i], found[i]);
    }
  }

  lemma OneMoreFor(w: World, t: Tables, front: seq<EntityId>, more: seq<EntityId>, tmdbs: seq<string>)
    requires tmdbs != [] && WorksFor(w, t, front, tmdbs[..|tmdbs| - 1])
    requires var last := tmdbs[|tmdbs| - 1];
      |more| == (if w.works(last).Some? then 1 else 0) && (more != [] ==> WorkFor(w, t, more[0], last))
    ensures WorksFor(w, t, front + more, tmdbs)
  {
  }

  lemma MoreAbouts(from: EntityId, a: seq<EntityId>, b: seq<EntityId>, ties: set<Tie>, nodes: set<EntityId>)
    ensures (ties + AboutTies(from, a)) + AboutTies(from, b) == ties + AboutTies(from, a + b)
    ensures (nodes + AllOf(a)) + AllOf(b) == nodes + AllOf(a + b)
  {
    assert forall x :: x in a + b <==> x in a || x in b;
  }

  lemma AboutsIs(w: World, db: Db, n: nat, from: EntityId, tmdbs: seq<string>)
    requires tmdbs != [] && Abouts(w, db, n, from, tmdbs).r.Ok? && NoMerge(Abouts(w, db, n, from, tmdbs).calls)
    ensures var a, f := Abouts(w, db, n, from, tmdbs[..|tmdbs| - 1]), Abouts(w, db, n, from, tmdbs);
      && a.r.Ok? && NoMerge(a.calls)
      && var b := About(w, a.db, a.n, from, tmdbs[|tmdbs| - 1]);
        && b.r.Ok? && NoMerge(b.calls) && f.db == b.db && f.n == b.n && f.r.value == a.r.value + b.r.value
  {
    var a := Abouts(w, db, n, from, tmdbs[..|tmdbs| - 1]);
    if a.r.Ok? {
      NoMergeSplit(a.calls, About(w, a.db, a.n, from, tmdbs[|tmdbs| - 1]).calls);
    }
  }

  lemma NoAbouts(w: World, db: Db, n: nat, from: EntityId, ties: set<Tie>, nodes: set<EntityId>)
    requires Drawn(w, db, n, ties, nodes)
    ensures var f := Abouts(w, db, n, from, []);
      && Drew(w, db, f, ties + AboutTies(from, []), nodes + AllOf([])) && WorksFor(w, f.db.t, [], [])
      && f.r == Ok([])
  {
    NothingLeaves(w, db, n);
    NoAbout(from, ties, nodes);
  }

  lemma NextAbout(
    w: World, db: Db, a: Flow<seq<EntityId>>, b: Flow<seq<EntityId>>, from: EntityId, tmdbs: seq<string>,
    ties: set<Tie>, nodes: set<EntityId>)
    requires tmdbs != [] && a.r.Ok? && b.r.Ok? && Kept(db, a.db) && WorksFor(w, a.db.t, a.r.value, tmdbs[..|tmdbs| - 1])
    requires Drew(w, a.db, b, (ties + AboutTies(from, a.r.value)) + AboutTies(from, b.r.value),
                  (nodes + AllOf(a.r.value)) + AllOf(b.r.value))
    requires var last := tmdbs[|tmdbs| - 1];
      && |b.r.value| == (if w.works(last).Some? then 1 else 0)
      && (b.r.value != [] ==> WorkFor(w, b.db.t, b.r.value[0], last))
    ensures var refs := a.r.value + b.r.value;
      && Drawn(w, b.db, b.n, ties + AboutTies(from, refs), nodes + AllOf(refs)) && Kept(db, b.db)
      && WorksFor(w, b.db.t, refs, tmdbs)
  {
    MoreAbouts(from, a.r.value, b.r.value, ties, nodes);
    KeptTrans(db, a.db, b.db);
    StillFor(w, a.db, b.db, a.r.value, tmdbs[..|tmdbs| - 1]);
    OneMoreFor(w, b.db.t, a.r.value, b.r.value, tmdbs);
  }

  lemma LastAbout(
    w: World, db: Db, a: Flow<seq<EntityId>>, from: EntityId, tmdbs: seq<string>, ties: set<Tie>, nodes: set<EntityId>)
    requires BarFree(w) && PlainWorks(w) && PlainSubjects(tmdbs) && from in nodes && tmdbs != []
    requires a.r.Ok? && Drew(w, db, a, ties + AboutTies(from, a.r.value), nodes + AllOf(a.r.value))
    requires WorksFor(w, a.db.t, a.r.value, tmdbs[..|tmdbs| - 1])
    requires var b := About(w, a.db, a.n, from, tmdbs[|tmdbs| - 1]); b.r.Ok? && NoMerge(b.calls)
    ensures var b := About(w, a.db, a.n, from, tmdbs[|tmdbs| - 1]); var refs := a.r.value + b.r.value;
      && Drawn(w, b.db, b.n, ties + AboutTies(from, refs), nodes + AllOf(refs)) && Kept(db, b.db)
      && WorksFor(w, b.db.t, refs, tmdbs)
  {
    var last := tmdbs[|tmdbs| - 1];
    AboutDraws(w, a.db, a.n, from, last, ties + AboutTies(from, a.r.value), nodes + AllOf(a.r.value));
    NextAbout(w, db, a, About(w, a.db, a.n, from, last), from, tmdbs, ties, nodes);
  }

  lemma {:induction false} AboutsDraw(
    w: World, db: Db, n: nat, from: EntityId, tmdbs: seq<string>, ties: set<Tie>, nodes: set<EntityId>)
    requires Drawn(w, db, n, ties, nodes) && BarFree(w) && PlainWorks(w) && PlainSubjects(tmdbs) && from in nodes
    requires Abouts(w, db, n, from, tmdbs).r.Ok? && NoMerge(Abouts(w, db, n, from, tmdbs).calls)
    ensures var f := Abouts(w, db, n, from, tmdbs);
      && Drew(w, db, f, ties + AboutTies(from, f.r.value), nodes + AllOf(f.r.value))
      && WorksFor(w, f.db.t, f.r.value, tmdbs)
    decreases |tmdbs|
  {
    if tmdbs == [] {
      NoAbouts(w, db, n, from, ties, nodes);
    } else {
      var front := tmdbs[..|tmdbs| - 1];
      AboutsIs(w, db, n, from, tmdbs);
      AboutsDraw(w, db, n, from, front, ties, nodes);
      LastAbout(w, db, Abouts(w, db, n, from, front), from, tmdbs, ties, nodes);
    }
  }

  // ---- clips ----

  /** The clip's own key: its video and its place in it. */
  function Place(w: World, videoId: string, seg: Segment): string {
    videoId + "@" + w.fmt(seg.startOffset) + "-" + w.fmt(seg.endOffset)
  }

  /** A live clip of the segment, and the works it is about. */
  predicate ClipFor(w: World, t: Tables, clip: EntityId, works: seq<EntityId>, videoId: string, seg: Segment) {
    Named(t, clip, "Clip", "youtube-clip", Place(w, videoId, seg)) && WorksFor(w, t, works, seg.subjects)
  }

  function ClipTies(video: EntityId, clip: EntityId, works: seq<EntityId>): set<Tie> {
    {Tie("isPartOf", clip, video)} + AboutTies(clip, works)
  }

  lemma ClipNodeIs(w: World, db: Db, n: nat, video: EntityId, videoId: string, seg: Segment)
    requires ClipNode(w, db, n, video, videoId, seg).r.Ok? && NoMerge(ClipNode(w, db, n, video, videoId, seg).calls)
    ensures var a := Upsert(w, db, n, "Clip", ClipProps(seg), ClipId(w, videoId, seg), "ingest:yt-dlp");
      && a.r.Ok? && NoMerge(a.calls)
      && var f, b := ClipNode(w, db, n, video, videoId, seg), Link(w, a.db, a.n, "isPartOf", a.r.value, video);
        b.r.Ok? && f.db == b.db && f.n == b.n && f.r.value == a.r.value
  {
    var a := Upsert(w, db, n, "Clip", ClipProps(seg), ClipId(w, videoId, seg), "ingest:yt-dlp");
    if a.r.Ok? {
      NoMergeSplit(a.calls, Link(w, a.db, a.n, "isPartOf", a.r.value, video).calls);
    }
  }

  lemma NodeLinked(
    w: World, a: Flow<EntityId>, predicate_: string, from: EntityId, to: EntityId, typ: string, scheme: string,
    value: string, ties: set<Tie>, nodes: set<EntityId>)
    requires a.r.Ok? && Drawn(w, a.db, a.n, ties, nodes) && Named(a.db.t, a.r.value, typ, scheme, value)
    requires BAR !in predicate_ && from in nodes && to in nodes && Link(w, a.db, a.n, predicate_, from, to).r.Ok?
    ensures var b := Link(w, a.db, a.n, predicate_, from, to);
      && Drawn(w, b.db, b.n, ties + {Tie(predicate_, from, to)}, nodes) && Grown(a.db, b.db)
      && b.db.t.entities == a.db.t.entities && Named(b.db.t, a.r.value, typ, scheme, value)
  {
    LinkDraws(w, a.db, a.n, predicate_, from, to, ties, nodes);
    StillNamed(a.db, Link(w, a.db, a.n, predicate_, from, to).db, a.r.value, typ, scheme, value);
  }

  /** A node, and then the tie that brings it in. */
  lemma UpsertLinked(
    w: World, db: Db, n: nat, typ: string, props: map<string, Json>, ext: ExternalId, asserter: string,
    predicate_: string, from: EntityId, to: EntityId, ties: set<Tie>, nodes: set<EntityId>)
    requires Drawn(w, db, n, ties, nodes) && BarFree(w) && NulFree(typ) && NulFree(ext.Key()) && KindOf(ext.scheme, typ)
    requires asserter == AsserterOf(typ) && Told(w, ext, JObj(props))
    requires var a := Upsert(w, db, n, typ, props, ext, asserter);
      && a.r.Ok? && NoMerge(a.calls) && Link(w, a.db, a.n, predicate_, from, to).r.Ok?
      && BAR !in predicate_ && from in nodes + {a.r.value} && to in nodes + {a.r.value}
    ensures var a := Upsert(w, db, n, typ, props, ext, asserter); var b := Link(w, a.db, a.n, predicate_, from, to);
      && Drawn(w, b.db, b.n, ties + {Tie(predicate_, from, to)}, nodes + {a.r.value}) && Grown(db, b.db)
      && Named(b.db.t, a.r.value, typ, ext.scheme, ext.value) && SparedBut(db.t.entities, b.db.t.entities, typ)
      && b.db.t.entities == a.db.t.entities
  {
    var a := Upsert(w, db, n, typ, props, ext, asserter);
    UpsertDraws(w, db, n, typ, props, ext, asserter, ties, nodes);
    NodeLinked(w, a, predicate_, from, to, typ, ext.scheme, ext.value, ties, nodes + {a.r.value});
    GrownTrans(db, a.db, Link(w, a.db, a.n, predicate_, from, to).db);
  }

  /** The clip's bag is its two offsets and its text, if it has one. */
  lemma ClipHolds(seg: Segment)
    ensures var props := ClipProps(seg);
      && props.Keys == {"startOffset", "endOffset"} + (if seg.text == "" then {} else {"text"})
      && props["startOffset"] == JNum(seg.startOffset) && props["endOffset"] == JNum(seg.endOffset)
      && (seg.text != "" ==> props["text"] == JStr(seg.text))
  {
  }

  lemma ClipTells(w: World, videoId: string, seg: Segment)
    ensures Told(w, ClipId(w, videoId, seg), JObj(ClipProps(seg)))
  {
    var props, x := JObj(ClipProps(seg)), ClipId(w, videoId, seg);
    ClipHolds(seg);
    OneStep(props, "startOffset");
    OneStep(props, "endOffset");
    assert ClipTold(w, x, props, videoId, seg.startOffset, seg.endOffset);
    assert "youtube-clip"[0] != "heyarr-work"[0];
  }

  lemma ClipWords()
    ensures KindOf("youtube-clip", "Clip") && NulFree("Clip") && BAR !in "isPartOf"
  {
  }

  lemma ClipNodeDraws(
    w: World, db: Db, n: nat, video: EntityId, videoId: string, seg: Segment, ties: set<Tie>, nodes: set<EntityId>)
    requires Drawn(w, db, n, ties, nodes) && BarFree(w) && video in nodes && NulFree(ClipId(w, videoId, seg).Key())
    requires ClipNode(w, db, n, video, videoId, seg).r.Ok? && NoMerge(ClipNode(w, db, n, video, videoId, seg).calls)
    ensures var f := ClipNode(w, db, n, video, videoId, seg);
      && Drew(w, db, f, ties + {Tie("isPartOf", f.r.value, video)}, nodes + {f.r.value})
      && Named(f.db.t, f.r.value, "Clip", "youtube-clip", Place(w, videoId, seg))
  {
    var a := Upsert(w, db, n, "Clip", ClipProps(seg), ClipId(w, videoId, seg), "ingest:yt-dlp");
    ClipWords();
    ClipTells(w, videoId, seg);
    ClipNodeIs(w, db, n, video, videoId, seg);
    UpsertLinked(w, db, n, "Clip", ClipProps(seg), ClipId(w, videoId, seg), "ingest:yt-dlp", "isPartOf", a.r.value,
                 video, ties, nodes);
    SparedKept(db, ClipNode(w, db, n, video, videoId, seg).db, "Clip");
  }

  lemma ClipOfIs(w: World, db: Db, n: nat, video: EntityId, videoId: string, seg: Segment)
    requires ClipOf(w, db, n, video, videoId, seg).r.Ok? && NoMerge(ClipOf(w, db, n, video, videoId, seg).calls)
    ensures var a, f := ClipNode(w, db, n, video, videoId, seg), ClipOf(w, db, n, video, videoId, seg);
      && a.r.Ok? && NoMerge(a.calls)
      && var b := Abouts(w, a.db, a.n, a.r.value, seg.subjects);
        b.r.Ok? && NoMerge(b.calls) && f.db == b.db && f.n == b.n && f.r.value == (a.r.value, b.r.value)
  {
    var a := ClipNode(w, db, n, video, videoId, seg);
    if a.r.Ok? {
      NoMergeSplit(a.calls, Abouts(w, a.db, a.n, a.r.value, seg.subjects).calls);
    }
  }

  lemma ClipSets(video: EntityId, clip: EntityId, works: seq<EntityId>, ties: set<Tie>, nodes: set<EntityId>)
    ensures (ties + {Tie("isPartOf", clip, video)}) + AboutTies(clip, works) == ties + ClipTies(video, clip, works)
    ensures (nodes + {clip}) + AllOf(works) == nodes + AllOf([clip] + works)
  {
  }

  lemma SubjectsOfClip(
    w: World, db: Db, a: Flow<EntityId>, video: EntityId, videoId: string, seg: Segment, ties: set<Tie>,
    nodes: set<EntityId>)
    requires BarFree(w) && PlainWorks(w) && PlainSubjects(seg.subjects) && a.r.Ok?
    requires Drew(w, db, a, ties + {Tie("isPartOf", a.r.value, video)}, nodes + {a.r.value})
    requires Named(a.db.t, a.r.value, "Clip", "youtube-clip", Place(w, videoId, seg))
    requires var b := Abouts(w, a.db, a.n, a.r.value, seg.subjects); b.r.Ok? && NoMerge(b.calls)
    ensures var b := Abouts(w, a.db, a.n, a.r.value, seg.subjects);
      && Drawn(w, b.db, b.n, ties + ClipTies(video, a.r.value, b.r.value), nodes + AllOf([a.r.value] + b.r.value))
      && Kept(db, b.db) && ClipFor(w, b.db.t, a.r.value, b.r.value, videoId, seg)
  {
    var clip, b := a.r.value, Abouts(w, a.db, a.n, a.r.value, seg.subjects);
    AboutsDraw(w, a.db, a.n, clip, seg.subjects, ties + {Tie("isPartOf", clip, video)}, nodes + {clip});
    ClipSets(video, clip, b.r.value, ties, nodes);
    StillNamed(a.db, b.db, clip, "Clip", "youtube-clip", Place(w, videoId, seg));
    KeptTrans(db, a.db, b.db);
  }

  lemma ClipDraws(
    w: World, db: Db, n: nat, video: EntityId, videoId: string, seg: Segment, ties: set<Tie>, nodes: set<EntityId>)
    requires Drawn(w, db, n, ties, nodes) && BarFree(w) && PlainWorks(w) && video in nodes
    requires NulFree(ClipId(w, videoId, seg).Key()) && PlainSubjects(seg.subjects)
    requires ClipOf(w, db, n, video, videoId, seg).r.Ok? && NoMerge(ClipOf(w, db, n, video, videoId, seg).calls)
    ensures var f := ClipOf(w, db, n, video, videoId, seg); var (clip, works) := f.r.value;
      && Drew(w, db, f, ties + ClipTies(video, clip, works), nodes + AllOf([clip] + works))
      && ClipFor(w, f.db.t, clip, works, videoId, seg)
  {
    ClipOfIs(w, db, n, video, videoId, seg);
    ClipNodeDraws(w, db, n, video, videoId, seg, ties, nodes);
    SubjectsOfClip(w, db, ClipNode(w, db, n, video, videoId, seg), video, videoId, seg, ties, nodes);
  }

  function Flat(xss: seq<seq<EntityId>>): seq<EntityId> {
    if xss == [] then [] else Flat(xss[..|xss| - 1]) + xss[|xss| - 1]
  }

  function AllClipTies(video: EntityId, clips: seq<EntityId>, works: seq<seq<EntityId>>): set<Tie>
    requires |works| == |clips|
  {
    if clips == [] then {}
    else
      var k := |clips| - 1;
      AllClipTies(video, clips[..k], works[..k]) + ClipTies(video, clips[k], works[k])
  }

  /** One clip for each segment, with the works it is about. */
  predicate ClipsFor(
    w: World, t: Tables, clips: seq<EntityId>, works: seq<seq<EntityId>>, videoId: string, segs: seq<Segment>)
  {
    |clips| == |works| == |segs|
    && forall i | 0 <= i < |segs| :: ClipFor(w, t, clips[i], works[i], videoId, segs[i])
  }

  lemma StillClips(
    w: World, a: Db, b: Db, clips: seq<EntityId>, works: seq<seq<EntityId>>, videoId: string, segs: seq<Segment>)
    requires Grown(a, b) && ClipsFor(w, a.t, clips, works, videoId, segs)
    ensures ClipsFor(w, b.t, clips, works, videoId, segs)
  {
    forall i | 0 <= i < |segs| ensures ClipFor(w, b.t, clips[i], works[i], videoId, segs[i]) {
      StillNamed(a, b, clips[i], "Clip", "youtube-clip", Place(w, videoId, segs[i]));
      StillFor(w, a, b, works[i], segs[i].subjects);
    }
  }

  lemma MoreClips(
    video: EntityId, clips: seq<EntityId>, works: seq<seq<EntityId>>, clip: EntityId, more: seq<EntityId>,
    ties: set<Tie>, nodes: set<EntityId>)
    requires |works| == |clips|
    ensures Flat(works + [more]) == Flat(works) + more
    ensures (ties + AllClipTies(video, clips, works)) + ClipTies(video, clip, more)
            == ties + AllClipTies(video, clips + [clip], works + [more])
    ensures (nodes + AllOf(clips + Flat(works))) + AllOf([clip] + more)
            == nodes + AllOf((clips + [clip]) + Flat(works + [more]))
  {
    assert (clips + [clip])[..|clips|] == clips && (works + [more])[..|works|] == works;
    assert forall x :: x in (clips + [clip]) + (Flat(works) + more) <==> x in clips + Flat(works) || x in [clip] + more;
  }

  lemma ClipsIs(w: World, db: Db, n: nat, video: EntityId, videoId: string, segs: seq<Segment>)
    requires segs != [] && Clips(w, db, n, video, videoId, segs).r.Ok?
    requires NoMerge(Clips(w, db, n, video, videoId, segs).calls)
    ensures var a, f := Clips(w, db, n, video, videoId, segs[..|segs| - 1]), Clips(w, db, n, video, videoId, segs);
      && a.r.Ok? && NoMerge(a.calls)
      && var b := ClipOf(w, a.db, a.n, video, videoId, segs[|segs| - 1]);
        && b.r.Ok? && NoMerge(b.calls) && f.db == b.db && f.n == b.n
        && f.r.value == (a.r.value.0 + [b.r.value.0], a.r.value.1 + b.r.value.1)
  {
    var a := Clips(w, db, n, video, videoId, segs[..|segs| - 1]);
    if a.r.Ok? {
      NoMergeSplit(a.calls, ClipOf(w, a.db, a.n, video, videoId, segs[|segs| - 1]).calls);
    }
  }

  lemma OneMoreClip(
    w: World, t: Tables, clips: seq<EntityId>, works: seq<seq<EntityId>>, clip: EntityId, more: seq<EntityId>,
    videoId: string, segs: seq<Segment>)
    requires segs != [] && ClipsFor(w, t, clips, works, videoId, segs[..|segs| - 1])
    requires ClipFor(w, t, clip, more, videoId, segs[|segs| - 1])
    ensures ClipsFor(w, t, clips + [clip], works + [more], videoId, segs)
  {
  }

  /** The last segment's clip, after the others. */
  lemma LastClip(
    w: World, db: Db, a: Flow<(seq<EntityId>, seq<EntityId>)>, works: seq<seq<EntityId>>, video: EntityId,
    videoId: string, segs: seq<Segment>, ties: set<Tie>, nodes: set<EntityId>)
    requires BarFree(w) && PlainWorks(w) && PlainSegments(w, videoId, segs) && video in nodes && segs != [] && a.r.Ok?
    requires ClipsFor(w, a.db.t, a.r.value.0, works, videoId, segs[..|segs| - 1])
    requires Drew(w, db, a, ties + AllClipTies(video, a.r.value.0, works), nodes + AllOf(a.r.value.0 + Flat(works)))
    requires var b := ClipOf(w, a.db, a.n, video, videoId, segs[|segs| - 1]); b.r.Ok? && NoMerge(b.calls)
    ensures var b := ClipOf(w, a.db, a.n, video, videoId, segs[|segs| - 1]);
      var clips, all := a.r.value.0 + [b.r.value.0], works + [b.r.value.1];
      && |all| == |clips| && Flat(all) == Flat(works) + b.r.value.1
      && Drawn(w, b.db, b.n, ties + AllClipTies(video, clips, all), nodes + AllOf(clips + Flat(all)))
      && Kept(db, b.db) && ClipsFor(w, b.db.t, clips, all, videoId, segs)
  {
    var clips, seg := a.r.value.0, segs[|segs| - 1];
    var b := ClipOf(w, a.db, a.n, video, videoId, seg);
    ClipDraws(w, a.db, a.n, video, videoId, seg, ties + AllClipTies(video, clips, works),
              nodes + AllOf(clips + Flat(works)));
    MoreClips(video, clips, works, b.r.value.0, b.r.value.1, ties, nodes);
    KeptTrans(db, a.db, b.db);
    StillClips(w, a.db, b.db, clips, works, videoId, segs[..|segs| - 1]);
    OneMoreClip(w, b.db.t, clips, works, b.r.value.0, b.r.value.1, videoId, segs);
  }

  lemma NoClips(w: World, db: Db, n: nat, video: EntityId, videoId: string, ties: set<Tie>, nodes: set<EntityId>)
    requires Drawn(w, db, n, ties, nodes)
    ensures var f := Clips(w, db, n, video, videoId, []);
      && f.r == Ok(([], [])) && Drew(w, db, f, ties + AllClipTies(video, [], []), nodes + AllOf([] + Flat([])))
      && ClipsFor(w, f.db.t, [], [], videoId, [])
  {
    NothingLeaves(w, db, n);
    NoClipSets(video, ties, nodes);
  }

  lemma NoClipSets(video: EntityId, ties: set<Tie>, nodes: set<EntityId>)
    ensures ties + AllClipTies(video, [], []) == ties && nodes + AllOf([] + Flat([])) == nodes
  {
  }

  lemma {:induction false} ClipsDraw(
    w: World, db: Db, n: nat, video: EntityId, videoId: string, segs: seq<Segment>, ties: set<Tie>,
    nodes: set<EntityId>)
    returns (works: seq<seq<EntityId>>)
    requires Drawn(w, db, n, ties, nodes) && BarFree(w) && PlainWorks(w) && video in nodes
    requires PlainSegments(w, videoId, segs) && Clips(w, db, n, video, videoId, segs).r.Ok?
    requires NoMerge(Clips(w, db, n, video, videoId, segs).calls)
    ensures var f := Clips(w, db, n, video, videoId, segs); var (clips, abouts) := f.r.value;
      && |works| == |clips| && abouts == Flat(works)
      && Drew(w, db, f, ties + AllClipTies(video, clips, works), nodes + AllOf(clips + Flat(works)))
      && ClipsFor(w, f.db.t, clips, works, videoId, segs)
    decreases |segs|
  {
    if segs == [] {
      works := [];
      NoClips(w, db, n, video, videoId, ties, nodes);
    } else {
      var front := segs[..|segs| - 1];
      ClipsIs(w, db, n, video, videoId, segs);
      var before := ClipsDraw(w, db, n, video, videoId, front, ties, nodes);
      var a := Clips(w, db, n, video, videoId, front);
      LastClip(w, db, a, before, video, videoId, segs, ties, nodes);
      works := before + [ClipOf(w, a.db, a.n, video, videoId, segs[|segs| - 1]).r.value.1];
    }
  }

  // ---- the video and its channel ----

  /** A node of a type nobody had yet holds just the given props. */
  lemma FirstOfType(
    w: World, db: Db, n: nat, typ: string, props: map<string, Json>, ext: ExternalId, asserter: string, ties: set<Tie>,
    nodes: set<EntityId>)
    requires Drawn(w, db, n, ties, nodes) && BarFree(w) && NulFree(typ) && NulFree(ext.Key()) && KindOf(ext.scheme, typ)
    requires asserter == AsserterOf(typ) && Told(w, ext, JObj(props))
    requires Upsert(w, db, n, typ, props, ext, asserter).r.Ok?
    requires NoMerge(Upsert(w, db, n, typ, props, ext, asserter).calls)
    requires forall x | x in db.t.entities :: db.t.entities[x].typ != typ
    ensures var f := Upsert(w, db, n, typ, props, ext, asserter);
      f.r.value in f.db.t.entities && f.db.t.entities[f.r.value].props == JObj(props)
  {
    var in_ := UpsertInput(w.req, typ, props, ext, asserter);
    UpsertReports(w, db, n, typ, props, ext, asserter, in_);
    EntityWriteLeaves(w, db, n, in_);
    var (db', out) := AppendEntity(w.cfg, db, in_, w.ticks(n));
    OneKeyWritten(w, db, n, in_, ext, db', out, ties, nodes);
    FirstIsNew(w, db, n, in_, db', out);
  }

  lemma FirstIsNew(w: World, db: Db, n: nat, in_: EntityInput, db': Db, out: Outcome)
    requires Ground(w, db, n) && AppendEntity(w.cfg, db, in_, w.ticks(n)) == (db', out) && in_.candidate.props.Doc?
    requires (out.Accepted? || out.Replayed?) && Grown(db, db')
    requires out.subject in db'.t.entities && db'.t.entities[out.subject].typ == in_.candidate.typ
    requires forall x | x in db.t.entities :: db.t.entities[x].typ != in_.candidate.typ
    ensures db'.t.entities[out.subject].props == in_.candidate.props.value
  {
    assert forall x | x in db.t.entities :: SameRow(db.t.entities[x], db'.t.entities[x]);
    if out.Accepted? {
      WrittenRow(w, db, n, in_, db', out.subject);
    } else {
      NotAccepted(w.cfg, db, in_, w.ticks(n));
      assert false;
    }
  }

  /** The bag is an object of just these members: each text under its name, an optional one unless empty. */
  predicate HoldsTexts(props: Json, always: map<string, string>, optional: map<string, string>) {
    && props.JObj?
    && (forall k | k in always :: k in props.m && props.m[k] == JStr(always[k]))
    && (forall k | k in optional && optional[k] != "" :: k in props.m && props.m[k] == JStr(optional[k]))
    && (forall k | k in props.m :: k in always || (k in optional && optional[k] != ""))
  }

  function VideoTexts(md: Metadata): (map<string, string>, map<string, string>) {
    (map["name" := md.title, "url" := md.url],
     map["description" := md.description, "uploadDate" := md.uploadDate, "transcript" := md.transcript])
  }

  function ChannelTexts(md: Metadata): (map<string, string>, map<string, string>) {
    (map["name" := md.channelName], map["url" := md.channelUrl])
  }

  lemma VideoHolds(md: Metadata)
    ensures HoldsTexts(JObj(VideoProps(md)), VideoTexts(md).0, VideoTexts(md).1)
  {
  }

  function ChannelProps(md: Metadata): map<string, Json> {
    PutIf(map["name" := JStr(md.channelName)], "url", md.channelUrl)
  }

  lemma ChannelHolds(md: Metadata)
    ensures HoldsTexts(JObj(ChannelProps(md)), ChannelTexts(md).0, ChannelTexts(md).1)
  {
  }

  predicate NamesChannel(md: Metadata) {
    md.channelId != "" || md.channelName != ""
  }

  /** The video of the metadata. */
  predicate VideoFor(t: Tables, video: EntityId, md: Metadata) {
    && Named(t, video, "VideoObject", "youtube", md.videoId)
    && HoldsTexts(t.entities[video].props, VideoTexts(md).0, VideoTexts(md).1)
  }

  /** Its channel, or none. */
  predicate ChannelFor(t: Tables, channel: EntityId, md: Metadata) {
    if NamesChannel(md) then
      && Named(t, channel, "Organization", "youtube-channel", md.channelId)
      && HoldsTexts(t.entities[channel].props, ChannelTexts(md).0, ChannelTexts(md).1)
    else channel == ""
  }

  function ChannelTies(md: Metadata, video: EntityId, channel: EntityId): set<Tie> {
    if NamesChannel(md) then {Tie("author", video, channel)} else {}
  }

  function ChannelNodes(md: Metadata, channel: EntityId): set<EntityId> {
    if NamesChannel(md) then {channel} else {}
  }

  lemma VideoWords()
    ensures KindOf("youtube", "VideoObject") && NulFree("VideoObject") && AsserterOf("VideoObject") == "ingest:yt-dlp"
    ensures KindOf("youtube-channel", "Organization") && NulFree("Organization") && BAR !in "author"
    ensures AsserterOf("Organization") == "ingest:yt-dlp"
  {
  }

  lemma OnlyOne(id: EntityId, l: Tie)
    ensures {} + {id} == {id} && {id} + {} == {id} && {} + {l} == {l}
  {
  }

  lemma DrawnAs(w: World, db: Db, n: nat, ties: set<Tie>, nodes: set<EntityId>, ties': set<Tie>, nodes': set<EntityId>)
    requires Drawn(w, db, n, ties, nodes) && ties == ties' && nodes == nodes'
    ensures Drawn(w, db, n, ties', nodes')
  {
  }

  lemma FirstNode(
    w: World, n: nat, typ: string, props: map<string, Json>, ext: ExternalId, asserter: string)
    requires Drawn(w, EMPTY_DB, n, {}, {}) && BarFree(w)
    requires NulFree(typ) && NulFree(ext.Key()) && KindOf(ext.scheme, typ)
    requires asserter == AsserterOf(typ) && Told(w, ext, JObj(props))
    requires Upsert(w, EMPTY_DB, n, typ, props, ext, asserter).r.Ok?
    requires NoMerge(Upsert(w, EMPTY_DB, n, typ, props, ext, asserter).calls)
    ensures var f := Upsert(w, EMPTY_DB, n, typ, props, ext, asserter);
      && Drawn(w, f.db, f.n, {}, {f.r.value}) && Named(f.db.t, f.r.value, typ, ext.scheme, ext.value)
      && f.db.t.entities[f.r.value].props == JObj(props)
  {
    var f := Upsert(w, EMPTY_DB, n, typ, props, ext, asserter);
    UpsertDraws(w, EMPTY_DB, n, typ, props, ext, asserter, {}, {});
    FirstOfType(w, EMPTY_DB, n, typ, props, ext, asserter, {}, {});
    OnlyOne(f.r.value, Tie("", "", ""));
    DrawnAs(w, f.db, f.n, {}, {} + {f.r.value}, {}, {f.r.value});
  }

  lemma VideoDraws(w: World, n: nat, md: Metadata)
    requires Drawn(w, EMPTY_DB, n, {}, {}) && BarFree(w) && NulFree(ExternalId("youtube", md.videoId).Key())
    requires Video(w, EMPTY_DB, n, md).r.Ok? && NoMerge(Video(w, EMPTY_DB, n, md).calls)
    ensures var f := Video(w, EMPTY_DB, n, md);
      Drawn(w, f.db, f.n, {}, {f.r.value}) && VideoFor(f.db.t, f.r.value, md)
  {
    VideoWords();
    VideoHolds(md);
    OthersTell(w, md.videoId, JObj(VideoProps(md)));
    FirstNode(w, n, "VideoObject", VideoProps(md), ExternalId("youtube", md.videoId), "ingest:yt-dlp");
  }

  lemma ChannelIs(w: World, db: Db, n: nat, md: Metadata, video: EntityId, props: map<string, Json>, id: ExternalId)
    requires Channel(w, db, n, md, video).r.Ok? && NoMerge(Channel(w, db, n, md, video).calls) && NamesChannel(md)
    requires props == ChannelProps(md) && id == ExternalId("youtube-channel", md.channelId)
    ensures var a := Upsert(w, db, n, "Organization", props, id, "ingest:yt-dlp");
      && a.r.Ok? && NoMerge(a.calls)
      && var f, b := Channel(w, db, n, md, video), Link(w, a.db, a.n, "author", video, a.r.value);
        b.r.Ok? && f.db == b.db && f.n == b.n && f.r.value == a.r.value
  {
    var a := Upsert(w, db, n, "Organization", props, id, "ingest:yt-dlp");
    if a.r.Ok? {
      NoMergeSplit(a.calls, Link(w, a.db, a.n, "author", video, a.r.value).calls);
    }
  }

  lemma VideoStays(a: Db, b: Db, video: EntityId, md: Metadata)
    requires VideoFor(a.t, video, md) && Grown(a, b)
    requires b.t.entities[video] == a.t.entities[video]
    ensures VideoFor(b.t, video, md)
  {
  }

  /** The first node of its type, and the tie that brings it in. */
  lemma FirstLinked(
    w: World, db: Db, n: nat, typ: string, props: map<string, Json>, ext: ExternalId, asserter: string,
    predicate_: string, from: EntityId, to: EntityId, ties: set<Tie>, nodes: set<EntityId>)
    requires Drawn(w, db, n, ties, nodes) && BarFree(w) && NulFree(typ) && NulFree(ext.Key()) && KindOf(ext.scheme, typ)
    requires asserter == AsserterOf(typ) && Told(w, ext, JObj(props))
    requires forall x | x in db.t.entities :: db.t.entities[x].typ != typ
    requires var a := Upsert(w, db, n, typ, props, ext, asserter);
      && a.r.Ok? && NoMerge(a.calls) && Link(w, a.db, a.n, predicate_, from, to).r.Ok?
      && BAR !in predicate_ && from in nodes + {a.r.value} && to in nodes + {a.r.value}
    ensures var a := Upsert(w, db, n, typ, props, ext, asserter); var b := Link(w, a.db, a.n, predicate_, from, to);
      && Drawn(w, b.db, b.n, ties + {Tie(predicate_, from, to)}, nodes + {a.r.value}) && Grown(db, b.db)
      && Named(b.db.t, a.r.value, typ, ext.scheme, ext.value) && b.db.t.entities[a.r.value].props == JObj(props)
      && forall x | x in db.t.entities :: x in b.db.t.entities && b.db.t.entities[x] == db.t.entities[x]
  {
    UpsertLinked(w, db, n, typ, props, ext, asserter, predicate_, from, to, ties, nodes);
    FirstOfType(w, db, n, typ, props, ext, asserter, ties, nodes);
  }

  lemma OnlyVideo(t: Tables, video: EntityId)
    requires t.entities.Keys == {video} && t.entities[video].typ == "VideoObject"
    ensures forall x | x in t.entities :: t.entities[x].typ != "Organization"
  {
  }

  lemma ChannelNamed(w: World, db: Db, n: nat, md: Metadata, video: EntityId, id: ExternalId)
    requires Drawn(w, db, n, {}, {video}) && BarFree(w) && NulFree(id.Key()) && NamesChannel(md)
    requires VideoFor(db.t, video, md) && id == ExternalId("youtube-channel", md.channelId)
    requires Channel(w, db, n, md, video).r.Ok? && NoMerge(Channel(w, db, n, md, video).calls)
    ensures var f := Channel(w, db, n, md, video);
      && Drawn(w, f.db, f.n, {} + {Tie("author", video, f.r.value)}, {video} + {f.r.value})
      && Named(f.db.t, f.r.value, "Organization", "youtube-channel", md.channelId)
      && f.db.t.entities[f.r.value].props == JObj(ChannelProps(md))
      && Grown(db, f.db) && f.db.t.entities[video] == db.t.entities[video]
  {
    var a := Upsert(w, db, n, "Organization", ChannelProps(md), id, "ingest:yt-dlp");
    VideoWords();
    OthersTell(w, md.channelId, JObj(ChannelProps(md)));
    ChannelIs(w, db, n, md, video, ChannelProps(md), id);
    OnlyVideo(db.t, video);
    FirstLinked(w, db, n, "Organization", ChannelProps(md), id, "ingest:yt-dlp", "author", video, a.r.value, {},
                {video});
  }

  lemma ChannelKnown(w: World, db: Db, n: nat, md: Metadata, video: EntityId)
    requires Drawn(w, db, n, {}, {video}) && BarFree(w) && VideoFor(db.t, video, md) && NamesChannel(md)
    requires NulFree(ExternalId("youtube-channel", md.channelId).Key())
    requires Channel(w, db, n, md, video).r.Ok? && NoMerge(Channel(w, db, n, md, video).calls)
    ensures var f := Channel(w, db, n, md, video);
      && Drawn(w, f.db, f.n, ChannelTies(md, video, f.r.value), {video} + ChannelNodes(md, f.r.value))
      && VideoFor(f.db.t, video, md) && ChannelFor(f.db.t, f.r.value, md)
  {
    var f := Channel(w, db, n, md, video);
    ChannelNamed(w, db, n, md, video, ExternalId("youtube-channel", md.channelId));
    ChannelHolds(md);
    VideoStays(db, f.db, video, md);
    OnlyOne(video, Tie("author", video, f.r.value));
    DrawnAs(w, f.db, f.n, {} + {Tie("author", video, f.r.value)}, {video} + {f.r.value},
            ChannelTies(md, video, f.r.value), {video} + ChannelNodes(md, f.r.value));
  }

  lemma ChannelDraws(w: World, db: Db, n: nat, md: Metadata, video: EntityId)
    requires Drawn(w, db, n, {}, {video}) && BarFree(w) && VideoFor(db.t, video, md)
    requires NulFree(ExternalId("youtube-channel", md.channelId).Key())
    requires Channel(w, db, n, md, video).r.Ok? && NoMerge(Channel(w, db, n, md, video).calls)
    ensures var f := Channel(w, db, n, md, video);
      && Drawn(w, f.db, f.n, ChannelTies(md, video, f.r.value), {video} + ChannelNodes(md, f.r.value))
      && VideoFor(f.db.t, video, md) && ChannelFor(f.db.t, f.r.value, md)
  {
    if NamesChannel(md) {
      ChannelKnown(w, db, n, md, video);
    } else {
      OnlyOne(video, Tie("", "", ""));
    }
  }

  lemma NodesIs(w: World, db: Db, n: nat, md: Metadata)
    requires Nodes(w, db, n, md).r.Ok? && NoMerge(Nodes(w, db, n, md).calls)
    ensures var a, f := Video(w, db, n, md), Nodes(w, db, n, md);
      && a.r.Ok? && NoMerge(a.calls)
      && var b := Channel(w, a.db, a.n, md, a.r.value);
        b.r.Ok? && NoMerge(b.calls) && f.db == b.db && f.n == b.n && f.r.value == (a.r.value, b.r.value)
  {
    var a := Video(w, db, n, md);
    if a.r.Ok? {
      NoMergeSplit(a.calls, Channel(w, a.db, a.n, md, a.r.value).calls);
    }
  }

  lemma NodesDraw(w: World, n: nat, md: Metadata)
    requires Drawn(w, EMPTY_DB, n, {}, {}) && BarFree(w)
    requires NulFree(ExternalId("youtube", md.videoId).Key())
             && NulFree(ExternalId("youtube-channel", md.channelId).Key())
    requires Nodes(w, EMPTY_DB, n, md).r.Ok? && NoMerge(Nodes(w, EMPTY_DB, n, md).calls)
    ensures var f := Nodes(w, EMPTY_DB, n, md); var (video, channel) := f.r.value;
      && Drawn(w, f.db, f.n, ChannelTies(md, video, channel), {video} + ChannelNodes(md, channel))
      && VideoFor(f.db.t, video, md) && ChannelFor(f.db.t, channel, md)
  {
    var a := Video(w, EMPTY_DB, n, md);
    NodesIs(w, EMPTY_DB, n, md);
    VideoDraws(w, n, md);
    ChannelDraws(w, a.db, a.n, md, a.r.value);
  }

  // ---- the whole ----

  lemma NodesKept(a: Db, b: Db, video: EntityId, channel: EntityId, md: Metadata)
    requires Kept(a, b) && VideoFor(a.t, video, md) && ChannelFor(a.t, channel, md)
    ensures VideoFor(b.t, video, md) && ChannelFor(b.t, channel, md)
  {
  }

  lemma FrontIs(w: World, db: Db, n: nat, md: Metadata)
    requires Front(w, db, n, md).r.Ok? && NoMerge(Front(w, db, n, md).calls)
    ensures var a, f := Nodes(w, db, n, md), Front(w, db, n, md);
      && a.r.Ok? && NoMerge(a.calls)
      && var b := Abouts(w, a.db, a.n, a.r.value.0, w.req.subjects);
        && b.r.Ok? && NoMerge(b.calls) && f.db == b.db && f.n == b.n
        && f.r.value == (a.r.value.0, a.r.value.1, b.r.value)
  {
    var a := Nodes(w, db, n, md);
    if a.r.Ok? {
      NoMergeSplit(a.calls, Abouts(w, a.db, a.n, a.r.value.0, w.req.subjects).calls);
    }
  }

  function FrontTies(md: Metadata, video: EntityId, channel: EntityId, works: seq<EntityId>): set<Tie> {
    ChannelTies(md, video, channel) + AboutTies(video, works)
  }

  function FrontNodes(md: Metadata, video: EntityId, channel: EntityId, works: seq<EntityId>): set<EntityId> {
    {video} + ChannelNodes(md, channel) + AllOf(works)
  }

  predicate FrontFor(w: World, t: Tables, md: Metadata, video: EntityId, channel: EntityId, works: seq<EntityId>) {
    VideoFor(t, video, md) && ChannelFor(t, channel, md) && WorksFor(w, t, works, w.req.subjects)
  }

  lemma SubjectsOfVideo(w: World, a: Flow<(EntityId, EntityId)>, md: Metadata)
    requires BarFree(w) && PlainWorks(w) && PlainSubjects(w.req.subjects) && a.r.Ok?
    requires var (video, channel) := a.r.value;
      && Drawn(w, a.db, a.n, ChannelTies(md, video, channel), {video} + ChannelNodes(md, channel))
      && VideoFor(a.db.t, video, md) && ChannelFor(a.db.t, channel, md)
    requires var b := Abouts(w, a.db, a.n, a.r.value.0, w.req.subjects); b.r.Ok? && NoMerge(b.calls)
    ensures var (video, channel) := a.r.value; var b := Abouts(w, a.db, a.n, video, w.req.subjects);
      && Drawn(w, b.db, b.n, FrontTies(md, video, channel, b.r.value), FrontNodes(md, video, channel, b.r.value))
      && FrontFor(w, b.db.t, md, video, channel, b.r.value)
  {
    var (video, channel) := a.r.value;
    AboutsDraw(w, a.db, a.n, video, w.req.subjects, ChannelTies(md, video, channel),
               {video} + ChannelNodes(md, channel));
    NodesKept(a.db, Abouts(w, a.db, a.n, video, w.req.subjects).db, video, channel, md);
  }

  lemma FrontDraws(w: World, n: nat, md: Metadata)
    requires Drawn(w, EMPTY_DB, n, {}, {}) && BarFree(w) && PlainWorks(w) && PlainSubjects(w.req.subjects)
    requires NulFree(ExternalId("youtube", md.videoId).Key())
             && NulFree(ExternalId("youtube-channel", md.channelId).Key())
    requires Front(w, EMPTY_DB, n, md).r.Ok? && NoMerge(Front(w, EMPTY_DB, n, md).calls)
    ensures var f := Front(w, EMPTY_DB, n, md); var (video, channel, works) := f.r.value;
      && Drawn(w, f.db, f.n, FrontTies(md, video, channel, works), FrontNodes(md, video, channel, works))
      && FrontFor(w, f.db.t, md, video, channel, works)
  {
    FrontIs(w, EMPTY_DB, n, md);
    NodesDraw(w, n, md);
    SubjectsOfVideo(w, Nodes(w, EMPTY_DB, n, md), md);
  }

  lemma FrontKept(
    w: World, a: Db, b: Db, md: Metadata, video: EntityId, channel: EntityId, works: seq<EntityId>)
    requires Kept(a, b) && FrontFor(w, a.t, md, video, channel, works)
    ensures FrontFor(w, b.t, md, video, channel, works)
  {
    NodesKept(a, b, video, channel, md);
    StillFor(w, a, b, works, w.req.subjects);
  }

  lemma BodyIs(w: World, db: Db, n: nat, md: Metadata)
    requires Body(w, db, n, md).r.Ok? && NoMerge(Body(w, db, n, md).calls)
    ensures var a, f := Front(w, db, n, md), Body(w, db, n, md);
      && a.r.Ok? && NoMerge(a.calls)
      && var b := Clips(w, a.db, a.n, a.r.value.0, md.videoId, md.segments);
        && b.r.Ok? && NoMerge(b.calls) && f.db == b.db && f.n == b.n
        && f.r.value == Report(a.r.value.0, a.r.value.1, a.r.value.2, b.r.value.0, b.r.value.1, md.transcript != "")
  {
    var a := Front(w, db, n, md);
    if a.r.Ok? {
      NoMergeSplit(a.calls, Clips(w, a.db, a.n, a.r.value.0, md.videoId, md.segments).calls);
    }
  }

  /** The report's nodes, of the metadata and of the works found. */
  predicate Reports(w: World, t: Tables, md: Metadata, rep: Report, works: seq<seq<EntityId>>) {
    && FrontFor(w, t, md, rep.video, rep.channel, rep.aboutWorks)
    && ClipsFor(w, t, rep.clips, works, md.videoId, md.segments)
    && rep.clipAboutWorks == Flat(works) && rep.transcribed == (md.transcript != "")
  }

  /** The ties the graph must have: the video's author, its works, each clip's place, each clip's works. */
  predicate Wanted(md: Metadata, rep: Report, works: seq<seq<EntityId>>, l: Tie)
    requires |works| == |rep.clips|
  {
    || (NamesChannel(md) && l == Tie("author", rep.video, rep.channel))
    || (exists x | x in rep.aboutWorks :: l == Tie("about", rep.video, x))
    || (exists i | 0 <= i < |rep.clips| :: l == Tie("isPartOf", rep.clips[i], rep.video))
    || (exists i | 0 <= i < |rep.clips| :: exists x | x in works[i] :: l == Tie("about", rep.clips[i], x))
  }

  lemma {:induction false} ClipTiesAre(video: EntityId, clips: seq<EntityId>, works: seq<seq<EntityId>>, l: Tie)
    requires |works| == |clips|
    ensures l in AllClipTies(video, clips, works) <==>
            exists i :: 0 <= i < |clips| && l in ClipTies(video, clips[i], works[i])
  {
    if clips != [] {
      var k := |clips| - 1;
      ClipTiesAre(video, clips[..k], works[..k], l);
      if i :| 0 <= i < k && l in ClipTies(video, clips[..k][i], works[..k][i]) {
        assert l in ClipTies(video, clips[i], works[i]);
      }
      if i :| 0 <= i < |clips| && l in ClipTies(video, clips[i], works[i]) {
        assert i < k ==> l in ClipTies(video, clips[..k][i], works[..k][i]);
      }
    }
  }

  lemma WantedAre(md: Metadata, rep: Report, works: seq<seq<EntityId>>, l: Tie)
    requires |works| == |rep.clips|
    ensures l in FrontTies(md, rep.video, rep.channel, rep.aboutWorks) + AllClipTies(rep.video, rep.clips, works)
            <==> Wanted(md, rep, works, l)
  {
    ClipTiesAre(rep.video, rep.clips, works, l);
    if i :| 0 <= i < |rep.clips| && l in ClipTies(rep.video, rep.clips[i], works[i]) {
      assert Wanted(md, rep, works, l);
    }
    if i :| 0 <= i < |rep.clips| && l == Tie("isPartOf", rep.clips[i], rep.video) {
      assert l in ClipTies(rep.video, rep.clips[i], works[i]);
    }
    if i :| 0 <= i < |rep.clips| && exists x | x in works[i] :: l == Tie("about", rep.clips[i], x) {
      assert l in ClipTies(rep.video, rep.clips[i], works[i]);
    }
  }

  lemma BodyDraws(w: World, n: nat, md: Metadata) returns (works: seq<seq<EntityId>>)
    requires Drawn(w, EMPTY_DB, n, {}, {}) && BarFree(w) && PlainSource(w) && w.fetched == Some(md)
    requires Body(w, EMPTY_DB, n, md).r.Ok? && NoMerge(Body(w, EMPTY_DB, n, md).calls)
    ensures var f := Body(w, EMPTY_DB, n, md); var rep := f.r.value;
      && |works| == |rep.clips| && Reports(w, f.db.t, md, rep, works)
      && Drawn(w, f.db, f.n,
               FrontTies(md, rep.video, rep.channel, rep.aboutWorks) + AllClipTies(rep.video, rep.clips, works),
               FrontNodes(md, rep.video, rep.channel, rep.aboutWorks) + AllOf(rep.clips + Flat(works)))
  {
    var a := Front(w, EMPTY_DB, n, md);
    BodyIs(w, EMPTY_DB, n, md);
    FrontDraws(w, n, md);
    var (video, channel, about) := a.r.value;
    works := ClipsDraw(w, a.db, a.n, video, md.videoId, md.segments, FrontTies(md, video, channel, about),
                       FrontNodes(md, video, channel, about));
    FrontKept(w, a.db, Body(w, EMPTY_DB, n, md).db, md, video, channel, about);
  }

  /** The store's nodes are the report's, filed as the request asks, and tell what their keys say. */
  ghost predicate DrawsNodes(w: World, t: Tables, md: Metadata, rep: Report) {
    && (forall id :: id in t.entities <==>
          || id == rep.video || (NamesChannel(md) && id == rep.channel) || id in rep.aboutWorks
          || id in rep.clips || id in rep.clipAboutWorks)
    && (forall id | id in t.entities :: AskedNode(w.req, t.entities[id])) && TextsTold(w, t)
  }

  /** Its edges are the wanted ties, each once. */
  ghost predicate DrawsTies(
    req: Request, edges: map<EdgeId, EdgeRow>, md: Metadata, rep: Report, works: seq<seq<EntityId>>)
    requires |works| == |rep.clips|
  {
    && (forall e | e in edges :: Wanted(md, rep, works, TieOf(edges[e])) && AsAsked(req, edges[e]))
    && (forall l | Wanted(md, rep, works, l) :: exists e | e in edges :: TieOf(edges[e]) == l)
    && (forall e, f | e in edges && f in edges && TieOf(edges[e]) == TieOf(edges[f]) :: e == f)
  }

  lemma NodesAre(w: World, t: Tables, md: Metadata, rep: Report, works: seq<seq<EntityId>>)
    requires rep.clipAboutWorks == Flat(works) && TextsTold(w, t)
    requires forall id | id in t.entities :: AskedNode(w.req, t.entities[id])
    requires t.entities.Keys
             == FrontNodes(md, rep.video, rep.channel, rep.aboutWorks) + AllOf(rep.clips + Flat(works))
    ensures DrawsNodes(w, t, md, rep)
  {
    forall id ensures id in t.entities <==>
      || id == rep.video || (NamesChannel(md) && id == rep.channel) || id in rep.aboutWorks
      || id in rep.clips || id in rep.clipAboutWorks
    {
      assert id in t.entities <==> id in t.entities.Keys;
      assert id in rep.clips + Flat(works) <==> id in rep.clips || id in Flat(works);
    }
  }

  lemma TiesAre(
    req: Request, edges: map<EdgeId, EdgeRow>, md: Metadata, rep: Report, works: seq<seq<EntityId>>, ties: set<Tie>)
    requires |works| == |rep.clips| && Ties(req, edges, ties) && forall l :: l in ties <==> Wanted(md, rep, works, l)
    ensures DrawsTies(req, edges, md, rep, works)
  {
  }

  lemma HeldIsDrawn(w: World, db: Db, md: Metadata, rep: Report, works: seq<seq<EntityId>>)
    requires |works| == |rep.clips| && rep.clipAboutWorks == Flat(works)
    requires Holding(w, db,
                     FrontTies(md, rep.video, rep.channel, rep.aboutWorks) + AllClipTies(rep.video, rep.clips, works),
                     FrontNodes(md, rep.video, rep.channel, rep.aboutWorks) + AllOf(rep.clips + Flat(works)))
    ensures DrawsNodes(w, db.t, md, rep) && DrawsTies(w.req, db.t.edges, md, rep, works)
  {
    var ties := FrontTies(md, rep.video, rep.channel, rep.aboutWorks) + AllClipTies(rep.video, rep.clips, works);
    forall l ensures l in ties <==> Wanted(md, rep, works, l) {
      WantedAre(md, rep, works, l);
    }
    TiesAre(w.req, db.t.edges, md, rep, works, ties);
    NodesAre(w, db.t, md, rep, works);
  }

  /** A workflow that succeeds on an empty store without a merge leaves exactly the graph that was
      asked for: the report names the video, its channel, the works it is about and a clip for each
      segment, each of its type and under its key; there is no other entity; and the edges are author
      from the video to the channel, about from the video and from each clip to its works, and
      isPartOf from each clip to the video, each once and no other. */
  lemma FirstIngestDraws(w: World, n: nat) returns (works: seq<seq<EntityId>>)
    requires Hashes(w.cfg) && PlainSource(w) && FreshTicks(w, EMPTY_DB, n) && BarFree(w)
    requires Ingested(w, EMPTY_DB, n).r.Ok? && NoMerge(Ingested(w, EMPTY_DB, n).calls)
    ensures var f := Ingested(w, EMPTY_DB, n); var rep := f.r.value;
      && w.fetched.Some? && |works| == |rep.clips|
      && Reports(w, f.db.t, w.fetched.value, rep, works) && DrawsNodes(w, f.db.t, w.fetched.value, rep)
      && DrawsTies(w.req, f.db.t.edges, w.fetched.value, rep, works)
  {
    NothingDrawn(w, n);
    works := BodyDraws(w, n, w.fetched.value);
    var f := Ingested(w, EMPTY_DB, n);
    HeldIsDrawn(w, f.db, w.fetched.value, f.r.value, works);
  }

  /** Nothing is written for a request without a reference or with an unknown visibility, nor when
      nothing, or a video without an id, was fetched. */
  lemma BadRequestWritesNothing(w: World, db: Db, n: nat)
    requires || w.req.ref == "" || (w.req.visibility.Some? && w.req.visibility.value.OtherVisibility?)
             || w.fetched.None? || w.fetched.value.videoId == ""
    ensures Ingested(w, db, n) == Flow(db, n, [], Err(InvalidInput))
  {
  }
}
