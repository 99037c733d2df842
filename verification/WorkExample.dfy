/** One work and the video about it, written through the service, retracted, written anew and
    ingested twice: the requests, the keys they log, and what each call does. */
module WorkExample {
  import opened Json
  import opened Domain
  import opened Order
  import opened Resolve
  import opened Tables
  import opened Store
  import opened DedupeKey
  import opened Invariants
  import opened Acceptance
  import opened Spaces
  import opened OneSpace
  import opened Ingest
  import opened Reingest
  import opened FirstIngest
  import opened Histories

  const WORK1 := ExternalId("heyarr-work", "1")
  const WORK2 := ExternalId("heyarr-work", "2")
  const TMDB := ExternalId("tmdb", "t")
  const VIDEO := ExternalId("youtube", "v")

  const FIRST := "import|1"
  const SECOND := "import|2"
  const DROPPED := "e|retract"

  // ---- the events ----

  /** A work created by a principal through the service, with the client's own dedupe key. */
  function Catalogue(xs: seq<ExternalId>, key: string): EntityInput {
    EntityInput(
      Entity("", "CreativeWork", Doc(JObj(map[])), xs, Provenance("owner", Asserted, "", 0.0, None), "space", "owner",
             Private, []),
      "svc:owner", key, "owner", Auto)
  }

  /** The nth minted ids, all different. */
  function Tally(c: char, n: nat): string {
    [c] + seq(n, _ => '+')
  }

  function TickAt(n: nat): Tick {
    Tick("now", "now", Tally('e', n), Tally('g', n), "random")
  }

  /** The first entity of the work, the video, and the second entity of the work. */
  const OLD: EntityId := "e"
  const SEEN: EntityId := "e+"
  const ANEW: EntityId := "e++++++"

  /** The request; heyarr answers with this work. */
  function Asking(cfg: Config, work: string): World {
    World(cfg, Request("ref", "owner", "space", None, ["t"]),
          Some(Metadata("v", "title", "url", "", "", "", "", "", "", [])),
          _ => Some(work), _ => "0", TickAt)
  }

  function Catalogued(): Event {
    Wrote(AppendEntityOp(Catalogue([WORK1, WORK2, TMDB], FIRST), TickAt(0)))
  }

  function Retracted(): Event {
    Wrote(RetractEntityOp(OLD, "owner", "", "now"))
  }

  function CataloguedAnew(): Event {
    Wrote(AppendEntityOp(Catalogue([WORK2, WORK1], SECOND), TickAt(6)))
  }

  // the history: in between, the request, when heyarr still answered with the first work

  function Past1(): seq<Event> {
    [Catalogued()]
  }

  function Past2(cfg: Config): seq<Event> {
    Past1() + [Ran(Asking(cfg, "1"), 1)]
  }

  function Past3(cfg: Config): seq<Event> {
    Past2(cfg) + [Retracted()]
  }

  function Past(cfg: Config): seq<Event> {
    Past3(cfg) + [CataloguedAnew()]
  }

  /** Only ingestion writes under its own writer id. */
  ghost predicate OthersOnly(events: seq<Event>) {
    forall e | e in events && e.Wrote? ::
      match e.op
      case AppendEntityOp(in_, _) => in_.writer != INGEST
      case AppendEdgeOp(in_, _) => in_.writer != INGEST
      case MergeOp(_, _, actor, _, _) => actor != INGEST
      case RetractEntityOp(_, actor, _, _) => actor != INGEST
      case RetractEdgeOp(_, actor, _, _) => actor != INGEST
      case RebuildOp => true
  }

  // ---- the keys involved are different ----

  lemma TextKeys()
    ensures WORK1.Key() == "heyarr-work:1" && WORK2.Key() == "heyarr-work:2" && TMDB.Key() == "tmdb:t"
            && VIDEO.Key() == "youtube:v"
    ensures NulFree(WORK1.Key()) && NulFree(WORK2.Key()) && NulFree(TMDB.Key()) && NulFree(VIDEO.Key())
    ensures NulFree("CreativeWork") && NulFree("VideoObject")
  {
  }

  function Key(cfg: Config, typ: string, xs: seq<ExternalId>): string {
    DerivedKey(cfg, typ, xs, "")
  }

  lemma KeysDiffer(cfg: Config, t1: string, xs1: seq<ExternalId>, t2: string, xs2: seq<ExternalId>)
    requires Hashes(cfg) && NulFree(t1) && NulFree(t2) && NulFreeIds(xs1) && NulFreeIds(xs2)
    requires xs1 != [] && xs2 != [] && (t1 != t2 || multiset(Keys(xs1)) != multiset(Keys(xs2)))
    ensures Key(cfg, t1, xs1) != Key(cfg, t2, xs2)
  {
    DerivedBytesIff(cfg.lower, t1, xs1, "", t2, xs2, "");
  }

  lemma SizesDiffer(cfg: Config, xs1: seq<ExternalId>, xs2: seq<ExternalId>)
    requires Hashes(cfg) && NulFreeIds(xs1) && NulFreeIds(xs2) && 0 < |xs1| && 0 < |xs2| && |xs1| != |xs2|
    ensures Key(cfg, "CreativeWork", xs1) != Key(cfg, "CreativeWork", xs2)
  {
    TextKeys();
    assert |multiset(Keys(xs1))| == |xs1| && |multiset(Keys(xs2))| == |xs2|;
    KeysDiffer(cfg, "CreativeWork", xs1, "CreativeWork", xs2);
  }

  /** What a read of the work gives back, with the tmdb key once more. */
  function Again(xids: set<ExternalId>): seq<ExternalId> {
    XidOrder();
    SortSet(XidLe, xids) + [TMDB]
  }

  lemma AgainMembers(xids: set<ExternalId>)
    ensures forall x :: x in Again(xids) <==> x in xids || x == TMDB
  {
    XidOrder();
    SortSetSorts(XidLe, xids);
  }

  lemma AgainSize(xids: set<ExternalId>)
    requires forall x | x in xids :: NulFree(x.Key())
    ensures |Again(xids)| == |xids| + 1 && NulFreeIds(Again(xids))
  {
    XidOrder();
    SortSetSorts(XidLe, xids);
    TextKeys();
    forall i | 0 <= i < |Again(xids)| ensures NulFree(Again(xids)[i].Key()) {
      assert i < |xids| ==> SortSet(XidLe, xids)[i] in xids;
    }
  }

  const TWO: set<ExternalId> := {WORK1, WORK2}
  const THREE: set<ExternalId> := {WORK1, WORK2, TMDB}

  function VideoKey(cfg: Config): string {
    Key(cfg, "VideoObject", [VIDEO])
  }

  function WorkKey(cfg: Config, xs: seq<ExternalId>): string {
    Key(cfg, "CreativeWork", xs)
  }

  function AboutKey(to: EntityId): string {
    "ingest|about|" + SEEN + "|" + to
  }

  // the dedupe keys in use, as they come

  function Log0(): set<string> {
    {FIRST}
  }

  function Log1(cfg: Config): set<string> {
    Log0() + {VideoKey(cfg)}
  }

  function Log4(cfg: Config): set<string> {
    SubjectKeys(cfg, [WORK1], OLD, THREE, Log1(cfg))
  }

  function Log6(cfg: Config): set<string> {
    Log4(cfg) + {DROPPED} + {SECOND}
  }

  /** What a subject's calls log: the work, its anchor, the edge. */
  function SubjectKeys(
    cfg: Config, xs: seq<ExternalId>, id: EntityId, xids: set<ExternalId>, ks: set<string>): set<string> {
    ks + {WorkKey(cfg, xs)} + {WorkKey(cfg, Again(xids))} + {AboutKey(id)}
  }

  /** None of it is in use, in the order they log it. */
  predicate Unlogged(cfg: Config, xs: seq<ExternalId>, id: EntityId, xids: set<ExternalId>, ks: set<string>) {
    && WorkKey(cfg, xs) !in ks && WorkKey(cfg, Again(xids)) !in ks + {WorkKey(cfg, xs)}
    && AboutKey(id) !in ks + {WorkKey(cfg, xs)} + {WorkKey(cfg, Again(xids))}
  }

  predicate HashesAmong(ks: set<string>, hs: set<string>) {
    forall k | k in ks :: k in hs || BAR in k
  }

  predicate BarsAmong(ks: set<string>, bs: set<string>) {
    forall k | k in ks && BAR in k :: k in bs
  }

  lemma HashUnused(cfg: Config, typ: string, xs: seq<ExternalId>, ks: set<string>, hs: set<string>)
    requires Hashes(cfg) && HashesAmong(ks, hs) && Key(cfg, typ, xs) !in hs
    ensures Key(cfg, typ, xs) !in ks
  {
  }

  lemma BarUnused(key: string, ks: set<string>, bs: set<string>)
    requires BAR in key && BarsAmong(ks, bs) && key !in bs
    ensures key !in ks
  {
  }

  lemma AboutBarred(to: EntityId)
    ensures BAR in AboutKey(to)
  {
    assert AboutKey(to)[6] == BAR;
  }

  lemma ClientKeys()
    ensures BAR in FIRST && BAR in SECOND && BAR in DROPPED && FIRST != SECOND && FIRST != DROPPED && SECOND != DROPPED
  {
    assert FIRST[6] == BAR && SECOND[6] == BAR && DROPPED[1] == BAR && FIRST[7] != SECOND[7];
  }

  lemma AboutKeysDiffer(to: EntityId)
    ensures AboutKey(to) != FIRST && AboutKey(to) != SECOND && AboutKey(to) != DROPPED
    ensures AboutKey(ANEW) != AboutKey(OLD)
  {
    assert |AboutKey(to)| >= 15 && |FIRST| == |SECOND| == 8 && |DROPPED| == 9;
    assert |AboutKey(ANEW)| == |AboutKey(OLD)| + 6;
  }

  lemma SubjectKeysAmong(
    cfg: Config, xs: seq<ExternalId>, id: EntityId, xids: set<ExternalId>, ks: set<string>, hs: set<string>,
    bs: set<string>)
    requires Hashes(cfg) && HashesAmong(ks, hs) && BarsAmong(ks, bs)
    ensures HashesAmong(SubjectKeys(cfg, xs, id, xids, ks), hs + {WorkKey(cfg, xs)} + {WorkKey(cfg, Again(xids))})
    ensures BarsAmong(SubjectKeys(cfg, xs, id, xids, ks), bs + {AboutKey(id)})
  {
    AboutBarred(id);
  }

  lemma SubjectUnlogged(
    cfg: Config, xs: seq<ExternalId>, id: EntityId, xids: set<ExternalId>, ks: set<string>, hs: set<string>,
    bs: set<string>)
    requires Hashes(cfg) && HashesAmong(ks, hs) && BarsAmong(ks, bs) && AboutKey(id) !in bs
    requires WorkKey(cfg, xs) !in hs && WorkKey(cfg, Again(xids)) !in hs + {WorkKey(cfg, xs)}
    ensures Unlogged(cfg, xs, id, xids, ks)
  {
    AboutBarred(id);
    HashUnused(cfg, "CreativeWork", xs, ks, hs);
    HashUnused(cfg, "CreativeWork", Again(xids), ks, hs);
    BarUnused(AboutKey(id), ks, bs);
  }

  lemma Log1Among(cfg: Config)
    requires Hashes(cfg)
    ensures HashesAmong(Log1(cfg), {VideoKey(cfg)}) && BarsAmong(Log1(cfg), {FIRST}) && VideoKey(cfg) !in Log0()
  {
    ClientKeys();
  }

  lemma VideoKeyDiffers(cfg: Config, xs: seq<ExternalId>)
    requires Hashes(cfg) && NulFreeIds(xs) && xs != []
    ensures VideoKey(cfg) != WorkKey(cfg, xs)
  {
    TextKeys();
    KeysDiffer(cfg, "VideoObject", [VIDEO], "CreativeWork", xs);
  }

  lemma Ones(cfg: Config)
    requires Hashes(cfg)
    ensures NulFreeIds([WORK1]) && NulFreeIds([WORK2]) && WorkKey(cfg, [WORK1]) != WorkKey(cfg, [WORK2])
  {
    TextKeys();
    assert Keys([WORK1]) == [WORK1.Key()] && Keys([WORK2]) == [WORK2.Key()];
    assert WORK1.Key() in multiset(Keys([WORK1])) && WORK1.Key() !in multiset(Keys([WORK2]));
    KeysDiffer(cfg, "CreativeWork", [WORK1], "CreativeWork", [WORK2]);
  }

  lemma WorksPlain(xids: set<ExternalId>)
    requires xids <= THREE
    ensures forall x | x in xids :: NulFree(x.Key())
  {
    TextKeys();
  }

  lemma ThreeAgain()
    ensures |Again(THREE)| == 4 && NulFreeIds(Again(THREE))
  {
    WorksPlain(THREE);
    AgainSize(THREE);
    assert THREE == {WORK1} + {WORK2} + {TMDB} && WORK1 != WORK2 && TMDB.scheme != WORK1.scheme;
  }

  lemma TwoAgain()
    ensures |Again(TWO)| == 3 && NulFreeIds(Again(TWO))
  {
    WorksPlain(TWO);
    AgainSize(TWO);
    assert TWO == {WORK1} + {WORK2} && WORK1 != WORK2;
  }

  lemma ThreeDiffers(cfg: Config, xs: seq<ExternalId>)
    requires Hashes(cfg) && NulFreeIds(xs) && 0 < |xs| < 4
    ensures WorkKey(cfg, xs) != WorkKey(cfg, Again(THREE))
  {
    ThreeAgain();
    SizesDiffer(cfg, xs, Again(THREE));
  }

  lemma TwoDiffers(cfg: Config)
    requires Hashes(cfg)
    ensures var key := WorkKey(cfg, Again(TWO));
      key != VideoKey(cfg) && key != WorkKey(cfg, [WORK1]) && key != WorkKey(cfg, [WORK2])
        && key != WorkKey(cfg, Again(THREE))
  {
    Ones(cfg);
    TwoAgain();
    VideoKeyDiffers(cfg, Again(TWO));
    SizesDiffer(cfg, Again(TWO), [WORK1]);
    SizesDiffer(cfg, Again(TWO), [WORK2]);
    ThreeDiffers(cfg, Again(TWO));
  }

  lemma FirstDiffers(cfg: Config)
    requires Hashes(cfg)
    ensures WorkKey(cfg, [WORK1]) != VideoKey(cfg) && WorkKey(cfg, Again(THREE)) != VideoKey(cfg)
    ensures WorkKey(cfg, Again(THREE)) != WorkKey(cfg, [WORK1])
  {
    Ones(cfg);
    ThreeAgain();
    VideoKeyDiffers(cfg, [WORK1]);
    VideoKeyDiffers(cfg, Again(THREE));
    ThreeDiffers(cfg, [WORK1]);
  }

  lemma SecondDiffers(cfg: Config)
    requires Hashes(cfg)
    ensures WorkKey(cfg, [WORK2]) != VideoKey(cfg) && WorkKey(cfg, [WORK2]) != WorkKey(cfg, [WORK1])
    ensures WorkKey(cfg, [WORK2]) != WorkKey(cfg, Again(THREE))
  {
    Ones(cfg);
    VideoKeyDiffers(cfg, [WORK2]);
    ThreeDiffers(cfg, [WORK2]);
  }

  lemma FirstUnlogged(cfg: Config)
    requires Hashes(cfg)
    ensures Unlogged(cfg, [WORK1], OLD, THREE, Log1(cfg))
  {
    Log1Among(cfg);
    FirstDiffers(cfg);
    AboutKeysDiffer(OLD);
    SubjectUnlogged(cfg, [WORK1], OLD, THREE, Log1(cfg), {VideoKey(cfg)}, {FIRST});
  }

  function FirstHashes(cfg: Config): set<string> {
    {VideoKey(cfg)} + {WorkKey(cfg, [WORK1])} + {WorkKey(cfg, Again(THREE))}
  }

  lemma Log4Among(cfg: Config)
    requires Hashes(cfg)
    ensures HashesAmong(Log4(cfg), FirstHashes(cfg)) && BarsAmong(Log4(cfg), {FIRST} + {AboutKey(OLD)})
  {
    Log1Among(cfg);
    SubjectKeysAmong(cfg, [WORK1], OLD, THREE, Log1(cfg), {VideoKey(cfg)}, {FIRST});
  }

  lemma ClientKeysUnused(cfg: Config)
    requires Hashes(cfg)
    ensures DROPPED !in Log4(cfg) && SECOND !in Log4(cfg) + {DROPPED}
  {
    Log4Among(cfg);
    ClientKeys();
    AboutKeysDiffer(OLD);
    BarUnused(DROPPED, Log4(cfg), {FIRST} + {AboutKey(OLD)});
    BarUnused(SECOND, Log4(cfg), {FIRST} + {AboutKey(OLD)});
  }

  lemma MoreBars(ks: set<string>, hs: set<string>, bs: set<string>, key: string)
    requires HashesAmong(ks, hs) && BarsAmong(ks, bs) && BAR in key
    ensures HashesAmong(ks + {key}, hs) && BarsAmong(ks + {key}, bs + {key})
  {
  }

  function Bars(): set<string> {
    {FIRST} + {AboutKey(OLD)} + {DROPPED} + {SECOND}
  }

  lemma Log6Among(cfg: Config)
    requires Hashes(cfg)
    ensures HashesAmong(Log6(cfg), FirstHashes(cfg)) && BarsAmong(Log6(cfg), Bars())
  {
    Log4Among(cfg);
    ClientKeys();
    MoreBars(Log4(cfg), FirstHashes(cfg), {FIRST} + {AboutKey(OLD)}, DROPPED);
    MoreBars(Log4(cfg) + {DROPPED}, FirstHashes(cfg), {FIRST} + {AboutKey(OLD)} + {DROPPED}, SECOND);
  }

  lemma NotOneOf(key: string, a: string, b: string, c: string)
    requires key != a && key != b && key != c
    ensures key !in {a} + {b} + {c}
  {
  }

  lemma SecondHashes(cfg: Config)
    requires Hashes(cfg)
    ensures WorkKey(cfg, [WORK2]) !in FirstHashes(cfg)
    ensures WorkKey(cfg, Again(TWO)) !in FirstHashes(cfg) + {WorkKey(cfg, [WORK2])}
  {
    var v, one, two, three := VideoKey(cfg), WorkKey(cfg, [WORK1]), WorkKey(cfg, [WORK2]), WorkKey(cfg, Again(THREE));
    SecondDiffers(cfg);
    NotOneOf(two, v, one, three);
    TwoDiffers(cfg);
    NotOneOf(WorkKey(cfg, Again(TWO)), v, one, three);
  }

  lemma SecondBar()
    ensures AboutKey(ANEW) !in Bars()
  {
    AboutKeysDiffer(ANEW);
  }

  lemma SecondUnlogged(cfg: Config)
    requires Hashes(cfg)
    ensures Unlogged(cfg, [WORK2], ANEW, TWO, Log6(cfg))
  {
    var ks, hs, bs := Log6(cfg), FirstHashes(cfg), Bars();
    Log6Among(cfg);
    SecondHashes(cfg);
    SecondBar();
    SubjectUnlogged(cfg, [WORK2], ANEW, TWO, ks, hs, bs);
  }

  // ---- single writes ----

  /** The dedupe keys in use, whoever logged them. */
  predicate KeysAmong(log: seq<Fact>, ks: set<string>) {
    forall f | f in log :: f.dedupeKey in ks
  }

  lemma NotAmong(log: seq<Fact>, ks: set<string>, writer: WriterId, key: string)
    requires KeysAmong(log, ks) && key !in ks
    ensures !Logged(log, writer, key) && Prior(log, writer, key, true).None? && Prior(log, writer, key, false).None?
  {
    UnloggedHasNoPrior(log, writer, key, true);
    UnloggedHasNoPrior(log, writer, key, false);
  }

  /** One assertion was logged, about id. */
  predicate LoggedOne(log: seq<Fact>, longer: seq<Fact>, writer: WriterId, key: string, id: EntityId) {
    && |longer| == |log| + 1 && log <= longer && longer[|log|].payload.EntityAsserted?
    && longer[|log|].writer == writer && longer[|log|].dedupeKey == key && longer[|log|].subject == id
  }

  lemma OneLogged(log: seq<Fact>, longer: seq<Fact>, ks: set<string>, writer: WriterId, key: string, id: EntityId)
    requires LoggedOne(log, longer, writer, key, id) && KeysAmong(log, ks) && key !in ks
    ensures KeysAmong(longer, ks + {key}) && Prior(longer, writer, key, true) == Some(id)
  {
    NotAmong(log, ks, writer, key);
    assert longer == log + [longer[|log|]];
    PriorOfLast(log, longer[|log|]);
  }

  /** An assertion by external ids, with nothing wrong in it, under a key not yet used. */
  predicate Fit(cfg: Config, db: Db, in_: EntityInput, tick: Tick) {
    && WellFormed(in_) && in_.policy.Auto? && in_.candidate.props.Doc? && in_.candidate.prov.how.Asserted?
    && !Logged(db.log, in_.writer, EntityKey(cfg, in_, tick))
  }

  lemma Resolves(cfg: Config, db: Db, in_: EntityInput, tick: Tick, d: Decision)
    requires Fit(cfg, db, in_, tick) && EntityDecision(cfg, db.t, Stamped(in_, tick), Auto) == Ok(d)
             && (d.InsertNew? || d.Attach?)
    ensures var id := DecisionTarget(d, tick); var c := Stamped(in_, tick).(id := id);
            var (db', out) := AppendEntity(cfg, db, in_, tick);
      && out == Accepted(id) && UpsertEntity(db.t, c, tick.now) == Ok(db'.t)
      && LoggedOne(db.log, db'.log, in_.writer, EntityKey(cfg, in_, tick), id)
    ensures !ResolvesToMerge(cfg, db, in_, tick)
  {
    UnloggedHasNoPrior(db.log, in_.writer, EntityKey(cfg, in_, tick), true);
    PlainAppend(cfg, db, in_, tick, d);
  }

  /** It goes to the entity it resolves to, which keeps its place and gains the keys. */
  lemma AttachesTo(cfg: Config, db: Db, in_: EntityInput, tick: Tick, id: EntityId)
    requires Fit(cfg, db, in_, tick) && id in db.t.entities
    requires EntityDecision(cfg, db.t, Stamped(in_, tick), Auto) == Ok(Attach(id, MatchExternal))
    ensures var c := in_.candidate; var (db', out) := AppendEntity(cfg, db, in_, tick);
      && out == Accepted(id) && LoggedOne(db.log, db'.log, in_.writer, EntityKey(cfg, in_, tick), id)
      && db'.t.ext == InsertKeys(db.t.ext, id, c.space, c.externalIds)
      && db'.t.entities.Keys == db.t.entities.Keys && forall x | x in db.t.entities ::
         SameRow(db.t.entities[x], db'.t.entities[x])
    ensures !ResolvesToMerge(cfg, db, in_, tick)
  {
    Resolves(cfg, db, in_, tick, Attach(id, MatchExternal));
  }

  predicate Unheld(t: Tables, space: SpaceId, xs: seq<ExternalId>) {
    forall r | r in t.ext && r.space == space :: r.key !in Keys(xs)
  }

  lemma NoHits(cfg: Config, t: Tables, c: Entity)
    requires Unheld(t, c.space, c.externalIds) && c.embeddings == []
    ensures EntityDecision(cfg, t, c, Auto) == Ok(InsertNew)
  {
    assert HitSet(t, c.space, Keys(c.externalIds)) == {};
    ExternalHitsExact(t, c.space, Keys(c.externalIds));
  }

  /** Of keys nobody holds: a new entity. */
  lemma InsertsNew(cfg: Config, db: Db, in_: EntityInput, tick: Tick)
    requires Fit(cfg, db, in_, tick) && in_.candidate.embeddings == []
    requires Unheld(db.t, in_.candidate.space, in_.candidate.externalIds) && tick.entityId !in db.t.entities
    ensures var c, id := in_.candidate, tick.entityId; var (db', out) := AppendEntity(cfg, db, in_, tick);
      && out == Accepted(id) && LoggedOne(db.log, db'.log, in_.writer, EntityKey(cfg, in_, tick), id)
      && db'.t.ext == InsertKeys(db.t.ext, id, c.space, c.externalIds)
      && db'.t.entities == db.t.entities[id := NewRow(Stamped(in_, tick).(id := id), tick.now)]
    ensures !ResolvesToMerge(cfg, db, in_, tick)
  {
    NoHits(cfg, db.t, Stamped(in_, tick));
    Resolves(cfg, db, in_, tick, InsertNew);
  }

  lemma OneHitAttaches(cfg: Config, t: Tables, c: Entity, id: EntityId)
    requires HitSet(t, c.space, Keys(c.externalIds)) == {id}
    ensures EntityDecision(cfg, t, c, Auto) == Ok(Attach(id, MatchExternal))
  {
    var hits := ExternalHits(t, c.space, Keys(c.externalIds));
    AgeOrder(t.entities);
    SortSetSorts(AgeLe(t.entities), {id});
    assert hits[0] in {id};
    DecisionOnHits([id], DecisionNeighbors(cfg, t, c, Auto), Auto, cfg.th, EntityDecision(cfg, t, c, Auto).value);
  }

  // ---- the video, and one entity of the work ----

  function Row(id: EntityId, x: ExternalId): ExtRow {
    ExtRow(id, x, x.Key(), "space")
  }

  function Rows(id: EntityId, xids: set<ExternalId>): set<ExtRow> {
    set x | x in xids :: Row(id, x)
  }

  function TwoHold(id: EntityId, xids: set<ExternalId>): set<ExtRow> {
    Rows(id, xids) + {Row(SEEN, VIDEO)}
  }

  /** As it was written. */
  predicate IsWork(row: EntityRow) {
    row.typ == "CreativeWork" && row.visibility == Private && row.space == "space" && row.owner == "owner"
      && row.prov.how.Asserted?
  }

  predicate Stage(db: Db, id: EntityId, xids: set<ExternalId>, ks: set<string>) {
    && id != SEEN && db.t.entities.Keys == {SEEN, id} && IsWork(db.t.entities[id])
    && xids <= THREE && db.t.ext == TwoHold(id, xids) && KeysAmong(db.log, ks)
  }

  lemma XidsHere(id: EntityId, xids: set<ExternalId>)
    requires id != SEEN
    ensures XidsOf(TwoHold(id, xids), id) == xids
  {
    forall x | x in xids ensures x in XidsOf(TwoHold(id, xids), id) {
      assert Row(id, x) in TwoHold(id, xids);
    }
  }

  /** Only the work holds any of these. */
  lemma WorkIsHit(db: Db, id: EntityId, xids: set<ExternalId>, ks: set<string>, xs: seq<ExternalId>, x: ExternalId)
    requires Stage(db, id, xids, ks) && x in xids && x in xs && forall y | y in xs :: y in THREE
    ensures HitSet(db.t, "space", Keys(xs)) == {id}
  {
    var i :| 0 <= i < |xs| && xs[i] == x;
    KeyIn(xs, i);
    assert Row(id, x) in db.t.ext && Row(id, x).key in Keys(xs);
    forall r | r in db.t.ext && r.key in Keys(xs) ensures r.entity == id {
      if r == Row(SEEN, VIDEO) {
        var j :| 0 <= j < |xs| && Keys(xs)[j] == r.key;
        assert xs[j] in THREE;
        TextKeys();
      }
    }
  }

  /** A write of some of the work's keys goes to it. */
  lemma WorkTakes(
    cfg: Config, db: Db, id: EntityId, xids: set<ExternalId>, ks: set<string>, in_: EntityInput, tick: Tick,
    x: ExternalId)
    requires Stage(db, id, xids, ks) && in_.writer == INGEST && Fit(cfg, db, in_, tick)
    requires x in xids && x in in_.candidate.externalIds && (forall y | y in in_.candidate.externalIds :: y in THREE)
    requires in_.candidate.space == "space"
    ensures var c := in_.candidate; var (db', out) := AppendEntity(cfg, db, in_, tick);
      && out == Accepted(id) && LoggedOne(db.log, db'.log, INGEST, EntityKey(cfg, in_, tick), id)
      && db'.t.ext == InsertKeys(db.t.ext, id, "space", c.externalIds)
      && db'.t.entities.Keys == {SEEN, id} && IsWork(db'.t.entities[id])
    ensures !ResolvesToMerge(cfg, db, in_, tick)
  {
    WorkIsHit(db, id, xids, ks, in_.candidate.externalIds, x);
    OneHitAttaches(cfg, db.t, Stamped(in_, tick), id);
    AttachesTo(cfg, db, in_, tick, id);
  }

  // the work's own key

  lemma OneKeyHeld(id: EntityId, xids: set<ExternalId>, x: ExternalId)
    requires x in xids
    ensures InsertKeys(TwoHold(id, xids), id, "space", [x]) == TwoHold(id, xids)
  {
    assert Row(id, x) in TwoHold(id, xids);
    InsertHeldKeys(TwoHold(id, xids), id, "space", [x]);
  }

  lemma WorkFit(w: World, db: Db, n: nat, props: map<string, Json>, x: ExternalId, ks: set<string>)
    requires w.req.VisOrDefault().Valid() && KeysAmong(db.log, ks) && WorkKey(w.cfg, [x]) !in ks
    ensures var in_ := UpsertInput(w.req, "CreativeWork", props, x, "ingest:heyarr");
      EntityKey(w.cfg, in_, w.ticks(n)) == WorkKey(w.cfg, [x]) && Fit(w.cfg, db, in_, w.ticks(n))
  {
    NameIrrelevant(w.cfg, "CreativeWork", [x], ExtractName(Doc(JObj(props))), "");
    NotAmong(db.log, ks, INGEST, WorkKey(w.cfg, [x]));
  }

  lemma WorkUpserted(
    w: World, db: Db, n: nat, props: map<string, Json>, x: ExternalId, id: EntityId, xids: set<ExternalId>,
    ks: set<string>)
    requires Stage(db, id, xids, ks) && x in xids && WorkKey(w.cfg, [x]) !in ks
    requires w.req.space == "space" && w.req.VisOrDefault().Valid()
    ensures var f := Upsert(w, db, n, "CreativeWork", props, x, "ingest:heyarr");
      && f.r == Ok(id) && f.n == n + 1 && NoMerge(f.calls) && db.log <= f.db.log
      && Stage(f.db, id, xids, ks + {WorkKey(w.cfg, [x])})
  {
    var in_ := UpsertInput(w.req, "CreativeWork", props, x, "ingest:heyarr");
    WorkFit(w, db, n, props, x, ks);
    WorkTakes(w.cfg, db, id, xids, ks, in_, w.ticks(n), x);
    OneKeyHeld(id, xids, x);
    OneLogged(db.log, AppendEntity(w.cfg, db, in_, w.ticks(n)).0.log, ks, INGEST, WorkKey(w.cfg, [x]), id);
  }

  // its anchor

  lemma NotHeldYet(id: EntityId, xids: set<ExternalId>)
    requires xids <= THREE && TMDB !in xids
    ensures InsertKey(TwoHold(id, xids), id, "space", TMDB) == TwoHold(id, xids + {TMDB})
  {
    TextKeys();
    assert Rows(id, xids + {TMDB}) == Rows(id, xids) + {Row(id, TMDB)};
  }

  lemma AgainInserts(id: EntityId, xids: set<ExternalId>)
    ensures InsertKeys(TwoHold(id, xids), id, "space", Again(xids)) == InsertKey(TwoHold(id, xids), id, "space", TMDB)
  {
    XidOrder();
    var ext, front := TwoHold(id, xids), SortSet(XidLe, xids);
    SortSetSorts(XidLe, xids);
    forall i | 0 <= i < |front| ensures Carries(ext, id, front[i].Key()) {
      assert front[i] in xids && Row(id, front[i]) in ext;
    }
    InsertHeldKeys(ext, id, "space", front);
    assert Again(xids)[..|Again(xids)| - 1] == front;
  }

  lemma AgainHeld(id: EntityId, xids: set<ExternalId>)
    requires xids <= THREE
    ensures InsertKeys(TwoHold(id, xids), id, "space", Again(xids)) == TwoHold(id, xids + {TMDB})
  {
    AgainInserts(id, xids);
    if TMDB in xids {
      assert Row(id, TMDB) in TwoHold(id, xids) && xids + {TMDB} == xids;
    } else {
      NotHeldYet(id, xids);
    }
  }

  lemma AnchorFit(cfg: Config, work: string, db: Db, n: nat, id: EntityId, xids: set<ExternalId>, ks: set<string>)
    requires Stage(db, id, xids, ks) && WorkKey(cfg, Again(xids)) !in ks
    ensures OwnerSees(Asking(cfg, work).req, db.t, id)
    ensures var in_ := AnchorInput(Asking(cfg, work).req, db.t, id, "t");
      && in_.candidate.externalIds == Again(xids) && EntityKey(cfg, in_, TickAt(n)) == WorkKey(cfg, Again(xids))
      && Fit(cfg, db, in_, TickAt(n))
  {
    XidsHere(id, xids);
    NameIrrelevant(cfg, "CreativeWork", Again(xids), ExtractName(Doc(db.t.entities[id].props)), "");
    NotAmong(db.log, ks, INGEST, WorkKey(cfg, Again(xids)));
  }

  lemma AnchorWrites(
    cfg: Config, db: Db, in_: EntityInput, tick: Tick, id: EntityId, xids: set<ExternalId>, ks: set<string>)
    requires Stage(db, id, xids, ks) && xids != {} && Fit(cfg, db, in_, tick)
    requires in_.writer == INGEST && in_.candidate.space == "space" && in_.candidate.externalIds == Again(xids)
    ensures var (db', out) := AppendEntity(cfg, db, in_, tick);
      && out == Accepted(id) && LoggedOne(db.log, db'.log, INGEST, EntityKey(cfg, in_, tick), id)
      && db'.t.ext == TwoHold(id, xids + {TMDB}) && db'.t.entities.Keys == {SEEN, id} && IsWork(db'.t.entities[id])
    ensures !ResolvesToMerge(cfg, db, in_, tick)
  {
    var x :| x in xids;
    AgainMembers(xids);
    WorkTakes(cfg, db, id, xids, ks, in_, tick, x);
    AgainHeld(id, xids);
  }

  lemma WorkAnchored(cfg: Config, work: string, db: Db, n: nat, id: EntityId, xids: set<ExternalId>, ks: set<string>)
    requires Stage(db, id, xids, ks) && xids != {} && WorkKey(cfg, Again(xids)) !in ks
    ensures var f := Anchor(Asking(cfg, work), db, n, id, "t");
      && f.r == Ok(true) && f.n == n + 1 && f.calls == [Anchored(id, "t", false)] && db.log <= f.db.log
      && Stage(f.db, id, xids + {TMDB}, ks + {WorkKey(cfg, Again(xids))})
      && Prior(f.db.log, INGEST, WorkKey(cfg, Again(xids)), true) == Some(id)
  {
    AnchorFit(cfg, work, db, n, id, xids, ks);
    var in_ := AnchorInput(Asking(cfg, work).req, db.t, id, "t");
    AnchorWrites(cfg, db, in_, TickAt(n), id, xids, ks);
    OneLogged(db.log, AppendEntity(cfg, db, in_, TickAt(n)).0.log, ks, INGEST, WorkKey(cfg, Again(xids)), id);
  }

  // the edge

  lemma EdgeGoesIn(db: Db, in_: EdgeInput, tick: Tick, ks: set<string>)
    requires KeysAmong(db.log, ks) && in_.writer == INGEST && EdgeKey(in_) !in ks
    requires in_.edge.predicate_ in ALLOWED_PREDICATES && in_.edge.visibility.Valid()
    requires in_.edge.prov.how.Asserted? && in_.edge.props.Absent?
    requires in_.edge.from in db.t.entities && in_.edge.to in db.t.entities
    ensures var (db', out) := AppendEdge(db, in_, tick);
      && out == Accepted(tick.edgeId) && db'.t.ext == db.t.ext && db'.t.entities == db.t.entities && db.log <= db'.log
      && KeysAmong(db'.log, ks + {EdgeKey(in_)})
  {
    NotAmong(db.log, ks, INGEST, EdgeKey(in_));
  }

  lemma AboutLinked(cfg: Config, work: string, db: Db, n: nat, id: EntityId, xids: set<ExternalId>, ks: set<string>)
    requires Stage(db, id, xids, ks) && AboutKey(id) !in ks
    ensures var f := Link(Asking(cfg, work), db, n, "about", SEEN, id);
      f.r == Ok(true) && f.n == n + 1 && NoMerge(f.calls) && db.log <= f.db.log
        && Stage(f.db, id, xids, ks + {AboutKey(id)})
  {
    var w := Asking(cfg, work);
    var in_ := LinkInput(w.req, "about", SEEN, id);
    assert in_.dedupeKey == AboutKey(id);
    EdgeGoesIn(db, in_, w.ticks(n), ks);
    LinkIs(w, db, n, "about", SEEN, id);
  }

  // ---- the flow around them ----

  function WorkProps(work: string): map<string, Json> {
    map["name" := JStr("heyarr work " + work)]
  }

  /** A subject whose three calls succeed. */
  lemma SubjectOf(
    w: World, db: Db, n: nat, from: EntityId, tmdb: string, work: string, a: Flow<EntityId>, b: Flow<bool>,
    c: Flow<bool>)
    requires w.works(tmdb) == Some(work)
    requires a == Upsert(w, db, n, "CreativeWork", WorkProps(work), WorkId(work), "ingest:heyarr") && a.r.Ok?
    requires b == Anchor(w, a.db, a.n, a.r.value, tmdb) && b.r.Ok?
    requires c == Link(w, b.db, b.n, "about", from, a.r.value) && c.r.Ok?
    ensures var f := About(w, db, n, from, tmdb);
      f.db == c.db && f.n == c.n && f.r.Ok? && f.calls == a.calls + b.calls + c.calls
  {
  }

  lemma JoinCalls(a: seq<Call>, b: seq<Call>, c: seq<Call>, call: Call)
    requires NoMerge(a) && NoMerge(b) && NoMerge(c) && call in b
    ensures NoMerge(a + b + c) && call in a + b + c
  {
  }

  /** So it succeeds, without a merge and with its anchor's fact logged. */
  lemma SubjectJoined(
    w: World, db: Db, n: nat, work: string, id: EntityId, key: string, a: Flow<EntityId>, b: Flow<bool>, c: Flow<bool>)
    requires w.works("t") == Some(work)
    requires a == Upsert(w, db, n, "CreativeWork", WorkProps(work), WorkId(work), "ingest:heyarr") && a.r == Ok(id)
    requires b == Anchor(w, a.db, a.n, id, "t") && b.r.Ok? && c == Link(w, b.db, b.n, "about", SEEN, id) && c.r.Ok?
    requires NoMerge(a.calls) && b.calls == [Anchored(id, "t", false)] && NoMerge(c.calls)
    requires b.db.log <= c.db.log && Prior(b.db.log, INGEST, key, true) == Some(id)
    ensures var f := About(w, db, n, SEEN, "t");
      && f.db == c.db && f.n == c.n && f.r.Ok? && NoMerge(f.calls) && Anchored(id, "t", false) in f.calls
      && Prior(f.db.log, INGEST, key, true) == Some(id)
  {
    SubjectOf(w, db, n, SEEN, "t", work, a, b, c);
    JoinCalls(a.calls, b.calls, c.calls, Anchored(id, "t", false));
    PriorStays(b.db.log, c.db.log, INGEST, key, true);
  }

  function WorkFlow(cfg: Config, work: string, db: Db, n: nat): Flow<EntityId> {
    Upsert(Asking(cfg, work), db, n, "CreativeWork", WorkProps(work), WorkId(work), "ingest:heyarr")
  }

  /** The work's own write, and its anchor. */
  lemma WorkDone(
    cfg: Config, work: string, db: Db, n: nat, id: EntityId, xids: set<ExternalId>, ks: set<string>, ks1: set<string>)
    requires Stage(db, id, xids, ks) && WorkId(work) in xids
    requires WorkKey(cfg, [WorkId(work)]) !in ks && ks1 == ks + {WorkKey(cfg, [WorkId(work)])}
             && WorkKey(cfg, Again(xids)) !in ks1
    ensures var a := WorkFlow(cfg, work, db, n); var b := Anchor(Asking(cfg, work), a.db, n + 1, id, "t");
      && a.r == Ok(id) && a.n == n + 1 && NoMerge(a.calls)
      && b.r == Ok(true) && b.n == n + 2 && b.calls == [Anchored(id, "t", false)] && db.log <= b.db.log
      && Stage(b.db, id, xids + {TMDB}, ks1 + {WorkKey(cfg, Again(xids))})
      && Prior(b.db.log, INGEST, WorkKey(cfg, Again(xids)), true) == Some(id)
  {
    WorkUpserted(Asking(cfg, work), db, n, WorkProps(work), WorkId(work), id, xids, ks);
    WorkAnchored(cfg, work, WorkFlow(cfg, work, db, n).db, n + 1, id, xids, ks1);
  }

  lemma SubjectDone(cfg: Config, work: string, db: Db, n: nat, id: EntityId, xids: set<ExternalId>, ks: set<string>)
    requires Stage(db, id, xids, ks) && WorkId(work) in xids && Unlogged(cfg, [WorkId(work)], id, xids, ks)
    ensures var f := About(Asking(cfg, work), db, n, SEEN, "t");
      && f.r.Ok? && f.n == n + 3 && NoMerge(f.calls) && Anchored(id, "t", false) in f.calls && db.log <= f.db.log
      && Stage(f.db, id, xids + {TMDB}, SubjectKeys(cfg, [WorkId(work)], id, xids, ks))
      && Prior(f.db.log, INGEST, WorkKey(cfg, Again(xids)), true) == Some(id)
  {
    var w, ks1 := Asking(cfg, work), ks + {WorkKey(cfg, [WorkId(work)])};
    WorkDone(cfg, work, db, n, id, xids, ks, ks1);
    var a := WorkFlow(cfg, work, db, n);
    var b := Anchor(w, a.db, n + 1, id, "t");
    AboutLinked(cfg, work, b.db, n + 2, id, xids + {TMDB}, ks1 + {WorkKey(cfg, Again(xids))});
    SubjectJoined(w, db, n, work, id, WorkKey(cfg, Again(xids)), a, b, Link(w, b.db, n + 2, "about", SEEN, id));
  }

  lemma AboutOnce(w: World, db: Db, n: nat, from: EntityId, tmdb: string)
    requires About(w, db, n, from, tmdb).r.Ok?
    ensures var f, one := Abouts(w, db, n, from, [tmdb]), About(w, db, n, from, tmdb);
      f.db == one.db && f.n == one.n && f.r.Ok? && f.calls == one.calls
  {
    assert [tmdb][..0] == [];
    assert [] + About(w, db, n, from, tmdb).calls == About(w, db, n, from, tmdb).calls;
  }

  lemma FrontOf(w: World, db: Db, n: nat, md: Metadata, a: Flow<EntityId>, b: Flow<seq<EntityId>>)
    requires md.channelId == "" && md.channelName == ""
    requires a == Video(w, db, n, md) && a.r.Ok? && b == Abouts(w, a.db, a.n, a.r.value, w.req.subjects) && b.r.Ok?
    ensures var f := Front(w, db, n, md); f.r.Ok? && f.db == b.db && f.n == b.n && f.calls == a.calls + b.calls
  {
    var nodes := Nodes(w, db, n, md);
    assert nodes.db == a.db && nodes.n == a.n && nodes.r == Ok((a.r.value, "")) && nodes.calls == a.calls + [];
    assert a.calls + [] == a.calls;
  }

  /** A body with a video, no channel, one subject and no segments. */
  lemma BodyOf(w: World, db: Db, n: nat, md: Metadata)
    requires md.segments == [] && Front(w, db, n, md).r.Ok?
    ensures var f, front := Body(w, db, n, md), Front(w, db, n, md);
      f.r.Ok? && f.db == front.db && f.n == front.n && f.calls == front.calls
  {
    var front := Front(w, db, n, md);
    assert front.calls + [] == front.calls;
  }

  function VideoFlow(cfg: Config, work: string, db: Db, n: nat): Flow<EntityId> {
    Video(Asking(cfg, work), db, n, Asking(cfg, work).fetched.value)
  }

  /** The whole request, once the video is there. */
  lemma RequestDone(cfg: Config, work: string, db: Db, n: nat, id: EntityId, xids: set<ExternalId>, ks: set<string>)
    requires var a := VideoFlow(cfg, work, db, n);
      a.r == Ok(SEEN) && a.n == n + 1 && NoMerge(a.calls) && db.log <= a.db.log && Stage(a.db, id, xids, ks)
    requires WorkId(work) in xids && Unlogged(cfg, [WorkId(work)], id, xids, ks)
    ensures var f := Ingested(Asking(cfg, work), db, n);
      && f.r.Ok? && f.n == n + 4 && NoMerge(f.calls) && Anchored(id, "t", false) in f.calls
      && Stage(f.db, id, xids + {TMDB}, SubjectKeys(cfg, [WorkId(work)], id, xids, ks))
      && VideoFlow(cfg, work, db, n).db.log <= f.db.log
      && Prior(f.db.log, INGEST, WorkKey(cfg, Again(xids)), true) == Some(id)
  {
    var w, a := Asking(cfg, work), VideoFlow(cfg, work, db, n);
    SubjectDone(cfg, work, a.db, n + 1, id, xids, ks);
    AboutOnce(w, a.db, n + 1, SEEN, "t");
    var b := Abouts(w, a.db, n + 1, SEEN, ["t"]);
    FrontOf(w, db, n, w.fetched.value, a, b);
    BodyOf(w, db, n, w.fetched.value);
    JoinCalls(a.calls, b.calls, [], Anchored(id, "t", false));
    assert a.calls + b.calls + [] == a.calls + b.calls;
    assert Ready(w);
  }
}
