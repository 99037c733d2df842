/** A history, and a request that succeeds after it and fails when it is run again: the work it is
    about was catalogued, ingested, retracted and catalogued anew under the same keys. */
module RerunFails {
  import opened Domain
  import opened Tables
  import opened Store
  import opened Invariants
  import opened DedupeKey
  import opened OneSpace
  import opened Ingest
  import opened Reingest
  import opened FirstIngest
  import opened Histories
  import opened WorkExample

  lemma Minted7()
    ensures Tally('e', 0) == OLD && Tally('e', 1) == SEEN && Tally('e', 6) == ANEW
  {
    assert seq(0, _ => '+') == [];
    assert seq(1, _ => '+') == ['+'];
    assert seq(6, _ => '+') == ['+', '+', '+', '+', '+', '+'];
  }

  // ---- a work is catalogued ----

  predicate NoKey(ext: set<ExtRow>, key: string) {
    forall r | r in ext :: r.key != key
  }

  lemma OneInserted(ext: set<ExtRow>, id: EntityId, x: ExternalId)
    requires NoKey(ext, x.Key())
    ensures InsertKey(ext, id, "space", x) == ext + {Row(id, x)}
  {
  }

  lemma TwoInserted(ext: set<ExtRow>, id: EntityId, x: ExternalId, y: ExternalId)
    requires NoKey(ext, x.Key()) && NoKey(ext, y.Key()) && x.Key() != y.Key()
    ensures InsertKeys(ext, id, "space", [x, y]) == ext + {Row(id, x)} + {Row(id, y)}
  {
    assert [x, y][..1] == [x] && [x][..0] == [];
    assert InsertKeys(ext, id, "space", [x]) == InsertKey(InsertKeys(ext, id, "space", []), id, "space", x);
    assert InsertKeys(ext, id, "space", [x, y]) == InsertKey(InsertKeys(ext, id, "space", [x]), id, "space", y);
    OneInserted(ext, id, x);
    OneInserted(ext + {Row(id, x)}, id, y);
  }

  lemma FirstKeys()
    ensures InsertKeys({}, OLD, "space", [WORK1, WORK2, TMDB]) == Rows(OLD, THREE)
  {
    TextKeys();
    assert [WORK1, WORK2, TMDB][..2] == [WORK1, WORK2];
    TwoInserted({}, OLD, WORK1, WORK2);
    OneInserted({Row(OLD, WORK1)} + {Row(OLD, WORK2)}, OLD, TMDB);
  }

  predicate Begun(db: Db) {
    && db.t.entities.Keys == {OLD} && IsWork(db.t.entities[OLD]) && db.t.ext == Rows(OLD, THREE)
    && KeysAmong(db.log, Log0())
  }

  function Step1(cfg: Config): Db {
    AppendEntity(cfg, EMPTY_DB, Catalogue([WORK1, WORK2, TMDB], FIRST), TickAt(0)).0
  }

  lemma CataloguedFirst(cfg: Config)
    ensures AppendEntity(cfg, EMPTY_DB, Catalogue([WORK1, WORK2, TMDB], FIRST), TickAt(0)).1.Accepted?
            && Begun(Step1(cfg))
  {
    var in_ := Catalogue([WORK1, WORK2, TMDB], FIRST);
    Minted7();
    InsertsNew(cfg, EMPTY_DB, in_, TickAt(0));
    FirstKeys();
    OneLogged([], Step1(cfg).log, {}, "svc:owner", FIRST, OLD);
  }

  // ---- the video ----

  lemma VideoFits(cfg: Config, work: string, db: Db, n: nat, ks: set<string>)
    requires KeysAmong(db.log, ks) && VideoKey(cfg) !in ks
    ensures var in_ := VideoInput(cfg, work);
      EntityKey(cfg, in_, TickAt(n)) == VideoKey(cfg) && Fit(cfg, db, in_, TickAt(n))
  {
    NameIrrelevant(cfg, "VideoObject", [VIDEO], ExtractName(VideoInput(cfg, work).candidate.props), "");
    NotAmong(db.log, ks, INGEST, VideoKey(cfg));
  }

  function VideoInput(cfg: Config, work: string): EntityInput {
    UpsertInput(Asking(cfg, work).req, "VideoObject", VideoProps(Asking(cfg, work).fetched.value), VIDEO,
                "ingest:yt-dlp")
  }

  lemma VideoAppended(cfg: Config, work: string, db: Db)
    requires Hashes(cfg) && Begun(db)
    ensures var (db', out) := AppendEntity(cfg, db, VideoInput(cfg, work), TickAt(1));
      && out == Accepted(SEEN) && LoggedOne(db.log, db'.log, INGEST, VideoKey(cfg), SEEN)
      && Stage(db', OLD, THREE, Log1(cfg)) && Prior(db'.log, INGEST, VideoKey(cfg), true) == Some(SEEN)
      && !ResolvesToMerge(cfg, db, VideoInput(cfg, work), TickAt(1))
  {
    var in_ := VideoInput(cfg, work);
    Log1Among(cfg);
    VideoFits(cfg, work, db, 1, Log0());
    Minted7();
    TextKeys();
    InsertsNew(cfg, db, in_, TickAt(1));
    assert [VIDEO][..0] == [];
    OneInserted(db.t.ext, SEEN, VIDEO);
    OneLogged(db.log, AppendEntity(cfg, db, in_, TickAt(1)).0.log, Log0(), INGEST, VideoKey(cfg), SEEN);
  }

  lemma VideoInserted(cfg: Config, work: string, db: Db)
    requires Hashes(cfg) && Begun(db)
    ensures var a := VideoFlow(cfg, work, db, 1);
      && a.r == Ok(SEEN) && a.n == 2 && NoMerge(a.calls) && db.log <= a.db.log && Stage(a.db, OLD, THREE, Log1(cfg))
      && Prior(a.db.log, INGEST, VideoKey(cfg), true) == Some(SEEN)
  {
    VideoAppended(cfg, work, db);
  }

  /** The video is found, and nothing is written. */
  lemma VideoFound(cfg: Config, work: string, db: Db, n: nat)
    requires Prior(db.log, INGEST, VideoKey(cfg), true) == Some(SEEN) && SEEN in db.t.entities
    ensures var a := VideoFlow(cfg, work, db, n);
      a.r == Ok(SEEN) && a.n == n + 1 && NoMerge(a.calls) && a.db == db
  {
    NameIrrelevant(cfg, "VideoObject", [VIDEO], ExtractName(VideoInput(cfg, work).candidate.props), "");
  }

  // ---- the first request ----

  function Step2(cfg: Config): Db {
    Ingested(Asking(cfg, "1"), Step1(cfg), 1).db
  }

  /** What is still known when the work is gone or new: the video, and the two facts. */
  predicate Remembered(cfg: Config, log: seq<Fact>) {
    && Prior(log, INGEST, VideoKey(cfg), true) == Some(SEEN)
    && Prior(log, INGEST, WorkKey(cfg, Again(THREE)), true) == Some(OLD)
  }

  lemma FirstRequestOn(cfg: Config, db: Db)
    requires Hashes(cfg) && Begun(db)
    ensures var f := Ingested(Asking(cfg, "1"), db, 1);
      f.n == 5 && Stage(f.db, OLD, THREE, Log4(cfg)) && Remembered(cfg, f.db.log)
  {
    VideoInserted(cfg, "1", db);
    FirstUnlogged(cfg);
    RequestDone(cfg, "1", db, 1, OLD, THREE, Log1(cfg));
    assert THREE + {TMDB} == THREE;
    PriorStays(VideoFlow(cfg, "1", db, 1).db.log, Ingested(Asking(cfg, "1"), db, 1).db.log, INGEST, VideoKey(cfg),
               true);
  }

  lemma FirstRequest(cfg: Config)
    requires Hashes(cfg)
    ensures Stage(Step2(cfg), OLD, THREE, Log4(cfg)) && Remembered(cfg, Step2(cfg).log)
    ensures Ingested(Asking(cfg, "1"), Step1(cfg), 1).n == 5
  {
    CataloguedFirst(cfg);
    FirstRequestOn(cfg, Step1(cfg));
  }

  // ---- the work is retracted ----

  function Step3(cfg: Config): Db {
    RetractEntity(Step2(cfg), OLD, "owner", "", "now").0
  }

  predicate Emptied(db: Db, ks: set<string>) {
    db.t.entities.Keys == {SEEN} && db.t.ext == {Row(SEEN, VIDEO)} && KeysAmong(db.log, ks)
  }

  lemma Retracts(db: Db, ks: set<string>)
    requires Stage(db, OLD, THREE, ks) && DROPPED !in ks
    ensures var (db', out) := RetractEntity(db, OLD, "owner", "", "now");
      && out.Accepted? && Emptied(db', ks + {DROPPED}) && |db'.log| == |db.log| + 1 && db.log <= db'.log
      && db'.log[|db.log|].subject == OLD
  {
    assert OLD + "|retract" == DROPPED;
    NotAmong(db.log, ks, "owner", DROPPED);
  }

  lemma Remembers(cfg: Config, log: seq<Fact>, longer: seq<Fact>)
    requires Remembered(cfg, log) && log <= longer
    ensures Remembered(cfg, longer)
  {
    PriorStays(log, longer, INGEST, VideoKey(cfg), true);
    PriorStays(log, longer, INGEST, WorkKey(cfg, Again(THREE)), true);
  }

  lemma RetractedIs(cfg: Config)
    requires Hashes(cfg)
    ensures RetractEntity(Step2(cfg), OLD, "owner", "", "now").1.Accepted?
    ensures Emptied(Step3(cfg), Log4(cfg) + {DROPPED}) && Remembered(cfg, Step3(cfg).log)
  {
    FirstRequest(cfg);
    ClientKeysUnused(cfg);
    Retracts(Step2(cfg), Log4(cfg));
    Remembers(cfg, Step2(cfg).log, Step3(cfg).log);
  }

  // ---- and catalogued anew ----

  function Step4(cfg: Config): Db {
    AppendEntity(cfg, Step3(cfg), Catalogue([WORK2, WORK1], SECOND), TickAt(6)).0
  }

  lemma SecondKeys()
    ensures InsertKeys({Row(SEEN, VIDEO)}, ANEW, "space", [WORK2, WORK1]) == TwoHold(ANEW, TWO)
    ensures Unheld(EMPTY.(ext := {Row(SEEN, VIDEO)}), "space", [WORK2, WORK1])
  {
    TextKeys();
    TwoInserted({Row(SEEN, VIDEO)}, ANEW, WORK2, WORK1);
    assert Keys([WORK2, WORK1]) == [WORK2.Key(), WORK1.Key()];
  }

  lemma Recatalogues(cfg: Config, db: Db, ks: set<string>)
    requires Emptied(db, ks) && SECOND !in ks
    ensures var (db', out) := AppendEntity(cfg, db, Catalogue([WORK2, WORK1], SECOND), TickAt(6));
      out.Accepted? && Stage(db', ANEW, TWO, ks + {SECOND}) && db.log <= db'.log
  {
    var in_ := Catalogue([WORK2, WORK1], SECOND);
    Minted7();
    NotAmong(db.log, ks, "svc:owner", SECOND);
    SecondKeys();
    assert EntityKey(cfg, in_, TickAt(6)) == SECOND;
    InsertsNew(cfg, db, in_, TickAt(6));
    OneLogged(db.log, AppendEntity(cfg, db, in_, TickAt(6)).0.log, ks, "svc:owner", SECOND, ANEW);
  }

  lemma RecataloguedIs(cfg: Config)
    requires Hashes(cfg)
    ensures AppendEntity(cfg, Step3(cfg), Catalogue([WORK2, WORK1], SECOND), TickAt(6)).1.Accepted?
    ensures Stage(Step4(cfg), ANEW, TWO, Log6(cfg)) && Remembered(cfg, Step4(cfg).log)
  {
    RetractedIs(cfg);
    ClientKeysUnused(cfg);
    Recatalogues(cfg, Step3(cfg), Log4(cfg) + {DROPPED});
    Remembers(cfg, Step3(cfg).log, Step4(cfg).log);
  }

  // ---- the second request ----

  predicate Anchored2(db: Db) {
    db.t.entities.Keys == {SEEN, ANEW} && IsWork(db.t.entities[ANEW]) && db.t.ext == TwoHold(ANEW, THREE)
  }

  lemma SecondRequest(cfg: Config, db: Db)
    requires Hashes(cfg) && Stage(db, ANEW, TWO, Log6(cfg)) && Prior(db.log, INGEST, VideoKey(cfg), true) == Some(SEEN)
    ensures var f := Ingested(Asking(cfg, "2"), db, 7);
      f.r.Ok? && NoMerge(f.calls) && Anchored(ANEW, "t", false) in f.calls && Anchored2(f.db) && db.log <= f.db.log
  {
    VideoFound(cfg, "2", db, 7);
    SecondUnlogged(cfg);
    RequestDone(cfg, "2", db, 7, ANEW, TWO, Log6(cfg));
    assert TWO + {TMDB} == THREE;
  }

  lemma NextAnchorKey(cfg: Config, t: Tables, id: EntityId, xids: set<ExternalId>)
    requires id in t.entities && t.entities[id].typ == "CreativeWork" && XidsOf(t.ext, id) == xids
    ensures AnchorKey(cfg, t, id, "t") == WorkKey(cfg, Again(xids))
  {
    assert TmdbId("t") == TMDB;
  }

  /** The key of its next anchoring is that of the first entity's. */
  lemma AnchorBlocked(cfg: Config, db: Db)
    requires Anchored2(db) && Prior(db.log, INGEST, WorkKey(cfg, Again(THREE)), true) == Some(OLD)
    ensures !Clear(Asking(cfg, "2"), db, Anchored(ANEW, "t", false))
  {
    XidsHere(ANEW, THREE);
    NextAnchorKey(cfg, db.t, ANEW, THREE);
  }

  // ---- the history has happened ----

  /** The minted ids are all different, and new to an empty log. */
  lemma TallyFresh(cfg: Config)
    ensures FreshTicks(Asking(cfg, "1"), EMPTY_DB, 0)
  {
    var w := Asking(cfg, "1");
    forall i: nat, j: nat | i < j ensures Ids(w, i) !! Ids(w, j) {
      forall id | id in Ids(w, i) ensures id !in Ids(w, j) {
        assert |id| == i + 1;
      }
    }
  }

  lemma AskingIsPlain(cfg: Config, work: string)
    requires work == "1" || work == "2"
    ensures PlainSource(Asking(cfg, work))
  {
    TextKeys();
    assert WorkId("1") == WORK1 && WorkId("2") == WORK2 && TmdbId("t") == TMDB;
    assert NulFree(ExternalId("youtube-channel", "").Key());
  }

  lemma WorksArePlain()
    ensures PlainEntity(Catalogue([WORK1, WORK2, TMDB], FIRST), "space")
            && PlainEntity(Catalogue([WORK2, WORK1], SECOND), "space")
  {
    TextKeys();
  }

  lemma HappenedSnoc(cfg: Config, front: seq<Event>, e: Event)
    requires Happened(cfg, "space", front) && Possible(cfg, "space", front, e)
    ensures Happened(cfg, "space", front + [e])
    ensures After(cfg, front + [e]) == Moved(cfg, front, e)
  {
    assert (front + [e])[..|front|] == front;
  }

  /** The ticks from n on are new in this history. */
  ghost predicate Stands(cfg: Config, events: seq<Event>, db: Db, n: nat) {
    Happened(cfg, "space", events) && After(cfg, events) == db && FreshTicks(Asking(cfg, "1"), db, n)
  }

  lemma Soundly(cfg: Config, events: seq<Event>, db: Db, n: nat)
    requires Hashes(cfg) && Stands(cfg, events, db, n)
    ensures Ground(Asking(cfg, "1"), db, n)
  {
    HistorySettles(cfg, "space", events);
  }

  lemma WorkWritten(cfg: Config, events: seq<Event>, db: Db, n: nat, in_: EntityInput)
    requires Hashes(cfg) && Stands(cfg, events, db, n) && PlainEntity(in_, "space")
    requires AppendEntity(cfg, db, in_, TickAt(n)).1.Accepted?
    ensures Stands(cfg, events + [Wrote(AppendEntityOp(in_, TickAt(n)))], AppendEntity(cfg, db, in_, TickAt(n)).0,
                   n + 1)
  {
    var w := Asking(cfg, "1");
    Soundly(cfg, events, db, n);
    TickMinted(w, db, n, in_);
    AppendTicks(w, db, n, in_);
    HappenedSnoc(cfg, events, Wrote(AppendEntityOp(in_, TickAt(n))));
  }

  lemma RequestMade(cfg: Config, events: seq<Event>, db: Db, n: nat)
    requires Hashes(cfg) && Stands(cfg, events, db, n)
    ensures var w := Asking(cfg, "1"); var f := Ingested(w, db, n);
      Stands(cfg, events + [Ran(w, n)], f.db, f.n)
  {
    var w := Asking(cfg, "1");
    Soundly(cfg, events, db, n);
    AskingIsPlain(cfg, "1");
    BodyGround(w, db, n, w.fetched.value, false);
    HappenedSnoc(cfg, events, Ran(w, n));
  }

  lemma RetractTicks(cfg: Config, db: Db, n: nat, db': Db)
    requires Recorded(db) && FreshTicks(Asking(cfg, "1"), db, n) && OLD in db.t.entities
    requires |db'.log| == |db.log| + 1 && db.log <= db'.log && db'.log[|db.log|].subject == OLD
    ensures FreshTicks(Asking(cfg, "1"), db', n + 1)
  {
    LiveIsNotFresh(db, OLD);
    TicksMove(Asking(cfg, "1"), db, db', n);
  }

  lemma WorkRetracted(cfg: Config, events: seq<Event>, db: Db, n: nat, db': Db)
    requires Hashes(cfg) && Stands(cfg, events, db, n) && OLD in db.t.entities
    requires RetractEntity(db, OLD, "owner", "", "now").0 == db'
    requires |db'.log| == |db.log| + 1 && db.log <= db'.log && db'.log[|db.log|].subject == OLD
    ensures Stands(cfg, events + [Retracted()], db', n + 1)
  {
    HistorySettles(cfg, "space", events);
    RetractTicks(cfg, db, n, db');
    HappenedSnoc(cfg, events, Retracted());
  }

  lemma FirstStood(cfg: Config)
    requires Hashes(cfg)
    ensures Stands(cfg, Past1(), Step1(cfg), 1)
  {
    TallyFresh(cfg);
    WorksArePlain();
    CataloguedFirst(cfg);
    WorkWritten(cfg, [], EMPTY_DB, 0, Catalogue([WORK1, WORK2, TMDB], FIRST));
    assert [] + [Catalogued()] == Past1();
  }

  lemma SecondStood(cfg: Config)
    requires Hashes(cfg) && Stands(cfg, Past1(), Step1(cfg), 1)
    ensures Stands(cfg, Past2(cfg), Step2(cfg), 5)
  {
    FirstRequest(cfg);
    RequestMade(cfg, Past1(), Step1(cfg), 1);
  }

  lemma ThirdStood(cfg: Config)
    requires Hashes(cfg) && Stands(cfg, Past2(cfg), Step2(cfg), 5)
    ensures Stands(cfg, Past3(cfg), Step3(cfg), 6)
  {
    FirstRequest(cfg);
    ClientKeysUnused(cfg);
    Retracts(Step2(cfg), Log4(cfg));
    WorkRetracted(cfg, Past2(cfg), Step2(cfg), 5, Step3(cfg));
  }

  lemma PastStands(cfg: Config, db: Db)
    requires Hashes(cfg) && Stands(cfg, Past3(cfg), db, 6)
    requires AppendEntity(cfg, db, Catalogue([WORK2, WORK1], SECOND), TickAt(6)).1.Accepted?
    ensures Stands(cfg, Past(cfg), AppendEntity(cfg, db, Catalogue([WORK2, WORK1], SECOND), TickAt(6)).0, 7)
  {
    WorksArePlain();
    WorkWritten(cfg, Past3(cfg), db, 6, Catalogue([WORK2, WORK1], SECOND));
  }

  lemma SameTally(cfg: Config, db: Db, n: nat)
    requires FreshTicks(Asking(cfg, "1"), db, n)
    ensures FreshTicks(Asking(cfg, "2"), db, n)
  {
    assert forall m: nat :: Ids(Asking(cfg, "2"), m) == Ids(Asking(cfg, "1"), m);
  }

  lemma FailsAgain(cfg: Config, events: seq<Event>, db: Db)
    requires Hashes(cfg) && Stands(cfg, events, db, 7) && Stage(db, ANEW, TWO, Log6(cfg)) && Remembered(cfg, db.log)
    ensures var w := Asking(cfg, "2"); var first := Ingested(w, db, 7);
      SucceedsPlainly(w, events, 7) && Ingested(w, first.db, first.n).r.Err?
  {
    var w, first := Asking(cfg, "2"), Ingested(Asking(cfg, "2"), db, 7);
    SecondRequest(cfg, db);
    SameTally(cfg, db, 7);
    AskingIsPlain(cfg, "2");
    PriorStays(db.log, first.db.log, INGEST, WorkKey(cfg, Again(THREE)), true);
    AnchorBlocked(cfg, first.db);
    RerunIff(w, events, 7, first.n);
  }

  lemma PastStood(cfg: Config)
    requires Hashes(cfg)
    ensures Stands(cfg, Past(cfg), Step4(cfg), 7)
    ensures Stage(Step4(cfg), ANEW, TWO, Log6(cfg)) && Remembered(cfg, Step4(cfg).log)
  {
    FirstStood(cfg);
    SecondStood(cfg);
    ThirdStood(cfg);
    RecataloguedIs(cfg);
    PastStands(cfg, Step3(cfg));
  }

  lemma PastByOthers(cfg: Config)
    ensures OthersOnly(Past(cfg))
  {
  }

  /** After a history in which only ingestion writes as ingestion, the request succeeds and nothing
      merges, and the same request straight after it fails. */
  lemma RerunCanFail(cfg: Config)
    requires Hashes(cfg)
    ensures OthersOnly(Past(cfg))
    ensures var w := Asking(cfg, "2"); var first := Ingested(w, After(cfg, Past(cfg)), 7);
      SucceedsPlainly(w, Past(cfg), 7) && Ingested(w, first.db, first.n).r.Err?
  {
    PastByOthers(cfg);
    PastStood(cfg);
    FailsAgain(cfg, Past(cfg), Step4(cfg));
  }
}
