/** Ingestion in a shared history: other writers and earlier ingestions, successful or not, whole
    or interleaved call by call, come before it. What every such history keeps, and what running
    the same request again does. */
module Histories {
  import opened Json
  import opened Domain
  import opened Tables
  import opened Store
  import opened DedupeKey
  import opened Invariants
  import opened Acceptance
  import opened OneSpace
  import opened Ingest
  import opened Reingest
  import opened FirstIngest
  import opened Heirs

  // ---- an ingestion keeps the ground, however it ends ----

  /** The ground, and where asked that what is gone left its keys. */
  ghost predicate Footing(w: World, db: Db, n: nat, heirs: bool) {
    Ground(w, db, n) && (heirs ==> Succeeded(db.log, db.t))
  }

  lemma StaysGrounded(w: World, db: Db, n: nat, heirs: bool)
    requires Footing(w, db, n, heirs)
    ensures Footing(w, db, n + 1, heirs)
  {
    SameTicks(w, db, n);
  }

  lemma EntityWriteGround(w: World, db: Db, n: nat, in_: EntityInput, heirs: bool)
    requires Footing(w, db, n, heirs)
             && (AppendEntity(w.cfg, db, in_, w.ticks(n)).1.Accepted? ==> PlainEntity(in_, w.req.space))
    ensures Footing(w, AppendEntity(w.cfg, db, in_, w.ticks(n)).0, n + 1, heirs)
  {
    if AppendEntity(w.cfg, db, in_, w.ticks(n)).1.Accepted? {
      AcceptedGround(w, db, n, in_);
      TickMinted(w, db, n, in_);
      if heirs {
        AppendKeepsSucceeded(w.cfg, w.req.space, db, in_, w.ticks(n));
      }
    } else {
      NotAccepted(w.cfg, db, in_, w.ticks(n));
      StaysGrounded(w, db, n, heirs);
    }
  }

  lemma UpsertGround(
    w: World, db: Db, n: nat, typ: string, props: map<string, Json>, ext: ExternalId, asserter: string, heirs: bool)
    requires Footing(w, db, n, heirs) && NulFree(typ) && NulFree(ext.Key())
    ensures var f := Upsert(w, db, n, typ, props, ext, asserter); Footing(w, f.db, f.n, heirs)
  {
    EntityWriteGround(w, db, n, UpsertInput(w.req, typ, props, ext, asserter), heirs);
  }

  lemma AnchorGround(w: World, db: Db, n: nat, ref: EntityId, tmdb: string, heirs: bool)
    requires Footing(w, db, n, heirs) && NulFree(TmdbId(tmdb).Key())
    ensures var f := Anchor(w, db, n, ref, tmdb); Footing(w, f.db, f.n, heirs)
  {
    if OwnerSees(w.req, db.t, ref) {
      var in_ := AnchorInput(w.req, db.t, ref, tmdb);
      if AppendEntity(w.cfg, db, in_, w.ticks(n)).1.Accepted? {
        AnchorPlain(w, db, ref, tmdb);
      }
      EntityWriteGround(w, db, n, in_, heirs);
    }
  }

  lemma EdgeWriteGround(w: World, db: Db, n: nat, in_: EdgeInput, heirs: bool)
    requires Footing(w, db, n, heirs) && BAR in EdgeKey(in_)
    ensures Footing(w, AppendEdge(db, in_, w.ticks(n)).0, n + 1, heirs)
  {
    if AppendEdge(db, in_, w.ticks(n)).1.Accepted? {
      LinkGround(w, db, n, in_);
    } else {
      StaysGrounded(w, db, n, heirs);
    }
    if heirs {
      EdgeOpKeepsSucceeded(w.cfg, db, AppendEdgeOp(in_, w.ticks(n)));
    }
  }

  lemma LinkKeepsGround(w: World, db: Db, n: nat, predicate_: string, from: EntityId, to: EntityId, heirs: bool)
    requires Footing(w, db, n, heirs)
    ensures var f := Link(w, db, n, predicate_, from, to); Footing(w, f.db, f.n, heirs)
  {
    var in_ := LinkInput(w.req, predicate_, from, to);
    assert in_.dedupeKey[6] == BAR;
    EdgeWriteGround(w, db, n, in_, heirs);
  }

  lemma AboutWorkGround(w: World, db: Db, n: nat, tmdb: string, heirs: bool)
    requires Footing(w, db, n, heirs) && PlainWorks(w) && NulFree(TmdbId(tmdb).Key())
    ensures var f := AboutWork(w, db, n, tmdb); Footing(w, f.db, f.n, heirs)
  {
    if w.works(tmdb).Some? {
      var props, id := map["name" := JStr("heyarr work " + w.works(tmdb).value)], WorkId(w.works(tmdb).value);
      var a := Upsert(w, db, n, "CreativeWork", props, id, "ingest:heyarr");
      UpsertGround(w, db, n, "CreativeWork", props, id, "ingest:heyarr", heirs);
      if a.r.Ok? {
        AnchorGround(w, a.db, a.n, a.r.value, tmdb, heirs);
      }
    }
  }

  lemma AboutGround(w: World, db: Db, n: nat, from: EntityId, tmdb: string, heirs: bool)
    requires Footing(w, db, n, heirs) && PlainWorks(w) && NulFree(TmdbId(tmdb).Key())
    ensures var f := About(w, db, n, from, tmdb); Footing(w, f.db, f.n, heirs)
  {
    var a := AboutWork(w, db, n, tmdb);
    AboutWorkGround(w, db, n, tmdb, heirs);
    if a.r.Ok? && a.r.value.Some? {
      LinkKeepsGround(w, a.db, a.n, "about", from, a.r.value.value, heirs);
    }
  }

  lemma {:induction false} AboutsGround(w: World, db: Db, n: nat, from: EntityId, tmdbs: seq<string>, heirs: bool)
    requires Footing(w, db, n, heirs) && PlainWorks(w) && PlainSubjects(tmdbs)
    ensures var f := Abouts(w, db, n, from, tmdbs); Footing(w, f.db, f.n, heirs)
    decreases |tmdbs|
  {
    if tmdbs != [] {
      var front, last := tmdbs[..|tmdbs| - 1], tmdbs[|tmdbs| - 1];
      var a := Abouts(w, db, n, from, front);
      AboutsGround(w, db, n, from, front, heirs);
      if a.r.Ok? {
        AboutGround(w, a.db, a.n, from, last, heirs);
      }
    }
  }

  lemma ClipNodeGround(w: World, db: Db, n: nat, video: EntityId, videoId: string, seg: Segment, heirs: bool)
    requires Footing(w, db, n, heirs) && NulFree(ClipId(w, videoId, seg).Key())
    ensures var f := ClipNode(w, db, n, video, videoId, seg); Footing(w, f.db, f.n, heirs)
  {
    var a := Upsert(w, db, n, "Clip", ClipProps(seg), ClipId(w, videoId, seg), "ingest:yt-dlp");
    UpsertGround(w, db, n, "Clip", ClipProps(seg), ClipId(w, videoId, seg), "ingest:yt-dlp", heirs);
    if a.r.Ok? {
      LinkKeepsGround(w, a.db, a.n, "isPartOf", a.r.value, video, heirs);
    }
  }

  lemma ClipGround(w: World, db: Db, n: nat, video: EntityId, videoId: string, seg: Segment, heirs: bool)
    requires Footing(w, db, n, heirs) && PlainWorks(w) && NulFree(ClipId(w, videoId, seg).Key())
             && PlainSubjects(seg.subjects)
    ensures var f := ClipOf(w, db, n, video, videoId, seg); Footing(w, f.db, f.n, heirs)
  {
    var a := ClipNode(w, db, n, video, videoId, seg);
    ClipNodeGround(w, db, n, video, videoId, seg, heirs);
    if a.r.Ok? {
      AboutsGround(w, a.db, a.n, a.r.value, seg.subjects, heirs);
    }
  }

  lemma NextClipGround(
    w: World, front: Flow<(seq<EntityId>, seq<EntityId>)>, video: EntityId, videoId: string, seg: Segment, heirs: bool)
    requires Footing(w, front.db, front.n, heirs) && PlainWorks(w) && front.r.Ok?
    requires NulFree(ClipId(w, videoId, seg).Key()) && PlainSubjects(seg.subjects)
    ensures var f := Joined(Then(front, ClipOf(w, front.db, front.n, video, videoId, seg)), front.r.value);
      Footing(w, f.db, f.n, heirs)
  {
    ClipGround(w, front.db, front.n, video, videoId, seg, heirs);
  }

  lemma {:induction false} ClipsGround(
    w: World, db: Db, n: nat, video: EntityId, videoId: string, segs: seq<Segment>, heirs: bool)
    requires Footing(w, db, n, heirs) && PlainWorks(w) && PlainSegments(w, videoId, segs)
    ensures var f := Clips(w, db, n, video, videoId, segs); Footing(w, f.db, f.n, heirs)
    decreases |segs|
  {
    if segs != [] {
      var front, last := segs[..|segs| - 1], segs[|segs| - 1];
      ClipsGround(w, db, n, video, videoId, front, heirs);
      if Clips(w, db, n, video, videoId, front).r.Ok? {
        NextClipGround(w, Clips(w, db, n, video, videoId, front), video, videoId, last, heirs);
      }
    }
  }

  lemma ChannelGround(w: World, db: Db, n: nat, md: Metadata, video: EntityId, heirs: bool)
    requires Footing(w, db, n, heirs) && NulFree(ExternalId("youtube-channel", md.channelId).Key())
    ensures var f := Channel(w, db, n, md, video); Footing(w, f.db, f.n, heirs)
  {
    if md.channelId != "" || md.channelName != "" {
      var props := PutIf(map["name" := JStr(md.channelName)], "url", md.channelUrl);
      var id := ExternalId("youtube-channel", md.channelId);
      var a := Upsert(w, db, n, "Organization", props, id, "ingest:yt-dlp");
      UpsertGround(w, db, n, "Organization", props, id, "ingest:yt-dlp", heirs);
      if a.r.Ok? {
        LinkKeepsGround(w, a.db, a.n, "author", video, a.r.value, heirs);
      }
    }
  }

  lemma WithChannelGround(w: World, a: Flow<EntityId>, md: Metadata, heirs: bool)
    requires Footing(w, a.db, a.n, heirs) && NulFree(ExternalId("youtube-channel", md.channelId).Key())
    ensures var f := WithChannel(w, a, md); Footing(w, f.db, f.n, heirs)
  {
    if a.r.Ok? {
      ChannelGround(w, a.db, a.n, md, a.r.value, heirs);
    }
  }

  lemma NodesGround(w: World, db: Db, n: nat, md: Metadata, heirs: bool)
    requires Footing(w, db, n, heirs)
    requires NulFree(ExternalId("youtube", md.videoId).Key())
    requires NulFree(ExternalId("youtube-channel", md.channelId).Key())
    ensures var f := Nodes(w, db, n, md); Footing(w, f.db, f.n, heirs)
  {
    UpsertGround(w, db, n, "VideoObject", VideoProps(md), ExternalId("youtube", md.videoId), "ingest:yt-dlp", heirs);
    WithChannelGround(w, Video(w, db, n, md), md, heirs);
  }

  lemma FrontGround(w: World, db: Db, n: nat, md: Metadata, heirs: bool)
    requires Footing(w, db, n, heirs) && PlainSource(w) && w.fetched == Some(md)
    ensures var f := Front(w, db, n, md); Footing(w, f.db, f.n, heirs)
  {
    var a := Nodes(w, db, n, md);
    NodesGround(w, db, n, md, heirs);
    if a.r.Ok? {
      AboutsGround(w, a.db, a.n, a.r.value.0, w.req.subjects, heirs);
    }
  }

  lemma BodyGround(w: World, db: Db, n: nat, md: Metadata, heirs: bool)
    requires Footing(w, db, n, heirs) && PlainSource(w) && w.fetched == Some(md)
    ensures var f := Body(w, db, n, md); Footing(w, f.db, f.n, heirs)
  {
    var a := Front(w, db, n, md);
    FrontGround(w, db, n, md, heirs);
    if a.r.Ok? {
      ClipsGround(w, a.db, a.n, a.r.value.0, md.videoId, md.segments, heirs);
    }
  }

  // ---- histories ----

  /** One call of an ingestion on the store; an anchor writes back what it read earlier, after so
      many events of the history. */
  datatype Sent =
    | Upserting(typ: string, props: map<string, Json>, ext: ExternalId, asserter: string)
    | Linking(predicate_: string, from: EntityId, to: EntityId)
    | Anchoring(read: nat, ref: EntityId, tmdb: string)

  /** A write from elsewhere; a whole ingestion without interruption, which takes its ids and clock
      readings from tick n on; or one call of an ingestion whose calls others come between. */
  datatype Event = Wrote(op: Op) | Ran(w: World, n: nat) | Called(w: World, call: Sent, tick: Tick)

  /** The write a call makes, or none when the entity to anchor cannot be read. */
  function SentOp(cfg: Config, events: seq<Event>, w: World, call: Sent, tick: Tick): Option<Op>
    decreases |events|, 1
  {
    match call
    case Upserting(typ, props, ext, asserter) =>
      Some(AppendEntityOp(UpsertInput(w.req, typ, props, ext, asserter), tick))
    case Linking(predicate_, from, to) => Some(AppendEdgeOp(LinkInput(w.req, predicate_, from, to), tick))
    case Anchoring(read, ref, tmdb) =>
      if read <= |events| && OwnerSees(w.req, After(cfg, events[..read]).t, ref)
      then Some(AppendEntityOp(AnchorInput(w.req, After(cfg, events[..read]).t, ref, tmdb), tick)) else None
  }

  function Moved(cfg: Config, events: seq<Event>, e: Event): Db
    decreases |events|, 2
  {
    match e
    case Wrote(op) => Step(cfg, After(cfg, events), op)
    case Ran(w, n) => Ingested(w, After(cfg, events), n).db
    case Called(w, call, tick) =>
      var op := SentOp(cfg, events, w, call, tick);
      if op.Some? then Step(cfg, After(cfg, events), op.value) else After(cfg, events)
  }

  function After(cfg: Config, events: seq<Event>): Db
    decreases |events|, 0
  {
    if events == [] then EMPTY_DB else Moved(cfg, events[..|events| - 1], events[|events| - 1])
  }

  predicate PlainCall(call: Sent) {
    match call
    case Upserting(typ, _, ext, _) => NulFree(typ) && NulFree(ext.Key())
    case Linking(_, _, _) => true
    case Anchoring(_, _, tmdb) => NulFree(TmdbId(tmdb).Key())
  }

  ghost predicate Possible(cfg: Config, space: SpaceId, events: seq<Event>, e: Event) {
    var db := After(cfg, events);
    match e
    case Wrote(op) => Minted(db, op) && Plain(op, space)
    case Ran(w, n) => w.cfg == cfg && w.req.space == space && PlainSource(w) && FreshTicks(w, db, n)
    case Called(w, call, tick) =>
      && w.req.space == space && PlainCall(call)
      && (SentOp(cfg, events, w, call, tick).Some? ==> Minted(db, SentOp(cfg, events, w, call, tick).value))
  }

  /** A history of one space, where the calls of any number of ingestions come in any order among
      the writes of others: every write mints new ids. */
  ghost predicate Happened(cfg: Config, space: SpaceId, events: seq<Event>) {
    events == [] ||
    (Happened(cfg, space, events[..|events| - 1])
     && Possible(cfg, space, events[..|events| - 1], events[|events| - 1]))
  }

  /** Nobody retracts an entity or merges two directly. */
  predicate NothingRemoved(e: Event) {
    e.Wrote? ==> !Removes(e.op)
  }

  ghost predicate Upheld(cfg: Config, space: SpaceId, db: Db, heirs: bool) {
    Inv(db) && Settled(cfg, space, db) && (heirs ==> Succeeded(db.log, db.t))
  }

  lemma WriteKeeps(cfg: Config, space: SpaceId, db: Db, op: Op, heirs: bool)
    requires Upheld(cfg, space, db, heirs) && Minted(db, op) && Plain(op, space) && (heirs ==> !Removes(op))
    ensures Upheld(cfg, space, Step(cfg, db, op), heirs)
  {
    StepKeepsInv(cfg, db, op);
    StepKeepsSettled(cfg, space, db, op);
    if heirs {
      StepKeepsSucceeded(cfg, space, db, op);
    }
  }

  /** What an anchor writes back is a plain write, however old the reading. */
  lemma ReadIsPlain(w: World, t: Tables, ref: EntityId, tmdb: string, tick: Tick)
    requires InSpace(w.req.space, t) && OwnerSees(w.req, t, ref) && NulFree(TmdbId(tmdb).Key())
    ensures var in_ := AnchorInput(w.req, t, ref, tmdb);
      in_.candidate.typ in ALLOWED_TYPES ==> PlainEntity(in_, w.req.space)
  {
    LoadedKeys(w.req.space, t, ref);
    if t.entities[ref].typ in ALLOWED_TYPES {
      AllowedNulFree(t.entities[ref].typ);
    }
  }
  /** The space's rows were in order whenever a call may have read them. */
  ghost predicate ReadsInSpace(cfg: Config, space: SpaceId, events: seq<Event>) {
    forall k | 0 <= k <= |events| :: InSpace(space, After(cfg, events[..k]).t)
  }

  lemma CalledIsPlain(cfg: Config, space: SpaceId, events: seq<Event>, w: World, call: Sent, tick: Tick)
    requires w.req.space == space && PlainCall(call) && ReadsInSpace(cfg, space, events)
    requires SentOp(cfg, events, w, call, tick).Some?
    ensures var op := SentOp(cfg, events, w, call, tick).value;
      && !Removes(op)
      && (Plain(op, space) || (op.AppendEntityOp? && op.entity.candidate.typ !in ALLOWED_TYPES))
  {
    match call
    case Upserting(typ, props, ext, asserter) =>
    case Linking(predicate_, from, to) =>
      assert LinkInput(w.req, predicate_, from, to).dedupeKey[6] == BAR;
    case Anchoring(read, ref, tmdb) => ReadIsPlain(w, After(cfg, events[..read]).t, ref, tmdb, tick);
  }

  lemma CalledKeeps(cfg: Config, space: SpaceId, events: seq<Event>, e: Event, heirs: bool)
    requires Upheld(cfg, space, After(cfg, events), heirs) && ReadsInSpace(cfg, space, events)
    requires e.Called? && Possible(cfg, space, events, e)
    ensures Upheld(cfg, space, Moved(cfg, events, e), heirs)
  {
    var op := SentOp(cfg, events, e.w, e.call, e.tick);
    if op.Some? {
      CalledIsPlain(cfg, space, events, e.w, e.call, e.tick);
      if Plain(op.value, space) {
        WriteKeeps(cfg, space, After(cfg, events), op.value, heirs);
      } else {
        NotAccepted(cfg, After(cfg, events), op.value.entity, op.value.tick);
      }
    }
  }

  lemma RanKeeps(cfg: Config, space: SpaceId, events: seq<Event>, e: Event, heirs: bool)
    requires Hashes(cfg) && Upheld(cfg, space, After(cfg, events), heirs)
    requires e.Ran? && Possible(cfg, space, events, e)
    ensures Upheld(cfg, space, Moved(cfg, events, e), heirs)
  {
    if Ready(e.w) {
      BodyGround(e.w, After(cfg, events), e.n, e.w.fetched.value, heirs);
    }
  }

  lemma EventKeeps(cfg: Config, space: SpaceId, events: seq<Event>, e: Event, heirs: bool)
    requires Hashes(cfg) && Upheld(cfg, space, After(cfg, events), heirs) && ReadsInSpace(cfg, space, events)
    requires Possible(cfg, space, events, e) && (heirs ==> NothingRemoved(e))
    ensures Upheld(cfg, space, Moved(cfg, events, e), heirs)
  {
    match e
    case Wrote(op) => WriteKeeps(cfg, space, After(cfg, events), op, heirs);
    case Ran(_, _) => RanKeeps(cfg, space, events, e, heirs);
    case Called(_, _, _) => CalledKeeps(cfg, space, events, e, heirs);
  }

  lemma {:induction false} HappenedBefore(cfg: Config, space: SpaceId, events: seq<Event>, k: nat)
    requires Happened(cfg, space, events) && k <= |events|
    ensures Happened(cfg, space, events[..k])
    decreases |events|
  {
    if k < |events| {
      assert events[..|events| - 1][..k] == events[..k];
      HappenedBefore(cfg, space, events[..|events| - 1], k);
    } else {
      assert events[..k] == events;
    }
  }

  lemma {:induction false} HistoryKeeps(cfg: Config, space: SpaceId, events: seq<Event>, heirs: bool)
    requires Hashes(cfg) && Happened(cfg, space, events)
    requires heirs ==> forall i | 0 <= i < |events| :: NothingRemoved(events[i])
    ensures Upheld(cfg, space, After(cfg, events), heirs)
    decreases |events|
  {
    if events == [] {
      RunKeepsInv(cfg, []);
    } else {
      var front := events[..|events| - 1];
      HistoryKeeps(cfg, space, front, heirs);
      forall k | 0 <= k <= |front| ensures InSpace(space, After(cfg, front[..k]).t) {
        HappenedBefore(cfg, space, front, k);
        HistoryKeeps(cfg, space, front[..k], false);
      }
      EventKeeps(cfg, space, front, events[|events| - 1], heirs);
    }
  }

  /** After every history of one space, however the calls of its ingestions interleave: rows and
      entities stay in it, the store is sound, and whatever ingestion asserted keys about carries
      them as long as it lives. */
  lemma HistorySettles(cfg: Config, space: SpaceId, events: seq<Event>)
    requires Hashes(cfg) && Happened(cfg, space, events)
    ensures Inv(After(cfg, events)) && Settled(cfg, space, After(cfg, events))
  {
    HistoryKeeps(cfg, space, events, false);
  }

  // ---- running it again ----

  /** The request, made after this history, succeeds without a merge. */
  ghost predicate SucceedsPlainly(w: World, events: seq<Event>, n: nat) {
    && Hashes(w.cfg) && Happened(w.cfg, w.req.space, events) && PlainSource(w)
    && FreshTicks(w, After(w.cfg, events), n)
    && Ingested(w, After(w.cfg, events), n).r.Ok? && NoMerge(Ingested(w, After(w.cfg, events), n).calls)
  }

  lemma FirstStands(w: World, events: seq<Event>, n: nat)
    requires SucceedsPlainly(w, events, n)
    ensures var first := Ingested(w, After(w.cfg, events), n);
      && first == Body(w, After(w.cfg, events), n, w.fetched.value)
      && AllStanding(w, first.db, first.calls) && Ground(w, first.db, first.n)
      && Base(w, first.db) && Grown(After(w.cfg, events), first.db)
  {
    HistorySettles(w.cfg, w.req.space, events);
    BodyLeaves(w, After(w.cfg, events), n, w.fetched.value);
  }

  /** After an ingestion that succeeded without a merge, the same request with the same answers
      adds and removes no entity and no edge and changes no key; and it succeeds, with the same
      ids, exactly when no key it derives to anchor a work to its tmdb id was logged for an
      entity that is gone. */
  lemma RerunIff(w: World, events: seq<Event>, n: nat, again: nat)
    requires SucceedsPlainly(w, events, n)
    ensures var first := Ingested(w, After(w.cfg, events), n); var second := Ingested(w, first.db, again);
      && Same(first.db, second.db)
      && (second.r.Ok? <==> AllClear(w, first.db, first.calls))
      && (second.r.Ok? ==> second.r == first.r && AllQuiet(w, second.db, first.calls))
  {
    var db, md := After(w.cfg, events), w.fetched.value;
    FirstStands(w, events, n);
    BodyRepeats(w, db, n, md, Body(w, db, n, md).db, again);
  }

  /** The log may grow the second time, but not the third. */
  lemma ThirdRunIsNoOp(w: World, events: seq<Event>, n: nat, again: nat, third: nat)
    requires SucceedsPlainly(w, events, n) && Ingested(w, Ingested(w, After(w.cfg, events), n).db, again).r.Ok?
    ensures var first := Ingested(w, After(w.cfg, events), n); var second := Ingested(w, first.db, again);
            var last := Ingested(w, second.db, third);
      last.db == second.db && last.r == first.r
  {
    var db, md := After(w.cfg, events), w.fetched.value;
    var first := Ingested(w, db, n);
    var second := Ingested(w, first.db, again);
    RerunIff(w, events, n, again);
    FirstStands(w, events, n);
    BaseSame(w, first.db, second.db);
    SameIsGrown(first.db, second.db);
    AllStandingMono(w, first.db, second.db, first.calls);
    BodyRepeats(w, db, n, md, second.db, third);
    AllClearSame(w, first.db, second.db, first.calls);
  }

  // ---- while nobody removes anything ----

  lemma FirstSucceeded(w: World, events: seq<Event>, n: nat)
    requires SucceedsPlainly(w, events, n) && forall i | 0 <= i < |events| :: NothingRemoved(events[i])
    ensures var first := Ingested(w, After(w.cfg, events), n);
      Footing(w, first.db, first.n, true) && AllStanding(w, first.db, first.calls)
  {
    FirstStands(w, events, n);
    HistoryKeeps(w.cfg, w.req.space, events, true);
    BodyGround(w, After(w.cfg, events), n, w.fetched.value, true);
  }

  /** So if nobody retracts an entity or merges two directly, running it again succeeds, whatever
      appends have merged. */
  lemma RerunSucceeds(w: World, events: seq<Event>, n: nat, again: nat)
    requires SucceedsPlainly(w, events, n) && forall i | 0 <= i < |events| :: NothingRemoved(events[i])
    ensures var first := Ingested(w, After(w.cfg, events), n); var second := Ingested(w, first.db, again);
      Same(first.db, second.db) && second.r == first.r
  {
    var first := Ingested(w, After(w.cfg, events), n);
    FirstSucceeded(w, events, n);
    forall c | c in first.calls ensures Clear(w, first.db, c) {
      StandingIsClear(w, first.db, c);
    }
    RerunIff(w, events, n, again);
  }
}
