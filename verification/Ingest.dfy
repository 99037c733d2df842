/** The ingestion workflow over the store: a video, its channel, the works it is about and its
    clips, each written so that running the same request again finds what is there. */
module Ingest {
  import opened Json
  import opened Domain
  import opened Order
  import opened Resolve
  import opened Tables
  import opened Store
  import opened OneSpace
  import Access

  // ---- what is ingested ----

  datatype Segment = Segment(startOffset: real, endOffset: real, text: string, subjects: seq<string>)

  datatype Metadata = Metadata(
    videoId: string, title: string, url: string, description: string, uploadDate: string,
    channelId: string, channelName: string, channelUrl: string, transcript: string, segments: seq<Segment>)

  /** An empty visibility defaults to private. */
  datatype Request = Request(
    ref: string, owner: PrincipalId, space: SpaceId, visibility: Option<Visibility>, subjects: seq<string>) {
    function VisOrDefault(): Visibility {
      if visibility.None? then Private else visibility.value
    }
  }

  datatype Report = Report(
    video: EntityId, channel: EntityId, aboutWorks: seq<EntityId>, clips: seq<EntityId>, clipAboutWorks: seq<EntityId>,
    transcribed: bool)

  /** Everything outside the store: the fetched metadata (none: the fetch failed), what heyarr
      answers for a tmdb id (none: no work, an error, or no heyarr), how an offset is printed, and
      the ids and clock readings of the store's calls. */
  datatype World = World(
    cfg: Config, req: Request, fetched: Option<Metadata>, works: string -> Option<string>, fmt: real -> string,
    ticks: nat -> Tick)

  // ---- the calls on the store, and a flow of them ----

  /** A call that succeeded; merged: an entity write that resolved to a merge. */
  datatype Call =
    | Upserted(entity: EntityInput, id: EntityId, merged: bool)
    | LinkedUp(edge: EdgeInput)
    | Anchored(ref: EntityId, tmdb: string, merged: bool)

  datatype Flow<+T> = Flow(db: Db, n: nat, calls: seq<Call>, r: Result<T>)

  /** The second part follows the first, unless the first failed. */
  function Then<A, B>(a: Flow<A>, b: Flow<B>): Flow<B> {
    if a.r.Err? then Flow(a.db, a.n, a.calls, Err(a.r.error)) else Flow(b.db, b.n, a.calls + b.calls, b.r)
  }

  function Return<A, B>(a: Flow<A>, v: B): Flow<B> {
    Flow(a.db, a.n, a.calls, if a.r.Err? then Err(a.r.error) else Ok(v))
  }

  function PutIf(m: map<string, Json>, key: string, val: string): map<string, Json> {
    if val != "" then m[key := JStr(val)] else m
  }

  function IngestProv(req: Request, asserter: string): Provenance {
    Provenance(asserter, Asserted, req.ref, 0.0, None)
  }

  function UpsertInput(
    req: Request, typ: string, props: map<string, Json>, ext: ExternalId, asserter: string): EntityInput {
    EntityInput(
      Entity("", typ, Doc(JObj(props)), [ext], IngestProv(req, asserter), req.space, req.owner, req.VisOrDefault(), []),
      INGEST, "", req.owner, Auto)
  }

  /** The id a write reports; a duplicate without a prior assertion reports none, as success. */
  function Reported(out: Outcome): Result<EntityId> {
    match out
    case Accepted(id) => Ok(id)
    case Replayed(id) => Ok(id)
    case Rejected(e) => if e.DuplicateFact? then Ok("") else Err(e)
  }

  predicate ResolvesToMerge(cfg: Config, db: Db, in_: EntityInput, tick: Tick) {
    && Prior(db.log, in_.writer, EntityKey(cfg, in_, tick), true).None?
    && var d := EntityDecision(cfg, db.t, Stamped(in_, tick), EffectivePolicy(in_.policy)); d.Ok? && d.value.Merge?
  }

  function Upsert(
    w: World, db: Db, n: nat, typ: string, props: map<string, Json>, ext: ExternalId,
    asserter: string): Flow<EntityId> {
    var in_ := UpsertInput(w.req, typ, props, ext, asserter);
    var (db', out) := AppendEntity(w.cfg, db, in_, w.ticks(n));
    var r := Reported(out);
    Flow(db', n + 1, if r.Ok? then [Upserted(in_, r.value, ResolvesToMerge(w.cfg, db, in_, w.ticks(n)))] else [], r)
  }

  function LinkInput(req: Request, predicate_: string, from: EntityId, to: EntityId): EdgeInput {
    EdgeInput(Edge("", predicate_, from, to, Absent, IngestProv(req, "ingest"), req.space, req.owner,
                   req.VisOrDefault()),
              INGEST, "ingest|" + predicate_ + "|" + from + "|" + to, req.owner)
  }

  function Link(w: World, db: Db, n: nat, predicate_: string, from: EntityId, to: EntityId): Flow<bool> {
    var in_ := LinkInput(w.req, predicate_, from, to);
    var (db', out) := AppendEdge(db, in_, w.ticks(n));
    if Reported(out).Ok? then Flow(db', n + 1, [LinkedUp(in_)], Ok(true))
    else Flow(db', n + 1, [], Err(Reported(out).error))
  }

  // ---- reading an entity back ----

  predicate XidLe(a: ExternalId, b: ExternalId) {
    if a.Key() == b.Key() then TextLe(a.scheme, b.scheme) else TextLe(a.Key(), b.Key())
  }

  lemma XidOrder()
    ensures TotalOrder(XidLe)
  {
    forall a, b ensures (XidLe(a, b) || XidLe(b, a)) && (XidLe(a, b) && XidLe(b, a) ==> a == b) {
      TextLeTotal(a.scheme, b.scheme);
      TextLeTotal(a.Key(), b.Key());
      if a.Key() == b.Key() && a.scheme == b.scheme {
        var k, m := a.Key(), |a.scheme| + 1;
        assert k[m..] == a.value && k[m..] == b.value;
      }
    }
    forall a, b, c | XidLe(a, b) && XidLe(b, c) ensures XidLe(a, c) {
      TextLeTotal(a.Key(), b.Key());
      TextLeTotal(b.Key(), c.Key());
      if a.Key() == b.Key() == c.Key() {
        TextLeTransitive(a.scheme, b.scheme, c.scheme);
      } else {
        TextLeTransitive(a.Key(), b.Key(), c.Key());
      }
    }
  }

  predicate EmbLe(a: EmbKey, b: EmbKey) {
    if a.model != b.model then TextLe(a.model, b.model)
    else if a.field != b.field then TextLe(a.field, b.field)
    else TextLe(a.entity, b.entity)
  }

  lemma EmbOrder()
    ensures TotalOrder(EmbLe)
  {
    forall a, b ensures (EmbLe(a, b) || EmbLe(b, a)) && (EmbLe(a, b) && EmbLe(b, a) ==> a == b) {
      TextLeTotal(a.model, b.model);
      TextLeTotal(a.field, b.field);
      TextLeTotal(a.entity, b.entity);
    }
    forall a, b, c | EmbLe(a, b) && EmbLe(b, c) ensures EmbLe(a, c) {
      TextLeTotal(a.model, b.model);
      TextLeTotal(b.model, c.model);
      TextLeTotal(a.field, b.field);
      TextLeTotal(b.field, c.field);
      if a.model == b.model == c.model {
        if a.field == b.field == c.field {
          TextLeTransitive(a.entity, b.entity, c.entity);
        } else {
          TextLeTransitive(a.field, b.field, c.field);
        }
      } else {
        TextLeTransitive(a.model, b.model, c.model);
      }
    }
  }

  function XidsOf(ext: set<ExtRow>, id: EntityId): set<ExternalId> {
    set r | r in ext && r.entity == id :: r.xid
  }

  function EmbKeysOf(emb: map<EmbKey, Vector>, id: EntityId): set<EmbKey> {
    set k | k in emb && k.entity == id
  }

  function LoadedIds(ext: set<ExtRow>, id: EntityId): seq<ExternalId> {
    XidOrder();
    SortSet(XidLe, XidsOf(ext, id))
  }

  function VectorsFor(emb: map<EmbKey, Vector>, ks: seq<EmbKey>): seq<Embedding> {
    seq(|ks|, i requires 0 <= i < |ks| => Embedding(ks[i].model, ks[i].field, if ks[i] in emb then emb[ks[i]] else []))
  }

  function LoadedVectors(emb: map<EmbKey, Vector>, id: EntityId): seq<Embedding> {
    EmbOrder();
    VectorsFor(emb, SortSet(EmbLe, EmbKeysOf(emb, id)))
  }

  /** The entity as a read gives it back, its external ids by key, its embeddings by slot. */
  function Loaded(t: Tables, id: EntityId): Entity
    requires id in t.entities
  {
    var row := t.entities[id];
    Entity(id, row.typ, Doc(row.props), LoadedIds(t.ext, id), row.prov, row.space, row.owner, row.visibility,
           LoadedVectors(t.emb, id))
  }

  /** ownerFilter: the owner's own nodes, its space's, and public ones. */
  predicate OwnerSees(req: Request, t: Tables, id: EntityId) {
    && id in t.entities
    && Access.CanReadUntyped(Access.Caller(req.owner, if req.space == "" then [] else [req.space], false),
                             Access.GuardOf(t.entities[id]))
  }

  lemma OwnerSeesIff(req: Request, t: Tables, id: EntityId)
    ensures OwnerSees(req, t, id) <==>
            && id in t.entities
            && var row := t.entities[id];
              || row.visibility.Public? || (row.visibility.Private? && row.owner == req.owner)
              || (row.visibility.SpaceWide? && row.space == req.space && req.space != "")
  {
  }

  function AnchorInput(req: Request, t: Tables, ref: EntityId, tmdb: string): EntityInput
    requires ref in t.entities
  {
    var e := Loaded(t, ref);
    EntityInput(e.(externalIds := e.externalIds + [ExternalId("tmdb", tmdb)]), INGEST, "", req.owner, Auto)
  }

  /** attachTMDB. */
  function Anchor(w: World, db: Db, n: nat, ref: EntityId, tmdb: string): Flow<bool> {
    if !OwnerSees(w.req, db.t, ref) then Flow(db, n, [], Err(NotFound))
    else
      var in_ := AnchorInput(w.req, db.t, ref, tmdb);
      var (db', out) := AppendEntity(w.cfg, db, in_, w.ticks(n));
      if Reported(out).Ok? then Flow(db', n + 1, [Anchored(ref, tmdb, ResolvesToMerge(w.cfg, db, in_, w.ticks(n)))],
                                     Ok(true))
      else Flow(db', n + 1, [], Err(Reported(out).error))
  }

  // ---- the workflow ----

  function WorkId(work: string): ExternalId {
    ExternalId("heyarr-work", work)
  }

  function AboutWork(w: World, db: Db, n: nat, tmdb: string): Flow<Option<EntityId>> {
    match w.works(tmdb)
    case None => Flow(db, n, [], Ok(None))
    case Some(work) =>
      var ref := Upsert(w, db, n, "CreativeWork", map["name" := JStr("heyarr work " + work)], WorkId(work),
                        "ingest:heyarr");
      if ref.r.Err? then Return(ref, None)
      else Return(Then(ref, Anchor(w, ref.db, ref.n, ref.r.value, tmdb)), Some(ref.r.value))
  }

  /** One subject: its work and the about edge, or nothing when there is no work. */
  function About(w: World, db: Db, n: nat, from: EntityId, tmdb: string): Flow<seq<EntityId>> {
    var ref := AboutWork(w, db, n, tmdb);
    if ref.r.Err? || ref.r.value.None? then Return(ref, [])
    else Return(Then(ref, Link(w, ref.db, ref.n, "about", from, ref.r.value.value)), [ref.r.value.value])
  }

  function Abouts(w: World, db: Db, n: nat, from: EntityId, tmdbs: seq<string>): Flow<seq<EntityId>> {
    if tmdbs == [] then Flow(db, n, [], Ok([]))
    else
      var front := Abouts(w, db, n, from, tmdbs[..|tmdbs| - 1]);
      if front.r.Err? then front
      else
        var last := Then(front, About(w, front.db, front.n, from, tmdbs[|tmdbs| - 1]));
        if last.r.Err? then last else Return(last, front.r.value + last.r.value)
  }

  function ClipId(w: World, videoId: string, seg: Segment): ExternalId {
    ExternalId("youtube-clip", videoId + "@" + w.fmt(seg.startOffset) + "-" + w.fmt(seg.endOffset))
  }

  function ClipProps(seg: Segment): map<string, Json> {
    PutIf(map["startOffset" := JNum(seg.startOffset), "endOffset" := JNum(seg.endOffset)], "text", seg.text)
  }

  /** The clip and its place in the video. */
  function ClipNode(w: World, db: Db, n: nat, video: EntityId, videoId: string, seg: Segment): Flow<EntityId> {
    var clip := Upsert(w, db, n, "Clip", ClipProps(seg), ClipId(w, videoId, seg), "ingest:yt-dlp");
    if clip.r.Err? then clip
    else Return(Then(clip, Link(w, clip.db, clip.n, "isPartOf", clip.r.value, video)), clip.r.value)
  }

  /** One segment: the clip, and what it is about. */
  function ClipOf(
    w: World, db: Db, n: nat, video: EntityId, videoId: string, seg: Segment): Flow<(EntityId, seq<EntityId>)> {
    var clip := ClipNode(w, db, n, video, videoId, seg);
    if clip.r.Err? then Return(clip, ("", []))
    else
      var about := Then(clip, Abouts(w, clip.db, clip.n, clip.r.value, seg.subjects));
      if about.r.Err? then Return(about, ("", [])) else Return(about, (clip.r.value, about.r.value))
  }

  /** One more clip after the earlier ones. */
  function Joined(
    f: Flow<(EntityId, seq<EntityId>)>, front: (seq<EntityId>, seq<EntityId>)): Flow<(seq<EntityId>, seq<EntityId>)> {
    if f.r.Err? then Return(f, ([], [])) else Return(f, (front.0 + [f.r.value.0], front.1 + f.r.value.1))
  }

  function Clips(
    w: World, db: Db, n: nat, video: EntityId, videoId: string,
    segs: seq<Segment>): Flow<(seq<EntityId>, seq<EntityId>)> {
    if segs == [] then Flow(db, n, [], Ok(([], [])))
    else
      var front := Clips(w, db, n, video, videoId, segs[..|segs| - 1]);
      if front.r.Err? then front
      else
        Joined(Then(front, ClipOf(w, front.db, front.n, video, videoId, segs[|segs| - 1])), front.r.value)
  }

  function VideoProps(md: Metadata): map<string, Json> {
    PutIf(PutIf(PutIf(map["name" := JStr(md.title), "url" := JStr(md.url)], "description", md.description),
                "uploadDate", md.uploadDate), "transcript", md.transcript)
  }

  function Video(w: World, db: Db, n: nat, md: Metadata): Flow<EntityId> {
    Upsert(w, db, n, "VideoObject", VideoProps(md), ExternalId("youtube", md.videoId), "ingest:yt-dlp")
  }

  /** The channel and the author edge, when the metadata names a channel. */
  function Channel(w: World, db: Db, n: nat, md: Metadata, video: EntityId): Flow<EntityId> {
    if md.channelId == "" && md.channelName == "" then Flow(db, n, [], Ok(""))
    else
      var channel := Upsert(w, db, n, "Organization", PutIf(map["name" := JStr(md.channelName)], "url", md.channelUrl),
                            ExternalId("youtube-channel", md.channelId), "ingest:yt-dlp");
      if channel.r.Err? then channel
      else Return(Then(channel, Link(w, channel.db, channel.n, "author", video, channel.r.value)), channel.r.value)
  }

  function WithChannel(w: World, video: Flow<EntityId>, md: Metadata): Flow<(EntityId, EntityId)> {
    if video.r.Err? then Return(video, ("", ""))
    else
      var channel := Then(video, Channel(w, video.db, video.n, md, video.r.value));
      if channel.r.Err? then Return(channel, ("", "")) else Return(channel, (video.r.value, channel.r.value))
  }

  function Nodes(w: World, db: Db, n: nat, md: Metadata): Flow<(EntityId, EntityId)> {
    WithChannel(w, Video(w, db, n, md), md)
  }

  /** The video with its channel and subjects. */
  function Front(w: World, db: Db, n: nat, md: Metadata): Flow<(EntityId, EntityId, seq<EntityId>)> {
    var nodes := Nodes(w, db, n, md);
    if nodes.r.Err? then Return(nodes, ("", "", []))
    else
      var about := Then(nodes, Abouts(w, nodes.db, nodes.n, nodes.r.value.0, w.req.subjects));
      if about.r.Err? then Return(about, ("", "", []))
      else Return(about, (nodes.r.value.0, nodes.r.value.1, about.r.value))
  }

  function Body(w: World, db: Db, n: nat, md: Metadata): Flow<Report> {
    var front := Front(w, db, n, md);
    var none := Report("", "", [], [], [], false);
    if front.r.Err? then Return(front, none)
    else
      var clips := Then(front, Clips(w, front.db, front.n, front.r.value.0, md.videoId, md.segments));
      if clips.r.Err? then Return(clips, none)
      else
        Return(clips, Report(front.r.value.0, front.r.value.1, front.r.value.2, clips.r.value.0, clips.r.value.1,
                             md.transcript != ""))
  }

  predicate Ready(w: World) {
    && w.req.ref != "" && w.req.VisOrDefault().Valid()
    && w.fetched.Some? && w.fetched.value.videoId != ""
  }

  function Ingested(w: World, db: Db, n: nat): Flow<Report> {
    if !Ready(w) then Flow(db, n, [], Err(InvalidInput)) else Body(w, db, n, w.fetched.value)
  }

  // ---- the code: one store, written to call by call ----

  class Ingestor {
    const w: World
    var db: Db
    var n: nat

    constructor (w: World, db: Db)
      ensures this.w == w && this.db == db && n == 0
    {
      this.w := w;
      this.db := db;
      n := 0;
    }

    /** The store and the answer are as the flow says. */
    ghost predicate Did<T(!new)>(f: Flow<T>, r: Result<T>)
      reads this
    {
      db == f.db && n == f.n && r == f.r
    }

    method UpsertNode(
      typ: string, props: map<string, Json>, ext: ExternalId, asserter: string) returns (r: Result<EntityId>)
      modifies this
      ensures Did(Upsert(w, old(db), old(n), typ, props, ext, asserter), r)
    {
      var (db', out) := AppendEntity(w.cfg, db, UpsertInput(w.req, typ, props, ext, asserter), w.ticks(n));
      db, n := db', n + 1;
      r := Reported(out);
    }

    method LinkNodes(predicate_: string, from: EntityId, to: EntityId) returns (r: Result<bool>)
      modifies this
      ensures Did(Link(w, old(db), old(n), predicate_, from, to), r)
    {
      var (db', out) := AppendEdge(db, LinkInput(w.req, predicate_, from, to), w.ticks(n));
      db, n := db', n + 1;
      var id :- Reported(out);
      r := Ok(true);
    }

    method AttachTMDB(ref: EntityId, tmdb: string) returns (r: Result<bool>)
      modifies this
      ensures Did(Anchor(w, old(db), old(n), ref, tmdb), r)
    {
      if !OwnerSees(w.req, db.t, ref) {
        return Err(NotFound);
      }
      var (db', out) := AppendEntity(w.cfg, db, AnchorInput(w.req, db.t, ref, tmdb), w.ticks(n));
      db, n := db', n + 1;
      var id :- Reported(out);
      r := Ok(true);
    }

    method ReconcileWork(tmdb: string) returns (r: Result<Option<EntityId>>)
      modifies this
      ensures Did(AboutWork(w, old(db), old(n), tmdb), r)
    {
      var work := w.works(tmdb);
      if work.None? {
        return Ok(None);
      }
      var ref :- UpsertNode("CreativeWork", map["name" := JStr("heyarr work " + work.value)], WorkId(work.value),
                            "ingest:heyarr");
      var done :- AttachTMDB(ref, tmdb);
      r := Ok(Some(ref));
    }

    /** The loop over subjects, of the video or of a clip. */
    method LinkSubjects(from: EntityId, tmdbs: seq<string>) returns (r: Result<seq<EntityId>>)
      modifies this
      ensures Did(Abouts(w, old(db), old(n), from, tmdbs), r)
    {
      var refs: seq<EntityId> := [];
      for i := 0 to |tmdbs|
        invariant Did(Abouts(w, old(db), old(n), from, tmdbs[..i]), Ok(refs))
      {
        AboutsNext(w, old(db), old(n), from, tmdbs, i);
        var ref :- ReconcileWork(tmdbs[i]);
        if ref.None? {
          assert refs + [] == refs;
          continue;
        }
        var done :- LinkNodes("about", from, ref.value);
        refs := refs + [ref.value];
      }
      assert tmdbs[..|tmdbs|] == tmdbs;
      r := Ok(refs);
    }

    method UpsertClip(video: EntityId, videoId: string, seg: Segment) returns (r: Result<(EntityId, seq<EntityId>)>)
      modifies this
      ensures Did(ClipOf(w, old(db), old(n), video, videoId, seg), r)
    {
      var clip :- UpsertNode("Clip", ClipProps(seg), ClipId(w, videoId, seg), "ingest:yt-dlp");
      var part :- LinkNodes("isPartOf", clip, video);
      var about :- LinkSubjects(clip, seg.subjects);
      r := Ok((clip, about));
    }

    method UpsertClips(
      video: EntityId, videoId: string, segs: seq<Segment>) returns (r: Result<(seq<EntityId>, seq<EntityId>)>)
      modifies this
      ensures Did(Clips(w, old(db), old(n), video, videoId, segs), r)
    {
      var clips: seq<EntityId>, abouts: seq<EntityId> := [], [];
      for i := 0 to |segs|
        invariant Did(Clips(w, old(db), old(n), video, videoId, segs[..i]), Ok((clips, abouts)))
      {
        ClipsNext(w, old(db), old(n), video, videoId, segs, i);
        var clip :- UpsertClip(video, videoId, segs[i]);
        clips, abouts := clips + [clip.0], abouts + clip.1;
      }
      assert segs[..|segs|] == segs;
      r := Ok((clips, abouts));
    }

    method UpsertChannel(md: Metadata, video: EntityId) returns (r: Result<EntityId>)
      modifies this
      ensures Did(Channel(w, old(db), old(n), md, video), r)
    {
      if md.channelId == "" && md.channelName == "" {
        return Ok("");
      }
      var channel :- UpsertNode("Organization", PutIf(map["name" := JStr(md.channelName)], "url", md.channelUrl),
                                ExternalId("youtube-channel", md.channelId), "ingest:yt-dlp");
      var author :- LinkNodes("author", video, channel);
      r := Ok(channel);
    }

    method Ingest() returns (r: Result<Report>)
      modifies this
      ensures Did(Ingested(w, old(db), old(n)), r)
    {
      if !Ready(w) {
        return Err(InvalidInput);
      }
      var md := w.fetched.value;
      var video :- UpsertNode("VideoObject", VideoProps(md), ExternalId("youtube", md.videoId), "ingest:yt-dlp");
      var channel :- UpsertChannel(md, video);
      var about :- LinkSubjects(video, w.req.subjects);
      var clips :- UpsertClips(video, md.videoId, md.segments);
      r := Ok(Report(video, channel, about, clips.0, clips.1, md.transcript != ""));
    }
  }

  lemma AboutsNext(w: World, db: Db, n: nat, from: EntityId, tmdbs: seq<string>, i: nat)
    requires i < |tmdbs| && Abouts(w, db, n, from, tmdbs[..i]).r.Ok?
    ensures var front := Abouts(w, db, n, from, tmdbs[..i]);
            var last := About(w, front.db, front.n, from, tmdbs[i]);
            var next := Abouts(w, db, n, from, tmdbs[..i + 1]);
      && next.db == last.db && next.n == last.n
      && next.r == (if last.r.Ok? then Ok(front.r.value + last.r.value) else last.r)
      && (last.r.Err? ==>
            && Abouts(w, db, n, from, tmdbs).r == last.r && Abouts(w, db, n, from, tmdbs).db == last.db
            && Abouts(w, db, n, from, tmdbs).n == last.n)
  {
    assert tmdbs[..i + 1][..i] == tmdbs[..i];
    if Abouts(w, db, n, from, tmdbs[..i + 1]).r.Err? {
      AboutsStops(w, db, n, from, tmdbs, i + 1);
    }
  }

  /** Once a subject fails, the loop is over. */
  lemma {:induction false} AboutsStops(w: World, db: Db, n: nat, from: EntityId, tmdbs: seq<string>, i: nat)
    requires i <= |tmdbs| && Abouts(w, db, n, from, tmdbs[..i]).r.Err?
    ensures Abouts(w, db, n, from, tmdbs) == Abouts(w, db, n, from, tmdbs[..i])
    decreases |tmdbs|
  {
    if i < |tmdbs| {
      assert tmdbs[..|tmdbs| - 1][..i] == tmdbs[..i];
      AboutsStops(w, db, n, from, tmdbs[..|tmdbs| - 1], i);
    } else {
      assert tmdbs[..i] == tmdbs;
    }
  }

  lemma ClipsNext(w: World, db: Db, n: nat, video: EntityId, videoId: string, segs: seq<Segment>, i: nat)
    requires i < |segs| && Clips(w, db, n, video, videoId, segs[..i]).r.Ok?
    ensures var front := Clips(w, db, n, video, videoId, segs[..i]);
            var last := ClipOf(w, front.db, front.n, video, videoId, segs[i]);
            var next := Clips(w, db, n, video, videoId, segs[..i + 1]);
            var all := Clips(w, db, n, video, videoId, segs);
      && next.db == last.db && next.n == last.n
      && (last.r.Ok? ==> next.r == Ok((front.r.value.0 + [last.r.value.0], front.r.value.1 + last.r.value.1)))
      && (last.r.Err? ==> all.db == last.db && all.n == last.n && all.r == Err(last.r.error))
  {
    assert segs[..i + 1][..i] == segs[..i];
    if Clips(w, db, n, video, videoId, segs[..i + 1]).r.Err? {
      ClipsStop(w, db, n, video, videoId, segs, i + 1);
    }
  }

  lemma {:induction false} ClipsStop(
    w: World, db: Db, n: nat, video: EntityId, videoId: string, segs: seq<Segment>, i: nat)
    requires i <= |segs| && Clips(w, db, n, video, videoId, segs[..i]).r.Err?
    ensures Clips(w, db, n, video, videoId, segs) == Clips(w, db, n, video, videoId, segs[..i])
    decreases |segs|
  {
    if i < |segs| {
      assert segs[..|segs| - 1][..i] == segs[..i];
      ClipsStop(w, db, n, video, videoId, segs[..|segs| - 1], i);
    } else {
      assert segs[..i] == segs;
    }
  }
}
