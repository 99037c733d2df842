/** Short runs that show the promises which do not always hold failing: a rebuild that differs
    from the live store, a rebuild that leaves a full-text row behind, and a vector match that
    takes a key into another space. */
module Witnesses {
  import opened Json
  import opened Domain
  import opened Resolve
  import opened Tables
  import opened Store
  import opened Invariants
  import opened Acceptance
  import opened Spaces
  import opened FullText
  import Reingest
  import Runs

  const PROV := Provenance("", Asserted, "", 1.0, None)
  const FIRST := Tick("t", "t", "e", "g", "r")
  const SECOND := Tick("u", "u", "f", "h", "s")

  function Note(space: SpaceId, props: RawJson, xs: seq<ExternalId>, es: seq<Embedding>): Entity {
    Entity("", "Note", props, xs, PROV, space, "owner", Private, es)
  }

  /** A forced write into the empty store makes a new entity. */
  lemma ForcedFirst(cfg: Config, props: RawJson, es: seq<Embedding>)
    requires !props.Malformed?
    ensures var in_ := EntityInput(Note("a", props, [], es), "w", "k", "owner", ForceNew);
            var (db, out) := AppendEntity(cfg, EMPTY_DB, in_, FIRST);
      && out == Accepted("e") && db.t.entities == map["e" := NewRow(Stamped(in_, FIRST), "t")] && db.t.ext == {}
      && db.t.edges == map[]
      && db.t.emb == PutVectors(map[], "e", es) && |db.log| == 1
      && db.log[0] == FactOf(AssertEmission(in_, Stamped(in_, FIRST), "e", "k"), "t")
  {
    var in_ := EntityInput(Note("a", props, [], es), "w", "k", "owner", ForceNew);
    assert EntityDecision(cfg, EMPTY, Stamped(in_, FIRST), ForceNew) == Ok(InsertNew);
    Reingest.PlainAppend(cfg, EMPTY_DB, in_, FIRST, InsertNew);
  }

  function FirstOp(props: RawJson, es: seq<Embedding>): Op {
    AppendEntityOp(EntityInput(Note("a", props, [], es), "w", "k", "owner", ForceNew), FIRST)
  }

  lemma FirstRuns(cfg: Config, props: RawJson, es: seq<Embedding>)
    ensures IsRun(cfg, [FirstOp(props, es)])
            && Run(cfg, [FirstOp(props, es)]) == Step(cfg, EMPTY_DB, FirstOp(props, es))
  {
    assert [] + [FirstOp(props, es)] == [FirstOp(props, es)];
    Runs.RunSnoc(cfg, [], FirstOp(props, es));
  }

  lemma TwoRun(cfg: Config, first: Op, second: Op)
    requires IsRun(cfg, [first]) && Minted(Run(cfg, [first]), second)
    ensures IsRun(cfg, [first, second]) && Run(cfg, [first, second]) == Step(cfg, Run(cfg, [first]), second)
  {
    assert [first] + [second] == [first, second];
    Runs.RunSnoc(cfg, [first], second);
  }

  /** One entity written without props: a rebuild would store `null` where the live row has `{}`. */
  lemma RebuildCanDiffer(cfg: Config)
    ensures IsRun(cfg, [FirstOp(Absent, [])]) && !Runs.RebuildExact(Run(cfg, [FirstOp(Absent, [])]))
  {
    FirstRuns(cfg, Absent, []);
    ForcedFirst(cfg, Absent, []);
    RunKeepsInv(cfg, []);
    Runs.StepExactIff(cfg, EMPTY_DB, FirstOp(Absent, []));
  }

  lemma LastRetractsLive(log: seq<Fact>, longer: seq<Fact>)
    requires |longer| == |log| + 1 && log <= longer && Fold(log).Ok?
    requires longer[|log|].payload.EntityRetracted? && longer[|log|].subject in Fold(log).value.entities
    ensures RetractsLive(longer)
  {
    assert longer[..|longer| - 1] == log;
  }

  lemma RetractLogs(db: Db, id: EntityId, actor: PrincipalId, now: Time)
    requires !Logged(db.log, actor, id + "|retract")
    ensures var db' := RetractEntity(db, id, actor, "", now).0;
      && |db'.log| == |db.log| + 1 && db.log <= db'.log
      && db'.log[|db.log|].payload.EntityRetracted? && db'.log[|db.log|].subject == id
  {
  }

  lemma RetractedLive(one: Db, two: Db, id: EntityId, actor: PrincipalId, now: Time)
    requires Tracks(one) && id in one.t.entities && !Logged(one.log, actor, id + "|retract")
    requires two == RetractEntity(one, id, actor, "", now).0
    ensures RetractsLive(two.log)
  {
    RetractLogs(one, id, actor, now);
    assert Agrees(one.t, Fold(one.log).value);
    LastRetractsLive(one.log, two.log);
  }

  function OrphanOps(): seq<Op> {
    [FirstOp(Doc(JObj(map[])), []), RetractEntityOp("e", "w", "", "u")]
  }

  /** One live entity, not retracted before. */
  predicate OneLive(db: Db) {
    "e" in db.t.entities && !Logged(db.log, "w", "e" + "|retract")
  }

  lemma OneWritten(cfg: Config)
    ensures var ops := [FirstOp(Doc(JObj(map[])), [])];
      IsRun(cfg, ops) && OneLive(Run(cfg, ops))
  {
    FirstRuns(cfg, Doc(JObj(map[])), []);
    ForcedFirst(cfg, Doc(JObj(map[])), []);
    assert "e" + "|retract" == "e|retract";
  }

  lemma DroppedLive(cfg: Config, one: Db, two: Db)
    requires OneLive(one) && Tracks(one) && two == Step(cfg, one, RetractEntityOp("e", "w", "", "u"))
    ensures RetractsLive(two.log)
  {
    RetractedLive(one, two, "e", "w", "u");
  }

  lemma OrphanRun(cfg: Config)
    ensures IsRun(cfg, OrphanOps()) && RetractsLive(Run(cfg, OrphanOps()).log)
  {
    var first, second := FirstOp(Doc(JObj(map[])), []), RetractEntityOp("e", "w", "", "u");
    OneWritten(cfg);
    TwoRun(cfg, first, second);
    RunKeepsInv(cfg, [first]);
    DroppedLive(cfg, Run(cfg, [first]), Run(cfg, [first, second]));
  }

  lemma Orphaned(cfg: Config, ops: seq<Op>)
    requires IsRun(cfg, ops) && RetractsLive(Run(cfg, ops).log) && forall op | op in ops :: !op.RebuildOp?
    ensures NoOrphans(Run(cfg, ops).t) && !NoOrphans(Rebuild(Run(cfg, ops)).0.t)
  {
    RunHasNoOrphans(cfg, ops);
    RunKeepsInv(cfg, ops);
    RebuildOrphansIff(cfg, ops);
  }

  /** An entity written and retracted: a rebuild leaves its full-text row without it. */
  lemma RebuildCanOrphan(cfg: Config)
    ensures var ops := OrphanOps();
      && IsRun(cfg, ops) && NoOrphans(Run(cfg, ops).t) && !NoOrphans(Rebuild(Run(cfg, ops)).0.t)
  {
    OrphanRun(cfg);
    Orphaned(cfg, OrphanOps());
  }

  // ---- across spaces, by vector ----

  function Vec(v: Vector): seq<Embedding> {
    [Embedding("m", "body", v)]
  }

  function StrayInput(v: Vector): EntityInput {
    EntityInput(Note("b", Doc(JObj(map[])), [ExternalId("s", "x")], Vec(v)), "w", "k2", "owner", Auto)
  }

  lemma NearestIsOnly(cfg: Config, t: Tables, v: Vector)
    requires t.emb == map[EmbKey("e", "m", "body") := v] && "e" in t.entities && t.entities["e"].typ == "Note"
    ensures MaxScore(Knn(cfg, t, "m", "Note", v, 5)) == Some(ScoredMatch("e", cfg.sim(v, v)))
  {
    var rows := ModelRows(t, "m", "Note");
    assert rows == {EmbKey("e", "m", "body")};
    var best := BestScores(cfg.sim, t.emb, rows, v);
    assert best.Keys == {"e"} by {
      assert EmbKey("e", "m", "body").entity == "e";
    }
    assert ScoresOf(cfg.sim, t.emb, rows, v, "e") == {cfg.sim(v, v)};
    RealOrder();
    assert best["e"] == cfg.sim(v, v);
    NearestIsChosen(best, 5);
  }

  lemma StrayDecision(cfg: Config, t: Tables, v: Vector, tick: Tick)
    requires t.emb == map[EmbKey("e", "m", "body") := v] && "e" in t.entities && t.entities["e"].typ == "Note"
             && t.ext == {}
    requires cfg.sim(v, v) >= cfg.th.autoMerge
    ensures EntityDecision(cfg, t, Stamped(StrayInput(v), tick), Auto) == Ok(Attach("e", MatchVector))
  {
    var c := Stamped(StrayInput(v), tick);
    assert HitSet(t, c.space, Keys(c.externalIds)) == {};
    ExternalHitsExact(t, c.space, Keys(c.externalIds));
    NearestIsOnly(cfg, t, v);
  }

  lemma StrayGoesIn(cfg: Config, one: Db, v: Vector)
    requires one.t.entities.Keys == {"e"} && one.t.entities["e"].space == "a" && one.t.ext == {}
    requires |one.log| == 1 && one.log[0].dedupeKey == "k"
    requires EntityDecision(cfg, one.t, Stamped(StrayInput(v), SECOND), Auto) == Ok(Attach("e", MatchVector))
    ensures !SpacesAgree(Step(cfg, one, AppendEntityOp(StrayInput(v), SECOND)).t)
  {
    var in_ := StrayInput(v);
    assert !Logged(one.log, "w", "k2");
    UnloggedHasNoPrior(one.log, "w", "k2", true);
    Reingest.PlainAppend(cfg, one, in_, SECOND, Attach("e", MatchVector));
    var x := ExternalId("s", "x");
    assert [x][..0] == [];
    assert ExtRow("e", x, x.Key(), "b") in InsertKeys({}, "e", "b", [x]);
  }

  function VecOp(v: Vector): Op {
    FirstOp(Doc(JObj(map[])), Vec(v))
  }

  lemma VecRuns(cfg: Config, v: Vector)
    ensures var one := Run(cfg, [VecOp(v)]);
      && IsRun(cfg, [VecOp(v)]) && one.t.entities.Keys == {"e"} && one.t.entities["e"].typ == "Note"
      && one.t.entities["e"].space == "a" && one.t.ext == {} && one.t.emb == map[EmbKey("e", "m", "body") := v]
      && |one.log| == 1 && one.log[0].dedupeKey == "k" && one.log[0].subject == "e"
  {
    FirstRuns(cfg, Doc(JObj(map[])), Vec(v));
    ForcedFirst(cfg, Doc(JObj(map[])), Vec(v));
    assert Vec(v)[..0] == [];
  }

  /** A second writer's near-identical note in space b attaches to the one in space a, and its key
      is filed under b on an entity of a. */
  lemma VectorCanStray(cfg: Config, v: Vector)
    requires cfg.sim(v, v) >= cfg.th.autoMerge
    ensures var ops := [VecOp(v), AppendEntityOp(StrayInput(v), SECOND)];
      IsRun(cfg, ops) && !SpacesAgree(Run(cfg, ops).t)
  {
    VecRuns(cfg, v);
    TwoRun(cfg, VecOp(v), AppendEntityOp(StrayInput(v), SECOND));
    StrayDecision(cfg, Run(cfg, [VecOp(v)]).t, v, SECOND);
    StrayGoesIn(cfg, Run(cfg, [VecOp(v)]), v);
  }
}
