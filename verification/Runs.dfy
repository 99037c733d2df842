/** What holds over whole runs of the store: replays are no-ops, removed ids stay removed, the
    log only grows, and when a rebuild gives back exactly the live projection. */
module Runs {
  import opened Json
  import opened Domain
  import opened Resolve
  import opened Tables
  import opened Store
  import opened Invariants
  import opened Acceptance

  // ---- the log only grows ----

  lemma StepExtends(cfg: Config, db: Db, op: Op)
    requires Recorded(db) && Minted(db, op)
    ensures db.log <= Step(cfg, db, op).log
  {
    if !op.RebuildOp? {
      var ems, ts := StepPlaysScript(cfg, db, op);
      if Step(cfg, db, op) != db {
        EmitAllExtends(db, ems, ts);
      }
    }
  }

  /** more continues the run ops. */
  lemma {:induction false} RunPrefix(cfg: Config, ops: seq<Op>, more: seq<Op>)
    requires IsRun(cfg, ops + more)
    ensures IsRun(cfg, ops)
    decreases |more|
  {
    if more == [] {
      assert ops + more == ops;
    } else {
      assert (ops + more)[..|ops + more| - 1] == ops + more[..|more| - 1];
      RunPrefix(cfg, ops, more[..|more| - 1]);
    }
  }

  lemma RunSnoc(cfg: Config, ops: seq<Op>, op: Op)
    ensures Run(cfg, ops + [op]) == Step(cfg, Run(cfg, ops), op)
    ensures IsRun(cfg, ops + [op]) <==> IsRun(cfg, ops) && Minted(Run(cfg, ops), op)
  {
    assert (ops + [op])[..|ops|] == ops;
  }

  lemma {:induction false} LogGrows(cfg: Config, ops: seq<Op>, more: seq<Op>)
    requires IsRun(cfg, ops + more)
    ensures Run(cfg, ops).log <= Run(cfg, ops + more).log
    decreases |more|
  {
    if more == [] {
      assert ops + more == ops;
    } else {
      var front, last := more[..|more| - 1], more[|more| - 1];
      assert ops + more == (ops + front) + [last];
      RunSnoc(cfg, ops + front, last);
      LogGrows(cfg, ops, front);
      RunKeepsInv(cfg, ops + front);
      StepExtends(cfg, Run(cfg, ops + front), last);
    }
  }

  // ---- idempotent replay ----

  /** The (writer, dedupe key) an op writes its main fact under. */
  function OpKey(cfg: Config, op: Op): (WriterId, string)
    requires !op.RebuildOp?
  {
    match op
    case AppendEntityOp(in_, tick) => (in_.writer, EntityKey(cfg, in_, tick))
    case AppendEdgeOp(in_, _) => (in_.writer, EdgeKey(in_))
    case MergeOp(keep, drop, actor, key, _) => (actor, if key == "" then keep + "|merge|" + drop else key)
    case RetractEntityOp(id, actor, key, _) => (actor, if key == "" then id + "|retract" else key)
    case RetractEdgeOp(id, actor, key, _) => (actor, if key == "" then id + "|retract" else key)
  }

  lemma LoggedBlocksOne(db: Db, em: Emission, ts: Time)
    requires Logged(db.log, em.writer, em.dedupeKey)
    ensures Emit(db, em, ts).Err?
  {
  }

  lemma {:induction false} LoggedBlocks(db: Db, ems: seq<Emission>, i: nat, ts: Time)
    requires i < |ems| && Logged(db.log, ems[i].writer, ems[i].dedupeKey)
    ensures EmitAll(db, ems, ts).Err?
  {
    var front, last := ems[..|ems| - 1], ems[|ems| - 1];
    assert ems == front + [last];
    EmitAllSnoc(db, front, last, ts);
    if i < |front| {
      LoggedBlocks(db, front, i, ts);
    } else if EmitAll(db, front, ts).Ok? {
      EmitAllExtends(db, front, ts);
      var mid := EmitAll(db, front, ts).value;
      LoggedMono(db.log, mid.log, last.writer, last.dedupeKey);
      LoggedBlocksOne(mid, last, ts);
    }
  }

  lemma LoggedMono(log: seq<Fact>, longer: seq<Fact>, writer: WriterId, key: string)
    requires log <= longer && Logged(log, writer, key)
    ensures Logged(longer, writer, key)
  {
    var f :| f in log && f.writer == writer && f.dedupeKey == key;
    assert f in longer;
  }

  /** Writing again under a logged (writer, key) changes neither log nor projection. */
  lemma RepeatIsNoOp(cfg: Config, db: Db, op: Op)
    requires !op.RebuildOp? && Logged(db.log, OpKey(cfg, op).0, OpKey(cfg, op).1)
    ensures Step(cfg, db, op) == db && !Perform(cfg, db, op).1.Accepted?
  {
    match op
    case AppendEntityOp(in_, tick) =>
      var c, key := Stamped(in_, tick), EntityKey(cfg, in_, tick);
      var d := EntityDecision(cfg, db.t, c, EffectivePolicy(in_.policy));
      if d.Ok? {
        var i := ScriptHasKey(in_, c, d.value, key, tick);
        LoggedBlocks(db, EntityScript(in_, c, d.value, key, tick), i, tick.now);
      }
    case _ =>
  }

  lemma ScriptIsLogged(db: Db, in_: EntityInput, c: Entity, d: Decision, key: string, tick: Tick)
    requires EmitAll(db, EntityScript(in_, c, d, key, tick), tick.now).Ok?
    ensures Logged(EmitAll(db, EntityScript(in_, c, d, key, tick), tick.now).value.log, in_.writer, key)
  {
    var ems := EntityScript(in_, c, d, key, tick);
    var i := ScriptHasKey(in_, c, d, key, tick);
    EmitAllExtends(db, ems, tick.now);
    var log' := EmitAll(db, ems, tick.now).value.log;
    assert log'[|db.log| + i] == FactOf(ems[i], tick.now);
    assert log'[|db.log| + i] in log';
  }

  lemma AcceptedIsLogged(cfg: Config, db: Db, op: Op)
    requires !op.RebuildOp? && Perform(cfg, db, op).1.Accepted?
    ensures Logged(Step(cfg, db, op).log, OpKey(cfg, op).0, OpKey(cfg, op).1)
  {
    if op.AppendEntityOp? {
      var in_, tick := op.entity, op.tick;
      var d := EntityDecision(cfg, db.t, Stamped(in_, tick), EffectivePolicy(in_.policy)).value;
      ScriptIsLogged(db, in_, Stamped(in_, tick), d, EntityKey(cfg, in_, tick), tick);
    } else {
      var log' := Step(cfg, db, op).log;
      assert log'[|db.log|] in log';
    }
  }

  /** Over every run: once a write is accepted, any later write by the same writer under the
      same key, of whatever kind, is a no-op. */
  lemma ReplayChangesNothing(cfg: Config, ops: seq<Op>, op: Op, more: seq<Op>, again: Op)
    requires IsRun(cfg, ops + [op] + more) && !op.RebuildOp? && !again.RebuildOp?
    requires Perform(cfg, Run(cfg, ops), op).1.Accepted? && OpKey(cfg, again) == OpKey(cfg, op)
    ensures Step(cfg, Run(cfg, ops + [op] + more), again) == Run(cfg, ops + [op] + more)
  {
    var before, now := Run(cfg, ops + [op]), Run(cfg, ops + [op] + more);
    RunSnoc(cfg, ops, op);
    AcceptedIsLogged(cfg, Run(cfg, ops), op);
    LogGrows(cfg, ops + [op], more);
    LoggedMono(before.log, now.log, OpKey(cfg, op).0, OpKey(cfg, op).1);
    RepeatIsNoOp(cfg, now, again);
  }

  // ---- removed ids stay removed ----

  predicate Gone(db: Db, id: EntityId) {
    AssertedBefore(db.log, id) && id !in db.t.entities
  }

  lemma EmitKeepsGone(db: Db, em: Emission, ts: Time, id: EntityId)
    requires Admissible(db, em) && Emit(db, em, ts).Ok? && Gone(db, id)
    ensures Gone(Emit(db, em, ts).value, id)
  {
    var f :| f in db.log && f.subject == id && f.payload.EntityAsserted?;
    assert f in Emit(db, em, ts).value.log;
  }

  lemma {:induction false} EmitAllKeepsGone(db: Db, ems: seq<Emission>, ts: Time, id: EntityId)
    requires AdmissibleAll(db, ems, ts) && EmitAll(db, ems, ts).Ok? && Gone(db, id)
    ensures Gone(EmitAll(db, ems, ts).value, id)
  {
    if ems != [] {
      EmitAllKeepsGone(db, ems[..|ems| - 1], ts, id);
      EmitKeepsGone(EmitAll(db, ems[..|ems| - 1], ts).value, ems[|ems| - 1], ts, id);
    }
  }

  lemma StepKeepsGone(cfg: Config, db: Db, op: Op, id: EntityId)
    requires Inv(db) && Minted(db, op) && Gone(db, id)
    ensures Gone(Step(cfg, db, op), id)
  {
    if !op.RebuildOp? {
      var ems, ts := StepPlaysScript(cfg, db, op);
      if Step(cfg, db, op) != db {
        EmitAllKeepsGone(db, ems, ts, id);
      }
    }
  }

  lemma {:induction false} RunKeepsGone(cfg: Config, ops: seq<Op>, more: seq<Op>, id: EntityId)
    requires IsRun(cfg, ops + more) && Gone(Run(cfg, ops), id)
    ensures Gone(Run(cfg, ops + more), id)
    decreases |more|
  {
    if more == [] {
      assert ops + more == ops;
    } else {
      var front, last := more[..|more| - 1], more[|more| - 1];
      assert ops + more == (ops + front) + [last];
      RunSnoc(cfg, ops + front, last);
      RunKeepsGone(cfg, ops, front, id);
      RunKeepsInv(cfg, ops + front);
      StepKeepsGone(cfg, Run(cfg, ops + front), last, id);
    }
  }

  /** Over every run: an entity merged away or retracted never comes back. */
  lemma GoneStaysGone(cfg: Config, ops: seq<Op>, removing: seq<Op>, more: seq<Op>, id: EntityId)
    requires IsRun(cfg, ops + removing + more)
    requires id in Run(cfg, ops).t.entities && id !in Run(cfg, ops + removing).t.entities
    ensures id !in Run(cfg, ops + removing + more).t.entities
  {
    RunPrefix(cfg, ops + removing, more);
    RunPrefix(cfg, ops, removing);
    RunKeepsInv(cfg, ops);
    LogGrows(cfg, ops, removing);
    var f :| f in Run(cfg, ops).log && f.subject == id && f.payload.EntityAsserted?;
    assert f in Run(cfg, ops + removing).log;
    RunKeepsGone(cfg, ops + removing, more, id);
  }

  predicate EdgeGone(db: Db, id: EdgeId) {
    EdgeAssertedBefore(db.log, id) && id !in db.t.edges
  }

  lemma EmitKeepsEdgeGone(db: Db, em: Emission, ts: Time, id: EdgeId)
    requires Admissible(db, em) && Emit(db, em, ts).Ok? && EdgeGone(db, id)
    ensures EdgeGone(Emit(db, em, ts).value, id)
  {
    var f :| f in db.log && f.subject == id && f.payload.EdgeAsserted?;
    assert f in Emit(db, em, ts).value.log;
  }

  lemma {:induction false} EmitAllKeepsEdgeGone(db: Db, ems: seq<Emission>, ts: Time, id: EdgeId)
    requires AdmissibleAll(db, ems, ts) && EmitAll(db, ems, ts).Ok? && EdgeGone(db, id)
    ensures EdgeGone(EmitAll(db, ems, ts).value, id)
  {
    if ems != [] {
      EmitAllKeepsEdgeGone(db, ems[..|ems| - 1], ts, id);
      EmitKeepsEdgeGone(EmitAll(db, ems[..|ems| - 1], ts).value, ems[|ems| - 1], ts, id);
    }
  }

  lemma StepKeepsEdgeGone(cfg: Config, db: Db, op: Op, id: EdgeId)
    requires Inv(db) && Minted(db, op) && EdgeGone(db, id)
    ensures EdgeGone(Step(cfg, db, op), id)
  {
    if !op.RebuildOp? {
      var ems, ts := StepPlaysScript(cfg, db, op);
      if Step(cfg, db, op) != db {
        EmitAllKeepsEdgeGone(db, ems, ts, id);
      }
    }
  }

  lemma {:induction false} RunKeepsEdgeGone(cfg: Config, ops: seq<Op>, more: seq<Op>, id: EdgeId)
    requires IsRun(cfg, ops + more) && EdgeGone(Run(cfg, ops), id)
    ensures EdgeGone(Run(cfg, ops + more), id)
    decreases |more|
  {
    if more == [] {
      assert ops + more == ops;
    } else {
      var front, last := more[..|more| - 1], more[|more| - 1];
      assert ops + more == (ops + front) + [last];
      RunSnoc(cfg, ops + front, last);
      RunKeepsEdgeGone(cfg, ops, front, id);
      RunKeepsInv(cfg, ops + front);
      StepKeepsEdgeGone(cfg, Run(cfg, ops + front), last, id);
    }
  }

  /** Over every run: an edge that was there and is gone, retracted or taken along by an entity, never
      comes back, by a write or by a rebuild. */
  lemma EdgeStaysGone(cfg: Config, ops: seq<Op>, removing: seq<Op>, more: seq<Op>, id: EdgeId)
    requires IsRun(cfg, ops + removing + more)
    requires id in Run(cfg, ops).t.edges && id !in Run(cfg, ops + removing).t.edges
    ensures id !in Run(cfg, ops + removing + more).t.edges
  {
    RunPrefix(cfg, ops + removing, more);
    RunPrefix(cfg, ops, removing);
    RunKeepsInv(cfg, ops);
    LogGrows(cfg, ops, removing);
    var f :| f in Run(cfg, ops).log && f.subject == id && f.payload.EdgeAsserted?;
    assert f in Run(cfg, ops + removing).log;
    RunKeepsEdgeGone(cfg, ops + removing, more, id);
  }

  /** So wherever in a run an edge is retracted, it is gone for good. */
  lemma RetractedForGood(
    cfg: Config, ops: seq<Op>, id: EdgeId, actor: PrincipalId, key: string, now: Time, more: seq<Op>)
    requires var op := RetractEdgeOp(id, actor, key, now);
      IsRun(cfg, ops + [op] + more) && Perform(cfg, Run(cfg, ops), op).1.Accepted?
    requires id in Run(cfg, ops).t.edges
    ensures id !in Run(cfg, ops + [RetractEdgeOp(id, actor, key, now)] + more).t.edges
  {
    var op := RetractEdgeOp(id, actor, key, now);
    RunSnoc(cfg, ops, op);
    EdgeStaysGone(cfg, ops, [op], more, id);
  }

  // ---- when a rebuild is exact ----

  /** A rebuild now would leave entities, external ids, embeddings and edges as they are. */
  ghost predicate RebuildExact(db: Db) {
    Fold(db.log).Ok? && Matches(db.t, Fold(db.log).value)
  }

  /** The write logs all it will do: it is no append that can go through, or carries props, or
      resolves to an entity whose stored props hold no null. */
  predicate FaithfulOp(cfg: Config, db: Db, op: Op) {
    op.AppendEntityOp? && op.entity.candidate.props.Absent? && Acceptable(cfg, db, op.entity, op.tick) ==>
      var d := EntityDecision(cfg, db.t, Stamped(op.entity, op.tick), EffectivePolicy(op.entity.policy));
      d.Ok? &&
      var id := DecisionTarget(d.value, op.tick);
      id in db.t.entities && NullFree(db.t.entities[id].props)
  }

  lemma FoldSnoc(log: seq<Fact>, f: Fact)
    requires Fold(log).Ok?
    ensures Fold(log + [f]) == FoldFact(Fold(log).value, f)
  {
    assert (log + [f])[..|log|] == log;
  }

  lemma EmitExactIff(db: Db, em: Emission, ts: Time)
    requires Inv(db) && RebuildExact(db) && Admissible(db, em) && Emit(db, em, ts).Ok?
    ensures RebuildExact(Emit(db, em, ts).value) <==> Faithful(db.t, em.payload)
  {
    FoldSnoc(db.log, FactOf(em, ts));
    ApplyMatchesIff(db, Fold(db.log).value, em, ts);
  }

  lemma EdgeKeepsEntities(t: Tables, subject: string, p: Payload, ts: Time)
    requires p.EdgeAsserted? && ApplyLive(t, subject, p, ts).Ok?
    ensures ApplyLive(t, subject, p, ts).value.entities == t.entities
  {
  }

  lemma FoldedEdgeKeepsEntities(t: Tables, f: Fact)
    requires f.payload.EdgeAsserted? && FoldFact(t, f).Ok?
    ensures FoldFact(t, f).value.entities == t.entities
  {
  }

  /** An edge assertion does not mend a difference in entities. */
  lemma EdgeMendsNothing(db: Db, em: Emission, ts: Time)
    requires Tracks(db) && !RebuildExact(db) && em.payload.EdgeAsserted? && Emit(db, em, ts).Ok?
    ensures !RebuildExact(Emit(db, em, ts).value)
  {
    var b := Fold(db.log).value;
    assert db.t.entities != b.entities;
    FoldSnoc(db.log, FactOf(em, ts));
    EdgeKeepsEntities(db.t, em.subject, em.payload, ts);
    if FoldFact(b, FactOf(em, ts)).Ok? {
      FoldedEdgeKeepsEntities(b, FactOf(em, ts));
    }
  }

  lemma NextMergeExact(db: Db, ems: seq<Emission>, em: Emission, ts: Time)
    requires em.payload.EntityMerged? && AdmissibleAll(db, ems + [em], ts) && EmitAll(db, ems + [em], ts).Ok?
    requires EmitAll(db, ems, ts).Ok? && Inv(EmitAll(db, ems, ts).value) && RebuildExact(EmitAll(db, ems, ts).value)
    ensures Inv(EmitAll(db, ems + [em], ts).value) && RebuildExact(EmitAll(db, ems + [em], ts).value)
  {
    EmitAllSnoc(db, ems, em, ts);
    EmitExactIff(EmitAll(db, ems, ts).value, em, ts);
    EmitKeepsInv(EmitAll(db, ems, ts).value, em, ts);
  }

  lemma {:induction false} MergesExact(
    db: Db, keep: EntityId, drops: seq<EntityId>, writer: WriterId, key: string, actor: PrincipalId, ts: Time)
    requires Inv(db) && RebuildExact(db)
    requires AdmissibleAll(db, MergeEmissions(keep, drops, writer, key, actor), ts)
    requires EmitAll(db, MergeEmissions(keep, drops, writer, key, actor), ts).Ok?
    ensures Inv(EmitAll(db, MergeEmissions(keep, drops, writer, key, actor), ts).value)
    ensures RebuildExact(EmitAll(db, MergeEmissions(keep, drops, writer, key, actor), ts).value)
  {
    if drops != [] {
      var front, last := drops[..|drops| - 1], drops[|drops| - 1];
      assert drops == front + [last];
      var before := MergeEmissions(keep, front, writer, key, actor);
      var em := Emission(last, EntityMerged(keep, last), writer, MergeKey(key, last), actor);
      MergeEmissionsSnoc(keep, front, last, writer, key, actor);
      EmitAllSnoc(db, before, em, ts);
      MergesExact(db, keep, front, writer, key, actor, ts);
      NextMergeExact(db, before, em, ts);
    }
  }

  lemma MergeScriptExactIff(
    db: Db, keep: EntityId, drops: seq<EntityId>, main: Emission, writer: WriterId, key: string, actor: PrincipalId,
    ts: Time)
    requires Inv(db) && RebuildExact(db) && keep in db.t.entities && keep !in drops
    requires main.payload.EntityAsserted? && main.payload.entity.id == keep
    requires AdmissibleAll(db, MergeEmissions(keep, drops, writer, key, actor) + [main], ts)
    requires EmitAll(db, MergeEmissions(keep, drops, writer, key, actor) + [main], ts).Ok?
    ensures RebuildExact(EmitAll(db, MergeEmissions(keep, drops, writer, key, actor) + [main], ts).value)
            <==> Faithful(db.t, main.payload)
  {
    var merges := MergeEmissions(keep, drops, writer, key, actor);
    EmitAllSnoc(db, merges, main, ts);
    MergesShrink(db, keep, drops, writer, key, actor, ts);
    MergesExact(db, keep, drops, writer, key, actor, ts);
    EmitExactIff(EmitAll(db, merges, ts).value, main, ts);
  }

  lemma FlaggedScriptExactIff(db: Db, main: Emission, edge: Emission, ts: Time)
    requires Inv(db) && RebuildExact(db) && edge.payload.EdgeAsserted?
    requires AdmissibleAll(db, [main] + [edge], ts) && EmitAll(db, [main] + [edge], ts).Ok?
    ensures RebuildExact(EmitAll(db, [main] + [edge], ts).value) <==> Faithful(db.t, main.payload)
  {
    EmitAllSnoc(db, [main], edge, ts);
    OneEmission(db, main, ts);
    EmitKeepsInv(db, main, ts);
    EmitExactIff(db, main, ts);
    var mid := Emit(db, main, ts).value;
    if RebuildExact(mid) {
      EmitExactIff(mid, edge, ts);
    } else {
      EdgeMendsNothing(mid, edge, ts);
    }
  }

  lemma OneScriptExactIff(db: Db, main: Emission, ts: Time)
    requires Inv(db) && RebuildExact(db) && AdmissibleAll(db, [main], ts) && EmitAll(db, [main], ts).Ok?
    ensures RebuildExact(EmitAll(db, [main], ts).value) <==> Faithful(db.t, main.payload)
  {
    OneEmission(db, main, ts);
    EmitExactIff(db, main, ts);
  }

  lemma MergingScriptExactIff(db: Db, in_: EntityInput, c: Entity, d: Decision, key: string, tick: Tick)
    requires Inv(db) && RebuildExact(db) && Sound(db.t, d) && d.Merge?
    requires AdmissibleAll(db, EntityScript(in_, c, d, key, tick), tick.now)
    requires EmitAll(db, EntityScript(in_, c, d, key, tick), tick.now).Ok?
    ensures RebuildExact(EmitAll(db, EntityScript(in_, c, d, key, tick), tick.now).value)
            <==> Faithful(db.t, AssertEmission(in_, c, d.targets[0], key).payload)
  {
    var id := d.targets[0];
    assert d.targets == [id] + d.targets[1..];
    MergeScriptExactIff(db, id, d.targets[1..], AssertEmission(in_, c, id, key), in_.writer, key, in_.actor, tick.now);
  }

  lemma ScriptExactIff(db: Db, in_: EntityInput, c: Entity, d: Decision, key: string, tick: Tick)
    requires Inv(db) && RebuildExact(db) && Sound(db.t, d)
    requires AdmissibleAll(db, EntityScript(in_, c, d, key, tick), tick.now)
    requires EmitAll(db, EntityScript(in_, c, d, key, tick), tick.now).Ok?
    ensures RebuildExact(EmitAll(db, EntityScript(in_, c, d, key, tick), tick.now).value)
            <==> Faithful(db.t, AssertEmission(in_, c, DecisionTarget(d, tick), key).payload)
  {
    var ems := EntityScript(in_, c, d, key, tick);
    if d.Merge? {
      MergingScriptExactIff(db, in_, c, d, key, tick);
    } else {
      var main := AssertEmission(in_, c, DecisionTarget(d, tick), key);
      if |ems| == 2 {
        assert ems == [main] + [ems[1]];
        FlaggedScriptExactIff(db, main, ems[1], tick.now);
      } else {
        assert ems == [main];
        OneScriptExactIff(db, main, tick.now);
      }
    }
  }

  lemma AppendExactIff(cfg: Config, db: Db, in_: EntityInput, tick: Tick)
    requires Inv(db) && RebuildExact(db) && Minted(db, AppendEntityOp(in_, tick))
    requires AppendEntity(cfg, db, in_, tick).1.Accepted?
    ensures RebuildExact(AppendEntity(cfg, db, in_, tick).0) <==> FaithfulOp(cfg, db, AppendEntityOp(in_, tick))
  {
    var c, key := Stamped(in_, tick), EntityKey(cfg, in_, tick);
    AcceptedIff(cfg, db, in_, tick);
    DecisionSound(cfg, db.t, c, EffectivePolicy(in_.policy));
    var d := EntityDecision(cfg, db.t, c, EffectivePolicy(in_.policy)).value;
    EntityScriptAdmissible(db, in_, c, d, key, tick);
    ScriptExactIff(db, in_, c, d, key, tick);
  }

  lemma StepExactIff(cfg: Config, db: Db, op: Op)
    requires Inv(db) && RebuildExact(db) && Minted(db, op)
    ensures RebuildExact(Step(cfg, db, op)) <==> FaithfulOp(cfg, db, op)
  {
    match op
    case AppendEntityOp(in_, tick) =>
      AcceptedIff(cfg, db, in_, tick);
      if AppendEntity(cfg, db, in_, tick).1.Accepted? {
        AppendExactIff(cfg, db, in_, tick);
      }
    case RebuildOp =>
    case _ =>
      var ems, ts := StepPlaysScript(cfg, db, op);
      if Step(cfg, db, op) != db {
        assert ems == [ems[0]];
        OneEmission(db, ems[0], ts);
        EmitExactIff(db, ems[0], ts);
      }
  }

  /** A rebuild would be exact after every step of the run. */
  ghost predicate ExactThroughout(cfg: Config, ops: seq<Op>) {
    RebuildExact(Run(cfg, ops)) && (ops == [] || ExactThroughout(cfg, ops[..|ops| - 1]))
  }

  ghost predicate FaithfulRun(cfg: Config, ops: seq<Op>) {
    ops == [] || (FaithfulRun(cfg, ops[..|ops| - 1]) && FaithfulOp(cfg, Run(cfg, ops[..|ops| - 1]), ops[|ops| - 1]))
  }

  /** Over every run: rebuilding gives back exactly the live entities, external ids, embeddings
      and edges after every step, precisely when every step was faithful. */
  lemma {:induction false} RebuildExactThroughoutIff(cfg: Config, ops: seq<Op>)
    requires IsRun(cfg, ops)
    ensures ExactThroughout(cfg, ops) <==> FaithfulRun(cfg, ops)
  {
    if ops != [] {
      var front, last := ops[..|ops| - 1], ops[|ops| - 1];
      RebuildExactThroughoutIff(cfg, front);
      if ExactThroughout(cfg, front) {
        RunKeepsInv(cfg, front);
        StepExactIff(cfg, Run(cfg, front), last);
      }
    }
  }

  predicate AllCarryProps(ops: seq<Op>) {
    forall i | 0 <= i < |ops| && ops[i].AppendEntityOp? :: !ops[i].entity.candidate.props.Absent?
  }

  lemma {:induction false} PropsMakeFaithful(cfg: Config, ops: seq<Op>)
    requires AllCarryProps(ops)
    ensures FaithfulRun(cfg, ops)
  {
    if ops != [] {
      PropsMakeFaithful(cfg, ops[..|ops| - 1]);
    }
  }

  /** The promised case: in a run whose appends all carry props, a rebuild changes nothing. */
  lemma RebuildExactWithProps(cfg: Config, ops: seq<Op>)
    requires IsRun(cfg, ops) && AllCarryProps(ops)
    ensures RebuildExact(Run(cfg, ops))
  {
    PropsMakeFaithful(cfg, ops);
    RebuildExactThroughoutIff(cfg, ops);
  }
}
