/** External keys and spaces: what an append leaves the entity carrying, when the next write
    finds it again, and when one space's rows stay in that space. */
module Spaces {
  import Json
  import opened Domain
  import opened Order
  import opened Resolve
  import opened Tables
  import opened Store
  import opened Invariants
  import opened Acceptance
  import opened Merging

  // ---- the shape of an accepted append ----

  /** The tables the candidate is asserted onto: merged first, when the decision says so. */
  ghost predicate Prepared(t: Tables, d: Decision, base: Tables) {
    Constraints(base) &&
    if d.Merge? then d.targets != [] && Absorbed(t, base, d.targets[0], d.targets[1..]) else base == t
  }

  /** after is base with the candidate asserted, and perhaps one flagging edge. */
  ghost predicate AssertedOnto(base: Tables, c: Entity, ts: Time, after: Tables, edgeId: EdgeId) {
    && UpsertEntity(base, c, ts).Ok?
    && var t := UpsertEntity(base, c, ts).value;
    && after.entities == t.entities && after.ext == t.ext && after.emb == t.emb
    && after.edges - {edgeId} == base.edges - {edgeId} && base.edges.Keys <= after.edges.Keys
  }

  lemma MergeScriptShape(
    db: Db, keep: EntityId, drops: seq<EntityId>, main: Emission, writer: WriterId, key: string, actor: PrincipalId,
    ts: Time, edgeId: EdgeId)
    returns (base: Tables)
    requires Constraints(db.t) && keep in db.t.entities && keep !in drops && Distinct(drops)
    requires forall d | d in drops :: d in db.t.entities
    requires main.payload.EntityAsserted?
    requires EmitAll(db, MergeEmissions(keep, drops, writer, key, actor) + [main], ts).Ok?
    ensures Constraints(base) && Absorbed(db.t, base, keep, drops)
    ensures AssertedOnto(base, main.payload.entity, ts,
                         EmitAll(db, MergeEmissions(keep, drops, writer, key, actor) + [main], ts).value.t, edgeId)
  {
    var merges := MergeEmissions(keep, drops, writer, key, actor);
    EmitAllSnoc(db, merges, main, ts);
    MergeListAbsorbs(db, keep, drops, writer, key, actor, ts);
    var mid := EmitAll(db, merges, ts).value;
    base := mid.t;
    AssertShape(mid, main, ts, edgeId);
  }

  lemma AssertShape(db: Db, main: Emission, ts: Time, edgeId: EdgeId)
    requires main.payload.EntityAsserted? && Emit(db, main, ts).Ok?
    ensures AssertedOnto(db.t, main.payload.entity, ts, Emit(db, main, ts).value.t, edgeId)
  {
  }

  lemma FlagShape(base: Tables, c: Entity, ts: Time, db: Db, edge: Emission, edgeId: EdgeId)
    requires edge.payload.EdgeAsserted? && edge.payload.edge.id == edgeId && edgeId !in base.edges
    requires Emit(db, edge, ts).Ok? && AssertedOnto(base, c, ts, db.t, edgeId)
    ensures AssertedOnto(base, c, ts, Emit(db, edge, ts).value.t, edgeId)
  {
  }

  lemma PlainScriptShape(db: Db, in_: EntityInput, c: Entity, d: Decision, key: string, tick: Tick)
    requires Recorded(db) && FreshId(db.log, tick.edgeId) && !d.Merge?
    requires EmitAll(db, EntityScript(in_, c, d, key, tick), tick.now).Ok?
    ensures AssertedOnto(db.t, c.(id := DecisionTarget(d, tick)), tick.now,
                         EmitAll(db, EntityScript(in_, c, d, key, tick), tick.now).value.t, tick.edgeId)
  {
    var ems := EntityScript(in_, c, d, key, tick);
    var main := AssertEmission(in_, c, DecisionTarget(d, tick), key);
    OneEmission(db, main, tick.now);
    if |ems| == 2 {
      assert ems == [main] + [ems[1]];
      EmitAllSnoc(db, [main], ems[1], tick.now);
      assert tick.edgeId !in db.t.edges;
      AssertShape(db, main, tick.now, tick.edgeId);
      FlagShape(db.t, main.payload.entity, tick.now, Emit(db, main, tick.now).value, ems[1], tick.edgeId);
    } else {
      assert ems == [main];
      AssertShape(db, main, tick.now, tick.edgeId);
    }
  }

  lemma ScriptShape(db: Db, in_: EntityInput, c: Entity, d: Decision, key: string, tick: Tick) returns (base: Tables)
    requires Inv(db) && Sound(db.t, d) && FreshId(db.log, tick.edgeId)
    requires EmitAll(db, EntityScript(in_, c, d, key, tick), tick.now).Ok?
    ensures Prepared(db.t, d, base)
    ensures AssertedOnto(base, c.(id := DecisionTarget(d, tick)), tick.now,
                         EmitAll(db, EntityScript(in_, c, d, key, tick), tick.now).value.t, tick.edgeId)
  {
    if d.Merge? {
      var id := d.targets[0];
      var main := AssertEmission(in_, c, id, key);
      assert d.targets == [id] + d.targets[1..];
      base := MergeScriptShape(db, id, d.targets[1..], main, in_.writer, key, in_.actor, tick.now, tick.edgeId);
    } else {
      base := db.t;
      PlainScriptShape(db, in_, c, d, key, tick);
    }
  }

  lemma AppendShape(cfg: Config, db: Db, in_: EntityInput, tick: Tick) returns (d: Decision, base: Tables)
    requires Inv(db) && Minted(db, AppendEntityOp(in_, tick)) && AppendEntity(cfg, db, in_, tick).1.Accepted?
    ensures EntityDecision(cfg, db.t, Stamped(in_, tick), EffectivePolicy(in_.policy)) == Ok(d) && Sound(db.t, d)
    ensures AppendEntity(cfg, db, in_, tick).1.subject == DecisionTarget(d, tick)
    ensures tick.entityId !in db.t.entities && tick.edgeId !in db.t.edges && Prepared(db.t, d, base)
    ensures AssertedOnto(base, Stamped(in_, tick).(id := DecisionTarget(d, tick)), tick.now,
                         AppendEntity(cfg, db, in_, tick).0.t, tick.edgeId)
  {
    var c := Stamped(in_, tick);
    DecisionSound(cfg, db.t, c, EffectivePolicy(in_.policy));
    d := EntityDecision(cfg, db.t, c, EffectivePolicy(in_.policy)).value;
    base := ScriptShape(db, in_, c, d, EntityKey(cfg, in_, tick), tick);
  }

  lemma AppendedFacts(cfg: Config, db: Db, in_: EntityInput, tick: Tick, d: Decision) returns (added: seq<Fact>)
    requires AppendEntity(cfg, db, in_, tick).1.Accepted?
    requires EntityDecision(cfg, db.t, Stamped(in_, tick), EffectivePolicy(in_.policy)) == Ok(d)
    ensures AppendEntity(cfg, db, in_, tick).0.log == db.log + added
    ensures added == FactsOf(EntityScript(in_, Stamped(in_, tick), d, EntityKey(cfg, in_, tick), tick), tick.now)
  {
    var ems := EntityScript(in_, Stamped(in_, tick), d, EntityKey(cfg, in_, tick), tick);
    EmitAllExtends(db, ems, tick.now);
    added := FactsOf(ems, tick.now);
  }

  // ---- every key the candidate brought ----

  ghost predicate CarriesAll(ext: set<ExtRow>, id: EntityId, xs: seq<ExternalId>) {
    forall i | 0 <= i < |xs| :: Carries(ext, id, xs[i].Key())
  }

  ghost predicate NoneTaken(ext: set<ExtRow>, space: SpaceId, xs: seq<ExternalId>) {
    forall i | 0 <= i < |xs| :: !Taken(ext, space, xs[i].Key())
  }

  /** Whoever holds one of the keys in the space is id. */
  ghost predicate HeldOnlyBy(ext: set<ExtRow>, space: SpaceId, keys: seq<string>, id: EntityId) {
    forall r | r in ext && r.space == space && r.key in keys :: r.entity == id
  }

  lemma KeyIn(xs: seq<ExternalId>, i: nat)
    requires i < |xs|
    ensures xs[i].Key() in Keys(xs)
  {
    assert Keys(xs)[i] == xs[i].Key();
  }

  lemma InsertedKeysCarried(ext: set<ExtRow>, id: EntityId, space: SpaceId, xs: seq<ExternalId>)
    requires ExtKeys(ext) && HeldOnlyBy(ext, space, Keys(xs), id)
    ensures CarriesAll(InsertKeys(ext, id, space, xs), id, xs)
  {
    InsertKeysGrows(ext, id, space, xs);
    forall i | 0 <= i < |xs| ensures Carries(InsertKeys(ext, id, space, xs), id, xs[i].Key()) {
      KeyIn(xs, i);
    }
  }

  lemma NewEntityKeysIff(ext: set<ExtRow>, id: EntityId, space: SpaceId, xs: seq<ExternalId>)
    requires ExtKeys(ext) && forall r | r in ext :: r.entity != id
    ensures CarriesAll(InsertKeys(ext, id, space, xs), id, xs) <==> NoneTaken(ext, space, xs)
  {
    InsertKeysGrows(ext, id, space, xs);
  }

  /** Every holder of one of the keys in the space is named by the decision. */
  ghost predicate HitsNamed(hits: set<EntityId>, d: Decision) {
    if d.Merge? then forall id | id in hits :: id in d.targets
    else if d.Attach? then forall id | id in hits :: id == d.target
    else hits == {}
  }

  lemma DecisionNamesHits(cfg: Config, t: Tables, c: Entity, policy: Policy, d: Decision)
    requires EntityDecision(cfg, t, c, policy) == Ok(d) && !policy.ForceNew?
    ensures HitsNamed(HitSet(t, c.space, Keys(c.externalIds)), d)
  {
    var hits := ExternalHits(t, c.space, Keys(c.externalIds));
    ExternalHitsExact(t, c.space, Keys(c.externalIds));
    DecisionOnHits(hits, DecisionNeighbors(cfg, t, c, policy), policy, cfg.th, d);
  }

  lemma HolderIsHit(t: Tables, r: ExtRow, space: SpaceId, keys: seq<string>)
    requires ForeignKeys(t) && r in t.ext && r.space == space && r.key in keys
    ensures r.entity in HitSet(t, space, keys)
  {
  }

  /** Once the decision is prepared, nobody but its target holds a candidate key in the space. */
  lemma TargetHoldsHits(t: Tables, space: SpaceId, keys: seq<string>, d: Decision, base: Tables, tick: Tick)
    requires Constraints(t) && HitsNamed(HitSet(t, space, keys), d) && Prepared(t, d, base)
    ensures HeldOnlyBy(base.ext, space, keys, DecisionTarget(d, tick))
  {
    forall r | r in base.ext && r.space == space && r.key in keys ensures r.entity == DecisionTarget(d, tick) {
      if d.Merge? {
        var keep, gone := d.targets[0], d.targets[1..];
        var h :| HeldBy(t.ext, r, h) && r.entity == RepointAll(h, keep, gone);
        HolderIsHit(t, r.(entity := h), space, keys);
        assert d.targets == [keep] + gone;
      } else {
        HolderIsHit(t, r, space, keys);
      }
    }
  }

  /** After an accepted write the entity carries all the candidate's keys, unless the policy was
      force_new and one of them is already held in that space. */
  lemma AppendCarriesAllKeysIff(cfg: Config, db: Db, in_: EntityInput, tick: Tick)
    requires Inv(db) && Minted(db, AppendEntityOp(in_, tick)) && AppendEntity(cfg, db, in_, tick).1.Accepted?
    ensures var (db', outcome) := AppendEntity(cfg, db, in_, tick);
            var c := in_.candidate;
            outcome.subject in db'.t.entities &&
            (CarriesAll(db'.t.ext, outcome.subject, c.externalIds) <==>
               !in_.policy.ForceNew? || NoneTaken(db.t.ext, c.space, c.externalIds))
  {
    var d, base := AppendShape(cfg, db, in_, tick);
    var c, id := in_.candidate, DecisionTarget(d, tick);
    if in_.policy.ForceNew? {
      NewEntityKeysIff(db.t.ext, id, c.space, c.externalIds);
    } else {
      DecisionNamesHits(cfg, db.t, Stamped(in_, tick), EffectivePolicy(in_.policy), d);
      TargetHoldsHits(db.t, c.space, Keys(c.externalIds), d, base, tick);
      InsertedKeysCarried(base.ext, id, c.space, c.externalIds);
    }
  }

  // ---- one space's rows ----

  /** Every external-id row's space is its entity's space. */
  ghost predicate SpacesAgree(t: Tables) {
    forall r | r in t.ext :: r.entity in t.entities && t.entities[r.entity].space == r.space
  }

  /** A vector attach across spaces that brings a key the target lacks. */
  ghost predicate StrayAttach(t: Tables, c: Entity, d: Decision) {
    && d.Attach? && d.kind.MatchVector? && d.target in t.entities && t.entities[d.target].space != c.space
    && exists i :: 0 <= i < |c.externalIds| && !Carries(t.ext, d.target, c.externalIds[i].Key())
  }

  /** A direct merge across spaces that moves a key the survivor lacks. */
  ghost predicate StrayMerge(t: Tables, keep: EntityId, drop: EntityId) {
    && keep in t.entities && drop in t.entities && t.entities[keep].space != t.entities[drop].space
    && exists key :: key in Carried(t.ext, drop) && key !in Carried(t.ext, keep)
  }

  /** The writes that put a row in a space its entity is not in. */
  ghost predicate Stray(cfg: Config, db: Db, op: Op) {
    match op
    case AppendEntityOp(in_, tick) =>
      var d := EntityDecision(cfg, db.t, Stamped(in_, tick), EffectivePolicy(in_.policy));
      Acceptable(cfg, db, in_, tick) && StrayAttach(db.t, in_.candidate, d.value)
    case MergeOp(keep, drop, actor, key, now) =>
      MergeAcceptable(db, keep, drop, actor, key) && StrayMerge(db.t, keep, drop)
    case _ => false
  }

  lemma HitsInSpace(t: Tables, space: SpaceId, keys: seq<string>)
    requires SpacesAgree(t)
    ensures forall id | id in HitSet(t, space, keys) :: id in t.entities && t.entities[id].space == space
  {
  }

  /** An external match stays in the candidate's space; a vector match saw none of the keys held there. */
  lemma DecisionSpaces(cfg: Config, t: Tables, c: Entity, policy: Policy, d: Decision)
    requires Constraints(t) && SpacesAgree(t) && EntityDecision(cfg, t, c, policy) == Ok(d)
    ensures d.Attach? && d.kind.MatchExternal? ==> d.target in t.entities && t.entities[d.target].space == c.space
    ensures d.Merge? ==> forall id | id in d.targets :: id in t.entities && t.entities[id].space == c.space
    ensures d.Attach? && d.kind.MatchVector? ==> NoneTaken(t.ext, c.space, c.externalIds)
    ensures d.Attach? ==> !d.kind.MatchNone?
  {
    var keys := Keys(c.externalIds);
    var hits := ExternalHits(t, c.space, keys);
    ExternalHitsExact(t, c.space, keys);
    DecisionOnHits(hits, DecisionNeighbors(cfg, t, c, policy), policy, cfg.th, d);
    HitsInSpace(t, c.space, keys);
    if d.Attach? && d.kind.MatchVector? {
      assert forall r | r in t.ext && r.space == c.space && r.key in keys :: r.entity in HitSet(t, c.space, keys);
      forall i | 0 <= i < |c.externalIds| ensures !Taken(t.ext, c.space, c.externalIds[i].Key()) {
        KeyIn(c.externalIds, i);
      }
    }
  }

  lemma AbsorbedSpacesAgree(t: Tables, base: Tables, keep: EntityId, gone: seq<EntityId>, space: SpaceId)
    requires SpacesAgree(t) && Constraints(base) && Absorbed(t, base, keep, gone)
    requires forall id | id in [keep] + gone :: id in t.entities && t.entities[id].space == space
    ensures SpacesAgree(base) && (keep in base.entities ==> base.entities[keep].space == space)
  {
    forall r | r in base.ext ensures base.entities[r.entity].space == r.space {
      var h :| HeldBy(t.ext, r, h) && r.entity == RepointAll(h, keep, gone);
      assert t.entities[h].space == r.(entity := h).space;
      assert base.entities[r.entity].(updatedAt := "") == t.entities[r.entity].(updatedAt := "");
      if h in gone {
        assert h in [keep] + gone && keep in [keep] + gone;
      }
    }
    if keep in base.entities {
      assert keep in [keep] + gone;
      assert base.entities[keep].(updatedAt := "") == t.entities[keep].(updatedAt := "");
    }
  }

  lemma UpsertSpacesIff(base: Tables, c: Entity, ts: Time)
    requires Constraints(base) && SpacesAgree(base) && UpsertEntity(base, c, ts).Ok?
    requires c.id in base.entities && base.entities[c.id].space != c.space
             ==> NoneTaken(base.ext, c.space, c.externalIds)
    ensures SpacesAgree(UpsertEntity(base, c, ts).value) <==>
            (c.id in base.entities && base.entities[c.id].space != c.space
             ==> CarriesAll(base.ext, c.id, c.externalIds))
  {
    var t' := UpsertEntity(base, c, ts).value;
    InsertKeysGrows(base.ext, c.id, c.space, c.externalIds);
    if c.id in base.entities && base.entities[c.id].space != c.space && !CarriesAll(base.ext, c.id, c.externalIds) {
      var i :| 0 <= i < |c.externalIds| && !Carries(base.ext, c.id, c.externalIds[i].Key());
      var key := c.externalIds[i].Key();
      assert Carries(t'.ext, c.id, key);
      var r :| r in t'.ext && r.entity == c.id && r.key == key;
      assert r !in base.ext;
    }
  }

  lemma ShapeSpacesIff(
    t: Tables, d: Decision, base: Tables, c: Entity, id: EntityId, ts: Time, after: Tables, edgeId: EdgeId)
    requires Constraints(t) && SpacesAgree(t) && Prepared(t, d, base)
             && AssertedOnto(base, c.(id := id), ts, after, edgeId)
    requires d.Attach? ==> id == d.target && id in t.entities
    requires d.Attach? && d.kind.MatchExternal? ==> t.entities[d.target].space == c.space
    requires d.Attach? && d.kind.MatchVector? ==> NoneTaken(t.ext, c.space, c.externalIds)
    requires d.Attach? ==> !d.kind.MatchNone?
    requires d.Merge? ==> id == d.targets[0] && forall h | h in d.targets ::
             h in t.entities && t.entities[h].space == c.space
    requires d.InsertNew? || d.InsertFlagged? ==> id !in t.entities
    ensures SpacesAgree(after) <==> !StrayAttach(t, c, d)
  {
    if d.Merge? {
      assert d.targets == [d.targets[0]] + d.targets[1..];
      AbsorbedSpacesAgree(t, base, d.targets[0], d.targets[1..], c.space);
    }
    UpsertSpacesIff(base, c.(id := id), ts);
  }

  lemma AppendSpacesIff(cfg: Config, db: Db, in_: EntityInput, tick: Tick)
    requires Inv(db) && SpacesAgree(db.t) && Minted(db, AppendEntityOp(in_, tick))
    requires AppendEntity(cfg, db, in_, tick).1.Accepted?
    ensures var d := EntityDecision(cfg, db.t, Stamped(in_, tick), EffectivePolicy(in_.policy));
      d.Ok? && (SpacesAgree(AppendEntity(cfg, db, in_, tick).0.t) <==> !StrayAttach(db.t, in_.candidate, d.value))
  {
    var d, base := AppendShape(cfg, db, in_, tick);
    DecisionSpaces(cfg, db.t, Stamped(in_, tick), EffectivePolicy(in_.policy), d);
    ShapeSpacesIff(db.t, d, base, Stamped(in_, tick), DecisionTarget(d, tick), tick.now,
                   AppendEntity(cfg, db, in_, tick).0.t, tick.edgeId);
  }

  lemma MergeSpacesIff(t: Tables, keep: EntityId, drop: EntityId, ts: Time)
    requires Constraints(t) && SpacesAgree(t) && keep in t.entities && drop in t.entities
    ensures MergeEntities(t, keep, drop, ts).Ok?
    ensures SpacesAgree(MergeEntities(t, keep, drop, ts).value) <==> !StrayMerge(t, keep, drop)
  {
    if keep != drop {
      var t' := MergeEntities(t, keep, drop, ts).value;
      if StrayMerge(t, keep, drop) {
        var key :| key in Carried(t.ext, drop) && key !in Carried(t.ext, keep);
        var r :| r in t.ext && r.entity == drop && r.key == key;
        assert r.(entity := keep) in t'.ext;
      } else {
        MergeKeeps(t, keep, drop, ts);
        forall q | q in t'.ext ensures t'.entities[q.entity].space == q.space {
          var r :| r in t.ext && !(r.entity == drop && Carries(t.ext, keep, r.key))
            && q == r.(entity := Repoint(r.entity, keep, drop));
          if r.entity == drop {
            assert r.key in Carried(t.ext, drop) && r.key !in Carried(t.ext, keep);
          }
        }
      }
    }
  }

  lemma DeleteSpaces(t: Tables, id: EntityId)
    requires SpacesAgree(t)
    ensures SpacesAgree(DeleteEntity(t, id))
  {
  }

  lemma MergeDirectShape(db: Db, keep: EntityId, drop: EntityId, actor: PrincipalId, key: string, now: Time)
    ensures var (db', outcome) := MergeDirect(db, keep, drop, actor, key, now);
            if outcome.Accepted? then
              keep in db.t.entities && drop in db.t.entities && MergeEntities(db.t, keep, drop, now) == Ok(db'.t)
            else db' == db
  {
  }

  lemma MergeDirectSpacesIff(db: Db, keep: EntityId, drop: EntityId, actor: PrincipalId, key: string, now: Time)
    requires Inv(db) && SpacesAgree(db.t)
    ensures SpacesAgree(MergeDirect(db, keep, drop, actor, key, now).0.t) <==>
            !(MergeDirect(db, keep, drop, actor, key, now).1.Accepted? && StrayMerge(db.t, keep, drop))
  {
    MergeDirectShape(db, keep, drop, actor, key, now);
    if MergeDirect(db, keep, drop, actor, key, now).1.Accepted? {
      MergeSpacesIff(db.t, keep, drop, now);
    }
  }

  lemma RebuildSpaces(db: Db)
    requires Tracks(db) && SpacesAgree(db.t)
    ensures SpacesAgree(Rebuild(db).0.t)
  {
    var b := Fold(db.log).value;
    assert Agrees(db.t, b);
    forall r | r in b.ext ensures r.entity in b.entities && b.entities[r.entity].space == r.space {
      assert db.t.entities[r.entity].(props := Json.JNull) == b.entities[r.entity].(props := Json.JNull);
    }
  }

  lemma AppendStepSpaces(cfg: Config, db: Db, op: Op)
    requires Inv(db) && SpacesAgree(db.t) && Minted(db, op) && op.AppendEntityOp?
    ensures SpacesAgree(Step(cfg, db, op).t) <==> !Stray(cfg, db, op)
  {
    AcceptedIff(cfg, db, op.entity, op.tick);
    if AppendEntity(cfg, db, op.entity, op.tick).1.Accepted? {
      AppendSpacesIff(cfg, db, op.entity, op.tick);
    }
  }

  lemma MergeStepSpaces(cfg: Config, db: Db, op: Op)
    requires Inv(db) && SpacesAgree(db.t) && op.MergeOp?
    ensures SpacesAgree(Step(cfg, db, op).t) <==> !Stray(cfg, db, op)
  {
    MergeAcceptedIff(db, op.keep, op.drop, op.actor, op.key, op.now);
    MergeDirectSpacesIff(db, op.keep, op.drop, op.actor, op.key, op.now);
  }

  lemma RetractStepSpaces(cfg: Config, db: Db, op: Op)
    requires SpacesAgree(db.t) && op.RetractEntityOp?
    ensures SpacesAgree(Step(cfg, db, op).t)
  {
    DeleteSpaces(db.t, op.id);
  }

  lemma EdgeStepSpaces(cfg: Config, db: Db, op: Op)
    requires SpacesAgree(db.t) && (op.AppendEdgeOp? || op.RetractEdgeOp?)
    ensures SpacesAgree(Step(cfg, db, op).t)
  {
  }

  lemma StepSpacesIff(cfg: Config, db: Db, op: Op)
    requires Inv(db) && SpacesAgree(db.t) && Minted(db, op)
    ensures SpacesAgree(Step(cfg, db, op).t) <==> !Stray(cfg, db, op)
  {
    match op
    case AppendEntityOp(_, _) => AppendStepSpaces(cfg, db, op);
    case MergeOp(_, _, _, _, _) => MergeStepSpaces(cfg, db, op);
    case RetractEntityOp(_, _, _, _) => RetractStepSpaces(cfg, db, op);
    case RebuildOp => RebuildSpaces(db);
    case _ => EdgeStepSpaces(cfg, db, op);
  }

  ghost predicate SpacesAgreeThroughout(cfg: Config, ops: seq<Op>) {
    SpacesAgree(Run(cfg, ops).t) && (ops == [] || SpacesAgreeThroughout(cfg, ops[..|ops| - 1]))
  }

  ghost predicate NothingStrays(cfg: Config, ops: seq<Op>) {
    ops == [] || (NothingStrays(cfg, ops[..|ops| - 1]) && !Stray(cfg, Run(cfg, ops[..|ops| - 1]), ops[|ops| - 1]))
  }

  /** Over every run: each external-id row stays in its entity's space throughout, precisely
      when no write strayed. */
  lemma {:induction false} SpacesAgreeThroughoutIff(cfg: Config, ops: seq<Op>)
    requires IsRun(cfg, ops)
    ensures SpacesAgreeThroughout(cfg, ops) <==> NothingStrays(cfg, ops)
  {
    if ops != [] {
      var front, last := ops[..|ops| - 1], ops[|ops| - 1];
      SpacesAgreeThroughoutIff(cfg, front);
      if SpacesAgreeThroughout(cfg, front) {
        RunKeepsInv(cfg, front);
        StepSpacesIff(cfg, Run(cfg, front), last);
      }
    }
  }

  // ---- the next write finds the entity ----

  predicate HoldsIn(ext: set<ExtRow>, id: EntityId, space: SpaceId, key: string) {
    exists r | r in ext :: r.entity == id && r.space == space && r.key == key
  }

  /** Each key is filed under the entity in this space. */
  ghost predicate HeldHere(ext: set<ExtRow>, id: EntityId, space: SpaceId, xs: seq<ExternalId>) {
    forall i | 0 <= i < |xs| :: HoldsIn(ext, id, space, xs[i].Key())
  }

  lemma CarriedIsHeldHere(t: Tables, id: EntityId, xs: seq<ExternalId>)
    requires SpacesAgree(t) && id in t.entities && CarriesAll(t.ext, id, xs)
    ensures HeldHere(t.ext, id, t.entities[id].space, xs)
  {
    forall i | 0 <= i < |xs| ensures HoldsIn(t.ext, id, t.entities[id].space, xs[i].Key()) {
      assert Carries(t.ext, id, xs[i].Key());
      var r :| r in t.ext && r.entity == id && r.key == xs[i].Key();
      assert r.space == t.entities[id].space;
    }
  }

  lemma SoleHit(t: Tables, id: EntityId, space: SpaceId, xs: seq<ExternalId>)
    requires Constraints(t) && id in t.entities && xs != [] && HeldHere(t.ext, id, space, xs)
    ensures ExternalHits(t, space, Keys(xs)) == [id]
  {
    var hits := HitSet(t, space, Keys(xs));
    forall h | h in hits ensures h == id {
      var r :| r in t.ext && r.space == space && r.key in Keys(xs) && r.entity == h;
      var i :| 0 <= i < |xs| && xs[i].Key() == r.key;
      assert HoldsIn(t.ext, id, space, xs[i].Key());
      var q :| q in t.ext && q.entity == id && q.space == space && q.key == xs[i].Key();
      assert q == r;
    }
    assert HoldsIn(t.ext, id, space, xs[0].Key());
    var q :| q in t.ext && q.entity == id && q.space == space && q.key == xs[0].Key();
    KeyIn(xs, 0);
    assert id in hits && hits == {id};
    AgeOrder(t.entities);
    SortSetSorts(AgeLe(t.entities), hits);
    assert ExternalHits(t, space, Keys(xs))[0] in hits;
  }

  /** An entity under which all of a candidate's keys are filed in its space takes the write. */
  lemma HolderAttracts(cfg: Config, db: Db, in_: EntityInput, tick: Tick, id: EntityId)
    requires Constraints(db.t) && id in db.t.entities && in_.candidate.externalIds != []
    requires HeldHere(db.t.ext, id, in_.candidate.space, in_.candidate.externalIds)
    requires WellFormed(in_) && !in_.policy.ForceNew? && !Logged(db.log, in_.writer, EntityKey(cfg, in_, tick))
    ensures EntityDecision(cfg, db.t, Stamped(in_, tick), EffectivePolicy(in_.policy)) == Ok(Attach(id, MatchExternal))
    ensures AppendEntity(cfg, db, in_, tick).1 == Accepted(id)
  {
    var c, key := Stamped(in_, tick), EntityKey(cfg, in_, tick);
    var policy := EffectivePolicy(in_.policy);
    SoleHit(db.t, id, c.space, c.externalIds);
    assert EntityDecision(cfg, db.t, c, policy).Ok?;
    DecisionOnHits([id], DecisionNeighbors(cfg, db.t, c, policy), policy, cfg.th,
                   EntityDecision(cfg, db.t, c, policy).value);
    UnloggedHasNoPrior(db.log, in_.writer, key, true);
    OneEmission(db, AssertEmission(in_, c, id, key), tick.now);
  }

  /** A later append in the candidate's space of some of its keys, under a new dedupe key and not
      forced. */
  predicate Follows(cfg: Config, db: Db, c: Entity, next: EntityInput, later: Tick) {
    && WellFormed(next) && !next.policy.ForceNew? && next.candidate.space == c.space
    && next.candidate.externalIds != []
    && (forall x | x in next.candidate.externalIds :: x.Key() in Keys(c.externalIds))
    && !Logged(db.log, next.writer, EntityKey(cfg, next, later))
  }

  ghost predicate NextAttaches(cfg: Config, db: Db, c: Entity, id: EntityId) {
    forall next, later | Follows(cfg, db, c, next, later) :: AppendEntity(cfg, db, next, later).1 == Accepted(id)
  }

  lemma FollowerAttaches(cfg: Config, db: Db, c: Entity, id: EntityId, next: EntityInput, later: Tick)
    requires Constraints(db.t) && id in db.t.entities && HeldHere(db.t.ext, id, c.space, c.externalIds)
    requires Follows(cfg, db, c, next, later)
    ensures AppendEntity(cfg, db, next, later).1 == Accepted(id)
  {
    var xs, ys := c.externalIds, next.candidate.externalIds;
    forall j | 0 <= j < |ys| ensures HoldsIn(db.t.ext, id, c.space, ys[j].Key()) {
      assert ys[j] in ys;
      var i :| 0 <= i < |xs| && Keys(xs)[i] == ys[j].Key();
      assert HoldsIn(db.t.ext, id, c.space, xs[i].Key());
    }
    HolderAttracts(cfg, db, next, later, id);
  }

  lemma {:induction false} LongerThanAll(log: seq<Fact>) returns (key: string)
    ensures key != "" && forall f | f in log :: |f.dedupeKey| < |key|
  {
    if log == [] {
      key := "k";
    } else {
      var front, last := log[..|log| - 1], log[|log| - 1];
      var k := LongerThanAll(front);
      key := k + last.dedupeKey;
      assert log == front + [last];
    }
  }

  /** A write of the one key, by a writer of its own. */
  function OneKeyWrite(space: SpaceId, x: ExternalId, key: string): EntityInput {
    EntityInput(
      Entity("", "Note", Doc(Json.JObj(map[])), [x], Provenance("", Asserted, "", 1.0, None), space, "", Private, []),
      "", key, "", Auto)
  }

  lemma AcceptedTarget(cfg: Config, db: Db, in_: EntityInput, tick: Tick)
    requires AppendEntity(cfg, db, in_, tick).1.Accepted?
    ensures var d := EntityDecision(cfg, db.t, Stamped(in_, tick), EffectivePolicy(in_.policy));
      d.Ok? && AppendEntity(cfg, db, in_, tick).1.subject == DecisionTarget(d.value, tick)
  {
  }

  lemma TargetElsewhere(cfg: Config, t: Tables, c: Entity, id: EntityId, tick: Tick)
    requires c.embeddings == [] && id !in HitSet(t, c.space, Keys(c.externalIds)) && tick.entityId != id
    ensures EntityDecision(cfg, t, c, Auto).Ok? && DecisionTarget(EntityDecision(cfg, t, c, Auto).value, tick) != id
  {
    var hits := ExternalHits(t, c.space, Keys(c.externalIds));
    ExternalHitsExact(t, c.space, Keys(c.externalIds));
    assert forall h | h in hits :: h != id;
    DecisionOnHits(hits, [], Auto, cfg.th, EntityDecision(cfg, t, c, Auto).value);
  }

  /** Where the entity does not hold the key, such a write goes elsewhere. */
  lemma OneKeyGoesElsewhere(cfg: Config, db: Db, space: SpaceId, x: ExternalId, key: string, id: EntityId, later: Tick)
    requires key != "" && !HoldsIn(db.t.ext, id, space, x.Key()) && later.entityId != id
    ensures AppendEntity(cfg, db, OneKeyWrite(space, x, key), later).1 != Accepted(id)
  {
    var in_ := OneKeyWrite(space, x, key);
    assert Keys([x]) == [x.Key()];
    TargetElsewhere(cfg, db.t, Stamped(in_, later), id, later);
    if AppendEntity(cfg, db, in_, later).1.Accepted? {
      AcceptedTarget(cfg, db, in_, later);
    }
  }

  /** After an accepted write, every following append of its keys attaches to the same entity
      exactly when the keys are all filed under that entity in the write's own space. */
  lemma NextAttachesIff(cfg: Config, db: Db, c: Entity, id: EntityId)
    requires Constraints(db.t) && id in db.t.entities
    ensures NextAttaches(cfg, db, c, id) <==> HeldHere(db.t.ext, id, c.space, c.externalIds)
  {
    if HeldHere(db.t.ext, id, c.space, c.externalIds) {
      forall next, later | Follows(cfg, db, c, next, later)
        ensures AppendEntity(cfg, db, next, later).1 == Accepted(id)
      {
        FollowerAttaches(cfg, db, c, id, next, later);
      }
    } else {
      var i :| 0 <= i < |c.externalIds| && !HoldsIn(db.t.ext, id, c.space, c.externalIds[i].Key());
      var key := LongerThanAll(db.log);
      var next, later := OneKeyWrite(c.space, c.externalIds[i], key), Tick("", "", id + "x", "", "");
      KeyIn(c.externalIds, i);
      assert Follows(cfg, db, c, next, later);
      OneKeyGoesElsewhere(cfg, db, c.space, c.externalIds[i], key, id, later);
    }
  }

  // ---- an append leaves every other space alone ----

  function SpaceRows(ext: set<ExtRow>, space: SpaceId): set<ExtRow> {
    set r | r in ext && r.space == space
  }

  /** The same entities, external-id rows and embeddings in one space. */
  ghost predicate SameInSpace(a: Tables, b: Tables, space: SpaceId) {
    && (forall id ::
          (id in a.entities && a.entities[id].space == space) <==> (id in b.entities && b.entities[id].space == space))
    && (forall id | id in a.entities && a.entities[id].space == space ::
          a.entities[id] == b.entities[id] && SameVectors(a.emb, b.emb, id))
    && SpaceRows(a.ext, space) == SpaceRows(b.ext, space)
  }

  lemma AbsorbedElsewhere(t: Tables, base: Tables, keep: EntityId, gone: seq<EntityId>, other: SpaceId)
    requires SpacesAgree(t) && SpacesAgree(base) && Absorbed(t, base, keep, gone) && keep !in gone
    requires forall id | id in [keep] + gone :: id in t.entities && t.entities[id].space != other
    ensures SameInSpace(t, base, other)
  {
    assert keep in [keep] + gone && forall h | h in gone :: h in [keep] + gone;
    assert keep in base.entities && base.entities[keep].(updatedAt := "") == t.entities[keep].(updatedAt := "");
    forall r ensures r in SpaceRows(t.ext, other) <==> r in SpaceRows(base.ext, other) {
      if r.entity != keep && r.entity !in gone {
        assert r in RowsOf(t.ext, r.entity) <==> r in RowsOf(base.ext, r.entity);
      }
    }
  }

  lemma InsertElsewhere(ext: set<ExtRow>, id: EntityId, space: SpaceId, xs: seq<ExternalId>, other: SpaceId)
    requires ExtKeys(ext) && space != other
    ensures SpaceRows(InsertKeys(ext, id, space, xs), other) == SpaceRows(ext, other)
  {
    InsertKeysGrows(ext, id, space, xs);
  }

  lemma UpsertElsewhere(base: Tables, c: Entity, ts: Time, other: SpaceId)
    requires Constraints(base) && UpsertEntity(base, c, ts).Ok? && c.space != other
    requires c.id in base.entities ==> base.entities[c.id].space != other
    ensures SameInSpace(base, UpsertEntity(base, c, ts).value, other)
  {
    InsertElsewhere(base.ext, c.id, c.space, c.externalIds, other);
    PutVectorsKeys(base.emb, c.id, c.embeddings);
  }

  lemma SameInSpaceTrans(a: Tables, b: Tables, c: Tables, space: SpaceId)
    requires SameInSpace(a, b, space) && SameInSpace(b, c, space)
    ensures SameInSpace(a, c, space)
  {
  }

  lemma ShapeIsolated(
    t: Tables, d: Decision, base: Tables, c: Entity, id: EntityId, ts: Time, after: Tables, edgeId: EdgeId,
    other: SpaceId)
    requires Constraints(t) && SpacesAgree(t) && Prepared(t, d, base)
             && AssertedOnto(base, c.(id := id), ts, after, edgeId)
    requires c.space != other
    requires d.Attach? ==> id == d.target && id in t.entities && t.entities[id].space == c.space
    requires d.Merge? ==> id == d.targets[0] && Distinct(d.targets) && forall h | h in d.targets ::
             h in t.entities && t.entities[h].space == c.space
    requires d.InsertNew? || d.InsertFlagged? ==> id !in t.entities
    ensures SameInSpace(t, after, other)
  {
    if d.Merge? {
      assert d.targets == [id] + d.targets[1..];
      AbsorbedSpacesAgree(t, base, id, d.targets[1..], c.space);
      AbsorbedElsewhere(t, base, id, d.targets[1..], other);
    }
    UpsertElsewhere(base, c.(id := id), ts, other);
    SameInSpaceTrans(t, base, UpsertEntity(base, c.(id := id), ts).value, other);
  }

  /** The decision attached by vector to an entity of another space. */
  predicate CrossSpaceAttach(t: Tables, c: Entity, d: Result<Decision>) {
    && d.Ok? && d.value.Attach? && d.value.kind.MatchVector?
    && d.value.target in t.entities && t.entities[d.value.target].space != c.space
  }

  /** An append into one space, unless it attached by vector into another, leaves the entities,
      external-id rows and embeddings of every other space as they were. */
  lemma AppendIsolated(cfg: Config, db: Db, in_: EntityInput, tick: Tick, other: SpaceId)
    requires Inv(db) && SpacesAgree(db.t) && Minted(db, AppendEntityOp(in_, tick)) && other != in_.candidate.space
    requires AppendEntity(cfg, db, in_, tick).1.Accepted?
    requires !CrossSpaceAttach(db.t, in_.candidate,
                               EntityDecision(cfg, db.t, Stamped(in_, tick), EffectivePolicy(in_.policy)))
    ensures SameInSpace(db.t, AppendEntity(cfg, db, in_, tick).0.t, other)
  {
    var d, base := AppendShape(cfg, db, in_, tick);
    DecisionSpaces(cfg, db.t, Stamped(in_, tick), EffectivePolicy(in_.policy), d);
    ShapeIsolated(db.t, d, base, Stamped(in_, tick), DecisionTarget(d, tick), tick.now,
                  AppendEntity(cfg, db, in_, tick).0.t, tick.edgeId, other);
  }

  /** Every edge stays, in whatever space, with nothing changed but re-pointed endpoints. */
  ghost predicate EdgesKept(a: map<EdgeId, EdgeRow>, b: map<EdgeId, EdgeRow>) {
    forall e | e in a :: e in b && b[e].(from := "", to := "") == a[e].(from := "", to := "")
  }

  lemma ShapeKeepsEdges(t: Tables, d: Decision, base: Tables, after: Tables, edgeId: EdgeId)
    requires Prepared(t, d, base) && edgeId !in t.edges
    requires after.edges - {edgeId} == base.edges - {edgeId} && base.edges.Keys <= after.edges.Keys
    ensures EdgesKept(t.edges, after.edges)
  {
    forall e | e in t.edges
      ensures e in after.edges && after.edges[e].(from := "", to := "") == t.edges[e].(from := "", to := "")
    {
      assert e in base.edges && e in base.edges - {edgeId};
      assert (after.edges - {edgeId})[e] == after.edges[e] && (base.edges - {edgeId})[e] == base.edges[e];
    }
  }

  lemma AppendKeepsEdges(cfg: Config, db: Db, in_: EntityInput, tick: Tick)
    requires Inv(db) && Minted(db, AppendEntityOp(in_, tick)) && AppendEntity(cfg, db, in_, tick).1.Accepted?
    ensures EdgesKept(db.t.edges, AppendEntity(cfg, db, in_, tick).0.t.edges)
  {
    var d, base := AppendShape(cfg, db, in_, tick);
    ShapeKeepsEdges(db.t, d, base, AppendEntity(cfg, db, in_, tick).0.t, tick.edgeId);
  }

  // ---- over runs whose writes never stray ----

  lemma ShapeLands(
    t: Tables, d: Decision, base: Tables, c: Entity, id: EntityId, ts: Time, after: Tables, edgeId: EdgeId)
    requires SpacesAgree(t) && Prepared(t, d, base) && AssertedOnto(base, c.(id := id), ts, after, edgeId)
    requires d.Attach? ==> id == d.target && id in t.entities && t.entities[id].space == c.space
    requires d.Merge? ==> id == d.targets[0] && forall h | h in d.targets ::
             h in t.entities && t.entities[h].space == c.space
    requires d.InsertNew? || d.InsertFlagged? ==> id !in t.entities
    ensures id in after.entities && after.entities[id].space == c.space
  {
    if d.Merge? {
      assert d.targets == [id] + d.targets[1..];
      AbsorbedSpacesAgree(t, base, id, d.targets[1..], c.space);
    }
  }

  lemma LandsInSpace(cfg: Config, db: Db, in_: EntityInput, tick: Tick)
    requires Inv(db) && SpacesAgree(db.t) && Minted(db, AppendEntityOp(in_, tick))
    requires AppendEntity(cfg, db, in_, tick).1.Accepted?
    requires !CrossSpaceAttach(db.t, in_.candidate,
                               EntityDecision(cfg, db.t, Stamped(in_, tick), EffectivePolicy(in_.policy)))
    ensures var (db', out) := AppendEntity(cfg, db, in_, tick);
      out.subject in db'.t.entities && db'.t.entities[out.subject].space == in_.candidate.space
  {
    var d, base := AppendShape(cfg, db, in_, tick);
    DecisionSpaces(cfg, db.t, Stamped(in_, tick), EffectivePolicy(in_.policy), d);
    ShapeLands(db.t, d, base, Stamped(in_, tick), DecisionTarget(d, tick), tick.now,
               AppendEntity(cfg, db, in_, tick).0.t, tick.edgeId);
  }

  /** The write is a run's last, the run never strays, and the write stays in its own space. */
  ghost predicate StaysHome(cfg: Config, ops: seq<Op>, in_: EntityInput, tick: Tick) {
    var db := Run(cfg, ops);
    && IsRun(cfg, ops + [AppendEntityOp(in_, tick)]) && NothingStrays(cfg, ops + [AppendEntityOp(in_, tick)])
    && AppendEntity(cfg, db, in_, tick).1.Accepted?
    && !CrossSpaceAttach(db.t, in_.candidate,
                         EntityDecision(cfg, db.t, Stamped(in_, tick), EffectivePolicy(in_.policy)))
  }

  lemma HomeGround(cfg: Config, ops: seq<Op>, in_: EntityInput, tick: Tick)
    requires StaysHome(cfg, ops, in_, tick)
    ensures Inv(Run(cfg, ops)) && SpacesAgree(Run(cfg, ops).t) && Minted(Run(cfg, ops), AppendEntityOp(in_, tick))
    ensures var db' := AppendEntity(cfg, Run(cfg, ops), in_, tick).0; Inv(db') && SpacesAgree(db'.t)
  {
    var op := AppendEntityOp(in_, tick);
    assert (ops + [op])[..|ops|] == ops;
    RunKeepsInv(cfg, ops);
    StepKeepsInv(cfg, Run(cfg, ops), op);
    SpacesAgreeThroughoutIff(cfg, ops + [op]);
  }

  /** Over every run that never strays: after an accepted append that stays in its space and was
      not forced, every following append of its keys attaches to the same entity. */
  lemma RunNextAttaches(cfg: Config, ops: seq<Op>, in_: EntityInput, tick: Tick)
    requires StaysHome(cfg, ops, in_, tick) && !in_.policy.ForceNew?
    ensures var (db', out) := AppendEntity(cfg, Run(cfg, ops), in_, tick);
      NextAttaches(cfg, db', in_.candidate, out.subject)
  {
    var (db', out) := AppendEntity(cfg, Run(cfg, ops), in_, tick);
    HomeGround(cfg, ops, in_, tick);
    LandsInSpace(cfg, Run(cfg, ops), in_, tick);
    AppendCarriesAllKeysIff(cfg, Run(cfg, ops), in_, tick);
    CarriedIsHeldHere(db'.t, out.subject, in_.candidate.externalIds);
    NextAttachesIff(cfg, db', in_.candidate, out.subject);
  }

  /** And it leaves the entities, external-id rows and embeddings of every other space alone. */
  lemma RunAppendIsolated(cfg: Config, ops: seq<Op>, in_: EntityInput, tick: Tick, other: SpaceId)
    requires StaysHome(cfg, ops, in_, tick) && other != in_.candidate.space
    ensures SameInSpace(Run(cfg, ops).t, AppendEntity(cfg, Run(cfg, ops), in_, tick).0.t, other)
  {
    HomeGround(cfg, ops, in_, tick);
    AppendIsolated(cfg, Run(cfg, ops), in_, tick, other);
  }
}
