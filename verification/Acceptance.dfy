/** Which writes go through, told from the request and the store before it. */
module Acceptance {
  import opened Domain
  import opened Order
  import opened Resolve
  import opened Tables
  import opened Store
  import opened DedupeKey
  import opened Invariants

  /** What the source asks of an entity write before it resolves anything. */
  predicate WellFormed(in_: EntityInput) {
    && in_.candidate.typ in ALLOWED_TYPES && in_.candidate.visibility.Valid()
    && EffectivePolicy(in_.policy).Valid() && !in_.candidate.props.Malformed?
  }

  /** None of the script's dedupe keys is in the log. */
  predicate KeysFree(log: seq<Fact>, ems: seq<Emission>) {
    forall i | 0 <= i < |ems| :: !Logged(log, ems[i].writer, ems[i].dedupeKey)
  }

  /** A method the schema admits, or none, which counts as asserted. */
  predicate KnownMethod(how: AssertMethod) {
    how.UnsetMethod? || how.Asserted? || how.Inferred?
  }

  /** The entity it resolves to is there, or the new one passes the checks of an insert. */
  predicate Fits(t: Tables, c: Entity, id: EntityId) {
    id in t.entities || (!c.visibility.OtherVisibility? && KnownMethod(c.prov.how))
  }

  /** A well-formed request, whose entity fits and whose keys are all unused. */
  predicate Acceptable(cfg: Config, db: Db, in_: EntityInput, tick: Tick) {
    && WellFormed(in_)
    && var c := Stamped(in_, tick);
       var d := EntityDecision(cfg, db.t, c, EffectivePolicy(in_.policy));
       && d.Ok? && Fits(db.t, in_.candidate, DecisionTarget(d.value, tick))
       && KeysFree(db.log, EntityScript(in_, c, d.value, EntityKey(cfg, in_, tick), tick))
  }

  predicate MergeAcceptable(db: Db, keep: EntityId, drop: EntityId, actor: PrincipalId, key: string) {
    && keep in db.t.entities && drop in db.t.entities
    && !Logged(db.log, actor, if key == "" then keep + "|merge|" + drop else key)
  }

  // ---- when a script plays to its end ----

  lemma LoggedAfter(db: Db, ems: seq<Emission>, ts: Time, writer: WriterId, key: string)
    requires EmitAll(db, ems, ts).Ok? && forall i | 0 <= i < |ems| :: ems[i].dedupeKey != key
    ensures Logged(EmitAll(db, ems, ts).value.log, writer, key) <==> Logged(db.log, writer, key)
  {
    EmitAllExtends(db, ems, ts);
    var added := seq(|ems|, i requires 0 <= i < |ems| => FactOf(ems[i], ts));
    forall f | f in added ensures f.dedupeKey != key {
      var i :| 0 <= i < |ems| && f == FactOf(ems[i], ts);
    }
    if Logged(db.log, writer, key) {
      var f :| f in db.log && f.writer == writer && f.dedupeKey == key;
      assert f in db.log + added;
    }
  }

  lemma MergeKeysDiffer(key: string, a: EntityId, b: EntityId)
    requires a != b
    ensures MergeKey(key, a) != MergeKey(key, b) && MergeKey(key, a) != key
  {
    var n := |key + "|merge|"|;
    assert MergeKey(key, a)[n..] == a && MergeKey(key, b)[n..] == b;
    assert |MergeKey(key, a)| > |key|;
  }

  lemma KeysFreeSnoc(log: seq<Fact>, ems: seq<Emission>, em: Emission)
    ensures KeysFree(log, ems + [em]) <==> KeysFree(log, ems) && !Logged(log, em.writer, em.dedupeKey)
  {
    if KeysFree(log, ems + [em]) {
      assert (ems + [em])[|ems|] == em;
      forall i | 0 <= i < |ems| ensures !Logged(log, ems[i].writer, ems[i].dedupeKey) {
        assert (ems + [em])[i] == ems[i];
      }
    }
  }

  lemma NextMergePlaysIff(
    db: Db, keep: EntityId, front: seq<EntityId>, last: EntityId, writer: WriterId, key: string, actor: PrincipalId,
    ts: Time)
    requires keep in db.t.entities && keep !in front && last !in front
    requires EmitAll(db, MergeEmissions(keep, front, writer, key, actor), ts).Ok?
    ensures var em := Emission(last, EntityMerged(keep, last), writer, MergeKey(key, last), actor);
      Emit(EmitAll(db, MergeEmissions(keep, front, writer, key, actor), ts).value, em, ts).Ok?
      <==> !Logged(db.log, writer, MergeKey(key, last))
  {
    var ems := MergeEmissions(keep, front, writer, key, actor);
    forall i | 0 <= i < |ems| ensures ems[i].dedupeKey != MergeKey(key, last) {
      MergeKeysDiffer(key, front[i], last);
    }
    MergesShrink(db, keep, front, writer, key, actor, ts);
    LoggedAfter(db, ems, ts, writer, MergeKey(key, last));
  }

  lemma {:induction false} MergesPlayIff(
    db: Db, keep: EntityId, drops: seq<EntityId>, writer: WriterId, key: string, actor: PrincipalId, ts: Time)
    requires keep in db.t.entities && keep !in drops && Distinct(drops)
    ensures EmitAll(db, MergeEmissions(keep, drops, writer, key, actor), ts).Ok?
            <==> KeysFree(db.log, MergeEmissions(keep, drops, writer, key, actor))
  {
    if drops != [] {
      var front, last := drops[..|drops| - 1], drops[|drops| - 1];
      var ems := MergeEmissions(keep, front, writer, key, actor);
      var em := Emission(last, EntityMerged(keep, last), writer, MergeKey(key, last), actor);
      assert drops == front + [last] && last !in front;
      MergesPlayIff(db, keep, front, writer, key, actor, ts);
      MergeEmissionsSnoc(keep, front, last, writer, key, actor);
      EmitAllSnoc(db, ems, em, ts);
      KeysFreeSnoc(db.log, ems, em);
      if EmitAll(db, ems, ts).Ok? {
        NextMergePlaysIff(db, keep, front, last, writer, key, actor, ts);
      }
    }
  }

  lemma AfterMerges(
    db: Db, keep: EntityId, drops: seq<EntityId>, main: Emission, writer: WriterId, key: string, actor: PrincipalId,
    ts: Time)
    requires keep in db.t.entities && keep !in drops && main.payload.EntityAsserted? && main.payload.entity.id == keep
    requires main.writer == writer && main.dedupeKey == key
    requires EmitAll(db, MergeEmissions(keep, drops, writer, key, actor), ts).Ok?
    ensures Emit(EmitAll(db, MergeEmissions(keep, drops, writer, key, actor), ts).value, main, ts).Ok?
            <==> !main.payload.entity.props.Malformed? && !Logged(db.log, writer, key)
  {
    var ems := MergeEmissions(keep, drops, writer, key, actor);
    forall i | 0 <= i < |ems| ensures ems[i].dedupeKey != key {
      MergeKeysDiffer(key, drops[i], drops[i] + "x");
    }
    MergesShrink(db, keep, drops, writer, key, actor, ts);
    LoggedAfter(db, ems, ts, writer, key);
  }

  lemma MergeScriptPlaysIff(
    db: Db, keep: EntityId, drops: seq<EntityId>, main: Emission, writer: WriterId, key: string, actor: PrincipalId,
    ts: Time)
    requires keep in db.t.entities && keep !in drops && Distinct(drops)
    requires main.payload.EntityAsserted? && main.payload.entity.id == keep && main.writer == writer
             && main.dedupeKey == key
    ensures var ems := MergeEmissions(keep, drops, writer, key, actor) + [main];
      EmitAll(db, ems, ts).Ok? <==> !main.payload.entity.props.Malformed? && KeysFree(db.log, ems)
  {
    var merges := MergeEmissions(keep, drops, writer, key, actor);
    MergesPlayIff(db, keep, drops, writer, key, actor, ts);
    EmitAllSnoc(db, merges, main, ts);
    KeysFreeSnoc(db.log, merges, main);
    if EmitAll(db, merges, ts).Ok? {
      AfterMerges(db, keep, drops, main, writer, key, actor, ts);
    }
  }

  lemma OnePlaysIff(db: Db, main: Emission, ts: Time)
    requires main.payload.EntityAsserted?
    ensures var e := main.payload.entity;
      EmitAll(db, [main], ts).Ok? <==> !e.props.Malformed? && Fits(db.t, e, e.id) && KeysFree(db.log, [main])
  {
    OneEmission(db, main, ts);
    assert [main][0] == main;
  }

  /** The flagging edge always goes in after its entity, under a key of its own. */
  lemma FlaggedPlaysIff(db: Db, main: Emission, edge: Emission, ts: Time)
    requires main.payload.EntityAsserted? && edge.payload.EdgeAsserted? && main.dedupeKey != edge.dedupeKey
    requires var ed := edge.payload.edge;
      && ed.from == main.payload.entity.id && ed.to in db.t.entities && ed.visibility.Valid()
      && ed.prov.how.Inferred? && ed.props.Absent?
    ensures var e := main.payload.entity;
      EmitAll(db, [main] + [edge], ts).Ok?
      <==> !e.props.Malformed? && Fits(db.t, e, e.id) && KeysFree(db.log, [main] + [edge])
  {
    OnePlaysIff(db, main, ts);
    EmitAllSnoc(db, [main], edge, ts);
    KeysFreeSnoc(db.log, [main], edge);
    if EmitAll(db, [main], ts).Ok? {
      LoggedAfter(db, [main], ts, edge.writer, edge.dedupeKey);
      OneEmission(db, main, ts);
    }
  }

  lemma ScriptPlaysIff(db: Db, in_: EntityInput, c: Entity, d: Decision, key: string, tick: Tick)
    requires Sound(db.t, d) && c.visibility.Valid()
    ensures var ems := EntityScript(in_, c, d, key, tick);
      EmitAll(db, ems, tick.now).Ok?
      <==> !c.props.Malformed? && Fits(db.t, c, DecisionTarget(d, tick)) && KeysFree(db.log, ems)
  {
    var ems, id := EntityScript(in_, c, d, key, tick), DecisionTarget(d, tick);
    var main := AssertEmission(in_, c, id, key);
    if d.Merge? {
      assert d.targets == [id] + d.targets[1..];
      MergeScriptPlaysIff(db, id, d.targets[1..], main, in_.writer, key, in_.actor, tick.now);
    } else if |ems| == 2 {
      assert ems == [main] + [ems[1]] && |ems[1].dedupeKey| > |key|;
      FlaggedPlaysIff(db, main, ems[1], tick.now);
    } else {
      assert ems == [main];
      OnePlaysIff(db, main, tick.now);
    }
  }

  lemma {:induction false} UnloggedHasNoPrior(log: seq<Fact>, writer: WriterId, key: string, entity: bool)
    requires !Logged(log, writer, key)
    ensures Prior(log, writer, key, entity) == None
  {
    if log != [] {
      var front := log[..|log| - 1];
      assert forall f | f in front :: f in log;
      UnloggedHasNoPrior(front, writer, key, entity);
      assert log[|log| - 1] in log;
    }
  }

  lemma ScriptHasKey(in_: EntityInput, c: Entity, d: Decision, key: string, tick: Tick) returns (i: nat)
    ensures i < |EntityScript(in_, c, d, key, tick)|
    ensures EntityScript(in_, c, d, key, tick)[i].writer == in_.writer
    ensures EntityScript(in_, c, d, key, tick)[i].dedupeKey == key
  {
    var ems := EntityScript(in_, c, d, key, tick);
    i := if d.Merge? then |ems| - 1 else 0;
  }

  lemma FreeHasNoPrior(db: Db, in_: EntityInput, c: Entity, d: Decision, key: string, tick: Tick)
    requires KeysFree(db.log, EntityScript(in_, c, d, key, tick))
    ensures Prior(db.log, in_.writer, key, true) == None
  {
    var i := ScriptHasKey(in_, c, d, key, tick);
    UnloggedHasNoPrior(db.log, in_.writer, key, true);
  }

  /** An entity write goes through exactly when it is acceptable. */
  lemma AcceptedIff(cfg: Config, db: Db, in_: EntityInput, tick: Tick)
    ensures AppendEntity(cfg, db, in_, tick).1.Accepted? <==> Acceptable(cfg, db, in_, tick)
  {
    var c, key := Stamped(in_, tick), EntityKey(cfg, in_, tick);
    var d := EntityDecision(cfg, db.t, c, EffectivePolicy(in_.policy));
    if d.Ok? && c.visibility.Valid() {
      DecisionSound(cfg, db.t, c, EffectivePolicy(in_.policy));
      ScriptPlaysIff(db, in_, c, d.value, key, tick);
      if KeysFree(db.log, EntityScript(in_, c, d.value, key, tick)) {
        FreeHasNoPrior(db, in_, c, d.value, key, tick);
      }
    }
  }

  lemma NotAccepted(cfg: Config, db: Db, in_: EntityInput, tick: Tick)
    requires !AppendEntity(cfg, db, in_, tick).1.Accepted?
    ensures AppendEntity(cfg, db, in_, tick).0 == db
  {
  }

  /** The fact asserts an entity, or an edge, under this key. */
  predicate AssertsUnder(f: Fact, writer: WriterId, key: string, entity: bool) {
    f.writer == writer && f.dedupeKey == key && if entity then f.payload.EntityAsserted? else f.payload.EdgeAsserted?
  }

  /** The first such fact is about s. */
  ghost predicate FirstUnder(log: seq<Fact>, writer: WriterId, key: string, entity: bool, s: string) {
    exists i :: 0 <= i < |log| && log[i].subject == s && AssertsUnder(log[i], writer, key, entity)
      && forall j | 0 <= j < i :: !AssertsUnder(log[j], writer, key, entity)
  }

  lemma FirstUnderSnoc(front: seq<Fact>, last: Fact, writer: WriterId, key: string, entity: bool, s: string)
    ensures FirstUnder(front + [last], writer, key, entity, s) <==>
            || FirstUnder(front, writer, key, entity, s)
            || (last.subject == s && AssertsUnder(last, writer, key, entity)
                && forall f | f in front :: !AssertsUnder(f, writer, key, entity))
  {
    var log := front + [last];
    if FirstUnder(front, writer, key, entity, s) {
      var i :| 0 <= i < |front| && front[i].subject == s && AssertsUnder(front[i], writer, key, entity)
        && forall j | 0 <= j < i :: !AssertsUnder(front[j], writer, key, entity);
      assert log[i] == front[i] && forall j | 0 <= j < i :: log[j] == front[j];
    }
    if FirstUnder(log, writer, key, entity, s) {
      var i :| 0 <= i < |log| && log[i].subject == s && AssertsUnder(log[i], writer, key, entity)
        && forall j | 0 <= j < i :: !AssertsUnder(log[j], writer, key, entity);
      assert forall j | 0 <= j < i :: front[j] == log[j];
      assert i < |front| ==> front[i] == log[i];
    }
    if forall f | f in front :: !AssertsUnder(f, writer, key, entity) {
      assert forall j | 0 <= j < |front| :: log[j] == front[j] && front[j] in front;
      assert log[|front|] == last;
    }
  }

  lemma FirstIsThere(log: seq<Fact>, writer: WriterId, key: string, entity: bool, s: string)
    requires FirstUnder(log, writer, key, entity, s)
    ensures exists f :: f in log && AssertsUnder(f, writer, key, entity)
  {
    var i :| 0 <= i < |log| && log[i].subject == s && AssertsUnder(log[i], writer, key, entity);
    assert log[i] in log;
  }

  lemma {:induction false} PriorIsFirst(log: seq<Fact>, writer: WriterId, key: string, entity: bool)
    ensures Prior(log, writer, key, entity).None? <==> forall f | f in log :: !AssertsUnder(f, writer, key, entity)
    ensures forall s :: Prior(log, writer, key, entity) == Some(s) <==> FirstUnder(log, writer, key, entity, s)
  {
    if log != [] {
      var front, last := log[..|log| - 1], log[|log| - 1];
      assert log == front + [last];
      PriorIsFirst(front, writer, key, entity);
      forall s ensures Prior(log, writer, key, entity) == Some(s) <==> FirstUnder(log, writer, key, entity, s) {
        FirstUnderSnoc(front, last, writer, key, entity, s);
        if FirstUnder(front, writer, key, entity, s) {
          FirstIsThere(front, writer, key, entity, s);
        }
      }
    }
  }

  /** Which answer an entity write gets before it resolves anything, and which when it repeats. */
  lemma EarlyAnswers(cfg: Config, db: Db, in_: EntityInput, tick: Tick)
    ensures var out, c, key := AppendEntity(cfg, db, in_, tick).1, in_.candidate, EntityKey(cfg, in_, tick);
      var known := c.typ in ALLOWED_TYPES && !c.visibility.OtherVisibility?;
      && (!known ==> out == Rejected(InvalidInput))
      && (known && in_.policy.OtherPolicy? ==> out == Rejected(InvalidPolicy))
      && (forall s | known && !in_.policy.OtherPolicy? && FirstUnder(db.log, in_.writer, key, true, s) ::
            out == if s in db.t.entities then Replayed(s) else Rejected(NotFound))
      && (out.Replayed? ==> known && !in_.policy.OtherPolicy? && FirstUnder(db.log, in_.writer, key, true, out.subject))
  {
    PriorIsFirst(db.log, in_.writer, EntityKey(cfg, in_, tick), true);
  }

  // ---- edges ----

  predicate EdgeKnown(ed: Edge) {
    ed.predicate_ in ALLOWED_PREDICATES && !ed.visibility.OtherVisibility?
  }

  /** It joins live entities, by a method the schema admits, with props that are JSON if there are any. */
  predicate EdgeFits(t: Tables, ed: Edge) {
    ed.from in t.entities && ed.to in t.entities && KnownMethod(ed.prov.how) && !ed.props.Malformed?
  }

  /** An edge write goes through exactly when the edge is known and fits, and its key is unused. */
  lemma EdgeAcceptedIff(db: Db, in_: EdgeInput, tick: Tick)
    ensures AppendEdge(db, in_, tick).1.Accepted? <==>
            EdgeKnown(in_.edge) && EdgeFits(db.t, in_.edge) && !Logged(db.log, in_.writer, EdgeKey(in_))
  {
    if !Logged(db.log, in_.writer, EdgeKey(in_)) {
      UnloggedHasNoPrior(db.log, in_.writer, EdgeKey(in_), false);
    }
  }

  /** And every other answer says why it did not. */
  lemma EdgeAnswers(db: Db, in_: EdgeInput, tick: Tick)
    ensures var out, key := AppendEdge(db, in_, tick).1, EdgeKey(in_);
      && (!EdgeKnown(in_.edge) ==> out == Rejected(InvalidInput))
      && (forall s | EdgeKnown(in_.edge) && FirstUnder(db.log, in_.writer, key, false, s) ::
            out == if s in db.t.edges then Replayed(s) else Rejected(NotFound))
      && (EdgeKnown(in_.edge) && (forall f | f in db.log :: !AssertsUnder(f, in_.writer, key, false)) ==>
            out == if !EdgeFits(db.t, in_.edge) then Rejected(Constraint)
                   else if Logged(db.log, in_.writer, key) then Rejected(DuplicateFact) else Accepted(tick.edgeId))
      && (out.Replayed? ==> FirstUnder(db.log, in_.writer, key, false, out.subject))
  {
    PriorIsFirst(db.log, in_.writer, EdgeKey(in_), false);
  }

  /** With no key given, and no bar in the four fields, two edges derive one key exactly when they
      agree on all four. */
  lemma DefaultKeysIff(a: EdgeInput, b: EdgeInput)
    requires a.dedupeKey == b.dedupeKey == ""
    requires forall ed | ed in {a.edge, b.edge} ::
      '|' !in ed.space && '|' !in ed.predicate_ && '|' !in ed.from && '|' !in ed.to
    ensures EdgeKey(a) == EdgeKey(b) <==>
            && a.edge.space == b.edge.space && a.edge.predicate_ == b.edge.predicate_
            && a.edge.from == b.edge.from && a.edge.to == b.edge.to
  {
    var x, y := a.edge, b.edge;
    if EdgeKey(a) == EdgeKey(b) {
      var tx, ty := x.from + ("|" + x.to), y.from + ("|" + y.to);
      assert EdgeKey(a) == "edge|" + (x.space + ("|" + (x.predicate_ + ("|" + tx))));
      assert EdgeKey(b) == "edge|" + (y.space + ("|" + (y.predicate_ + ("|" + ty))));
      assert EdgeKey(a)[5..] == EdgeKey(b)[5..];
      CutAt('|', x.space, y.space, x.predicate_ + ("|" + tx), y.predicate_ + ("|" + ty));
      CutAt('|', x.predicate_, y.predicate_, tx, ty);
      CutAt('|', x.from, y.from, x.to, y.to);
    }
  }

  lemma MergeAcceptedIff(db: Db, keep: EntityId, drop: EntityId, actor: PrincipalId, key: string, now: Time)
    ensures MergeDirect(db, keep, drop, actor, key, now).1.Accepted? <==> MergeAcceptable(db, keep, drop, actor, key)
  {
  }
}
