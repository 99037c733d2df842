/** The full-text table beside the entities: online writes never leave a row behind, and a
    rebuild does so exactly for entities the log retracted while they were live. */
module FullText {
  import opened Json
  import opened Domain
  import opened Tables
  import opened Store
  import opened Invariants

  /** A full-text row whose entity is gone. */
  predicate Orphan(t: Tables, id: EntityId) {
    id !in t.entities && RowsFor(t.fts, id) != []
  }

  ghost predicate NoOrphans(t: Tables) {
    forall id :: !Orphan(t, id)
  }

  // ---- online writes ----

  lemma ApplyKeepsNoOrphans(t: Tables, subject: string, p: Payload, ts: Time)
    requires NoOrphans(t) && ApplyLive(t, subject, p, ts).Ok?
    ensures NoOrphans(ApplyLive(t, subject, p, ts).value)
  {
    var t' := ApplyLive(t, subject, p, ts).value;
    forall id ensures !Orphan(t', id) {
      assert !Orphan(t, id);
      match p
      case EntityAsserted(e) =>
        RowsAfterDrop(t.fts, e.id, id);
        RowsAfterAppend(DropRows(t.fts, e.id), FtsRow(e.id, RowText(t'.entities[e.id])), id);
      case EntityRetracted => RowsAfterDrop(t.fts, subject, id);
      case EntityMerged(keep, drop) => RowsAfterDrop(t.fts, drop, id);
      case _ =>
    }
  }

  lemma {:induction false} EmitAllKeepsNoOrphans(db: Db, ems: seq<Emission>, ts: Time)
    requires NoOrphans(db.t) && EmitAll(db, ems, ts).Ok?
    ensures NoOrphans(EmitAll(db, ems, ts).value.t)
  {
    if ems != [] {
      var front, last := ems[..|ems| - 1], ems[|ems| - 1];
      EmitAllKeepsNoOrphans(db, front, ts);
      ApplyKeepsNoOrphans(EmitAll(db, front, ts).value.t, last.subject, last.payload, ts);
    }
  }

  predicate NoRebuild(ops: seq<Op>) {
    forall i | 0 <= i < |ops| :: !ops[i].RebuildOp?
  }

  /** Until a rebuild, the full-text table holds one current row for each live entity, and no other. */
  lemma {:induction false} RunHasNoOrphans(cfg: Config, ops: seq<Op>)
    requires IsRun(cfg, ops) && NoRebuild(ops)
    ensures NoOrphans(Run(cfg, ops).t) && FtsCurrent(Run(cfg, ops).t)
  {
    RunKeepsInv(cfg, ops);
    if ops != [] {
      var front, last := ops[..|ops| - 1], ops[|ops| - 1];
      RunHasNoOrphans(cfg, front);
      RunKeepsInv(cfg, front);
      var ems, ts := StepPlaysScript(cfg, Run(cfg, front), last);
      if Step(cfg, Run(cfg, front), last) != Run(cfg, front) {
        EmitAllKeepsNoOrphans(Run(cfg, front), ems, ts);
      }
    }
  }

  /** A current row's text: the type, and every top-level text of the bag that is not empty. */
  lemma IndexedText(t: Tables, id: EntityId)
    requires FtsCurrent(t) && id in t.entities
    ensures var rows, row := RowsFor(t.fts, id), t.entities[id];
      && |rows| == 1 && rows[0].typ == row.typ
      && forall k, s :: (k in rows[0].values && rows[0].values[k] == s)
                        <==> s != "" && At(row.props, [k]) == Here(JStr(s))
  {
    var rows, row := RowsFor(t.fts, id), t.entities[id];
    forall k, s ensures (k in rows[0].values && rows[0].values[k] == s)
      <==> s != "" && At(row.props, [k]) == Here(JStr(s))
    {
      OneStep(row.props, k);
    }
  }

  // ---- a rebuild ----

  /** Some fact in the log retracts an entity live at that point. */
  predicate RetractsLive(log: seq<Fact>) {
    log != [] &&
    var front, last := log[..|log| - 1], log[|log| - 1];
    RetractsLive(front)
    || (last.payload.EntityRetracted? && Fold(front).Ok? && last.subject in Fold(front).value.entities)
  }

  /** Rebuilding now leaves a row without an entity exactly when the log retracts a live one. */
  ghost predicate OrphansIff(db: Db) {
    Fold(db.log).Ok? && ((exists id :: Orphan(Fold(db.log).value, id)) <==> RetractsLive(db.log))
  }

  /** Rows are only ever written for asserted ids. */
  ghost predicate RowsRecorded(db: Db) {
    Fold(db.log).Ok? && forall id | RowsFor(Fold(db.log).value.fts, id) != [] :: AssertedBefore(db.log, id)
  }

  lemma FoldRows(b: Tables, f: Fact, id: EntityId)
    requires FoldFact(b, f).Ok?
    ensures var rows := RowsFor(FoldFact(b, f).value.fts, id);
            match f.payload
            case EntityAsserted(e) =>
              rows == (if id == e.id then [RowText(FoldFact(b, f).value.entities[id])] else RowsFor(b.fts, id))
            case EntityMerged(keep, drop) => rows == (if id == drop && keep != drop then [] else RowsFor(b.fts, id))
            case _ => rows == RowsFor(b.fts, id)
  {
    match f.payload
    case EntityAsserted(e) =>
      RowsAfterDrop(b.fts, e.id, id);
      RowsAfterAppend(DropRows(b.fts, e.id), FtsRow(e.id, RowText(FoldFact(b, f).value.entities[e.id])), id);
    case EntityMerged(keep, drop) => RowsAfterDrop(b.fts, drop, id);
    case _ =>
  }

  lemma AssertedOrphan(db: Db, b: Tables, f: Fact, id: EntityId)
    requires f.payload.EntityAsserted? && FoldFact(b, f).Ok?
    requires f.payload.entity.id in b.entities || FreshId(db.log, f.payload.entity.id)
    requires RowsFor(b.fts, id) != [] ==> AssertedBefore(db.log, id)
    ensures Orphan(FoldFact(b, f).value, id) <==> Orphan(b, id)
  {
    FoldRows(b, f, id);
    if f.payload.entity.id == id && id !in b.entities {
      assert FreshId(db.log, id);
      assert !AssertedBefore(db.log, id);
    }
  }

  lemma OtherOrphan(b: Tables, f: Fact, id: EntityId)
    requires !f.payload.EntityAsserted? && FoldFact(b, f).Ok? && FtsCurrent(b)
    requires f.payload.EntityMerged? ==> f.payload.keep in b.entities && f.payload.drop in b.entities
    ensures Orphan(FoldFact(b, f).value, id) <==>
            Orphan(b, id) || (f.payload.EntityRetracted? && f.subject == id && id in b.entities)
  {
    FoldRows(b, f, id);
  }

  /** One folded fact makes an orphan exactly of the live entity it retracts. */
  lemma FoldOrphan(db: Db, b: Tables, em: Emission, ts: Time, id: EntityId)
    requires Agrees(db.t, b) && FtsCurrent(b) && Admissible(db, em) && FoldFact(b, FactOf(em, ts)).Ok?
    requires RowsFor(b.fts, id) != [] ==> AssertedBefore(db.log, id)
    ensures Orphan(FoldFact(b, FactOf(em, ts)).value, id) <==>
            Orphan(b, id) || (em.payload.EntityRetracted? && em.subject == id && id in b.entities)
  {
    if em.payload.EntityAsserted? {
      AssertedOrphan(db, b, FactOf(em, ts), id);
    } else {
      OtherOrphan(b, FactOf(em, ts), id);
    }
  }

  lemma EmitKeepsOrphansIff(db: Db, em: Emission, ts: Time)
    requires Tracks(db) && OrphansIff(db) && RowsRecorded(db) && Admissible(db, em)
    requires Emit(db, em, ts).Ok? && Fold(Emit(db, em, ts).value.log).Ok?
    ensures OrphansIff(Emit(db, em, ts).value) && RowsRecorded(Emit(db, em, ts).value)
  {
    var b, f := Fold(db.log).value, FactOf(em, ts);
    var log' := Emit(db, em, ts).value.log;
    assert log' == db.log + [f] && log'[..|db.log|] == db.log;
    var b' := FoldFact(b, f).value;
    forall id | RowsFor(b'.fts, id) != [] ensures AssertedBefore(log', id) {
      FoldRows(b, f, id);
      assert f in log' && forall g | g in db.log :: g in log';
    }
    forall id
      ensures Orphan(b', id) <==> Orphan(b, id) || (em.payload.EntityRetracted? && em.subject == id && id in b.entities)
    {
      FoldOrphan(db, b, em, ts, id);
    }
    assert RetractsLive(log') <==> RetractsLive(db.log) || (em.payload.EntityRetracted? && em.subject in b.entities);
    if em.payload.EntityRetracted? && em.subject in b.entities {
      assert Orphan(b', em.subject);
    }
  }

  lemma {:induction false} EmitAllKeepsOrphansIff(db: Db, ems: seq<Emission>, ts: Time)
    requires Inv(db) && OrphansIff(db) && RowsRecorded(db) && AdmissibleAll(db, ems, ts) && EmitAll(db, ems, ts).Ok?
    ensures OrphansIff(EmitAll(db, ems, ts).value) && RowsRecorded(EmitAll(db, ems, ts).value)
  {
    if ems != [] {
      var front, last := ems[..|ems| - 1], ems[|ems| - 1];
      assert ems == front + [last];
      EmitAllSnoc(db, front, last, ts);
      EmitAllKeepsOrphansIff(db, front, ts);
      EmitAllKeepsInv(db, front, ts);
      EmitKeepsInv(EmitAll(db, front, ts).value, last, ts);
      EmitKeepsOrphansIff(EmitAll(db, front, ts).value, last, ts);
    }
  }

  /** Over every run: a rebuild leaves a full-text row without its entity exactly when some fact
      of the log retracts an entity that was live when it was written. */
  lemma {:induction false} RebuildOrphansIff(cfg: Config, ops: seq<Op>)
    requires IsRun(cfg, ops)
    ensures OrphansIff(Run(cfg, ops)) && RowsRecorded(Run(cfg, ops))
  {
    if ops == [] {
      assert forall id :: !Orphan(EMPTY, id);
    } else {
      var front, last := ops[..|ops| - 1], ops[|ops| - 1];
      RebuildOrphansIff(cfg, front);
      RunKeepsInv(cfg, front);
      if !last.RebuildOp? {
        var ems, ts := StepPlaysScript(cfg, Run(cfg, front), last);
        if Step(cfg, Run(cfg, front), last) != Run(cfg, front) {
          EmitAllKeepsOrphansIff(Run(cfg, front), ems, ts);
        }
      }
    }
  }
}
