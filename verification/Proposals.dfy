/** The governed write path: proposals that hold a write, and any number of deciders moving
    through read, conditional update, replay and record, interleaved with each other, with new
    proposals and with direct writes. A decider may stop for good between any two steps. */
module Proposals {
  import opened Domain
  import opened Store
  import opened Invariants

  type ProposalId = string
  type DeciderId = nat

  datatype Kind = EntityKind | EdgeKind | OtherKind(name: string)

  /** A payload, as what it unmarshals to, if it does. */
  datatype Held = Held(asEntity: Option<EntityInput>, asEdge: Option<EdgeInput>)

  datatype Status = Pending | Promoted | Discarded

  datatype Row = Row(kind: Kind, held: Held, status: Status, decidedBy: Option<PrincipalId>, subject: Option<string>)

  datatype Verdict = Success | Missing | Conflict | Undecodable | Unproposable | Failed(error: Error)

  datatype Pc =
    | Reading
    | Deciding(kind: Kind, held: Held)
    | Claimed(kind: Kind, held: Held)
    | Recording(subject: string)
    | Finished(verdict: Verdict)

  datatype Decider = Decider(pid: ProposalId, approve: bool, approver: PrincipalId, pc: Pc)

  /** A status that changed, a held write that was replayed, a write that came directly. */
  datatype Event =
    | Decided(pid: ProposalId, who: DeciderId, status: Status)
    | Applied(pid: ProposalId, who: DeciderId, op: Op)
    | Direct(op: Op)

  datatype State = State(db: Db, rows: map<ProposalId, Row>, deciders: map<DeciderId, Decider>, log: seq<Event>)

  const START := State(EMPTY_DB, map[], map[], [])

  datatype Action =
    | Propose(id: ProposalId, kind: Kind, wellFormed: bool, held: Held)
    | Begin(d: DeciderId, pid: ProposalId, approve: bool, approver: PrincipalId)
    | Move(d: DeciderId, tick: Tick)
    | Write(op: Op)

  /** The write a proposal of this kind holds. */
  function HeldOp(kind: Kind, held: Held, tick: Tick): Option<Op> {
    match kind
    case EntityKind => if held.asEntity.Some? then Some(AppendEntityOp(held.asEntity.value, tick)) else None
    case EdgeKind => if held.asEdge.Some? then Some(AppendEdgeOp(held.asEdge.value, tick)) else None
    case OtherKind(_) => None
  }

  function At(s: State, d: DeciderId, pc: Pc): State
    requires d in s.deciders
  {
    s.(deciders := s.deciders[d := s.deciders[d].(pc := pc)])
  }

  /** UPDATE … WHERE id = ? AND status = 'pending', which changed one row. */
  function Decide(s: State, d: DeciderId, status: Status): State
    requires d in s.deciders && s.deciders[d].pid in s.rows
  {
    var pid := s.deciders[d].pid;
    s.(rows := s.rows[pid := s.rows[pid].(status := status, decidedBy := Some(s.deciders[d].approver))],
       log := s.log + [Decided(pid, d, status)])
  }

  /** What the replay's outcome leads to: a duplicate counts as done. */
  function AfterReplay(out: Outcome): Pc {
    match out
    case Accepted(subject) => Recording(subject)
    case Replayed(subject) => Recording(subject)
    case Rejected(e) => if e.DuplicateFact? then Recording("") else Finished(Failed(e))
  }

  function Replay(cfg: Config, s: State, d: DeciderId, op: Op): State
    requires d in s.deciders
  {
    var (db, out) := Perform(cfg, s.db, op);
    At(s, d, AfterReplay(out)).(db := db, log := s.log + [Applied(s.deciders[d].pid, d, op)])
  }

  function StillPending(s: State, pid: ProposalId): bool {
    pid in s.rows && s.rows[pid].status.Pending?
  }

  /** The subject goes into the row, if there still is one. */
  function WithSubject(s: State, d: DeciderId, subject: string): State
    requires d in s.deciders
  {
    var pid := s.deciders[d].pid;
    if pid !in s.rows then At(s, d, Finished(Success))
    else At(s, d, Finished(Success)).(rows := s.rows[pid := s.rows[pid].(subject := Some(subject))])
  }

  /** What a decider goes on to from its read. */
  function AfterRead(s: State, pid: ProposalId): Pc {
    if pid !in s.rows then Finished(Missing)
    else if !s.rows[pid].status.Pending? then Finished(Conflict)
    else Deciding(s.rows[pid].kind, s.rows[pid].held)
  }

  /** One step of a decider. */
  function Advance(cfg: Config, s: State, d: DeciderId, tick: Tick): State
    requires d in s.deciders
  {
    var me := s.deciders[d];
    match me.pc
    case Reading => At(s, d, AfterRead(s, me.pid))
    case Deciding(kind, held) =>
      if !me.approve then At(if StillPending(s, me.pid) then Decide(s, d, Discarded) else s, d, Finished(Success))
      else if StillPending(s, me.pid) then At(Decide(s, d, Promoted), d, Claimed(kind, held))
      else At(s, d, Finished(Conflict))
    case Claimed(kind, held) =>
      if kind.OtherKind? then At(s, d, Finished(Unproposable))
      else
        var op := HeldOp(kind, held, tick);
        if op.None? then At(s, d, Finished(Undecodable))
        else if !Minted(s.db, op.value) then s
        else Replay(cfg, s, d, op.value)
    case Recording(subject) => WithSubject(s, d, subject)
    case Finished(_) => s
  }

  /** Propose refuses other kinds, malformed payloads and taken ids. */
  function Next(cfg: Config, s: State, a: Action): State {
    match a
    case Propose(id, kind, wellFormed, held) =>
      if kind.OtherKind? || !wellFormed || id in s.rows then s
      else s.(rows := s.rows[id := Row(kind, held, Pending, None, None)])
    case Begin(d, pid, approve, approver) =>
      if d in s.deciders then s else s.(deciders := s.deciders[d := Decider(pid, approve, approver, Reading)])
    case Move(d, tick) => if d in s.deciders then Advance(cfg, s, d, tick) else s
    case Write(op) =>
      if Minted(s.db, op) then s.(db := Step(cfg, s.db, op), log := s.log + [Direct(op)]) else s
  }

  function RunFrom(cfg: Config, s: State, acts: seq<Action>): State
    decreases |acts|
  {
    if acts == [] then s else RunFrom(cfg, Next(cfg, s, acts[0]), acts[1..])
  }

  // ---- what the events say ----

  function Decisions(log: seq<Event>, pid: ProposalId): nat {
    if log == [] then 0
    else
      var last := log[|log| - 1];
      Decisions(log[..|log| - 1], pid) + if last.Decided? && last.pid == pid then 1 else 0
  }

  function Replays(log: seq<Event>, pid: ProposalId): nat {
    if log == [] then 0
    else
      var last := log[|log| - 1];
      Replays(log[..|log| - 1], pid) + if last.Applied? && last.pid == pid then 1 else 0
  }

  /** The writes that reached the store, in order. */
  function Writes(log: seq<Event>): seq<Op> {
    if log == [] then []
    else
      var last := log[|log| - 1];
      Writes(log[..|log| - 1]) + if last.Decided? then [] else [last.op]
  }

  lemma Snoc(log: seq<Event>, e: Event)
    ensures forall pid :: Decisions(log + [e], pid) == Decisions(log, pid) + if e.Decided? && e.pid == pid then 1 else 0
    ensures forall pid :: Replays(log + [e], pid) == Replays(log, pid) + if e.Applied? && e.pid == pid then 1 else 0
    ensures Writes(log + [e]) == Writes(log) + if e.Decided? then [] else [e.op]
    ensures forall x :: x in log + [e] <==> x in log || x == e
  {
    assert (log + [e])[..|log|] == log;
  }

  lemma {:induction false} NoneDecided(log: seq<Event>, pid: ProposalId)
    requires Decisions(log, pid) == 0
    ensures forall e | e in log && e.Decided? :: e.pid != pid
  {
    if log != [] {
      NoneDecided(log[..|log| - 1], pid);
      assert log == log[..|log| - 1] + [log[|log| - 1]];
    }
  }

  /** With one decision in the log there is one decider. */
  lemma {:induction false} OneDecided(log: seq<Event>, a: Event, b: Event)
    requires a in log && b in log && a.Decided? && b.Decided? && a.pid == b.pid && Decisions(log, a.pid) <= 1
    ensures a == b
  {
    var front, last := log[..|log| - 1], log[|log| - 1];
    assert log == front + [last];
    if last == a || last == b {
      NoneDecided(front, a.pid);
    } else {
      OneDecided(front, a, b);
    }
  }

  // ---- the invariant ----

  ghost predicate RowInv(s: State, pid: ProposalId) {
    && Decisions(s.log, pid) <= 1 && Replays(s.log, pid) <= 1
    && (pid !in s.rows ==> Decisions(s.log, pid) == 0)
    && (pid in s.rows ==>
          !s.rows[pid].kind.OtherKind? && (s.rows[pid].status.Pending? <==> Decisions(s.log, pid) == 0))
  }

  ghost predicate EventInv(s: State, e: Event) {
    match e
    case Decided(pid, who, status) =>
      && pid in s.rows && s.rows[pid].status == status
      && who in s.deciders && s.rows[pid].decidedBy == Some(s.deciders[who].approver)
    case Applied(pid, who, op) =>
      && Decided(pid, who, Promoted) in s.log && pid in s.rows
      && exists tick :: HeldOp(s.rows[pid].kind, s.rows[pid].held, tick) == Some(op)
    case Direct(_) => true
  }

  ghost predicate DeciderInv(s: State, d: DeciderId)
    requires d in s.deciders
  {
    var me := s.deciders[d];
    && (me.pc.Deciding? || me.pc.Claimed? ==>
          me.pid in s.rows && s.rows[me.pid].kind == me.pc.kind && s.rows[me.pid].held == me.pc.held)
    && (me.pc.Reading? || me.pc.Deciding? ==> forall e | e in s.log && e.Decided? :: e.who != d)
    && (me.pc.Claimed? ==> Decided(me.pid, d, Promoted) in s.log && Replays(s.log, me.pid) == 0)
    && VerdictInv(s, d, me)
  }

  /** What a caller may conclude from its verdict. */
  ghost predicate VerdictInv(s: State, d: DeciderId, me: Decider) {
    && (me.pc.Recording? || (me.pc == Finished(Success) && me.approve) ==>
          exists op :: Applied(me.pid, d, op) in s.log)
    && ((me.pc == Finished(Success) && !me.approve) || me.pc == Finished(Conflict) ==>
          me.pid in s.rows && !s.rows[me.pid].status.Pending?)
    && (me.pc.Claimed? || me.pc.Recording? ==> me.approve)
    && (me.pc == Finished(Conflict) || me.pc == Finished(Missing) ==> forall e | e in s.log && e.Decided? :: e.who != d)
    && (me.pc == Finished(Undecodable) ==>
          Decided(me.pid, d, Promoted) in s.log && me.pid in s.rows && !Decodes(s.rows[me.pid]))
    && me.pc != Finished(Unproposable)
  }

  /** The payload unmarshals to a write of the proposal's kind. */
  predicate Decodes(row: Row) {
    (row.kind.EntityKind? && row.held.asEntity.Some?) || (row.kind.EdgeKind? && row.held.asEdge.Some?)
  }

  ghost predicate LogInv(s: State) {
    && (forall pid :: RowInv(s, pid))
    && (forall e | e in s.log :: EventInv(s, e))
  }

  ghost predicate StoreInv(cfg: Config, s: State) {
    s.db == Run(cfg, Writes(s.log)) && IsRun(cfg, Writes(s.log))
  }

  ghost predicate GovInv(cfg: Config, s: State) {
    LogInv(s) && StoreInv(cfg, s) && forall d | d in s.deciders :: DeciderInv(s, d)
  }

  lemma {:induction false} NoneApplied(log: seq<Event>, pid: ProposalId)
    requires forall e | e in log && e.Applied? :: e.pid != pid
    ensures Replays(log, pid) == 0
  {
    if log != [] {
      var front, last := log[..|log| - 1], log[|log| - 1];
      assert log == front + [last];
      NoneApplied(front, pid);
    }
  }

  // ---- every step keeps it ----

  /** The log and the rows' kinds, payloads and statuses are as before. */
  ghost predicate SameRecord(s: State, s': State) {
    && s'.log == s.log && s.rows.Keys <= s'.rows.Keys
    && (forall pid | pid in s.rows :: s'.rows[pid].(subject := s.rows[pid].subject) == s.rows[pid])
    && (forall pid | pid in s'.rows && pid !in s.rows ::
          s'.rows[pid].status.Pending? && !s'.rows[pid].kind.OtherKind?)
    && (forall d | d in s.deciders :: d in s'.deciders && s'.deciders[d].approver == s.deciders[d].approver)
  }

  lemma RecordKept(s: State, s': State)
    requires LogInv(s) && SameRecord(s, s')
    ensures LogInv(s')
  {
    forall pid ensures RowInv(s', pid) {
      assert RowInv(s, pid);
    }
    forall e | e in s'.log ensures EventInv(s', e) {
      assert EventInv(s, e);
    }
  }

  lemma DeciderKept(s: State, s': State, d: DeciderId)
    requires SameRecord(s, s') && d in s.deciders && DeciderInv(s, d) && s'.deciders[d] == s.deciders[d]
    ensures DeciderInv(s', d)
  {
  }

  lemma QuietKeeps(cfg: Config, s: State, s': State, d: DeciderId)
    requires GovInv(cfg, s) && SameRecord(s, s') && s'.db == s.db
    requires s'.deciders.Keys == s.deciders.Keys + {d} && DeciderInv(s', d)
    requires forall x | x in s.deciders && x != d :: s'.deciders[x] == s.deciders[x]
    ensures GovInv(cfg, s')
  {
    RecordKept(s, s');
    forall x | x in s'.deciders ensures DeciderInv(s', x) {
      if x != d {
        DeciderKept(s, s', x);
      }
    }
  }

  lemma ProposeKeeps(cfg: Config, s: State, id: ProposalId, row: Row)
    requires GovInv(cfg, s) && id !in s.rows && row.status.Pending? && !row.kind.OtherKind?
    ensures GovInv(cfg, s.(rows := s.rows[id := row]))
  {
    var s' := s.(rows := s.rows[id := row]);
    RecordKept(s, s');
    forall x | x in s'.deciders ensures DeciderInv(s', x) {
      DeciderKept(s, s', x);
    }
  }

  lemma BeginKeeps(cfg: Config, s: State, d: DeciderId, me: Decider)
    requires GovInv(cfg, s) && d !in s.deciders && me.pc.Reading?
    ensures GovInv(cfg, s.(deciders := s.deciders[d := me]))
  {
    var s' := s.(deciders := s.deciders[d := me]);
    forall e | e in s.log && e.Decided? ensures e.who != d {
      assert EventInv(s, e);
    }
    QuietKeeps(cfg, s, s', d);
  }

  lemma WriteKeeps(cfg: Config, s: State, op: Op)
    requires GovInv(cfg, s) && Minted(s.db, op)
    ensures GovInv(cfg, s.(db := Step(cfg, s.db, op), log := s.log + [Direct(op)]))
  {
    var s' := s.(db := Step(cfg, s.db, op), log := s.log + [Direct(op)]);
    LoggedKeeps(s, s', Direct(op));
    WritesGrow(cfg, s.log, Direct(op));
    forall d | d in s'.deciders ensures DeciderInv(s', d) {
      Snoc(s.log, Direct(op));
    }
  }

  lemma WritesGrow(cfg: Config, log: seq<Event>, e: Event)
    requires IsRun(cfg, Writes(log)) && (e.Decided? || Minted(Run(cfg, Writes(log)), e.op))
    ensures IsRun(cfg, Writes(log + [e]))
    ensures Run(cfg, Writes(log + [e]))
            == if e.Decided? then Run(cfg, Writes(log)) else Step(cfg, Run(cfg, Writes(log)), e.op)
  {
    Snoc(log, e);
    if !e.Decided? {
      assert (Writes(log) + [e.op])[..|Writes(log)|] == Writes(log);
    } else {
      assert Writes(log) + [] == Writes(log);
    }
  }

  /** One more event that decides nothing: the record stays sound if the event is. */
  lemma LoggedKeeps(s: State, s': State, e: Event)
    requires LogInv(s) && s'.log == s.log + [e] && !e.Decided? && s'.rows == s.rows
    requires forall d | d in s.deciders :: d in s'.deciders && s'.deciders[d].approver == s.deciders[d].approver
    requires EventInv(s', e) && (e.Applied? ==> Replays(s.log, e.pid) == 0)
    ensures LogInv(s')
  {
    Snoc(s.log, e);
    forall pid ensures RowInv(s', pid) {
      assert RowInv(s, pid);
    }
    forall x | x in s'.log ensures EventInv(s', x) {
      if x != e {
        assert EventInv(s, x);
      }
    }
  }

  lemma DecideKeepsLog(s: State, d: DeciderId, status: Status)
    requires LogInv(s) && d in s.deciders && StillPending(s, s.deciders[d].pid) && !status.Pending?
    ensures LogInv(Decide(s, d, status))
  {
    var s', pid := Decide(s, d, status), s.deciders[d].pid;
    Snoc(s.log, Decided(pid, d, status));
    assert RowInv(s, pid);
    forall x ensures RowInv(s', x) {
      assert RowInv(s, x);
    }
    forall e | e in s'.log ensures EventInv(s', e) {
      if e in s.log {
        DecideKeepsEvent(s, d, status, e);
      }
    }
  }

  lemma DecideKeepsEvent(s: State, d: DeciderId, status: Status, e: Event)
    requires LogInv(s) && d in s.deciders && StillPending(s, s.deciders[d].pid) && e in s.log
    ensures EventInv(Decide(s, d, status), e)
  {
    var pid := s.deciders[d].pid;
    assert RowInv(s, pid) && EventInv(s, e);
    NoneDecided(s.log, pid);
    if e.Applied? {
      assert e.pid != pid && Decided(e.pid, e.who, Promoted) in Decide(s, d, status).log;
    }
  }

  lemma DecideKeepsOthers(s: State, d: DeciderId, status: Status, x: DeciderId)
    requires LogInv(s) && d in s.deciders && StillPending(s, s.deciders[d].pid) && !status.Pending?
    requires x in s.deciders && x != d && DeciderInv(s, x)
    ensures DeciderInv(Decide(s, d, status), x)
  {
    Snoc(s.log, Decided(s.deciders[d].pid, d, status));
  }

  lemma PendingUntouched(s: State, pid: ProposalId)
    requires LogInv(s) && StillPending(s, pid)
    ensures Replays(s.log, pid) == 0
  {
    assert RowInv(s, pid);
    NoneDecided(s.log, pid);
    forall e | e in s.log && e.Applied? ensures e.pid != pid {
      assert EventInv(s, e);
    }
    NoneApplied(s.log, pid);
  }

  predicate DecidesAs(me: Decider, status: Status, pc: Pc) {
    me.pc.Deciding? &&
    ((status == Discarded && pc == Finished(Success) && !me.approve)
     || (status == Promoted && pc == Claimed(me.pc.kind, me.pc.held) && me.approve))
  }

  lemma DecideKeepsSelf(s: State, d: DeciderId, status: Status, pc: Pc)
    requires LogInv(s) && d in s.deciders && DeciderInv(s, d) && StillPending(s, s.deciders[d].pid)
    requires DecidesAs(s.deciders[d], status, pc)
    ensures DeciderInv(At(Decide(s, d, status), d, pc), d)
  {
    PendingUntouched(s, s.deciders[d].pid);
    Snoc(s.log, Decided(s.deciders[d].pid, d, status));
  }

  lemma DecideKeepsDeciders(s: State, d: DeciderId, status: Status, pc: Pc)
    requires LogInv(s) && (forall x | x in s.deciders :: DeciderInv(s, x))
    requires d in s.deciders && StillPending(s, s.deciders[d].pid) && DecidesAs(s.deciders[d], status, pc)
    ensures var s' := At(Decide(s, d, status), d, pc);
      forall x | x in s'.deciders :: DeciderInv(s', x)
  {
    var m, s' := Decide(s, d, status), At(Decide(s, d, status), d, pc);
    DecideKeepsSelf(s, d, status, pc);
    forall x | x in s'.deciders ensures DeciderInv(s', x) {
      if x != d {
        DecideKeepsOthers(s, d, status, x);
        DeciderKept(m, s', x);
      }
    }
  }

  /** The conditional update, and the step that follows it. */
  lemma DecideKeeps(cfg: Config, s: State, d: DeciderId, status: Status, pc: Pc)
    requires GovInv(cfg, s) && d in s.deciders && StillPending(s, s.deciders[d].pid)
    requires DecidesAs(s.deciders[d], status, pc)
    ensures GovInv(cfg, At(Decide(s, d, status), d, pc))
  {
    var m, s' := Decide(s, d, status), At(Decide(s, d, status), d, pc);
    DecideKeepsLog(s, d, status);
    RecordKept(m, s');
    WritesGrow(cfg, s.log, Decided(s.deciders[d].pid, d, status));
    DecideKeepsDeciders(s, d, status, pc);
  }

  lemma ReplayKeepsOthers(s: State, s': State, d: DeciderId, op: Op, x: DeciderId)
    requires LogInv(s) && d in s.deciders && DeciderInv(s, d) && s.deciders[d].pc.Claimed?
    requires x in s.deciders && x != d && DeciderInv(s, x) && s'.deciders.Keys == s.deciders.Keys
    requires s'.rows == s.rows && s'.deciders[x] == s.deciders[x]
             && s'.log == s.log + [Applied(s.deciders[d].pid, d, op)]
    ensures DeciderInv(s', x)
  {
    var pid, other := s.deciders[d].pid, s.deciders[x];
    Snoc(s.log, Applied(pid, d, op));
    if other.pc.Claimed? && other.pid == pid {
      assert RowInv(s, pid);
      OneDecided(s.log, Decided(pid, d, Promoted), Decided(pid, x, Promoted));
    }
  }

  lemma ReplayKeeps(cfg: Config, s: State, d: DeciderId, tick: Tick)
    requires GovInv(cfg, s) && d in s.deciders && s.deciders[d].pc.Claimed?
    requires HeldOp(s.deciders[d].pc.kind, s.deciders[d].pc.held, tick).Some?
    requires Minted(s.db, HeldOp(s.deciders[d].pc.kind, s.deciders[d].pc.held, tick).value)
    ensures GovInv(cfg, Replay(cfg, s, d, HeldOp(s.deciders[d].pc.kind, s.deciders[d].pc.held, tick).value))
  {
    var op := HeldOp(s.deciders[d].pc.kind, s.deciders[d].pc.held, tick).value;
    var s', e := Replay(cfg, s, d, op), Applied(s.deciders[d].pid, d, op);
    assert DeciderInv(s, d);
    Snoc(s.log, e);
    LoggedKeeps(s, s', e);
    WritesGrow(cfg, s.log, e);
    forall x | x in s'.deciders ensures DeciderInv(s', x) {
      if x == d {
        ReplayKeepsSelf(cfg, s, d, op);
      } else {
        ReplayKeepsOthers(s, s', d, op, x);
      }
    }
  }

  lemma ReplayKeepsSelf(cfg: Config, s: State, d: DeciderId, op: Op)
    requires d in s.deciders && DeciderInv(s, d) && s.deciders[d].pc.Claimed?
    ensures DeciderInv(Replay(cfg, s, d, op), d)
  {
    Snoc(s.log, Applied(s.deciders[d].pid, d, op));
  }

  lemma AtKeeps(cfg: Config, s: State, d: DeciderId, pc: Pc)
    requires GovInv(cfg, s) && d in s.deciders && DeciderInv(At(s, d, pc), d)
    ensures GovInv(cfg, At(s, d, pc))
  {
    QuietKeeps(cfg, s, At(s, d, pc), d);
  }

  lemma ReadSound(s: State, d: DeciderId)
    requires d in s.deciders && DeciderInv(s, d) && s.deciders[d].pc.Reading?
    ensures DeciderInv(At(s, d, AfterRead(s, s.deciders[d].pid)), d)
  {
  }

  lemma ReadKeeps(cfg: Config, s: State, d: DeciderId, tick: Tick)
    requires GovInv(cfg, s) && d in s.deciders && s.deciders[d].pc.Reading?
    ensures GovInv(cfg, Advance(cfg, s, d, tick))
  {
    ReadSound(s, d);
    AtKeeps(cfg, s, d, AfterRead(s, s.deciders[d].pid));
  }

  lemma RecordedSound(s: State, d: DeciderId, subject: string)
    requires LogInv(s) && d in s.deciders && DeciderInv(s, d) && s.deciders[d].pc.Recording?
    ensures SameRecord(s, WithSubject(s, d, subject)) && DeciderInv(WithSubject(s, d, subject), d)
  {
    var op :| Applied(s.deciders[d].pid, d, op) in s.log;
    assert Applied(s.deciders[d].pid, d, op) in WithSubject(s, d, subject).log;
  }

  lemma RecordKeeps(cfg: Config, s: State, d: DeciderId, tick: Tick)
    requires GovInv(cfg, s) && d in s.deciders && s.deciders[d].pc.Recording?
    ensures GovInv(cfg, Advance(cfg, s, d, tick))
  {
    RecordedSound(s, d, s.deciders[d].pc.subject);
    QuietKeeps(cfg, s, WithSubject(s, d, s.deciders[d].pc.subject), d);
  }

  lemma UpdateKeeps(cfg: Config, s: State, d: DeciderId, tick: Tick)
    requires GovInv(cfg, s) && d in s.deciders && s.deciders[d].pc.Deciding?
    ensures GovInv(cfg, Advance(cfg, s, d, tick))
  {
    var me := s.deciders[d];
    assert DeciderInv(s, d);
    if StillPending(s, me.pid) {
      DecideKeeps(cfg, s, d, if me.approve then Promoted else Discarded,
                  if me.approve then Claimed(me.pc.kind, me.pc.held) else Finished(Success));
    } else {
      QuietKeeps(cfg, s, Advance(cfg, s, d, tick), d);
    }
  }

  lemma ClaimedStops(cfg: Config, s: State, d: DeciderId, tick: Tick)
    requires GovInv(cfg, s) && d in s.deciders && s.deciders[d].pc.Claimed?
    requires HeldOp(s.deciders[d].pc.kind, s.deciders[d].pc.held, tick).None?
    ensures GovInv(cfg, Advance(cfg, s, d, tick))
  {
    KindKnown(s, d);
    UndecodableSound(s, d, tick);
    AtKeeps(cfg, s, d, Finished(Undecodable));
  }

  lemma KindKnown(s: State, d: DeciderId)
    requires LogInv(s) && d in s.deciders && DeciderInv(s, d) && s.deciders[d].pc.Claimed?
    ensures !s.deciders[d].pc.kind.OtherKind?
  {
    assert RowInv(s, s.deciders[d].pid);
  }

  lemma UndecodableSound(s: State, d: DeciderId, tick: Tick)
    requires d in s.deciders && DeciderInv(s, d) && s.deciders[d].pc.Claimed?
    requires HeldOp(s.deciders[d].pc.kind, s.deciders[d].pc.held, tick).None?
    ensures DeciderInv(At(s, d, Finished(Undecodable)), d)
  {
  }

  /** A held write that can be replayed is replayed, once its minted ids are new. */
  lemma ClaimedMoves(cfg: Config, s: State, d: DeciderId, tick: Tick, op: Op)
    requires d in s.deciders && s.deciders[d].pc.Claimed?
    requires HeldOp(s.deciders[d].pc.kind, s.deciders[d].pc.held, tick) == Some(op)
    ensures Advance(cfg, s, d, tick) == if Minted(s.db, op) then Replay(cfg, s, d, op) else s
  {
  }

  lemma ClaimedKeeps(cfg: Config, s: State, d: DeciderId, tick: Tick)
    requires GovInv(cfg, s) && d in s.deciders && s.deciders[d].pc.Claimed?
    ensures GovInv(cfg, Advance(cfg, s, d, tick))
  {
    var held := HeldOp(s.deciders[d].pc.kind, s.deciders[d].pc.held, tick);
    if held.None? {
      ClaimedStops(cfg, s, d, tick);
    } else {
      ClaimedMoves(cfg, s, d, tick, held.value);
      if Minted(s.db, held.value) {
        ReplayKeeps(cfg, s, d, tick);
      }
    }
  }

  lemma AdvanceKeeps(cfg: Config, s: State, d: DeciderId, tick: Tick)
    requires GovInv(cfg, s) && d in s.deciders
    ensures GovInv(cfg, Advance(cfg, s, d, tick))
  {
    match s.deciders[d].pc
    case Reading => ReadKeeps(cfg, s, d, tick);
    case Deciding(_, _) => UpdateKeeps(cfg, s, d, tick);
    case Claimed(_, _) => ClaimedKeeps(cfg, s, d, tick);
    case Recording(_) => RecordKeeps(cfg, s, d, tick);
    case Finished(_) =>
  }

  lemma NextKeeps(cfg: Config, s: State, a: Action)
    requires GovInv(cfg, s)
    ensures GovInv(cfg, Next(cfg, s, a))
  {
    match a
    case Propose(id, kind, wellFormed, held) =>
      if id !in s.rows && !kind.OtherKind? {
        ProposeKeeps(cfg, s, id, Row(kind, held, Pending, None, None));
      }
    case Begin(d, pid, approve, approver) =>
      if d !in s.deciders {
        BeginKeeps(cfg, s, d, Decider(pid, approve, approver, Reading));
      }
    case Move(d, tick) =>
      if d in s.deciders {
        AdvanceKeeps(cfg, s, d, tick);
      }
    case Write(op) =>
      if Minted(s.db, op) {
        WriteKeeps(cfg, s, op);
      }
  }

  lemma {:induction false} RunKeeps(cfg: Config, s: State, acts: seq<Action>)
    requires GovInv(cfg, s)
    ensures GovInv(cfg, RunFrom(cfg, s, acts))
    decreases |acts|
  {
    if acts != [] {
      NextKeeps(cfg, s, acts[0]);
      RunKeeps(cfg, Next(cfg, s, acts[0]), acts[1..]);
    }
  }

  lemma {:induction false} LogGrows(cfg: Config, s: State, acts: seq<Action>)
    ensures s.log <= RunFrom(cfg, s, acts).log
    decreases |acts|
  {
    if acts != [] {
      LogGrows(cfg, Next(cfg, s, acts[0]), acts[1..]);
    }
  }

  lemma StartKeeps(cfg: Config)
    ensures GovInv(cfg, START)
  {
  }

  // ---- what every interleaving guarantees ----

  /** The state some interleaving from the empty store leads to. */
  function After(cfg: Config, acts: seq<Action>): State {
    RunFrom(cfg, START, acts)
  }

  /** The op is the held write of the proposal's kind, whatever ids and times it was given. */
  predicate HoldsOp(row: Row, op: Op) {
    match op
    case AppendEntityOp(in_, _) => row.kind.EntityKind? && row.held.asEntity == Some(in_)
    case AppendEdgeOp(in_, _) => row.kind.EdgeKind? && row.held.asEdge == Some(in_)
    case _ => false
  }

  /** A proposal is decided at most once, and its row says how and by whom, and replayed at most once;
      only the decider that promoted it replays it, and it replays exactly what the proposal holds; a
      proposal that is pending or discarded is not replayed. */
  lemma DecidedOnceReplayedOnce(cfg: Config, acts: seq<Action>, pid: ProposalId)
    ensures var s := After(cfg, acts);
      && Decisions(s.log, pid) <= 1 && Replays(s.log, pid) <= 1
      && (pid in s.rows && !s.rows[pid].status.Promoted? ==> Replays(s.log, pid) == 0)
      && (forall e | e in s.log && e.Decided? && e.pid == pid ::
            && pid in s.rows && s.rows[pid].status == e.status
            && e.who in s.deciders && s.rows[pid].decidedBy == Some(s.deciders[e.who].approver))
      && (forall e | e in s.log && e.Applied? && e.pid == pid ::
            && pid in s.rows && s.rows[pid].status.Promoted? && Decided(pid, e.who, Promoted) in s.log
            && HoldsOp(s.rows[pid], e.op))
  {
    StartKeeps(cfg);
    RunKeeps(cfg, START, acts);
    var s := After(cfg, acts);
    assert RowInv(s, pid);
    assert forall e | e in s.log :: EventInv(s, e);
    forall e | e in s.log && e.Applied? && e.pid == pid
      ensures pid in s.rows && s.rows[pid].status.Promoted? && Decided(pid, e.who, Promoted) in s.log
      ensures HoldsOp(s.rows[pid], e.op)
    {
      assert EventInv(s, e);
      assert EventInv(s, Decided(pid, e.who, Promoted));
    }
    if pid in s.rows && !s.rows[pid].status.Promoted? {
      NoneApplied(s.log, pid);
    }
  }

  /** What a proposal holds never changes; it is an entity or an edge write, so that no decider ever
      comes upon one that cannot be replayed for its kind. */
  lemma {:induction false} HeldIsKept(cfg: Config, s: State, acts: seq<Action>, pid: ProposalId)
    requires pid in s.rows
    ensures var s' := RunFrom(cfg, s, acts);
      pid in s'.rows && s'.rows[pid].kind == s.rows[pid].kind && s'.rows[pid].held == s.rows[pid].held
    decreases |acts|
  {
    if acts != [] {
      HeldIsKept(cfg, Next(cfg, s, acts[0]), acts[1..], pid);
    }
  }

  lemma NothingUnproposable(cfg: Config, acts: seq<Action>)
    ensures var s := After(cfg, acts);
      && (forall pid | pid in s.rows :: s.rows[pid].kind.EntityKind? || s.rows[pid].kind.EdgeKind?)
      && (forall d | d in s.deciders :: s.deciders[d].pc != Finished(Unproposable))
  {
    StartKeeps(cfg);
    RunKeeps(cfg, START, acts);
    var s := After(cfg, acts);
    forall pid | pid in s.rows ensures s.rows[pid].kind.EntityKind? || s.rows[pid].kind.EdgeKind? {
      assert RowInv(s, pid);
    }
    assert forall d | d in s.deciders :: DeciderInv(s, d);
  }

  lemma {:induction false} SomeDecided(log: seq<Event>, pid: ProposalId) returns (e: Event)
    requires Decisions(log, pid) > 0
    ensures e in log && e.Decided? && e.pid == pid
  {
    var front, last := log[..|log| - 1], log[|log| - 1];
    assert log == front + [last];
    if last.Decided? && last.pid == pid {
      e := last;
    } else {
      e := SomeDecided(front, pid);
    }
  }

  /** A decided proposal keeps its status whatever happens next. */
  lemma StatusIsFinal(cfg: Config, acts: seq<Action>, more: seq<Action>, pid: ProposalId)
    requires pid in After(cfg, acts).rows && !After(cfg, acts).rows[pid].status.Pending?
    ensures var s, s' := After(cfg, acts), RunFrom(cfg, After(cfg, acts), more);
      pid in s'.rows && s'.rows[pid].status == s.rows[pid].status
  {
    StartKeeps(cfg);
    RunKeeps(cfg, START, acts);
    var s := After(cfg, acts);
    RunKeeps(cfg, s, more);
    LogGrows(cfg, s, more);
    assert RowInv(s, pid);
    var e := SomeDecided(s.log, pid);
    assert EventInv(s, e);
    assert EventInv(RunFrom(cfg, s, more), e);
  }

  /** The graph is what the direct and the replayed writes alone make of it, in the order they
      reached the store: a held write leaves no trace before it is promoted, and afterwards is
      no different from a direct one. */
  lemma GraphIsItsWrites(cfg: Config, acts: seq<Action>)
    ensures var s := After(cfg, acts);
      s.db == Run(cfg, Writes(s.log)) && IsRun(cfg, Writes(s.log)) && Inv(s.db)
  {
    StartKeeps(cfg);
    RunKeeps(cfg, START, acts);
    RunKeepsInv(cfg, Writes(After(cfg, acts).log));
  }

  /** Who is told of a conflict or a missing proposal has decided nothing; a decider whose payload does
      not unmarshal has promoted it all the same, and the write never happens. */
  lemma FailuresMean(cfg: Config, acts: seq<Action>, d: DeciderId)
    requires d in After(cfg, acts).deciders
    ensures var s := After(cfg, acts); var me := s.deciders[d];
      && (me.pc == Finished(Conflict) || me.pc == Finished(Missing) ==>
            forall status :: Decided(me.pid, d, status) !in s.log)
      && (me.pc == Finished(Undecodable) ==>
            && me.pid in s.rows && !Decodes(s.rows[me.pid]) && s.rows[me.pid].status.Promoted?
            && Replays(s.log, me.pid) == 0)
  {
    StartKeeps(cfg);
    RunKeeps(cfg, START, acts);
    var s := After(cfg, acts);
    var me := s.deciders[d];
    assert DeciderInv(s, d);
    if me.pc == Finished(Undecodable) {
      assert EventInv(s, Decided(me.pid, d, Promoted));
      forall e | e in s.log && e.Applied? ensures e.pid != me.pid {
        assert EventInv(s, e);
      }
      NoneApplied(s.log, me.pid);
    }
  }

  /** A successful approval is the one that replayed; a reject that got past its read succeeds
      even when it lost, and all it says is that the proposal has been decided. */
  lemma VerdictsMean(cfg: Config, acts: seq<Action>, d: DeciderId)
    requires d in After(cfg, acts).deciders && After(cfg, acts).deciders[d].pc == Finished(Success)
    ensures var s := After(cfg, acts); var me := s.deciders[d];
      && me.pid in s.rows && !s.rows[me.pid].status.Pending?
      && (me.approve ==> s.rows[me.pid].status.Promoted? && Replays(s.log, me.pid) == 1
                         && exists op :: Applied(me.pid, d, op) in s.log)
  {
    StartKeeps(cfg);
    RunKeeps(cfg, START, acts);
    var s := After(cfg, acts);
    var me := s.deciders[d];
    assert DeciderInv(s, d);
    if me.approve {
      var op :| Applied(me.pid, d, op) in s.log;
      assert EventInv(s, Applied(me.pid, d, op));
      assert EventInv(s, Decided(me.pid, d, Promoted));
      DecidedOnceReplayedOnce(cfg, acts, me.pid);
      SomeApplied(s.log, Applied(me.pid, d, op));
    }
  }

  lemma {:induction false} SomeApplied(log: seq<Event>, e: Event)
    requires e in log && e.Applied?
    ensures Replays(log, e.pid) > 0
  {
    var front, last := log[..|log| - 1], log[|log| - 1];
    assert log == front + [last];
    if last != e {
      SomeApplied(front, e);
    }
  }

  lemma {:induction false} StoppedStays(cfg: Config, s: State, acts: seq<Action>, d: DeciderId)
    requires d in s.deciders && forall a | a in acts && a.Move? :: a.d != d
    ensures var s' := RunFrom(cfg, s, acts); d in s'.deciders && s'.deciders[d] == s.deciders[d]
    decreases |acts|
  {
    if acts != [] {
      assert acts[0] in acts;
      StoppedStays(cfg, Next(cfg, s, acts[0]), acts[1..], d);
    }
  }

  /** If the decider that promoted a proposal stops before its replay, the proposal stays promoted
      and its write never happens, whatever the others do. */
  lemma StoppedMeansNever(cfg: Config, acts: seq<Action>, more: seq<Action>, d: DeciderId)
    requires d in After(cfg, acts).deciders && After(cfg, acts).deciders[d].pc.Claimed?
    requires forall a | a in more && a.Move? :: a.d != d
    ensures var s, pid := RunFrom(cfg, After(cfg, acts), more), After(cfg, acts).deciders[d].pid;
      pid in s.rows && s.rows[pid].status.Promoted? && Replays(s.log, pid) == 0
  {
    StartKeeps(cfg);
    RunKeeps(cfg, START, acts);
    RunKeeps(cfg, After(cfg, acts), more);
    StoppedStays(cfg, After(cfg, acts), more, d);
    var s, pid := RunFrom(cfg, After(cfg, acts), more), After(cfg, acts).deciders[d].pid;
    assert DeciderInv(s, d);
    assert EventInv(s, Decided(pid, d, Promoted));
  }

  // ---- what an approver is told about its write ----

  /** The decider's held write reached the store as the k-th event. */
  predicate ReplayedAt(s: State, d: DeciderId, k: nat)
    requires d in s.deciders
  {
    k < |s.log| && s.log[k].Applied? && s.log[k].pid == s.deciders[d].pid && s.log[k].who == d
  }

  /** What the store answered: it had what the writes before this one had made of it. */
  function AnswerAt(cfg: Config, log: seq<Event>, k: nat): Outcome
    requires k < |log| && log[k].Applied?
  {
    Perform(cfg, Run(cfg, Writes(log[..k])), log[k].op).1
  }

  /** The write went through, now or before; a duplicate counts as done. */
  predicate WentThrough(out: Outcome) {
    out.Accepted? || out.Replayed? || out.error == DuplicateFact
  }

  function SubjectOf(out: Outcome): string {
    if out.Rejected? then "" else out.subject
  }

  /** The decider goes on as the answer says: it records the subject and succeeds, or fails. */
  ghost predicate Heeds(s: State, me: Decider, out: Outcome) {
    if WentThrough(out) then
      || me.pc == Recording(SubjectOf(out))
      || (me.pc == Finished(Success) && me.pid in s.rows && s.rows[me.pid].subject == Some(SubjectOf(out)))
    else me.pc == Finished(Failed(out.error))
  }

  ghost predicate AnswerInv(cfg: Config, s: State, d: DeciderId)
    requires d in s.deciders
  {
    var me := s.deciders[d];
    && (forall k: nat | k < |s.log| && s.log[k].Applied? && s.log[k].who == d ::
          s.log[k].pid == me.pid && Heeds(s, me, AnswerAt(cfg, s.log, k)))
    && (me.pc.Finished? && me.pc.verdict.Failed? ==> exists k: nat :: ReplayedAt(s, d, k))
  }

  ghost predicate AllHeeded(cfg: Config, s: State) {
    forall d | d in s.deciders :: AnswerInv(cfg, s, d)
  }

  lemma {:induction false} OneApplied(log: seq<Event>, a: Event, b: Event)
    requires a in log && b in log && a.Applied? && b.Applied? && a.pid == b.pid && Replays(log, a.pid) <= 1
    ensures a == b
  {
    var front, last := log[..|log| - 1], log[|log| - 1];
    assert log == front + [last];
    if last == a || last == b {
      if a != b {
        SomeApplied(front, if last == a then b else a);
      }
    } else {
      OneApplied(front, a, b);
    }
  }

  lemma AnswersSame(cfg: Config, log: seq<Event>, longer: seq<Event>, k: nat)
    requires log <= longer && k < |log| && log[k].Applied?
    ensures longer[k] == log[k] && AnswerAt(cfg, longer, k) == AnswerAt(cfg, log, k)
  {
    assert longer[..k] == log[..k];
  }

  /** What leaves the decider, its row's subject and its replay alone leaves its answer heeded. */
  lemma StillHeeded(cfg: Config, s: State, s': State, d: DeciderId)
    requires d in s.deciders && AnswerInv(cfg, s, d) && d in s'.deciders && s'.deciders[d] == s.deciders[d]
    requires s.log <= s'.log && forall k: nat | |s.log| <= k < |s'.log| && s'.log[k].Applied? :: s'.log[k].who != d
    requires var pid := s.deciders[d].pid;
      (exists k: nat :: ReplayedAt(s, d, k)) && pid in s.rows ==>
        pid in s'.rows && s'.rows[pid].subject == s.rows[pid].subject
    ensures AnswerInv(cfg, s', d)
  {
    var me := s.deciders[d];
    forall k: nat | k < |s'.log| && s'.log[k].Applied? && s'.log[k].who == d
      ensures s'.log[k].pid == me.pid && Heeds(s', me, AnswerAt(cfg, s'.log, k))
    {
      AnswersSame(cfg, s.log, s'.log, k);
      assert ReplayedAt(s, d, k);
    }
    if me.pc.Finished? && me.pc.verdict.Failed? {
      var k: nat :| ReplayedAt(s, d, k);
      assert ReplayedAt(s', d, k);
    }
  }

  /** A decider's step: at most one event more; a replay is its own, and a subject it records is its row's. */
  lemma AdvanceTouches(cfg: Config, s: State, d: DeciderId, tick: Tick)
    requires d in s.deciders
    ensures var s' := Advance(cfg, s, d, tick);
      && s.log <= s'.log && s'.deciders.Keys == s.deciders.Keys && s'.rows.Keys == s.rows.Keys
      && (forall x | x in s.deciders && x != d :: s'.deciders[x] == s.deciders[x])
      && (forall k: nat | |s.log| <= k < |s'.log| && s'.log[k].Applied? :: s'.log[k].who == d)
      && (forall pid | pid in s.rows && !(s.deciders[d].pc.Recording? && pid == s.deciders[d].pid) ::
            s'.rows[pid].subject == s.rows[pid].subject)
  {
    var me := s.deciders[d];
    match me.pc
    case Claimed(kind, held) =>
      if !kind.OtherKind? && HeldOp(kind, held, tick).Some? {
        ReplayTouches(cfg, s, d, HeldOp(kind, held, tick).value);
      }
    case _ =>
  }

  lemma ReplayTouches(cfg: Config, s: State, d: DeciderId, op: Op)
    requires d in s.deciders
    ensures var s', e := Replay(cfg, s, d, op), Applied(s.deciders[d].pid, d, op);
      && s'.log == s.log + [e] && s'.rows == s.rows && s'.deciders.Keys == s.deciders.Keys
      && s'.deciders[d] == s.deciders[d].(pc := AfterReplay(Perform(cfg, s.db, op).1))
      && (forall x | x in s.deciders && x != d :: s'.deciders[x] == s.deciders[x])
  {
  }

  /** Whoever else replayed did so for another proposal than the one being recorded. */
  lemma OthersHeeded(cfg: Config, s: State, d: DeciderId, tick: Tick, x: DeciderId)
    requires GovInv(cfg, s) && d in s.deciders && x in s.deciders && x != d && AnswerInv(cfg, s, x)
    ensures AnswerInv(cfg, Advance(cfg, s, d, tick), x)
  {
    AdvanceTouches(cfg, s, d, tick);
    var me, other := s.deciders[d], s.deciders[x];
    if me.pc.Recording? && other.pid == me.pid {
      assert DeciderInv(s, d) && RowInv(s, me.pid);
      var op :| Applied(me.pid, d, op) in s.log;
      forall k: nat ensures !ReplayedAt(s, x, k) {
        if ReplayedAt(s, x, k) {
          OneApplied(s.log, s.log[k], Applied(me.pid, d, op));
        }
      }
    }
    StillHeeded(cfg, s, Advance(cfg, s, d, tick), x);
  }

  /** A decider that has not replayed, and does not now, has nothing to heed. */
  lemma NothingToHeed(cfg: Config, s: State, s': State, d: DeciderId)
    requires d in s.deciders && d in s'.deciders && s'.log == s.log
    requires forall k: nat | k < |s.log| && s.log[k].Applied? :: s.log[k].who != d
    requires !(s'.deciders[d].pc.Finished? && s'.deciders[d].pc.verdict.Failed?)
    ensures AnswerInv(cfg, s', d)
  {
  }

  lemma ReplayHeeded(cfg: Config, s: State, d: DeciderId, op: Op)
    requires GovInv(cfg, s) && d in s.deciders && AnswerInv(cfg, s, d) && s.deciders[d].pc.Claimed?
    ensures AnswerInv(cfg, Replay(cfg, s, d, op), d)
  {
    var s', me := Replay(cfg, s, d, op), s.deciders[d];
    ReplayTouches(cfg, s, d, op);
    var n := |s.log|;
    assert s'.log[..n] == s.log;
    assert AnswerAt(cfg, s'.log, n) == Perform(cfg, s.db, op).1;
    assert forall k: nat | k < n && s.log[k].Applied? :: s'.log[k] == s.log[k] && s.log[k].who != d;
    assert ReplayedAt(s', d, n);
  }

  lemma ClaimedHeeded(cfg: Config, s: State, d: DeciderId, tick: Tick)
    requires GovInv(cfg, s) && d in s.deciders && AnswerInv(cfg, s, d) && s.deciders[d].pc.Claimed?
    ensures AnswerInv(cfg, Advance(cfg, s, d, tick), d)
  {
    var held := HeldOp(s.deciders[d].pc.kind, s.deciders[d].pc.held, tick);
    if held.None? {
      NothingToHeed(cfg, s, Advance(cfg, s, d, tick), d);
    } else {
      ClaimedMoves(cfg, s, d, tick, held.value);
      if Minted(s.db, held.value) {
        ReplayHeeded(cfg, s, d, held.value);
      }
    }
  }

  /** The step that records the subject: the row now has it. */
  lemma RecordingHeeded(cfg: Config, s: State, d: DeciderId, tick: Tick)
    requires GovInv(cfg, s) && d in s.deciders && AnswerInv(cfg, s, d) && s.deciders[d].pc.Recording?
    ensures AnswerInv(cfg, Advance(cfg, s, d, tick), d)
  {
    assert DeciderInv(s, d);
    var op :| Applied(s.deciders[d].pid, d, op) in s.log;
    assert EventInv(s, Applied(s.deciders[d].pid, d, op));
  }

  lemma SelfHeeded(cfg: Config, s: State, d: DeciderId, tick: Tick)
    requires GovInv(cfg, s) && d in s.deciders && AnswerInv(cfg, s, d)
    ensures AnswerInv(cfg, Advance(cfg, s, d, tick), d)
  {
    match s.deciders[d].pc
    case Claimed(_, _) => ClaimedHeeded(cfg, s, d, tick);
    case Recording(_) => RecordingHeeded(cfg, s, d, tick);
    case Finished(_) =>
    case Reading => NothingToHeed(cfg, s, Advance(cfg, s, d, tick), d);
    case Deciding(_, _) => UndecidedHeeded(cfg, s, d, tick);
  }

  lemma UndecidedHeeded(cfg: Config, s: State, d: DeciderId, tick: Tick)
    requires d in s.deciders && AnswerInv(cfg, s, d) && s.deciders[d].pc.Deciding?
    ensures AnswerInv(cfg, Advance(cfg, s, d, tick), d)
  {
    var s' := Advance(cfg, s, d, tick);
    assert forall k: nat | k < |s.log| && s.log[k].Applied? :: s.log[k].who != d;
    assert s'.log == s.log || (|s'.log| == |s.log| + 1 && s.log <= s'.log && s'.log[|s.log|].Decided?);
  }

  lemma NextHeeded(cfg: Config, s: State, a: Action)
    requires GovInv(cfg, s) && AllHeeded(cfg, s)
    ensures AllHeeded(cfg, Next(cfg, s, a))
  {
    if a.Move? {
      if a.d in s.deciders {
        AdvanceHeeded(cfg, s, a.d, a.tick);
      }
    } else {
      var s' := Next(cfg, s, a);
      forall x | x in s'.deciders ensures AnswerInv(cfg, s', x) {
        if x in s.deciders {
          StillHeeded(cfg, s, s', x);
        } else {
          NewcomerHeeded(cfg, s, s', x);
        }
      }
    }
  }

  lemma AdvanceHeeded(cfg: Config, s: State, d: DeciderId, tick: Tick)
    requires GovInv(cfg, s) && AllHeeded(cfg, s) && d in s.deciders
    ensures AllHeeded(cfg, Advance(cfg, s, d, tick))
  {
    AdvanceTouches(cfg, s, d, tick);
    SelfHeeded(cfg, s, d, tick);
    forall x | x in s.deciders && x != d ensures AnswerInv(cfg, Advance(cfg, s, d, tick), x) {
      OthersHeeded(cfg, s, d, tick, x);
    }
  }

  /** Nobody replayed before it began. */
  lemma NewcomerHeeded(cfg: Config, s: State, s': State, d: DeciderId)
    requires LogInv(s) && d !in s.deciders && s'.log == s.log && d in s'.deciders && s'.deciders[d].pc.Reading?
    ensures AnswerInv(cfg, s', d)
  {
    forall k: nat | k < |s.log| && s.log[k].Applied? ensures s.log[k].who != d {
      var e := s.log[k];
      assert e in s.log && EventInv(s, e) && EventInv(s, Decided(e.pid, e.who, Promoted));
    }
  }

  lemma {:induction false} RunHeeded(cfg: Config, s: State, acts: seq<Action>)
    requires GovInv(cfg, s) && AllHeeded(cfg, s)
    ensures AllHeeded(cfg, RunFrom(cfg, s, acts))
    decreases |acts|
  {
    if acts != [] {
      NextKeeps(cfg, s, acts[0]);
      NextHeeded(cfg, s, acts[0]);
      RunHeeded(cfg, Next(cfg, s, acts[0]), acts[1..]);
    }
  }

  /** In every interleaving: an approver that reports success replayed the held write, the store let it
      through or had it before, and the proposal records the subject of that answer; one that replayed
      reports a failure exactly when, and with the error with which, the store refused the write for
      another reason than a duplicate. */
  lemma ApprovalsTellTheAnswer(cfg: Config, acts: seq<Action>, d: DeciderId)
    requires d in After(cfg, acts).deciders && After(cfg, acts).deciders[d].approve
    ensures var s := After(cfg, acts); var me := s.deciders[d];
      && (me.pc == Finished(Success) ==>
            exists k: nat :: ReplayedAt(s, d, k) && var out := AnswerAt(cfg, s.log, k);
              WentThrough(out) && me.pid in s.rows && s.rows[me.pid].subject == Some(SubjectOf(out)))
      && (forall k: nat | ReplayedAt(s, d, k) && WentThrough(AnswerAt(cfg, s.log, k)) ::
            me.pc.Recording? || me.pc == Finished(Success))
      && (forall e :: me.pc == Finished(Failed(e)) <==>
            e != DuplicateFact && exists k: nat :: ReplayedAt(s, d, k) && AnswerAt(cfg, s.log, k) == Rejected(e))
  {
    StartKeeps(cfg);
    RunKeeps(cfg, START, acts);
    RunHeeded(cfg, START, acts);
    var s := After(cfg, acts);
    if s.deciders[d].pc == Finished(Success) {
      SuccessTold(cfg, s, d);
    }
    forall e ensures s.deciders[d].pc == Finished(Failed(e)) <==>
      e != DuplicateFact && exists k: nat :: ReplayedAt(s, d, k) && AnswerAt(cfg, s.log, k) == Rejected(e)
    {
      FailureTold(cfg, s, d, e);
    }
  }

  lemma SuccessTold(cfg: Config, s: State, d: DeciderId)
    requires d in s.deciders && AnswerInv(cfg, s, d) && DeciderInv(s, d)
    requires s.deciders[d].approve && s.deciders[d].pc == Finished(Success)
    ensures var me := s.deciders[d];
      exists k: nat :: ReplayedAt(s, d, k) && var out := AnswerAt(cfg, s.log, k);
        WentThrough(out) && me.pid in s.rows && s.rows[me.pid].subject == Some(SubjectOf(out))
  {
    var op :| Applied(s.deciders[d].pid, d, op) in s.log;
    var k: nat :| k < |s.log| && s.log[k] == Applied(s.deciders[d].pid, d, op);
    assert ReplayedAt(s, d, k);
  }

  lemma FailureTold(cfg: Config, s: State, d: DeciderId, e: Error)
    requires d in s.deciders && AnswerInv(cfg, s, d)
    ensures s.deciders[d].pc == Finished(Failed(e)) <==>
            e != DuplicateFact && exists k: nat :: ReplayedAt(s, d, k) && AnswerAt(cfg, s.log, k) == Rejected(e)
  {
    if s.deciders[d].pc == Finished(Failed(e)) {
      var k: nat :| ReplayedAt(s, d, k);
      assert Heeds(s, s.deciders[d], AnswerAt(cfg, s.log, k));
    }
  }

  // ---- when a successful reject discards ----

  /** Whoever decided asked for it: an approver promotes, a rejecter discards. */
  ghost predicate RoleInv(s: State) {
    forall e | e in s.log && e.Decided? :: RightfullyDecided(s, e)
  }

  datatype Role = Role(pid: ProposalId, approve: bool, approver: PrincipalId)

  function RoleOf(me: Decider): Role {
    Role(me.pid, me.approve, me.approver)
  }

  predicate RightfullyDecided(s: State, e: Event) {
    e.Decided? && e.who in s.deciders && s.deciders[e.who].pid == e.pid
    && e.status == if s.deciders[e.who].approve then Promoted else Discarded
  }

  /** At most one event more, a decision only as d's role has it, and every role as it was. */
  ghost predicate OneEvent(s: State, s': State, d: DeciderId)
    requires d in s.deciders
  {
    && s'.deciders.Keys == s.deciders.Keys && RoleOf(s'.deciders[d]) == RoleOf(s.deciders[d])
    && (forall x | x in s.deciders && x != d :: s'.deciders[x] == s.deciders[x])
    && (s'.log == s.log || (|s'.log| == |s.log| + 1 && s.log <= s'.log
                            && (s'.log[|s.log|].Decided? ==> RightfullyDecided(s, s'.log[|s.log|]))))
  }

  lemma DecideIsOneEvent(s: State, d: DeciderId, status: Status, pc: Pc)
    requires d in s.deciders && s.deciders[d].pid in s.rows
    requires status == if s.deciders[d].approve then Promoted else Discarded
    ensures OneEvent(s, At(Decide(s, d, status), d, pc), d)
  {
  }

  lemma ReplayIsOneEvent(cfg: Config, s: State, d: DeciderId, op: Op)
    requires d in s.deciders
    ensures OneEvent(s, Replay(cfg, s, d, op), d)
  {
  }

  lemma AdvanceLogs(cfg: Config, s: State, d: DeciderId, tick: Tick)
    requires d in s.deciders
    ensures OneEvent(s, Advance(cfg, s, d, tick), d)
  {
    var me := s.deciders[d];
    match me.pc
    case Deciding(kind, held) =>
      if StillPending(s, me.pid) {
        DecideIsOneEvent(s, d, if me.approve then Promoted else Discarded,
                         if me.approve then Claimed(kind, held) else Finished(Success));
      }
    case Claimed(kind, held) =>
      if !kind.OtherKind? && HeldOp(kind, held, tick).Some? {
        ReplayIsOneEvent(cfg, s, d, HeldOp(kind, held, tick).value);
      }
    case _ =>
  }

  lemma AdvanceKeepsRoles(cfg: Config, s: State, d: DeciderId, tick: Tick)
    requires RoleInv(s) && d in s.deciders
    ensures RoleInv(Advance(cfg, s, d, tick))
  {
    var s' := Advance(cfg, s, d, tick);
    AdvanceLogs(cfg, s, d, tick);
    forall e | e in s'.log && e.Decided? ensures RightfullyDecided(s', e) {
      if e in s.log {
        assert RightfullyDecided(s, e);
      }
      assert RoleOf(s'.deciders[e.who]) == RoleOf(s.deciders[e.who]);
    }
  }

  lemma NextKeepsRoles(cfg: Config, s: State, a: Action)
    requires RoleInv(s)
    ensures RoleInv(Next(cfg, s, a))
  {
    match a
    case Move(d, tick) =>
      if d in s.deciders {
        AdvanceKeepsRoles(cfg, s, d, tick);
      }
    case Begin(d, _, _, _) => assert forall e | e in s.log && e.Decided? :: RightfullyDecided(s, e);
    case _ => assert forall e | e in s.log && e.Decided? :: RightfullyDecided(s, e);
  }

  lemma {:induction false} RunKeepsRoles(cfg: Config, s: State, acts: seq<Action>)
    requires RoleInv(s)
    ensures RoleInv(RunFrom(cfg, s, acts))
    decreases |acts|
  {
    if acts != [] {
      NextKeepsRoles(cfg, s, acts[0]);
      RunKeepsRoles(cfg, Next(cfg, s, acts[0]), acts[1..]);
    }
  }

  /** A reject that succeeded means the proposal is discarded exactly when nobody promoted it. */
  lemma RejectDiscardsIff(cfg: Config, acts: seq<Action>, d: DeciderId)
    requires d in After(cfg, acts).deciders && After(cfg, acts).deciders[d].pc == Finished(Success)
    requires !After(cfg, acts).deciders[d].approve
    ensures var s := After(cfg, acts); var pid := s.deciders[d].pid;
      && pid in s.rows
      && (s.rows[pid].status.Discarded? <==> forall who :: Decided(pid, who, Promoted) !in s.log)
  {
    VerdictsMean(cfg, acts, d);
    StartKeeps(cfg);
    RunKeeps(cfg, START, acts);
    var s := After(cfg, acts);
    var pid := s.deciders[d].pid;
    assert RowInv(s, pid);
    var e := SomeDecided(s.log, pid);
    assert EventInv(s, e);
    forall x | x in s.log && x.Decided? && x.pid == pid ensures x.status == s.rows[pid].status {
      assert EventInv(s, x);
    }
    if !s.rows[pid].status.Discarded? {
      assert e == Decided(pid, e.who, Promoted);
    }
  }

  /** The deciders that begin are the cast's, each in its role. */
  predicate Plays(cast: map<DeciderId, Role>, acts: seq<Action>) {
    forall a | a in acts && a.Begin? :: a.d in cast && cast[a.d] == Role(a.pid, a.approve, a.approver)
  }

  predicate InRole(cast: map<DeciderId, Role>, s: State) {
    forall d | d in s.deciders ::
      d in cast && cast[d] == RoleOf(s.deciders[d])
  }

  lemma NextStaysInRole(cfg: Config, cast: map<DeciderId, Role>, s: State, a: Action)
    requires InRole(cast, s) && Plays(cast, [a])
    ensures InRole(cast, Next(cfg, s, a))
  {
    assert a in [a];
    if a.Move? && a.d in s.deciders {
      AdvanceLogs(cfg, s, a.d, a.tick);
      var s' := Next(cfg, s, a);
      assert forall d | d in s'.deciders :: RoleOf(s'.deciders[d]) == RoleOf(s.deciders[d]);
    }
  }

  lemma {:induction false} RunStaysInRole(cfg: Config, cast: map<DeciderId, Role>, s: State, acts: seq<Action>)
    requires InRole(cast, s) && Plays(cast, acts)
    ensures InRole(cast, RunFrom(cfg, s, acts))
    decreases |acts|
  {
    if acts != [] {
      assert acts == [acts[0]] + acts[1..];
      NextStaysInRole(cfg, cast, s, acts[0]);
      RunStaysInRole(cfg, cast, Next(cfg, s, acts[0]), acts[1..]);
    }
  }

  predicate Takes(cast: map<DeciderId, Role>, d: DeciderId, pid: ProposalId, approve: bool) {
    d in cast && cast[d].pid == pid && cast[d].approve == approve
  }

  /** In this state the reject d of pid, if it has succeeded, has the proposal discarded. */
  predicate RejectDone(s: State, d: DeciderId, pid: ProposalId) {
    d in s.deciders && s.deciders[d].pid == pid && !s.deciders[d].approve && s.deciders[d].pc == Finished(Success) ==>
      pid in s.rows && s.rows[pid].status.Discarded?
  }

  ghost predicate RejectsAlwaysDiscard(cfg: Config, cast: map<DeciderId, Role>, pid: ProposalId) {
    forall acts, d | Plays(cast, acts) :: RejectDone(After(cfg, acts), d, pid)
  }

  lemma NoApproverDiscards(cfg: Config, cast: map<DeciderId, Role>, pid: ProposalId, acts: seq<Action>, d: DeciderId)
    requires Plays(cast, acts) && forall a :: !Takes(cast, a, pid, true)
    ensures RejectDone(After(cfg, acts), d, pid)
  {
    var s := After(cfg, acts);
    if d in s.deciders && s.deciders[d].pid == pid && !s.deciders[d].approve && s.deciders[d].pc == Finished(Success) {
      RejectDiscardsIff(cfg, acts, d);
      RunStaysInRole(cfg, cast, START, acts);
      RunKeepsRoles(cfg, START, acts);
      forall e | e in s.log && e.Decided? && e.pid == pid ensures !e.status.Promoted? {
        assert RightfullyDecided(s, e) && !Takes(cast, e.who, pid, true);
      }
    }
  }

  /** Checkable before anyone decides: every successful reject of a proposal discards it, in all
      interleavings, exactly when no decider of that proposal approves, or none rejects. */
  lemma RejectsAlwaysDiscardIff(cfg: Config, cast: map<DeciderId, Role>, pid: ProposalId)
    ensures RejectsAlwaysDiscard(cfg, cast, pid)
            <==> (forall d :: !Takes(cast, d, pid, true)) || (forall d :: !Takes(cast, d, pid, false))
  {
    if forall d :: !Takes(cast, d, pid, true) {
      forall acts, d | Plays(cast, acts) ensures RejectDone(After(cfg, acts), d, pid) {
        NoApproverDiscards(cfg, cast, pid, acts, d);
      }
    } else if forall d :: !Takes(cast, d, pid, false) {
      forall acts, d | Plays(cast, acts) ensures RejectDone(After(cfg, acts), d, pid) {
        RunStaysInRole(cfg, cast, START, acts);
        assert !Takes(cast, d, pid, false);
      }
    } else {
      var a :| Takes(cast, a, pid, true);
      var r :| Takes(cast, r, pid, false);
      var acts := LosingRejectSucceeds(cfg, pid, a, cast[a].approver, r, cast[r].approver);
      assert Plays(cast, acts);
      assert !RejectDone(After(cfg, acts), r, pid);
    }
  }

  lemma {:induction false} RunFromSnoc(cfg: Config, s: State, acts: seq<Action>, a: Action)
    ensures RunFrom(cfg, s, acts + [a]) == Next(cfg, RunFrom(cfg, s, acts), a)
    decreases |acts|
  {
    if acts != [] {
      assert (acts + [a])[1..] == acts[1..] + [a];
      RunFromSnoc(cfg, Next(cfg, s, acts[0]), acts[1..], a);
    }
  }

  lemma AfterSnoc(cfg: Config, acts: seq<Action>, a: Action)
    ensures After(cfg, acts + [a]) == Next(cfg, After(cfg, acts), a)
  {
    RunFromSnoc(cfg, START, acts, a);
  }

  const ANY_TICK := Tick("", "", "", "", "")

  /** Both deciders have read the proposal as pending. */
  predicate BothRead(s: State, pid: ProposalId, a: DeciderId, ap: PrincipalId, r: DeciderId, rp: PrincipalId) {
    var held := Held(None, None);
    && StillPending(s, pid) && a in s.deciders && r in s.deciders
    && s.deciders[a] == Decider(pid, true, ap, Deciding(EntityKind, held))
    && s.deciders[r] == Decider(pid, false, rp, Deciding(EntityKind, held))
  }

  lemma TwoRead(cfg: Config, pid: ProposalId, a: DeciderId, ap: PrincipalId, r: DeciderId, rp: PrincipalId)
    returns (acts: seq<Action>)
    requires a != r
    ensures BothRead(After(cfg, acts), pid, a, ap, r, rp)
    ensures forall x | x in acts && x.Begin? :: x == Begin(a, pid, true, ap) || x == Begin(r, pid, false, rp)
  {
    acts := [];
    assert After(cfg, []) == START;
    AfterSnoc(cfg, acts, Propose(pid, EntityKind, true, Held(None, None)));
    acts := acts + [Propose(pid, EntityKind, true, Held(None, None))];
    AfterSnoc(cfg, acts, Begin(a, pid, true, ap));
    acts := acts + [Begin(a, pid, true, ap)];
    AfterSnoc(cfg, acts, Begin(r, pid, false, rp));
    acts := acts + [Begin(r, pid, false, rp)];
    AfterSnoc(cfg, acts, Move(a, ANY_TICK));
    acts := acts + [Move(a, ANY_TICK)];
    AfterSnoc(cfg, acts, Move(r, ANY_TICK));
    acts := acts + [Move(r, ANY_TICK)];
  }

  /** Two deciders that both read the proposal as pending: the approval wins, and the reject that
      lost reports success all the same. */
  lemma LosingRejectSucceeds(
    cfg: Config, pid: ProposalId, a: DeciderId, ap: PrincipalId, r: DeciderId, rp: PrincipalId)
    returns (acts: seq<Action>)
    requires a != r
    ensures forall x | x in acts && x.Begin? :: x == Begin(a, pid, true, ap) || x == Begin(r, pid, false, rp)
    ensures var s := After(cfg, acts);
      && pid in s.rows && s.rows[pid].status.Promoted?
      && r in s.deciders && s.deciders[r] == Decider(pid, false, rp, Finished(Success))
  {
    acts := TwoRead(cfg, pid, a, ap, r, rp);
    AfterSnoc(cfg, acts, Move(a, ANY_TICK));
    acts := acts + [Move(a, ANY_TICK)];
    AfterSnoc(cfg, acts, Move(r, ANY_TICK));
    acts := acts + [Move(r, ANY_TICK)];
  }
}
