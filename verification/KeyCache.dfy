/** The shared key cache of the credential verifier: any number of calls in flight, each moving
    through the critical sections of key and refetch, interleaved in any order. */
module KeyCache {
  import opened Domain

  type Kid = string
  type PublicKey = string
  type Keys = map<Kid, PublicKey>
  type CallId = nat

  datatype Config = Config(minRefetch: int, refreshAfter: int)

  const SECOND := 1_000_000_000

  /** The verifier's settings (nanoseconds): a positive one is kept, anything else gives way to ten
      seconds between attempts and five minutes between refreshes. */
  function NewConfig(minRefetch: int, refreshAfter: int): (c: Config)
    ensures Positive(c)
    ensures minRefetch > 0 ==> c.minRefetch == minRefetch
    ensures minRefetch <= 0 ==> c.minRefetch == 10 * SECOND
    ensures refreshAfter > 0 ==> c.refreshAfter == refreshAfter
    ensures refreshAfter <= 0 ==> c.refreshAfter == 5 * 60 * SECOND
  {
    Config(if minRefetch <= 0 then 10 * SECOND else minRefetch,
           if refreshAfter <= 0 then 300 * SECOND else refreshAfter)
  }

  predicate Positive(c: Config) {
    c.minRefetch > 0 && c.refreshAfter > 0
  }

  // ---- the machine ----

  /** What happened to the key set so far; a failure names the time its attempt began. */
  datatype Event = Attempt(at: int) | Failure(tried: int) | Success(at: int, keys: Keys)

  /** An installed key set. */
  datatype Installed = Installed(at: int, keys: Keys)

  /** Where a call is; from Checking to Unlocking it holds the fetch lock. */
  datatype Pc =
    | Reading
    | Waiting
    | Checking
    | Marking
    | Fetching
    | Installing(fetched: Keys)
    | Unlocking
    | Rereading
    | Done(result: Option<PublicKey>, from: Option<Installed>)

  datatype Call = Call(kid: Kid, begun: int, pc: Pc)

  datatype State = State(
    clock: int, keys: Keys, fetchedAt: Option<int>, triedAt: Option<int>,
    holder: Option<CallId>, calls: map<CallId, Call>, log: seq<Event>)

  function Start(clock: int): State {
    State(clock, map[], None, None, None, map[], [])
  }

  datatype Action =
    | Tick(ns: nat)
    | Begin(c: CallId, kid: Kid)
    | Move(c: CallId)
    | Respond(c: CallId, answer: Option<Keys>)

  function At(s: State, c: CallId, pc: Pc): State
    requires c in s.calls
  {
    s.(calls := s.calls[c := s.calls[c].(pc := pc)])
  }

  /** The set a read of the cache sees, with its age. */
  function Current(s: State): Option<Installed> {
    if s.fetchedAt.None? then None else Some(Installed(s.fetchedAt.value, s.keys))
  }

  function Lookup(s: State, kid: Kid): Option<PublicKey> {
    if kid in s.keys then Some(s.keys[kid]) else None
  }

  predicate Stale(cfg: Config, s: State) {
    s.fetchedAt.None? || s.clock - s.fetchedAt.value >= cfg.refreshAfter
  }

  predicate Recent(cfg: Config, s: State) {
    s.triedAt.Some? && s.clock - s.triedAt.value < cfg.minRefetch
  }

  /** One critical section of call c; nothing while it waits for the lock or the response. */
  function Advance(cfg: Config, s: State, c: CallId): State
    requires c in s.calls
  {
    var call := s.calls[c];
    match call.pc
    case Reading =>
      if call.kid in s.keys && !Stale(cfg, s) then At(s, c, Done(Lookup(s, call.kid), Current(s)))
      else At(s, c, Waiting)
    case Waiting => if s.holder.None? then At(s, c, Checking).(holder := Some(c)) else s
    case Checking => if Recent(cfg, s) then At(s, c, Unlocking) else At(s, c, Marking)
    case Marking => At(s, c, Fetching).(triedAt := Some(s.clock), log := s.log + [Attempt(s.clock)])
    case Fetching => s
    case Installing(fetched) =>
      At(s, c, Unlocking).(keys := fetched, fetchedAt := Some(s.clock), log := s.log + [Success(s.clock, fetched)])
    case Unlocking => At(s, c, Rereading).(holder := None)
    case Rereading => At(s, c, Done(Lookup(s, call.kid), Current(s)))
    case Done(_, _) => s
  }

  function Next(cfg: Config, s: State, a: Action): State {
    match a
    case Tick(ns) => s.(clock := s.clock + ns)
    case Begin(c, kid) => if c in s.calls then s else s.(calls := s.calls[c := Call(kid, s.clock, Reading)])
    case Move(c) => if c in s.calls then Advance(cfg, s, c) else s
    case Respond(c, answer) =>
      if c !in s.calls || !s.calls[c].pc.Fetching? || s.triedAt.None? then s
      else if answer.Some? then At(s, c, Installing(answer.value))
      else At(s, c, Unlocking).(log := s.log + [Failure(s.triedAt.value)])
  }

  function Run(cfg: Config, s: State, acts: seq<Action>): State
    decreases |acts|
  {
    if acts == [] then s else Run(cfg, Next(cfg, s, acts[0]), acts[1..])
  }

  // ---- what the events say ----

  function LastSuccess(log: seq<Event>): Option<Installed> {
    if log == [] then None
    else
      var last := log[|log| - 1];
      if last.Success? then Some(Installed(last.at, last.keys)) else LastSuccess(log[..|log| - 1])
  }

  /** Any two attempts are at least that far apart. */
  ghost predicate Spaced(gap: int, log: seq<Event>) {
    forall i, j | 0 <= i < j < |log| && log[i].Attempt? && log[j].Attempt? :: log[j].at - log[i].at >= gap
  }

  /** An attempt made after that time failed. */
  ghost predicate FailedSince(log: seq<Event>, after: int) {
    exists e | e in log :: e.Failure? && e.tried > after
  }

  predicate InFlight(pc: Pc) {
    pc.Fetching? || pc.Installing?
  }

  predicate Inside(pc: Pc) {
    pc.Checking? || pc.Marking? || pc.Unlocking? || InFlight(pc)
  }

  /** The last attempt is over, and how it ended is the last event. */
  ghost predicate Settled(s: State) {
    if s.log == [] then s.triedAt.None?
    else
      var last := s.log[|s.log| - 1];
      match last
      case Attempt(_) => false
      case Failure(tried) => s.triedAt == Some(tried)
      case Success(at, _) => s.triedAt.Some? && s.triedAt.value <= at
  }

  /** The cache was refreshed, or refreshing it failed, after that time. */
  ghost predicate Renewed(s: State, after: int) {
    (s.fetchedAt.Some? && s.fetchedAt.value > after) || FailedSince(s.log, after)
  }

  // ---- the invariant ----

  ghost predicate CacheInv(cfg: Config, s: State) {
    && Current(s) == LastSuccess(s.log) && (s.fetchedAt.None? ==> s.keys == map[])
    && (s.fetchedAt.Some? ==> s.fetchedAt.value <= s.clock)
    && (s.triedAt.Some? ==> s.triedAt.value <= s.clock)
    && (s.triedAt.None? ==> forall e | e in s.log :: !e.Attempt?)
    && (s.triedAt.Some? ==> Attempt(s.triedAt.value) in s.log)
    && (forall e | e in s.log && e.Attempt? :: s.triedAt.Some? && e.at <= s.triedAt.value)
    && (forall e | e in s.log && e.Failure? :: Attempt(e.tried) in s.log)
    && Spaced(cfg.minRefetch, s.log)
  }

  ghost predicate LockInv(s: State) {
    && (s.holder.Some? ==> s.holder.value in s.calls)
    && (forall c | c in s.calls :: Inside(s.calls[c].pc) <==> s.holder == Some(c))
    && (if s.holder.Some? && InFlight(s.calls[s.holder.value].pc)
        then s.triedAt.Some? && s.triedAt.value >= s.calls[s.holder.value].begun
        else Settled(s))
  }

  /** A finished call answers from a set that was installed, and recently, unless a fetch failed. */
  ghost predicate Answered(cfg: Config, s: State, call: Call)
    requires call.pc.Done?
  {
    var from := call.pc.from;
    && (from.Some? ==> Success(from.value.at, from.value.keys) in s.log)
    && call.pc.result == (if from.Some? && call.kid in from.value.keys then Some(from.value.keys[call.kid]) else None)
    && (|| (from.Some? && call.pc.result.Some? && from.value.at > call.begun - cfg.refreshAfter)
        || (from.Some? && from.value.at > call.begun - cfg.minRefetch)
        || FailedSince(s.log, call.begun - cfg.minRefetch))
  }

  ghost predicate CallInv(cfg: Config, s: State, call: Call) {
    && call.begun <= s.clock
    && (call.pc.Marking? ==> !Recent(cfg, s))
    && (call.pc.Unlocking? || call.pc.Rereading? ==> Renewed(s, call.begun - cfg.minRefetch))
    && (call.pc.Done? ==> Answered(cfg, s, call))
  }

  ghost predicate Inv(cfg: Config, s: State) {
    && CacheInv(cfg, s) && LockInv(s)
    && (forall c | c in s.calls :: CallInv(cfg, s, s.calls[c]))
  }

  lemma CallKept(cfg: Config, s: State, s': State, call: Call)
    requires CallInv(cfg, s, call) && s.clock <= s'.clock && s.log <= s'.log
    requires s.fetchedAt.Some? ==> s'.fetchedAt.Some? && s'.fetchedAt.value >= s.fetchedAt.value
    requires call.pc.Marking? ==> s'.triedAt == s.triedAt
    ensures CallInv(cfg, s', call)
  {
    assert forall e | e in s.log :: e in s'.log;
  }

  /** The other calls' invariants carry over when one call, which holds the lock if its move
      touches triedAt, has moved. */
  lemma OthersKept(cfg: Config, s: State, s': State, c: CallId)
    requires LockInv(s) && (forall d | d in s.calls :: CallInv(cfg, s, s.calls[d])) && c in s.calls
    requires s'.calls.Keys == s.calls.Keys && (forall d | d in s.calls && d != c :: s'.calls[d] == s.calls[d])
    requires s.clock <= s'.clock && s.log <= s'.log
    requires s.fetchedAt.Some? ==> s'.fetchedAt.Some? && s'.fetchedAt.value >= s.fetchedAt.value
    requires s'.triedAt == s.triedAt || s.holder == Some(c)
    ensures forall d | d in s'.calls && d != c :: CallInv(cfg, s', s'.calls[d])
  {
    forall d | d in s'.calls && d != c ensures CallInv(cfg, s', s'.calls[d]) {
      CallKept(cfg, s, s', s.calls[d]);
    }
  }

  lemma LastSuccessSnoc(log: seq<Event>, e: Event)
    ensures LastSuccess(log + [e]) == if e.Success? then Some(Installed(e.at, e.keys)) else LastSuccess(log)
  {
    assert (log + [e])[..|log|] == log;
  }

  lemma {:induction false} LastSuccessListed(log: seq<Event>)
    requires LastSuccess(log).Some?
    ensures Success(LastSuccess(log).value.at, LastSuccess(log).value.keys) in log
  {
    if !log[|log| - 1].Success? {
      LastSuccessListed(log[..|log| - 1]);
    }
  }

  lemma TickKeeps(cfg: Config, s: State, ns: nat)
    requires Inv(cfg, s)
    ensures Inv(cfg, Next(cfg, s, Tick(ns)))
  {
    var s' := Next(cfg, s, Tick(ns));
    forall d | d in s'.calls ensures CallInv(cfg, s', s'.calls[d]) {
      CallKept(cfg, s, s', s.calls[d]);
    }
  }

  lemma BeginKeeps(cfg: Config, s: State, c: CallId, kid: Kid)
    requires Inv(cfg, s) && c !in s.calls
    ensures Inv(cfg, Next(cfg, s, Begin(c, kid)))
  {
    var s' := Next(cfg, s, Begin(c, kid));
    forall d | d in s'.calls ensures CallInv(cfg, s', s'.calls[d]) {
      if d != c {
        CallKept(cfg, s, s', s.calls[d]);
      }
    }
  }

  predicate Quiet(pc: Pc) {
    !pc.Marking? && !pc.Installing?
  }

  lemma QuietKeepsLock(cfg: Config, s: State, c: CallId)
    requires LockInv(s) && c in s.calls && Quiet(s.calls[c].pc)
    ensures LockInv(Advance(cfg, s, c))
  {
    var s' := Advance(cfg, s, c);
    assert s'.log == s.log && s'.triedAt == s.triedAt;
    assert Settled(s') == Settled(s);
  }

  lemma ReadAnswered(cfg: Config, s: State, call: Call)
    requires CacheInv(cfg, s) && CallInv(cfg, s, call)
    requires call.pc.Rereading? || (call.pc.Reading? && call.kid in s.keys && !Stale(cfg, s))
    ensures Answered(cfg, s, call.(pc := Done(Lookup(s, call.kid), Current(s))))
  {
    if Current(s).Some? {
      LastSuccessListed(s.log);
    }
  }

  lemma QuietKeepsCall(cfg: Config, s: State, c: CallId)
    requires CacheInv(cfg, s) && LockInv(s) && c in s.calls && CallInv(cfg, s, s.calls[c]) && Quiet(s.calls[c].pc)
    ensures CallInv(cfg, Advance(cfg, s, c), Advance(cfg, s, c).calls[c])
  {
    var call := s.calls[c];
    match call.pc
    case Reading =>
      if call.kid in s.keys && !Stale(cfg, s) {
        ReadAnswered(cfg, s, call);
      }
    case Rereading => ReadAnswered(cfg, s, call);
    case Checking =>
      if Recent(cfg, s) {
        RecentIsRenewed(cfg, s, call.begun);
      }
    case _ =>
  }

  /** Reads, and taking or giving back the lock: the cache and the events stay. */
  lemma QuietChangesNothing(cfg: Config, s: State, c: CallId)
    requires c in s.calls && Quiet(s.calls[c].pc)
    ensures var s' := Advance(cfg, s, c);
      && s'.clock == s.clock && s'.keys == s.keys && s'.fetchedAt == s.fetchedAt && s'.triedAt == s.triedAt
      && s'.log == s.log && s'.calls.Keys == s.calls.Keys
      && forall d | d in s.calls && d != c :: s'.calls[d] == s.calls[d]
  {
  }

  lemma QuietMoveKeeps(cfg: Config, s: State, c: CallId)
    requires Inv(cfg, s) && c in s.calls && Quiet(s.calls[c].pc)
    ensures Inv(cfg, Advance(cfg, s, c))
  {
    QuietKeepsLock(cfg, s, c);
    QuietKeepsCall(cfg, s, c);
    QuietChangesNothing(cfg, s, c);
    Together(cfg, s, Advance(cfg, s, c), c);
  }

  /** The cache, the lock and the moved call keep their parts, so the whole holds. */
  lemma Together(cfg: Config, s: State, s': State, c: CallId)
    requires Inv(cfg, s) && c in s.calls
    requires s'.calls.Keys == s.calls.Keys && (forall d | d in s.calls && d != c :: s'.calls[d] == s.calls[d])
    requires s.clock <= s'.clock && s.log <= s'.log
    requires s.fetchedAt.Some? ==> s'.fetchedAt.Some? && s'.fetchedAt.value >= s.fetchedAt.value
    requires s'.triedAt == s.triedAt || s.holder == Some(c)
    requires CacheInv(cfg, s') || SameCache(s, s')
    requires LockInv(s') && CallInv(cfg, s', s'.calls[c])
    ensures Inv(cfg, s')
  {
    OthersKept(cfg, s, s', c);
  }

  predicate SameCache(s: State, s': State) {
    s'.clock == s.clock && s'.keys == s.keys && s'.fetchedAt == s.fetchedAt && s'.triedAt == s.triedAt
      && s'.log == s.log
  }

  /** An attempt within the rate limit has ended, and refreshed the cache or failed. */
  lemma RecentIsRenewed(cfg: Config, s: State, begun: int)
    requires CacheInv(cfg, s) && Settled(s) && Recent(cfg, s) && begun <= s.clock
    ensures Renewed(s, begun - cfg.minRefetch)
  {
    var last := s.log[|s.log| - 1];
    assert last in s.log;
  }

  lemma SpacedSnoc(gap: int, log: seq<Event>, at: int)
    requires Spaced(gap, log) && forall e | e in log && e.Attempt? :: at - e.at >= gap
    ensures Spaced(gap, log + [Attempt(at)])
  {
    var log' := log + [Attempt(at)];
    forall i, j | 0 <= i < j < |log'| && log'[i].Attempt? && log'[j].Attempt?
      ensures log'[j].at - log'[i].at >= gap
    {
      assert log'[i] in log;
    }
  }

  lemma MarkKeepsCache(cfg: Config, s: State, c: CallId)
    requires CacheInv(cfg, s) && c in s.calls && s.calls[c].pc.Marking? && !Recent(cfg, s)
    ensures CacheInv(cfg, Advance(cfg, s, c))
  {
    SpacedSnoc(cfg.minRefetch, s.log, s.clock);
    LastSuccessSnoc(s.log, Attempt(s.clock));
    assert forall e | e in s.log :: e in Advance(cfg, s, c).log;
  }

  lemma MarkFields(cfg: Config, s: State, c: CallId)
    requires c in s.calls && s.calls[c].pc.Marking?
    ensures var s' := Advance(cfg, s, c);
      && s'.clock == s.clock && s'.fetchedAt == s.fetchedAt && s.log <= s'.log && s'.calls.Keys == s.calls.Keys
      && s'.calls[c] == s.calls[c].(pc := Fetching)
      && forall d | d in s.calls && d != c :: s'.calls[d] == s.calls[d]
  {
  }

  lemma MarkKeepsLock(cfg: Config, s: State, c: CallId)
    requires LockInv(s) && c in s.calls && s.calls[c].pc.Marking? && s.calls[c].begun <= s.clock
    ensures LockInv(Advance(cfg, s, c)) && s.holder == Some(c)
  {
    assert Inside(s.calls[c].pc) && s.holder == Some(c);
  }

  lemma MarkKeeps(cfg: Config, s: State, c: CallId)
    requires Inv(cfg, s) && c in s.calls && s.calls[c].pc.Marking?
    ensures Inv(cfg, Advance(cfg, s, c))
  {
    assert CallInv(cfg, s, s.calls[c]);
    MarkKeepsCache(cfg, s, c);
    MarkKeepsLock(cfg, s, c);
    MarkFields(cfg, s, c);
    Together(cfg, s, Advance(cfg, s, c), c);
  }

  lemma SpacedQuietly(gap: int, log: seq<Event>, e: Event)
    requires Spaced(gap, log) && !e.Attempt?
    ensures Spaced(gap, log + [e])
  {
  }

  lemma InstallKeepsCache(cfg: Config, s: State, c: CallId)
    requires CacheInv(cfg, s) && c in s.calls && s.calls[c].pc.Installing?
    ensures CacheInv(cfg, Advance(cfg, s, c))
  {
    var e := Success(s.clock, s.calls[c].pc.fetched);
    LastSuccessSnoc(s.log, e);
    SpacedQuietly(cfg.minRefetch, s.log, e);
    assert forall x | x in s.log :: x in s.log + [e];
  }

  lemma InstallKeepsLock(cfg: Config, s: State, c: CallId)
    requires CacheInv(cfg, s) && LockInv(s) && c in s.calls && s.calls[c].pc.Installing?
    ensures LockInv(Advance(cfg, s, c)) && s.triedAt.Some? && s.calls[c].begun <= s.triedAt.value
  {
    assert InFlight(s.calls[c].pc) && s.holder == Some(c);
  }

  lemma InstallKeeps(cfg: Config, s: State, c: CallId)
    requires Inv(cfg, s) && c in s.calls && s.calls[c].pc.Installing? && Positive(cfg)
    ensures Inv(cfg, Advance(cfg, s, c))
  {
    InstallKeepsCache(cfg, s, c);
    InstallKeepsLock(cfg, s, c);
    Together(cfg, s, Advance(cfg, s, c), c);
  }

  lemma FetchedKeeps(cfg: Config, s: State, c: CallId, keys: Keys)
    requires Inv(cfg, s) && c in s.calls && s.calls[c].pc.Fetching?
    ensures Inv(cfg, At(s, c, Installing(keys)))
  {
    var s' := At(s, c, Installing(keys));
    assert LockInv(s') by {
      assert InFlight(s.calls[c].pc) && s.holder == Some(c);
    }
    Together(cfg, s, s', c);
  }

  function Failed(s: State, c: CallId, tried: int): State
    requires c in s.calls
  {
    At(s, c, Unlocking).(log := s.log + [Failure(tried)])
  }

  lemma FailureKeepsCache(cfg: Config, s: State, c: CallId, tried: int)
    requires CacheInv(cfg, s) && c in s.calls && s.triedAt == Some(tried)
    ensures CacheInv(cfg, Failed(s, c, tried))
  {
    var e := Failure(tried);
    LastSuccessSnoc(s.log, e);
    SpacedQuietly(cfg.minRefetch, s.log, e);
    assert forall x | x in s.log :: x in s.log + [e];
  }

  lemma FailureKeeps(cfg: Config, s: State, c: CallId, tried: int)
    requires Inv(cfg, s) && c in s.calls && s.calls[c].pc.Fetching? && s.triedAt == Some(tried) && Positive(cfg)
    ensures Inv(cfg, Failed(s, c, tried))
  {
    var s' := Failed(s, c, tried);
    assert LockInv(s') && s.calls[c].begun <= tried by {
      assert InFlight(s.calls[c].pc) && s.holder == Some(c);
    }
    assert Failure(tried) in s'.log;
    FailureKeepsCache(cfg, s, c, tried);
    Together(cfg, s, s', c);
  }

  lemma RespondKeeps(cfg: Config, s: State, c: CallId, answer: Option<Keys>)
    requires Inv(cfg, s) && c in s.calls && s.calls[c].pc.Fetching? && Positive(cfg)
    ensures Inv(cfg, Next(cfg, s, Respond(c, answer)))
  {
    if answer.Some? {
      FetchedKeeps(cfg, s, c, answer.value);
    } else if s.triedAt.Some? {
      FailureKeeps(cfg, s, c, s.triedAt.value);
    }
  }

  lemma NextKeepsInv(cfg: Config, s: State, a: Action)
    requires Positive(cfg) && Inv(cfg, s)
    ensures Inv(cfg, Next(cfg, s, a))
  {
    match a
    case Tick(ns) => TickKeeps(cfg, s, ns);
    case Begin(c, kid) =>
      if c !in s.calls {
        BeginKeeps(cfg, s, c, kid);
      }
    case Move(c) =>
      if c in s.calls {
        if s.calls[c].pc.Marking? {
          MarkKeeps(cfg, s, c);
        } else if s.calls[c].pc.Installing? {
          InstallKeeps(cfg, s, c);
        } else {
          QuietMoveKeeps(cfg, s, c);
        }
      }
    case Respond(c, answer) =>
      if c in s.calls && s.calls[c].pc.Fetching? {
        RespondKeeps(cfg, s, c, answer);
      }
  }

  lemma {:induction false} RunKeepsInv(cfg: Config, s: State, acts: seq<Action>)
    requires Positive(cfg) && Inv(cfg, s)
    ensures Inv(cfg, Run(cfg, s, acts))
    decreases |acts|
  {
    if acts != [] {
      NextKeepsInv(cfg, s, acts[0]);
      RunKeepsInv(cfg, Next(cfg, s, acts[0]), acts[1..]);
    }
  }

  lemma StartInv(cfg: Config, clock: int)
    ensures Inv(cfg, Start(clock))
  {
  }

  // ---- what every interleaving keeps ----

  /** However the calls interleave: attempts to fetch are at least minRefetch apart, one at a
      time, and the cache is always the last fetch that succeeded. */
  lemma FetchesAreLimited(cfg: Config, clock: int, acts: seq<Action>)
    requires Positive(cfg)
    ensures var s := Run(cfg, Start(clock), acts);
      && Spaced(cfg.minRefetch, s.log)
      && Current(s) == LastSuccess(s.log)
      && (s.fetchedAt.None? ==> s.keys == map[])
      && (forall c, d | c in s.calls && d in s.calls && InFlight(s.calls[c].pc) && InFlight(s.calls[d].pc) :: c == d)
  {
    StartInv(cfg, clock);
    RunKeepsInv(cfg, Start(clock), acts);
    var s := Run(cfg, Start(clock), acts);
    assert forall c | c in s.calls && InFlight(s.calls[c].pc) :: Inside(s.calls[c].pc) && s.holder == Some(c);
  }

  function Max(a: int, b: int): int {
    if a >= b then a else b
  }

  /** A finished call answers from a set some fetch brought, installed less than
      max(refreshAfter, minRefetch) before the call began, unless a fetch attempted less than
      minRefetch before the call began, or later, failed. A kid is called unknown only by a set
      that is fresh by the shorter measure. */
  lemma AnswersAreFresh(cfg: Config, clock: int, acts: seq<Action>, c: CallId)
    requires Positive(cfg) && c in Run(cfg, Start(clock), acts).calls
    requires Run(cfg, Start(clock), acts).calls[c].pc.Done?
    ensures var s := Run(cfg, Start(clock), acts); var call := s.calls[c]; var from := call.pc.from;
      && (from.Some? ==> Success(from.value.at, from.value.keys) in s.log)
      && call.pc.result == (if from.Some? && call.kid in from.value.keys then Some(from.value.keys[call.kid]) else None)
      && (FailedSince(s.log, call.begun - cfg.minRefetch)
          || (from.Some? && from.value.at > call.begun -
                            (if call.pc.result.Some? then Max(cfg.refreshAfter, cfg.minRefetch) else cfg.minRefetch)))
  {
    StartInv(cfg, clock);
    RunKeepsInv(cfg, Start(clock), acts);
    assert CallInv(cfg, Run(cfg, Start(clock), acts), Run(cfg, Start(clock), acts).calls[c]);
  }

  /** The call's answer comes from a set installed less than refreshAfter before it began. */
  ghost predicate UpToDate(cfg: Config, call: Call) {
    call.pc.Done? && call.pc.result.Some? ==>
      call.pc.from.Some? && call.pc.from.value.at > call.begun - cfg.refreshAfter
  }

  ghost predicate NoFailure(log: seq<Event>) {
    forall e | e in log :: !e.Failure?
  }

  ghost predicate AlwaysUpToDate(cfg: Config) {
    forall clock, acts | NoFailure(Run(cfg, Start(clock), acts).log) ::
      forall c | c in Run(cfg, Start(clock), acts).calls :: UpToDate(cfg, Run(cfg, Start(clock), acts).calls[c])
  }

  /** While fetches succeed, withdrawn keys stop verifying after refreshAfter: exactly when the
      rate limit is no longer than that. */
  lemma UpToDateIff(cfg: Config)
    requires Positive(cfg)
    ensures AlwaysUpToDate(cfg) <==> cfg.minRefetch <= cfg.refreshAfter
  {
    if cfg.minRefetch <= cfg.refreshAfter {
      forall clock, acts | NoFailure(Run(cfg, Start(clock), acts).log)
        ensures forall c | c in Run(cfg, Start(clock), acts).calls ::
                UpToDate(cfg, Run(cfg, Start(clock), acts).calls[c])
      {
        forall c | c in Run(cfg, Start(clock), acts).calls
          ensures UpToDate(cfg, Run(cfg, Start(clock), acts).calls[c])
        {
          if Run(cfg, Start(clock), acts).calls[c].pc.Done? {
            AnswersAreFresh(cfg, clock, acts, c);
          }
        }
      }
    } else {
      LateAnswer(cfg);
    }
  }

  lemma {:induction false} RunSnoc(cfg: Config, s: State, acts: seq<Action>, a: Action)
    ensures Run(cfg, s, acts + [a]) == Next(cfg, Run(cfg, s, acts), a)
    decreases |acts|
  {
    if acts != [] {
      assert (acts + [a])[1..] == acts[1..] + [a];
      RunSnoc(cfg, Next(cfg, s, acts[0]), acts[1..], a);
    }
  }

  /** One call alone, from its first read to its answer. */
  function Fetch(cfg: Config, s: State, c: CallId, kid: Kid, keys: Keys): State {
    var s1 := Next(cfg, Next(cfg, s, Begin(c, kid)), Move(c));
    var s2 := Next(cfg, Next(cfg, Next(cfg, s1, Move(c)), Move(c)), Move(c));
    Next(cfg, Next(cfg, Next(cfg, s2, Respond(c, Some(keys))), Move(c)), Move(c))
  }

  function Wait(cfg: Config, s: State, c: CallId, kid: Kid): State {
    var s1 := Next(cfg, Next(cfg, Next(cfg, s, Begin(c, kid)), Move(c)), Move(c));
    Next(cfg, Next(cfg, Next(cfg, s1, Move(c)), Move(c)), Move(c))
  }

  ghost predicate Reached(cfg: Config, s: State) {
    exists acts :: Run(cfg, Start(0), acts) == s
  }

  lemma ReachedNext(cfg: Config, s: State, a: Action)
    requires Reached(cfg, s)
    ensures Reached(cfg, Next(cfg, s, a))
  {
    var acts :| Run(cfg, Start(0), acts) == s;
    RunSnoc(cfg, Start(0), acts, a);
  }

  lemma FetchReached(cfg: Config, s: State, c: CallId, kid: Kid, keys: Keys)
    requires Reached(cfg, s)
    ensures Reached(cfg, Fetch(cfg, s, c, kid, keys))
  {
    ReachedNext(cfg, s, Begin(c, kid));
    var s0 := Next(cfg, s, Begin(c, kid));
    ReachedNext(cfg, s0, Move(c));
    var s1 := Next(cfg, s0, Move(c));
    ReachedNext(cfg, s1, Move(c));
    var s2 := Next(cfg, s1, Move(c));
    ReachedNext(cfg, s2, Move(c));
    var s3 := Next(cfg, s2, Move(c));
    ReachedNext(cfg, s3, Move(c));
    var s4 := Next(cfg, s3, Move(c));
    ReachedNext(cfg, s4, Respond(c, Some(keys)));
    var s5 := Next(cfg, s4, Respond(c, Some(keys)));
    ReachedNext(cfg, s5, Move(c));
    ReachedNext(cfg, Next(cfg, s5, Move(c)), Move(c));
  }

  lemma WaitReached(cfg: Config, s: State, c: CallId, kid: Kid)
    requires Reached(cfg, s)
    ensures Reached(cfg, Wait(cfg, s, c, kid))
  {
    ReachedNext(cfg, s, Begin(c, kid));
    var s0 := Next(cfg, s, Begin(c, kid));
    ReachedNext(cfg, s0, Move(c));
    var s1 := Next(cfg, s0, Move(c));
    ReachedNext(cfg, s1, Move(c));
    var s2 := Next(cfg, s1, Move(c));
    ReachedNext(cfg, s2, Move(c));
    var s3 := Next(cfg, s2, Move(c));
    ReachedNext(cfg, s3, Move(c));
    ReachedNext(cfg, Next(cfg, s3, Move(c)), Move(c));
  }

  lemma FetchEnds(cfg: Config, kid: Kid, keys: Keys)
    requires Positive(cfg)
    ensures var s := Fetch(cfg, Start(0), 0, kid, keys);
      && s.keys == keys && s.fetchedAt == Some(0) && s.triedAt == Some(0) && s.clock == 0 && s.holder.None?
      && s.log == [Attempt(0), Success(0, keys)] && 1 !in s.calls
  {
  }

  lemma WaitEnds(cfg: Config, s: State, c: CallId, kid: Kid)
    requires c !in s.calls && s.holder.None? && Stale(cfg, s) && Recent(cfg, s)
    ensures var s' := Wait(cfg, s, c, kid);
      s'.log == s.log && c in s'.calls && s'.calls[c] == Call(kid, s.clock, Done(Lookup(s, kid), Current(s)))
  {
  }

  /** With a rate limit longer than refreshAfter, a stale cache is served though no fetch failed. */
  lemma LateAnswer(cfg: Config)
    requires Positive(cfg) && cfg.refreshAfter < cfg.minRefetch
    ensures !AlwaysUpToDate(cfg)
  {
    var kid, keys := "k", map["k" := "key"];
    assert Run(cfg, Start(0), []) == Start(0);
    FetchReached(cfg, Start(0), 0, kid, keys);
    FetchEnds(cfg, kid, keys);
    var s1 := Fetch(cfg, Start(0), 0, kid, keys);
    ReachedNext(cfg, s1, Tick(cfg.refreshAfter));
    var s2 := Next(cfg, s1, Tick(cfg.refreshAfter));
    WaitReached(cfg, s2, 1, kid);
    WaitEnds(cfg, s2, 1, kid);
    var s3 := Wait(cfg, s2, 1, kid);
    var acts :| Run(cfg, Start(0), acts) == s3;
    assert NoFailure(Run(cfg, Start(0), acts).log);
    assert !UpToDate(cfg, s3.calls[1]);
  }

  // ---- the code, uninterrupted ----

  /** One call alone, up to the request: the machine's sections in order, the clock moving on
      before the check and before the mark. */
  function Tried(cfg: Config, s: State, kid: Kid, ns: (nat, nat, nat)): State {
    var read := Next(cfg, Next(cfg, s, Begin(0, kid)), Move(0));
    var checked := Next(cfg, Next(cfg, Next(cfg, read, Tick(ns.0)), Move(0)), Move(0));
    Next(cfg, Next(cfg, checked, Tick(ns.1)), Move(0))
  }

  /** From the request to the answer, the clock moving on once more before the keys go in. */
  function Concluded(cfg: Config, s: State, ns: nat, answer: Option<Keys>): State {
    var installed := Next(cfg, Next(cfg, Next(cfg, s, Respond(0, answer)), Tick(ns)), Move(0));
    Next(cfg, Next(cfg, installed, Move(0)), Move(0))
  }

  function Alone(cfg: Config, s: State, kid: Kid, ns: (nat, nat, nat), answer: Option<Keys>): State {
    Concluded(cfg, Tried(cfg, s, kid, ns), ns.2, answer)
  }

  predicate Quiescent(s: State) {
    s.holder.None? && s.calls == map[]
  }

  /** The final state of a call alone: the cache, and the answer. */
  predicate Ends(s: State, keys: Keys, fetchedAt: Option<int>, triedAt: Option<int>, kid: Kid) {
    && s.keys == keys && s.fetchedAt == fetchedAt && s.triedAt == triedAt
    && 0 in s.calls && s.calls[0].pc.Done?
    && s.calls[0].pc.result == if kid in keys then Some(keys[kid]) else None
  }

  /** A call that gets no further than a read and perhaps the check. */
  lemma AloneCached(cfg: Config, s: State, kid: Kid, ns: (nat, nat, nat), answer: Option<Keys>)
    requires Quiescent(s) && ((kid in s.keys && !Stale(cfg, s)) || Recent(cfg, s.(clock := s.clock + ns.0)))
    ensures Ends(Alone(cfg, s, kid, ns, answer), s.keys, s.fetchedAt, s.triedAt, kid)
  {
    var t := Tried(cfg, s, kid, ns);
    assert t.keys == s.keys && t.fetchedAt == s.fetchedAt && t.triedAt == s.triedAt && 0 in t.calls
      && t.calls[0].kid == kid;
    if kid in s.keys && !Stale(cfg, s) {
      assert t.calls[0].pc.Done?;
    } else {
      assert t.calls[0].pc.Rereading?;
    }
  }

  predicate Asking(s: State, kid: Kid) {
    s.triedAt.Some? && s.holder == Some(0) && 0 in s.calls && s.calls[0].kid == kid && s.calls[0].pc.Fetching?
  }

  lemma AloneAsks(cfg: Config, s: State, kid: Kid, ns: (nat, nat, nat))
    requires Quiescent(s) && (kid !in s.keys || Stale(cfg, s)) && !Recent(cfg, s.(clock := s.clock + ns.0))
    ensures var t := Tried(cfg, s, kid, ns);
      && Asking(t, kid) && t.keys == s.keys && t.fetchedAt == s.fetchedAt
      && t.triedAt == Some(s.clock + ns.0 + ns.1) && t.clock == s.clock + ns.0 + ns.1
  {
  }

  lemma AloneConcludes(cfg: Config, s: State, kid: Kid, ns: nat, answer: Option<Keys>)
    requires Asking(s, kid)
    ensures Ends(Concluded(cfg, s, ns, answer), if answer.Some? then answer.value else s.keys,
                 if answer.Some? then Some(s.clock + ns) else s.fetchedAt, s.triedAt, kid)
  {
  }

  /** A call alone, in terms of the fields it starts from. */
  lemma AloneEnds(cfg: Config, s: State, kid: Kid, ns: (nat, nat, nat), answer: Option<Keys>, end: State)
    requires Quiescent(s) && end == Alone(cfg, s, kid, ns, answer)
    ensures
      var cached := (kid in s.keys && !Stale(cfg, s)) || Recent(cfg, s.(clock := s.clock + ns.0));
      var asked := s.clock + ns.0 + ns.1;
      if cached then Ends(end, s.keys, s.fetchedAt, s.triedAt, kid)
      else Ends(end, if answer.Some? then answer.value else s.keys,
                if answer.Some? then Some(asked + ns.2) else s.fetchedAt, Some(asked), kid)
  {
    if (kid in s.keys && !Stale(cfg, s)) || Recent(cfg, s.(clock := s.clock + ns.0)) {
      AloneCached(cfg, s, kid, ns, answer);
    } else {
      AloneAsks(cfg, s, kid, ns);
      AloneConcludes(cfg, Tried(cfg, s, kid, ns), kid, ns.2, answer);
    }
  }

  class Verifier {
    const cfg: Config
    var keys: Keys
    var fetchedAt: Option<int>
    var triedAt: Option<int>

    constructor (minRefetch: int, refreshAfter: int)
      ensures cfg == NewConfig(minRefetch, refreshAfter) && keys == map[] && fetchedAt.None? && triedAt.None?
    {
      cfg := NewConfig(minRefetch, refreshAfter);
      keys, fetchedAt, triedAt := map[], None, None;
    }

    ghost function Idle(clock: int): State
      reads this
    {
      State(clock, keys, fetchedAt, triedAt, None, map[], [])
    }

    method Refetch(now: int, ns: (nat, nat, nat), answer: Option<Keys>)
      modifies this
      ensures var recent := old(triedAt).Some? && now + ns.0 - old(triedAt).value < cfg.minRefetch;
        && triedAt == (if recent then old(triedAt) else Some(now + ns.0 + ns.1))
        && keys == (if recent || answer.None? then old(keys) else answer.value)
        && fetchedAt == (if recent || answer.None? then old(fetchedAt) else Some(now + ns.0 + ns.1 + ns.2))
    {
      var recent := triedAt.Some? && now + ns.0 - triedAt.value < cfg.minRefetch;
      if recent {
        return;
      }
      triedAt := Some(now + ns.0 + ns.1);
      if answer.None? {
        return;
      }
      keys := answer.value;
      fetchedAt := Some(now + ns.0 + ns.1 + ns.2);
    }

    /** key, with nobody else about, moves exactly as the machine does. */
    method Key(kid: Kid, now: int, ns: (nat, nat, nat), answer: Option<Keys>) returns (r: Option<PublicKey>)
      requires Positive(cfg)
      modifies this
      ensures Ends(Alone(cfg, old(Idle(now)), kid, ns, answer), keys, fetchedAt, triedAt, kid)
      ensures r == if kid in keys then Some(keys[kid]) else None
    {
      ghost var end := Alone(cfg, Idle(now), kid, ns, answer);
      AloneEnds(cfg, Idle(now), kid, ns, answer, end);
      var ok := kid in keys;
      var stale := fetchedAt.None? || now - fetchedAt.value >= cfg.refreshAfter;
      if ok && !stale {
        return Some(keys[kid]);
      }
      Refetch(now, ns, answer);
      assert Ends(end, keys, fetchedAt, triedAt, kid);
      if kid !in keys {
        return None;
      }
      return Some(keys[kid]);
    }
  }
}
