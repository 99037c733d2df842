/** The bounded LRU of authorize decisions: a recency list and a map kept in step, and how long
    an answer may be reused. */
module DecisionCache {
  import opened Domain
  import opened Order

  /** sha256 of the bearer. */
  type Digest = string

  datatype Decision = Decision(
    principal: PrincipalId, spaces: seq<SpaceId>, writeSpaces: seq<SpaceId>, approverSpaces: seq<SpaceId>,
    restricted: bool, source: string)

  datatype Entry = Entry(key: Digest, decision: Decision, until: int)

  // ---- how long an answer may be reused (times in nanoseconds) ----

  const SECOND: int := 1_000_000_000

  /** A Cache-Control directive; a max-age whose number does not parse is MaxAge(None). */
  datatype Directive = NoStore | NoCache | MaxAge(n: Option<int>) | OtherDirective

  /** A 64-bit duration wraps around. */
  function Wrap64(x: int): int {
    (x + 0x8000_0000_0000_0000) % 0x1_0000_0000_0000_0000 - 0x8000_0000_0000_0000
  }

  predicate Forbidden(dirs: seq<Directive>) {
    NoStore in dirs || NoCache in dirs
  }

  /** The last max-age that parses and is not negative, or none. */
  function LastMaxAge(dirs: seq<Directive>): Option<nat> {
    if dirs == [] then None
    else
      var last := dirs[|dirs| - 1];
      if last.MaxAge? && last.n.Some? && last.n.value >= 0 then Some(last.n.value)
      else LastMaxAge(dirs[..|dirs| - 1])
  }

  function Min(a: int, b: int): int {
    if a <= b then a else b
  }

  /** The earlier of now + max-age and the credential's expiry, when that is still to come. */
  function Earlier(now: int, age: int, expires: Option<int>): Option<int> {
    if expires.None? || Min(now + age, expires.value) <= now then None
    else Some(Min(now + age, expires.value))
  }

  /** For how long the code takes an answer to be fresh: the last usable max-age, as a duration. */
  function CodeLife(dirs: seq<Directive>): int {
    if Forbidden(dirs) || LastMaxAge(dirs).None? then 0 else Wrap64(LastMaxAge(dirs).value * SECOND)
  }

  function Until(now: int, dirs: seq<Directive>, expires: Option<int>): Option<int> {
    if Forbidden(dirs) || LastMaxAge(dirs).None? || LastMaxAge(dirs).value == 0 then None
    else Earlier(now, CodeLife(dirs), expires)
  }

  /** The number of the first max-age directive, readable or not. */
  function FirstMaxAge(dirs: seq<Directive>): Option<Option<int>> {
    if dirs == [] then None
    else if dirs[0].MaxAge? then Some(dirs[0].n)
    else FirstMaxAge(dirs[1..])
  }

  /** The seconds a max-age says; an unreadable one counts as stale. */
  function Seconds(n: Option<int>): nat {
    if n.Some? && n.value >= 0 then n.value else 0
  }

  /** For how long the response is fresh by RFC 9111, sections 4.2.1 and 5.2.2: not at all under
      no-store or no-cache, else as the first max-age says. */
  function RfcLife(dirs: seq<Directive>): nat {
    if Forbidden(dirs) || FirstMaxAge(dirs).None? then 0 else Seconds(FirstMaxAge(dirs).value) * SECOND
  }

  /** What the response and the credential allow. */
  function Allowed(now: int, dirs: seq<Directive>, expires: Option<int>): Option<int> {
    Earlier(now, RfcLife(dirs), expires)
  }

  predicate NoLater(until: Option<int>, allowed: Option<int>) {
    until.Some? ==> allowed.Some? && until.value <= allowed.value
  }

  ghost predicate NeverOutlives(dirs: seq<Directive>) {
    forall now, expires :: NoLater(Until(now, dirs, expires), Allowed(now, dirs, expires))
  }

  lemma LastMaxAgeSnoc(dirs: seq<Directive>, d: Directive)
    ensures LastMaxAge(dirs + [d]) ==
            if d.MaxAge? && d.n.Some? && d.n.value >= 0 then Some(d.n.value) else LastMaxAge(dirs)
  {
    assert (dirs + [d])[..|dirs|] == dirs;
  }

  /** cacheUntil, directive by directive. */
  method CacheUntil(now: int, dirs: seq<Directive>, expires: Option<int>) returns (r: Option<int>)
    ensures r == Until(now, dirs, expires)
  {
    var maxAge := -1;
    for i := 0 to |dirs|
      invariant !Forbidden(dirs[..i])
      invariant LastMaxAge(dirs[..i]) == if maxAge < 0 then None else Some(maxAge)
      invariant maxAge >= -1
    {
      assert dirs[..i + 1] == dirs[..i] + [dirs[i]];
      LastMaxAgeSnoc(dirs[..i], dirs[i]);
      match dirs[i] {
        case NoStore => return None;
        case NoCache => return None;
        case MaxAge(n) =>
          if n.Some? && n.value >= 0 {
            maxAge := n.value;
          }
        case OtherDirective =>
      }
    }
    assert dirs[..|dirs|] == dirs;
    if maxAge <= 0 || expires.None? {
      return None;
    }
    var until := now + Wrap64(maxAge * SECOND);
    if expires.value < until {
      until := expires.value;
    }
    if until <= now {
      return None;
    }
    return Some(until);
  }

  const MAX_SECONDS := 9_223_372_036

  lemma Wrapping(n: nat)
    ensures Wrap64(n * SECOND) <= n * SECOND
    ensures Wrap64(n * SECOND) == n * SECOND <==> n <= MAX_SECONDS
  {
  }

  lemma UntilIsEarlier(now: int, dirs: seq<Directive>, expires: Option<int>)
    ensures Until(now, dirs, expires) == Earlier(now, CodeLife(dirs), expires)
  {
  }

  lemma ShorterLifeIff(dirs: seq<Directive>)
    ensures NeverOutlives(dirs) <==> CodeLife(dirs) <= RfcLife(dirs)
  {
    if CodeLife(dirs) <= RfcLife(dirs) {
      forall now, expires ensures NoLater(Until(now, dirs, expires), Allowed(now, dirs, expires)) {
        UntilIsEarlier(now, dirs, expires);
      }
    } else {
      var expires := Some(CodeLife(dirs));
      UntilIsEarlier(0, dirs, expires);
      assert !NoLater(Until(0, dirs, expires), Allowed(0, dirs, expires));
    }
  }

  // what the header must be like

  predicate Usable(d: Directive) {
    d.MaxAge? && d.n.Some? && d.n.value >= 0
  }

  predicate IsFirst(dirs: seq<Directive>, i: nat) {
    i < |dirs| && dirs[i].MaxAge? && forall h | 0 <= h < i :: !dirs[h].MaxAge?
  }

  predicate IsLast(dirs: seq<Directive>, j: nat) {
    j < |dirs| && Usable(dirs[j]) && forall h | j < h < |dirs| :: !Usable(dirs[h])
  }

  /** The last number is no longer than the first; beyond 292 years, what a 64-bit count of
      nanoseconds leaves of it is not. */
  predicate NoLonger(last: nat, first: nat) {
    if last <= MAX_SECONDS then last <= first else Wrap64(last * SECOND) <= first * SECOND
  }

  /** no-store or no-cache is there, or the last readable max-age is no longer than the first of all. */
  ghost predicate HeaderKeeps(dirs: seq<Directive>) {
    Forbidden(dirs)
    || forall i: nat, j: nat | IsFirst(dirs, i) && IsLast(dirs, j) :: NoLonger(dirs[j].n.value, Seconds(dirs[i].n))
  }

  lemma {:induction false} FirstIsListed(dirs: seq<Directive>) returns (i: nat)
    requires FirstMaxAge(dirs).Some?
    ensures IsFirst(dirs, i) && FirstMaxAge(dirs) == Some(dirs[i].n)
  {
    if dirs[0].MaxAge? {
      i := 0;
    } else {
      i := FirstIsListed(dirs[1..]);
      i := i + 1;
    }
  }

  lemma {:induction false} NoFirst(dirs: seq<Directive>)
    requires FirstMaxAge(dirs).None?
    ensures forall h | 0 <= h < |dirs| :: !dirs[h].MaxAge?
  {
    if dirs != [] {
      NoFirst(dirs[1..]);
      assert forall h | 1 <= h < |dirs| :: dirs[h] == dirs[1..][h - 1];
    }
  }

  lemma {:induction false} LastIsListed(dirs: seq<Directive>) returns (j: nat)
    requires LastMaxAge(dirs).Some?
    ensures IsLast(dirs, j) && LastMaxAge(dirs) == Some(dirs[j].n.value)
  {
    if Usable(dirs[|dirs| - 1]) {
      j := |dirs| - 1;
    } else {
      j := LastIsListed(dirs[..|dirs| - 1]);
    }
  }

  lemma {:induction false} NoLast(dirs: seq<Directive>)
    requires LastMaxAge(dirs).None?
    ensures forall h | 0 <= h < |dirs| :: !Usable(dirs[h])
  {
    if dirs != [] {
      NoLast(dirs[..|dirs| - 1]);
    }
  }

  lemma NoLongerIff(last: nat, first: nat)
    ensures Wrap64(last * SECOND) <= first * SECOND <==> NoLonger(last, first)
  {
    Wrapping(last);
  }

  lemma HeaderLives(dirs: seq<Directive>)
    ensures CodeLife(dirs) <= RfcLife(dirs) <==> HeaderKeeps(dirs)
  {
    if !Forbidden(dirs) {
      if LastMaxAge(dirs).None? {
        NoLast(dirs);
      } else {
        var j := LastIsListed(dirs);
        if FirstMaxAge(dirs).None? {
          NoFirst(dirs);
        } else {
          var i := FirstIsListed(dirs);
          NoLongerIff(dirs[j].n.value, Seconds(dirs[i].n));
          assert forall g: nat | IsFirst(dirs, g) :: g == i;
          assert forall g: nat | IsLast(dirs, g) :: g == j;
        }
      }
    }
  }

  /** A decision never outlives what RFC 9111 and the credential allow, whenever it is received
      and whenever it expires, exactly when the response forbids reuse or its last readable
      max-age is no longer than its first. */
  lemma NeverOutlivesIff(dirs: seq<Directive>)
    ensures NeverOutlives(dirs) <==> HeaderKeeps(dirs)
  {
    ShorterLifeIff(dirs);
    HeaderLives(dirs);
  }

  /** At most one max-age, readable or not. */
  predicate OneMaxAge(dirs: seq<Directive>) {
    forall i, j | 0 <= i < j < |dirs| :: !(dirs[i].MaxAge? && dirs[j].MaxAge?)
  }

  /** With a single max-age the standard is kept. */
  lemma OneMaxAgeIsKept(dirs: seq<Directive>)
    requires OneMaxAge(dirs)
    ensures NeverOutlives(dirs)
  {
    forall i: nat, j: nat | IsFirst(dirs, i) && IsLast(dirs, j) ensures NoLonger(dirs[j].n.value, Seconds(dirs[i].n)) {
      assert i == j;
      NoLongerIff(dirs[j].n.value, Seconds(dirs[i].n));
      Wrapping(dirs[j].n.value);
    }
    NeverOutlivesIff(dirs);
  }

  /** With two, the code keeps the last: an hour, where the standard says a second. */
  lemma TwoMaxAgesOutlive()
    ensures !NeverOutlives([MaxAge(Some(1)), MaxAge(Some(3600))])
  {
    var dirs := [MaxAge(Some(1)), MaxAge(Some(3600))];
    assert IsFirst(dirs, 0) && IsLast(dirs, 1);
    NeverOutlivesIff(dirs);
  }

  /** The duration type costs time, never gains it, and only beyond 292 years. */
  lemma WrapIsExactIff(dirs: seq<Directive>)
    requires !Forbidden(dirs) && LastMaxAge(dirs).Some?
    ensures CodeLife(dirs) <= LastMaxAge(dirs).value * SECOND
    ensures CodeLife(dirs) == LastMaxAge(dirs).value * SECOND <==> LastMaxAge(dirs).value <= MAX_SECONDS
  {
    Wrapping(LastMaxAge(dirs).value);
  }

  // ---- the recency-ordered sequence the cache stands for, most recent first ----

  predicate UniqueKeys(s: seq<Entry>) {
    forall i, j | 0 <= i < j < |s| :: s[i].key != s[j].key
  }

  function Without(s: seq<Entry>, k: Digest): seq<Entry> {
    if s == [] then [] else if s[0].key == k then s[1..] else [s[0]] + Without(s[1..], k)
  }

  function Find(s: seq<Entry>, k: Digest): Option<Entry> {
    if s == [] then None else if s[0].key == k then Some(s[0]) else Find(s[1..], k)
  }

  /** A lookup moves a live entry to the front and drops an expired one. */
  function Looked(s: seq<Entry>, k: Digest, now: int): seq<Entry> {
    match Find(s, k)
    case None => s
    case Some(e) => if now < e.until then [e] + Without(s, k) else Without(s, k)
  }

  function Served(s: seq<Entry>, k: Digest, now: int): Option<Decision> {
    match Find(s, k)
    case None => None
    case Some(e) => if now < e.until then Some(e.decision) else None
  }

  function FirstOf(max: nat, s: seq<Entry>): seq<Entry> {
    if |s| > max then s[..max] else s
  }

  function Stored(max: nat, s: seq<Entry>, e: Entry): seq<Entry> {
    FirstOf(max, [e] + Without(s, e.key))
  }

  lemma {:induction false} WithoutFacts(s: seq<Entry>, k: Digest)
    requires UniqueKeys(s)
    ensures UniqueKeys(Without(s, k))
    ensures forall e :: e in Without(s, k) <==> e in s && e.key != k
    ensures |Without(s, k)| == if Find(s, k).Some? then |s| - 1 else |s|
    ensures Find(s, k).None? <==> forall e | e in s :: e.key != k
    ensures Find(s, k).Some? ==> Find(s, k).value in s && Find(s, k).value.key == k
  {
    if s != [] {
      assert s == [s[0]] + s[1..];
      WithoutFacts(s[1..], k);
      if s[0].key == k {
        assert forall e | e in s[1..] :: e.key != k;
      } else {
        assert forall e | e in Without(s[1..], k) :: e.key != s[0].key;
      }
    }
  }

  // ---- the list and the map ----

  /** An element of the list; its entry is replaced in place. */
  class Element {
    var value: Entry

    constructor (e: Entry)
      ensures value == e
    {
      value := e;
    }
  }

  function Values(els: seq<Element>): seq<Entry>
    reads els
  {
    if els == [] then [] else [els[0].value] + Values(els[1..])
  }

  function Unlinked(els: seq<Element>, el: Element): seq<Element> {
    if els == [] then [] else if els[0] == el then els[1..] else [els[0]] + Unlinked(els[1..], el)
  }

  lemma {:induction false} ValuesAt(els: seq<Element>)
    ensures |Values(els)| == |els|
    ensures forall i | 0 <= i < |els| :: Values(els)[i] == els[i].value
  {
    if els != [] {
      ValuesAt(els[1..]);
      forall i | 0 <= i < |els| ensures Values(els)[i] == els[i].value {
        if i > 0 {
          assert els[i] == els[1..][i - 1];
        }
      }
    }
  }

  lemma {:induction false} UnlinkedFacts(els: seq<Element>, el: Element)
    requires Distinct(els)
    ensures Distinct(Unlinked(els, el))
    ensures forall x :: x in Unlinked(els, el) <==> x in els && x != el
    ensures |Unlinked(els, el)| == if el in els then |els| - 1 else |els|
  {
    if els != [] {
      assert els == [els[0]] + els[1..];
      UnlinkedFacts(els[1..], el);
      assert els[0] !in els[1..];
    }
  }

  /** Unlinking the element that holds a key removes exactly that key's entry. */
  lemma {:induction false} UnlinkedValues(els: seq<Element>, el: Element)
    requires el in els && forall x | x in els && x != el :: x.value.key != el.value.key
    ensures Values(Unlinked(els, el)) == Without(Values(els), el.value.key)
    ensures Find(Values(els), el.value.key) == Some(el.value)
  {
    if els[0] != el {
      assert els == [els[0]] + els[1..];
      UnlinkedValues(els[1..], el);
    }
  }

  class Cache {
    const max: nat
    var ll: seq<Element>
    var items: map<Digest, Element>

    /** The list and the map hold the same elements, one for each key. */
    ghost predicate InStep()
      reads this, ll
    {
      && Distinct(ll)
      && (forall el | el in ll :: el.value.key in items && items[el.value.key] == el)
      && (forall k | k in items :: items[k] in ll && items[k].value.key == k)
    }

    ghost predicate Valid()
      reads this, ll
    {
      0 < max && |ll| <= max && InStep()
    }

    ghost function Contents(): seq<Entry>
      reads this, ll
    {
      Values(ll)
    }

    constructor (size: int)
      ensures Valid() && Contents() == [] && ll == []
      ensures max == if size <= 0 then 1024 else size
    {
      max := if size <= 0 then 1024 else size;
      ll := [];
      items := map[];
    }

    lemma Held(el: Element)
      requires InStep() && el in ll
      ensures Find(Contents(), el.value.key) == Some(el.value)
      ensures Values(Unlinked(ll, el)) == Without(Contents(), el.value.key)
    {
      UnlinkedValues(ll, el);
    }

    lemma NotFound(k: Digest)
      requires InStep() && k !in items
      ensures Find(Contents(), k) == None && Without(Contents(), k) == Contents()
    {
      ValuesAt(ll);
      Missing(Contents(), k);
    }

    /** list.MoveToFront. */
    method MoveToFront(el: Element)
      requires InStep() && el in ll
      modifies `ll
      ensures InStep() && |ll| == old(|ll|) && (forall x | x in ll :: x in old(ll))
      ensures Contents() == [el.value] + Without(old(Contents()), el.value.key)
    {
      UnlinkedFacts(ll, el);
      Held(el);
      ll := [el] + Unlinked(ll, el);
      assert ll[1..] == Unlinked(old(ll), el);
    }

    /** list.Remove and delete of the map entry. */
    method Remove(el: Element)
      requires InStep() && el in ll
      modifies `ll, `items
      ensures InStep() && ll == Unlinked(old(ll), el) && |ll| == old(|ll|) - 1 && (forall x | x in ll :: x in old(ll))
      ensures Contents() == Without(old(Contents()), el.value.key)
    {
      UnlinkedFacts(ll, el);
      Held(el);
      ll := Unlinked(ll, el);
      items := items - {el.value.key};
    }

    method Get(k: Digest, now: int) returns (d: Option<Decision>)
      requires Valid()
      modifies `ll, `items
      ensures Valid() && (forall el | el in ll :: el in old(ll))
      ensures Contents() == Looked(old(Contents()), k, now)
      ensures d == Served(old(Contents()), k, now)
    {
      if k !in items {
        NotFound(k);
        return None;
      }
      var el := items[k];
      Held(el);
      if el.value.until <= now {
        Remove(el);
        return None;
      }
      MoveToFront(el);
      return Some(el.value.decision);
    }

    /** A known key: its element takes the new entry and moves to the front. */
    method Replace(el: Element, e: Entry)
      requires InStep() && el in ll && el.value.key == e.key
      modifies `ll, el
      ensures InStep() && |ll| == old(|ll|) && (forall x | x in ll :: x in old(ll))
      ensures Contents() == [e] + Without(old(Contents()), e.key)
    {
      UnlinkedFacts(ll, el);
      Held(el);
      el.value := e;
      Held(el);
      MoveToFront(el);
    }

    method PushFront(e: Entry)
      requires InStep() && e.key !in items
      modifies `ll, `items
      ensures InStep() && |ll| == old(|ll|) + 1 && (forall x | x in ll :: x in old(ll) || fresh(x))
      ensures Contents() == [e] + old(Contents())
    {
      var el := new Element(e);
      ll := [el] + ll;
      items := items[e.key := el];
      assert ll[1..] == old(ll);
    }

    method DropBack()
      requires InStep() && ll != []
      modifies `ll, `items
      ensures InStep() && ll < old(ll) && |ll| == |old(ll)| - 1
      ensures Contents() <= old(Contents()) && |Contents()| == |ll|
    {
      BackUnlinked(ll);
      Remove(ll[|ll| - 1]);
    }

    /** Drops from the back while there are too many. */
    method Trim()
      requires InStep()
      modifies `ll, `items
      ensures InStep() && |ll| <= max && ll <= old(ll)
      ensures Contents() == FirstOf(max, old(Contents()))
    {
      ghost var s := Contents();
      ValuesPrefix(ll, |ll|);
      while |ll| > max
        invariant InStep() && ll <= old(ll)
        invariant Contents() <= s && |Contents()| == |ll| && (|ll| >= max || |ll| == |s|)
        decreases |ll|
      {
        DropBack();
      }
      PrefixIsFirst(max, Contents(), s);
    }

    method Put(k: Digest, d: Decision, until: int)
      requires Valid()
      modifies this, ll
      ensures Valid() && (forall el | el in ll :: el in old(ll) || fresh(el))
      ensures Contents() == Stored(max, old(Contents()), Entry(k, d, until))
    {
      if k in items {
        Replace(items[k], Entry(k, d, until));
        ValuesAt(ll);
        return;
      }
      NotFound(k);
      PushFront(Entry(k, d, until));
      Trim();
    }

    /** The tail of authorize: keep the answer for as long as the response allows, if at all. */
    method Remember(r: Reply)
      requires Valid()
      modifies this, ll
      ensures Valid() && (forall el | el in ll :: el in old(ll) || fresh(el))
      ensures Contents() == Step(max, old(Contents()), Answered(r))
    {
      var until := CacheUntil(r.at, r.directives, r.expires);
      if until.Some? {
        Put(r.key, r.decision, until.value);
      }
    }
  }

  lemma {:induction false} Missing(s: seq<Entry>, k: Digest)
    requires forall i | 0 <= i < |s| :: s[i].key != k
    ensures Find(s, k) == None && Without(s, k) == s
  {
    if s != [] {
      Missing(s[1..], k);
    }
  }

  lemma PrefixIsFirst(max: nat, a: seq<Entry>, s: seq<Entry>)
    requires a <= s && |a| <= max && (|a| == max || |a| == |s|)
    ensures a == FirstOf(max, s)
  {
  }

  lemma ValuesPrefix(els: seq<Element>, n: nat)
    requires n <= |els|
    ensures |Values(els)| == |els| && Values(els[..n]) == Values(els)[..n]
  {
    ValuesAt(els);
    ValuesAt(els[..n]);
  }

  lemma {:induction false} LastUnlinked(els: seq<Element>)
    requires els != [] && Distinct(els)
    ensures Unlinked(els, els[|els| - 1]) == els[..|els| - 1]
  {
    if |els| > 1 {
      assert els[1..][|els[1..]| - 1] == els[|els| - 1];
      LastUnlinked(els[1..]);
    }
  }

  lemma BackUnlinked(els: seq<Element>)
    requires els != [] && Distinct(els)
    ensures var rest := Unlinked(els, els[|els| - 1]);
      rest < els && |rest| == |els| - 1 && Values(rest) <= Values(els) && |Values(rest)| == |rest|
  {
    LastUnlinked(els);
    ValuesPrefix(els, |els| - 1);
    ValuesAt(els[..|els| - 1]);
  }

  // ---- runs: lookups and answers in any order, with clock readings in any order ----

  /** A response of the control plane: received at a time, with what it says about reuse. */
  datatype Reply = Reply(key: Digest, decision: Decision, at: int, directives: seq<Directive>, expires: Option<int>)

  datatype Op = Lookup(key: Digest, now: int) | Answered(reply: Reply)

  function OpKey(op: Op): Digest {
    match op
    case Lookup(k, _) => k
    case Answered(r) => r.key
  }

  function ReplyUntil(r: Reply): Option<int> {
    Until(r.at, r.directives, r.expires)
  }

  function Step(max: nat, s: seq<Entry>, op: Op): seq<Entry> {
    match op
    case Lookup(k, now) => Looked(s, k, now)
    case Answered(r) =>
      if ReplyUntil(r).Some? then Stored(max, s, Entry(r.key, r.decision, ReplyUntil(r).value)) else s
  }

  function Run(max: nat, s: seq<Entry>, ops: seq<Op>): seq<Entry>
    decreases |ops|
  {
    if ops == [] then s else Run(max, Step(max, s, ops[0]), ops[1..])
  }

  predicate Bounded(max: nat, s: seq<Entry>) {
    |s| <= max && UniqueKeys(s)
  }

  lemma PushedUnique(max: nat, s: seq<Entry>, e: Entry)
    requires UniqueKeys(s)
    ensures UniqueKeys([e] + Without(s, e.key)) && UniqueKeys(Stored(max, s, e))
    ensures Find(s, e.key).Some? ==> |[e] + Without(s, e.key)| == |s|
  {
    WithoutFacts(s, e.key);
    assert forall x | x in Without(s, e.key) :: x.key != e.key;
  }

  lemma StepBounded(max: nat, s: seq<Entry>, op: Op)
    requires Bounded(max, s)
    ensures Bounded(max, Step(max, s, op))
  {
    WithoutFacts(s, OpKey(op));
    match op
    case Lookup(k, now) =>
      if Find(s, k).Some? {
        PushedUnique(max, s, Find(s, k).value);
      }
    case Answered(r) =>
      if ReplyUntil(r).Some? {
        PushedUnique(max, s, Entry(r.key, r.decision, ReplyUntil(r).value));
      }
  }

  // ---- which entries survive ----

  /** The keys in front of k's entry. */
  function Ahead(s: seq<Entry>, k: Digest): set<Digest> {
    if s == [] || s[0].key == k then {} else {s[0].key} + Ahead(s[1..], k)
  }

  /** Who is in front of k after one more operation on another key: whoever is stored or found
      alive passes k, whoever is found expired leaves. */
  function Overtaken(s: seq<Entry>, ahead: set<Digest>, op: Op): set<Digest> {
    match op
    case Lookup(j, now) =>
      (match Find(s, j)
       case None => ahead
       case Some(e) => if now < e.until then ahead + {j} else ahead - {j})
    case Answered(r) => if ReplyUntil(r).Some? then ahead + {r.key} else ahead
  }

  /** Fewer than max other keys are ever in front. */
  predicate NeverCrowded(max: nat, s: seq<Entry>, ops: seq<Op>, ahead: set<Digest>)
    decreases |ops|
  {
    ops == [] ||
    (var now := Overtaken(s, ahead, ops[0]);
     |now| < max && NeverCrowded(max, Step(max, s, ops[0]), ops[1..], now))
  }

  lemma {:induction false} AheadSize(s: seq<Entry>, k: Digest, n: nat)
    requires UniqueKeys(s)
    ensures forall j | j in Ahead(s, k) :: j != k && Find(s, j).Some?
    ensures Find(s, k).Some? ==> |Ahead(s, k)| < |s|
    ensures n <= |s| && Find(s, k).Some? ==>
              Find(s[..n], k) == (if |Ahead(s, k)| < n then Find(s, k) else None)
    ensures n <= |s| && Find(s, k).Some? && |Ahead(s, k)| < n ==> Ahead(s[..n], k) == Ahead(s, k)
    ensures n <= |s| && Find(s, k).None? ==> Find(s[..n], k).None?
  {
    if s != [] {
      AheadSize(s[1..], k, if n == 0 then 0 else n - 1);
      WithoutFacts(s[1..], s[0].key);
      if 0 < n <= |s| {
        assert s[..n][1..] == s[1..][..n - 1];
      }
      assert s[0].key !in Ahead(s[1..], k) by {
        assert forall e | e in s[1..] :: e.key != s[0].key;
      }
    }
  }

  lemma {:induction false} AheadWithout(s: seq<Entry>, j: Digest, k: Digest)
    requires UniqueKeys(s) && j != k
    ensures Find(Without(s, j), k) == Find(s, k)
    ensures Find(s, k).Some? ==> Ahead(Without(s, j), k) == Ahead(s, k) - {j}
  {
    if s != [] {
      AheadWithout(s[1..], j, k);
      if s[0].key == j {
        WithoutFacts(s[1..], j);
        AheadSize(s[1..], k, 0);
        assert forall e | e in s[1..] :: e.key != j;
        assert j !in Ahead(s[1..], k);
      }
    }
  }

  lemma AheadOfPushed(s: seq<Entry>, e: Entry, k: Digest)
    requires UniqueKeys(s) && e.key != k
    ensures Find([e] + Without(s, e.key), k) == Find(s, k)
    ensures Find(s, k).Some? ==> Ahead([e] + Without(s, e.key), k) == Ahead(s, k) + {e.key}
  {
    AheadWithout(s, e.key, k);
    assert ([e] + Without(s, e.key))[1..] == Without(s, e.key);
  }

  lemma LookedSurvives(s: seq<Entry>, k: Digest, j: Digest, now: int)
    requires UniqueKeys(s) && Find(s, k).Some? && j != k
    ensures Find(Looked(s, j, now), k) == Find(s, k)
    ensures Ahead(Looked(s, j, now), k) == Overtaken(s, Ahead(s, k), Lookup(j, now))
    ensures UniqueKeys(Looked(s, j, now)) && |Looked(s, j, now)| <= |s|
  {
    WithoutFacts(s, j);
    AheadWithout(s, j, k);
    if Find(s, j).Some? {
      AheadOfPushed(s, Find(s, j).value, k);
      PushedUnique(0, s, Find(s, j).value);
    }
  }

  lemma StoredSurvivesIff(max: nat, s: seq<Entry>, k: Digest, e: Entry)
    requires UniqueKeys(s) && Find(s, k).Some? && e.key != k
    ensures Find(Stored(max, s, e), k) == if |Ahead(s, k) + {e.key}| < max then Find(s, k) else None
    ensures |Ahead(s, k) + {e.key}| < max ==> Ahead(Stored(max, s, e), k) == Ahead(s, k) + {e.key}
  {
    WithoutFacts(s, e.key);
    AheadOfPushed(s, e, k);
    var grown := [e] + Without(s, e.key);
    AheadSize(grown, k, if |grown| > max then max else |grown|);
  }

  /** One operation on another key: k's entry stays, unchanged, exactly while fewer than max
      keys are in front of it. */
  lemma StepSurvivesIff(max: nat, s: seq<Entry>, k: Digest, op: Op)
    requires Bounded(max, s) && Find(s, k).Some? && OpKey(op) != k
    ensures Find(Step(max, s, op), k) == if |Overtaken(s, Ahead(s, k), op)| < max then Find(s, k) else None
    ensures |Overtaken(s, Ahead(s, k), op)| < max ==> Ahead(Step(max, s, op), k) == Overtaken(s, Ahead(s, k), op)
  {
    match op
    case Lookup(j, now) =>
      LookedSurvives(s, k, j, now);
      AheadSize(Looked(s, j, now), k, 0);
    case Answered(r) =>
      if ReplyUntil(r).Some? {
        StoredSurvivesIff(max, s, k, Entry(r.key, r.decision, ReplyUntil(r).value));
      } else {
        AheadSize(s, k, 0);
      }
  }

  lemma AbsentStays(max: nat, s: seq<Entry>, k: Digest, op: Op)
    requires Bounded(max, s) && Find(s, k).None? && OpKey(op) != k
    ensures Find(Step(max, s, op), k).None?
  {
    WithoutFacts(s, OpKey(op));
    AheadWithout(s, OpKey(op), k);
    if op.Answered? && ReplyUntil(op.reply).Some? {
      var e := Entry(op.reply.key, op.reply.decision, ReplyUntil(op.reply).value);
      AheadOfPushed(s, e, k);
      var grown := [e] + Without(s, e.key);
      AheadSize(grown, k, if |grown| > max then max else |grown|);
    }
  }

  lemma {:induction false} StaysAbsent(max: nat, s: seq<Entry>, k: Digest, ops: seq<Op>)
    requires Bounded(max, s) && Find(s, k).None? && forall op | op in ops :: OpKey(op) != k
    ensures Find(Run(max, s, ops), k).None?
    decreases |ops|
  {
    if ops != [] {
      AbsentStays(max, s, k, ops[0]);
      StepBounded(max, s, ops[0]);
      StaysAbsent(max, Step(max, s, ops[0]), k, ops[1..]);
    }
  }

  /** Eviction is exactly least-recently-touched: over any operations on other keys, an entry
      survives, unchanged, if and only if fewer than max keys were in front of it throughout. */
  lemma {:induction false} SurvivesIff(max: nat, s: seq<Entry>, k: Digest, ops: seq<Op>)
    requires Bounded(max, s) && Find(s, k).Some? && forall op | op in ops :: OpKey(op) != k
    ensures Find(Run(max, s, ops), k) == if NeverCrowded(max, s, ops, Ahead(s, k)) then Find(s, k) else None
    decreases |ops|
  {
    if ops != [] {
      StepSurvivesIff(max, s, k, ops[0]);
      StepBounded(max, s, ops[0]);
      if |Overtaken(s, Ahead(s, k), ops[0])| < max {
        SurvivesIff(max, Step(max, s, ops[0]), k, ops[1..]);
      } else {
        StaysAbsent(max, Step(max, s, ops[0]), k, ops[1..]);
      }
    }
  }

  function KeysOf(ops: seq<Op>): set<Digest> {
    set op | op in ops :: OpKey(op)
  }

  lemma {:induction false} FewNeverCrowd(max: nat, s: seq<Entry>, ops: seq<Op>, ahead: set<Digest>, others: set<Digest>)
    requires ahead <= others && KeysOf(ops) <= others && |others| < max
    ensures NeverCrowded(max, s, ops, ahead)
    decreases |ops|
  {
    if ops != [] {
      var now := Overtaken(s, ahead, ops[0]);
      assert ops[0] in ops && OpKey(ops[0]) in KeysOf(ops);
      SmallerSet(now, others);
      assert KeysOf(ops[1..]) <= KeysOf(ops);
      FewNeverCrowd(max, Step(max, s, ops[0]), ops[1..], now, others);
    }
  }

  /** A lookup that is served, or an answer that is kept. */
  predicate Touches(s: seq<Entry>, op: Op) {
    match op
    case Lookup(k, now) => Served(s, k, now).Some?
    case Answered(r) => ReplyUntil(r).Some?
  }

  /** The entry a touch leaves at the front. */
  function Touched(s: seq<Entry>, op: Op): Entry
    requires Touches(s, op)
  {
    match op
    case Lookup(k, _) => Find(s, k).value
    case Answered(r) => Entry(r.key, r.decision, ReplyUntil(r).value)
  }

  /** Once touched, a decision is served until its time is up, after any operations on fewer
      than max other keys. */
  lemma RecentIsServed(max: nat, s: seq<Entry>, touch: Op, ops: seq<Op>, now: int)
    requires Bounded(max, s) && Touches(s, touch) && |KeysOf(ops)| < max && OpKey(touch) !in KeysOf(ops)
    ensures Served(Run(max, Step(max, s, touch), ops), OpKey(touch), now)
            == if now < Touched(s, touch).until then Some(Touched(s, touch).decision) else None
  {
    var s' := Step(max, s, touch);
    WithoutFacts(s, OpKey(touch));
    StepBounded(max, s, touch);
    assert s'[0] == Touched(s, touch);
    assert forall op | op in ops :: OpKey(op) in KeysOf(ops);
    SurvivesIff(max, s', OpKey(touch), ops);
    FewNeverCrowd(max, s', ops, {}, KeysOf(ops));
  }

  // ---- what is served is the latest answer, in time ----

  /** The last reusable answer for each key. */
  function Latest(m: map<Digest, Reply>, ops: seq<Op>): map<Digest, Reply>
    decreases |ops|
  {
    if ops == [] then m
    else
      Latest(if ops[0].Answered? && ReplyUntil(ops[0].reply).Some? then m[ops[0].reply.key := ops[0].reply] else m,
             ops[1..])
  }

  predicate Backed(s: seq<Entry>, m: map<Digest, Reply>) {
    forall e | e in s :: e.key in m && Backs(m[e.key], e)
  }

  predicate Backs(r: Reply, e: Entry) {
    r.key == e.key && r.decision == e.decision && ReplyUntil(r) == Some(e.until)
  }

  lemma {:induction false} RunBacked(max: nat, s: seq<Entry>, m: map<Digest, Reply>, ops: seq<Op>)
    requires Bounded(max, s) && Backed(s, m)
    ensures Backed(Run(max, s, ops), Latest(m, ops)) && Bounded(max, Run(max, s, ops))
    decreases |ops|
  {
    if ops != [] {
      WithoutFacts(s, OpKey(ops[0]));
      StepBounded(max, s, ops[0]);
      var m' := if ops[0].Answered? && ReplyUntil(ops[0].reply).Some? then m[ops[0].reply.key := ops[0].reply] else m;
      RunBacked(max, Step(max, s, ops[0]), m', ops[1..]);
    }
  }

  /** Whatever happened before, a served decision is the latest reusable answer for its bearer,
      served before received + max-age (the last usable one) and before the credential expires;
      and, when its header keeps to the standard, while the standard's life of it lasts. */
  lemma ServedInTime(max: nat, ops: seq<Op>, k: Digest, now: int)
    requires Served(Run(max, [], ops), k, now).Some?
    ensures k in Latest(map[], ops)
    ensures var r := Latest(map[], ops)[k];
            && Served(Run(max, [], ops), k, now) == Some(r.decision)
            && !Forbidden(r.directives) && LastMaxAge(r.directives).Some? && r.expires.Some?
            && now < r.at + LastMaxAge(r.directives).value * SECOND && now < r.expires.value
            && (HeaderKeeps(r.directives) ==> now < r.at + RfcLife(r.directives))
  {
    RunBacked(max, [], map[], ops);
    var s := Run(max, [], ops);
    WithoutFacts(s, k);
    var r := Latest(map[], ops)[k];
    assert Backs(r, Find(s, k).value);
    WrapIsExactIff(r.directives);
    HeaderLives(r.directives);
  }
}
