/** Resolve-before-create: the pure decision, and the exact ranking that feeds it. */
module Resolve {
  import opened Domain
  import opened Order

  datatype Policy = UnsetPolicy | Auto | ExternalOnly | ForceNew | OtherPolicy(name: string) {
    predicate Valid() {
      Auto? || ExternalOnly? || ForceNew?
    }
  }

  datatype Thresholds = Thresholds(autoMerge: real, review: real) {
    predicate Valid() {
      0.0 < review <= 1.0 && 0.0 < autoMerge <= 1.0 && autoMerge > review
    }
  }

  datatype ScoredMatch = ScoredMatch(id: EntityId, score: real)

  datatype MatchKind = MatchNone | MatchExternal | MatchVector

  datatype Decision =
    | InsertNew
    | InsertFlagged(flagTo: EntityId, flagScore: real)
    | Attach(target: EntityId, kind: MatchKind)
    | Merge(targets: seq<EntityId>)

  function Onces(ids: seq<EntityId>): seq<EntityId> {
    if ids == [] then []
    else
      var front := Onces(ids[..|ids| - 1]);
      if ids[|ids| - 1] in ids[..|ids| - 1] then front else front + [ids[|ids| - 1]]
  }

  /** Where an id first stands. */
  function FirstAt(ids: seq<EntityId>, id: EntityId): nat {
    if ids == [] || ids[0] == id then 0 else 1 + FirstAt(ids[1..], id)
  }

  lemma {:induction false} FirstAtPrefix(ids: seq<EntityId>, last: EntityId, id: EntityId)
    ensures id in ids ==> FirstAt(ids + [last], id) == FirstAt(ids, id) < |ids|
    ensures id !in ids ==> FirstAt(ids, id) == |ids|
    ensures id !in ids && id == last ==> FirstAt(ids + [last], id) == |ids|
  {
    if ids != [] {
      assert (ids + [last])[1..] == ids[1..] + [last] && ids == [ids[0]] + ids[1..];
      FirstAtPrefix(ids[1..], last, id);
    }
  }

  /** The same ids, each once, in the order of their first places. */
  lemma {:induction false} OncesKeepOrder(ids: seq<EntityId>)
    ensures Distinct(Onces(ids)) && forall id :: id in Onces(ids) <==> id in ids
    ensures forall i, j | 0 <= i < j < |Onces(ids)| :: FirstAt(ids, Onces(ids)[i]) < FirstAt(ids, Onces(ids)[j])
  {
    if ids != [] {
      var n := |ids| - 1;
      var before, front, last := ids[..n], Onces(ids[..n]), ids[n];
      OncesKeepOrder(before);
      assert ids == before + [last];
      var r := Onces(ids);
      forall i, j | 0 <= i < j < |r| ensures FirstAt(ids, r[i]) < FirstAt(ids, r[j]) {
        FirstAtPrefix(before, last, r[i]);
        FirstAtPrefix(before, last, r[j]);
        assert r[i] == front[i] && front[i] in front;
        assert j < |front| ==> front[j] in front;
      }
    }
  }

  lemma {:induction false} OncesOfDistinct(ids: seq<EntityId>)
    requires Distinct(ids)
    ensures Onces(ids) == ids
  {
    if ids != [] {
      var n := |ids| - 1;
      assert ids == ids[..n] + [ids[n]];
      assert ids[n] !in ids[..n];
      OncesOfDistinct(ids[..n]);
    }
  }

  method DedupeIDs(ids: seq<EntityId>) returns (out: seq<EntityId>)
    ensures out == Onces(ids)
  {
    var seen: set<EntityId> := {};
    out := [];
    for i := 0 to |ids|
      invariant seen == set id | id in ids[..i]
      invariant out == Onces(ids[..i])
    {
      assert ids[..i + 1][..i] == ids[..i];
      if ids[i] !in seen {
        seen := seen + {ids[i]};
        out := out + [ids[i]];
      }
    }
    assert ids[..|ids|] == ids;
  }

  /** The highest score, and the first neighbour that reaches it. */
  ghost predicate IsFirstMax(ns: seq<ScoredMatch>, best: ScoredMatch) {
    exists i :: 0 <= i < |ns| && ns[i] == best
      && (forall j | 0 <= j < |ns| :: ns[j].score <= best.score)
      && (forall j | 0 <= j < i :: ns[j].score < best.score)
  }

  function MaxScore(ns: seq<ScoredMatch>): Option<ScoredMatch> {
    if ns == [] then None
    else
      var last := ns[|ns| - 1];
      match MaxScore(ns[..|ns| - 1])
      case None => Some(last)
      case Some(best) => if last.score > best.score then Some(last) else Some(best)
  }

  lemma {:induction false} MaxScoreIsFirstMax(ns: seq<ScoredMatch>)
    requires ns != []
    ensures MaxScore(ns).Some? && IsFirstMax(ns, MaxScore(ns).value)
  {
    var n := |ns| - 1;
    var front := ns[..n];
    if front == [] {
      assert ns[0] == MaxScore(ns).value;
    } else {
      MaxScoreIsFirstMax(front);
      var best := MaxScore(front).value;
      var i :| 0 <= i < |front| && front[i] == best
        && (forall j | 0 <= j < |front| :: front[j].score <= best.score)
        && (forall j | 0 <= j < i :: front[j].score < best.score);
      assert forall j | 0 <= j < n :: ns[j] == front[j];
      if ns[n].score > best.score {
        assert ns[n] == MaxScore(ns).value;
      } else {
        assert ns[i] == MaxScore(ns).value;
      }
    }
  }

  lemma FirstMaxUnique(ns: seq<ScoredMatch>, best: ScoredMatch)
    requires IsFirstMax(ns, best)
    ensures MaxScore(ns) == Some(best)
  {
    MaxScoreIsFirstMax(ns);
  }

  method MaxScoreOf(ns: seq<ScoredMatch>) returns (best: Option<ScoredMatch>)
    ensures best == MaxScore(ns)
  {
    if ns == [] {
      return None;
    }
    var top := ns[0];
    for i := 1 to |ns|
      invariant MaxScore(ns[..i]) == Some(top)
    {
      assert ns[..i + 1][..i] == ns[..i];
      if ns[i].score > top.score {
        top := ns[i];
      }
    }
    assert ns[..|ns|] == ns;
    best := Some(top);
  }

  function Decide(hits: seq<EntityId>, neighbors: seq<ScoredMatch>, policy: Policy, th: Thresholds): Result<Decision> {
    if !policy.Valid() then Err(InvalidPolicy)
    else if !policy.ForceNew? && hits != [] then
      var distinct := Onces(hits);
      if |distinct| == 1 then Ok(Attach(distinct[0], MatchExternal)) else Ok(Merge(distinct))
    else if !policy.Auto? then Ok(InsertNew)
    else
      match MaxScore(neighbors)
      case None => Ok(InsertNew)
      case Some(top) =>
        if top.score >= th.autoMerge then Ok(Attach(top.id, MatchVector))
        else if top.score >= th.review then Ok(InsertFlagged(top.id, top.score))
        else Ok(InsertNew)
  }

  /** An external match decides alone: one hit attaches, several merge into the oldest, and the
      neighbours are looked at only under the auto policy with no hit. */
  lemma DecisionOnHits(hits: seq<EntityId>, neighbors: seq<ScoredMatch>, policy: Policy, th: Thresholds, d: Decision)
    requires Distinct(hits) && Decide(hits, neighbors, policy, th) == Ok(d)
    ensures !policy.ForceNew? && |hits| == 1 ==> d == Attach(hits[0], MatchExternal)
    ensures !policy.ForceNew? && |hits| > 1 ==> d == Merge(hits)
    ensures policy.ForceNew? || hits == [] ==>
      d.InsertNew? || (policy.Auto? && MaxScore(neighbors).Some? && !d.Merge? &&
        var top := MaxScore(neighbors).value;
        if d.Attach? then d == Attach(top.id, MatchVector) && top.score >= th.autoMerge
        else d == InsertFlagged(top.id, top.score) && th.review <= top.score < th.autoMerge)
  {
    OncesOfDistinct(hits);
  }

  // ---- ranking: score descending, then id ascending ----

  predicate RankLe(a: ScoredMatch, b: ScoredMatch) {
    a.score > b.score || (a.score == b.score && TextLe(a.id, b.id))
  }

  lemma RankOrder()
    ensures TotalOrder(RankLe)
  {
    forall a, b ensures RankLe(a, b) || RankLe(b, a) {
      TextLeTotal(a.id, b.id);
    }
    forall a, b | RankLe(a, b) && RankLe(b, a) ensures a == b {
      TextLeTotal(a.id, b.id);
    }
    forall a, b, c | RankLe(a, b) && RankLe(b, c) ensures RankLe(a, c) {
      if a.score == b.score == c.score {
        TextLeTransitive(a.id, b.id, c.id);
      }
    }
  }

  function Items(best: map<EntityId, real>): set<ScoredMatch> {
    set id | id in best :: ScoredMatch(id, best[id])
  }

  function Ranked(best: map<EntityId, real>): seq<ScoredMatch> {
    RankOrder();
    SortSet(RankLe, Items(best))
  }

  function Top<T>(xs: seq<T>, limit: int): seq<T> {
    if limit > 0 && |xs| > limit then xs[..limit] else xs
  }

  lemma RankedIsExact(best: map<EntityId, real>)
    ensures SortedBy(RankLe, Ranked(best)) && Distinct(Ranked(best)) && |Ranked(best)| == |best|
    ensures forall m :: m in Ranked(best) <==> m.id in best && m.score == best[m.id]
  {
    RankOrder();
    SortSetSorts(RankLe, Items(best));
    ItemsCount(best);
    ItemsMembership(best);
  }

  lemma ItemsMembership(best: map<EntityId, real>)
    ensures forall m :: m in Items(best) <==> m.id in best && m.score == best[m.id]
  {
    forall m: ScoredMatch | m.id in best && m.score == best[m.id] ensures m in Items(best) {
      assert m == ScoredMatch(m.id, best[m.id]);
    }
  }

  lemma {:induction false} ItemsCount(best: map<EntityId, real>)
    ensures |Items(best)| == |best|
    decreases |best|
  {
    if best == map[] {
      assert Items(best) == {};
    } else {
      var id :| id in best;
      var rest := best - {id};
      ItemsCount(rest);
      ItemsMembership(best);
      ItemsMembership(rest);
      assert Items(best) == Items(rest) + {ScoredMatch(id, best[id])};
      assert best.Keys == rest.Keys + {id};
      assert |best.Keys| == |best| && |rest.Keys| == |rest|;
    }
  }

  /** Whatever order the score map is walked in, sorting its entries gives Ranked. */
  lemma WalkOrderIrrelevant(best: map<EntityId, real>, walked: seq<ScoredMatch>)
    requires Distinct(walked) && forall m :: m in walked <==> m in Items(best)
    ensures SortSlice(RankLe, walked) == Ranked(best)
  {
    RankOrder();
    SortSliceSorts(RankLe, walked);
    SortSetSorts(RankLe, Items(best));
    DistinctMultiset(walked);
    assert (set m | m in walked) == Items(best);
    SortedUnique(RankLe, SortSlice(RankLe, walked), Ranked(best));
  }

  lemma {:induction false} DistinctMultiset<T>(xs: seq<T>)
    requires Distinct(xs)
    ensures multiset(xs) == multiset(set x | x in xs)
  {
    if xs != [] {
      var n := |xs| - 1;
      var front, last := xs[..n], xs[n];
      assert xs == front + [last];
      DistinctMultiset(front);
      assert last !in front;
      assert (set x | x in xs) == (set x | x in front) + {last};
    }
  }

  /** The neighbour Decide acts on: the smallest id among those with the greatest best-score. */
  lemma NearestIsChosen(best: map<EntityId, real>, limit: int)
    requires best != map[]
    ensures var top := MaxScore(Top(Ranked(best), limit));
            && top.Some? && top.value.id in best && top.value.score == best[top.value.id]
            && forall id | id in best ::
                 best[id] < top.value.score || (best[id] == top.value.score && TextLe(top.value.id, id))
  {
    RankedIsExact(best);
    var ranked := Ranked(best);
    assert |best.Keys| == |best| && best.Keys != {};
    FirstOfSorted(ranked, Top(ranked, limit));
    var top := ranked[0];
    assert top in ranked;
    forall id | id in best
      ensures best[id] < top.score || (best[id] == top.score && TextLe(top.id, id))
    {
      var m := ScoredMatch(id, best[id]);
      assert m in ranked;
      var i :| 0 <= i < |ranked| && ranked[i] == m;
      if i == 0 {
        TextLeTotal(id, id);
      }
    }
  }

  lemma FirstOfSorted(ranked: seq<ScoredMatch>, cut: seq<ScoredMatch>)
    requires SortedBy(RankLe, ranked) && ranked != [] && cut != [] && cut <= ranked
    ensures MaxScore(cut) == Some(ranked[0])
  {
    assert forall j | 0 < j < |cut| :: RankLe(ranked[0], ranked[j]);
    assert cut[0] == ranked[0];
    FirstMaxUnique(cut, ranked[0]);
  }

  /** Keeping only the first few ranked neighbours never changes the decision. */
  lemma TruncationHarmless(best: map<EntityId, real>, limit: int, hits: seq<EntityId>, policy: Policy, th: Thresholds)
    ensures Decide(hits, Top(Ranked(best), limit), policy, th) == Decide(hits, Ranked(best), policy, th)
  {
    RankedIsExact(best);
    if Ranked(best) != [] {
      FirstOfSorted(Ranked(best), Top(Ranked(best), limit));
      FirstOfSorted(Ranked(best), Ranked(best));
    }
  }

  // ---- the Postgres adapter reports scores clamped into [0,1] ----

  function Clamp(s: real): real {
    if s < 0.0 then 0.0 else if s > 1.0 then 1.0 else s
  }

  function Clamped(ns: seq<ScoredMatch>): seq<ScoredMatch> {
    seq(|ns|, i requires 0 <= i < |ns| => ScoredMatch(ns[i].id, Clamp(ns[i].score)))
  }

  method ClampRows(rows: seq<ScoredMatch>) returns (out: seq<ScoredMatch>)
    ensures out == Clamped(rows)
  {
    out := [];
    for i := 0 to |rows|
      invariant out == Clamped(rows[..i])
    {
      var score := rows[i].score;
      if score < 0.0 {
        score := 0.0;
      }
      if score > 1.0 {
        score := 1.0;
      }
      out := out + [ScoredMatch(rows[i].id, score)];
    }
    assert rows[..|rows|] == rows;
  }

  ghost predicate ClampingHarmless(th: Thresholds) {
    forall ranked, policy | SortedBy(RankLe, ranked) ::
      Decide([], Clamped(ranked), policy, th) == Decide([], ranked, policy, th)
  }

  lemma ClampedKeepsDecision(ranked: seq<ScoredMatch>, policy: Policy, th: Thresholds)
    requires SortedBy(RankLe, ranked) && th.Valid()
    ensures Decide([], Clamped(ranked), policy, th) == Decide([], ranked, policy, th)
  {
    if ranked != [] {
      FirstOfSorted(ranked, ranked);
      var c := Clamped(ranked);
      assert forall j | 0 < j < |ranked| :: RankLe(ranked[0], ranked[j]);
      FirstMaxUnique(c, c[0]);
    }
  }

  /** With the bands in order, clamping is invisible exactly when the thresholds validate. */
  lemma ClampingHarmlessIff(th: Thresholds)
    requires th.autoMerge > th.review
    ensures ClampingHarmless(th) <==> th.Valid()
  {
    if th.Valid() {
      forall ranked, policy | SortedBy(RankLe, ranked)
        ensures Decide([], Clamped(ranked), policy, th) == Decide([], ranked, policy, th)
      {
        ClampedKeepsDecision(ranked, policy, th);
      }
    } else {
      var score := if th.review <= 0.0 then th.review - 1.0 else th.autoMerge;
      var one := [ScoredMatch("", score)];
      assert SortedBy(RankLe, one);
      assert MaxScore(one) == Some(one[0]) by {
        FirstMaxUnique(one, one[0]);
      }
      var c := Clamped(one);
      assert MaxScore(c) == Some(ScoredMatch("", Clamp(score))) by {
        FirstMaxUnique(c, c[0]);
      }
      assert Decide([], c, Auto, th) != Decide([], one, Auto, th);
    }
  }
}
