/** Reciprocal-rank fusion of the full-text and the semantic ranking. */
module Fusion {
  import opened Domain
  import opened Order
  import opened Resolve

  datatype ScoredEntity = ScoredEntity(entity: Entity, score: real)

  const K := 60

  function Weight(rank: nat): real {
    1.0 / (K + rank) as real
  }

  /** What one list adds to an id's score: a weight for every place it stands at. */
  function ListScore(list: seq<ScoredEntity>, id: EntityId): real {
    if list == [] then 0.0
    else
      var n := |list| - 1;
      ListScore(list[..n], id) + if list[n].entity.id == id then Weight(n) else 0.0
  }

  function Score(lists: seq<seq<ScoredEntity>>, id: EntityId): real {
    if lists == [] then 0.0
    else
      var n := |lists| - 1;
      Score(lists[..n], id) + ListScore(lists[n], id)
  }

  predicate Listed(list: seq<ScoredEntity>, id: EntityId) {
    exists se | se in list :: se.entity.id == id
  }

  /** The entity as the last occurrence in a list has it, or the one known before. */
  function LastIn(list: seq<ScoredEntity>, id: EntityId, before: Option<Entity>): Option<Entity> {
    if list == [] then before
    else
      var n := |list| - 1;
      if list[n].entity.id == id then Some(list[n].entity) else LastIn(list[..n], id, before)
  }

  function LastOf(lists: seq<seq<ScoredEntity>>, id: EntityId): Option<Entity> {
    if lists == [] then None
    else LastIn(lists[|lists| - 1], id, LastOf(lists[..|lists| - 1], id))
  }

  /** The i-th place of the list is the last the id stands at. */
  predicate LastPlace(list: seq<ScoredEntity>, id: EntityId, i: nat) {
    i < |list| && list[i].entity.id == id && forall j | i < j < |list| :: list[j].entity.id != id
  }

  lemma {:induction false} LastInIs(list: seq<ScoredEntity>, id: EntityId, before: Option<Entity>)
    ensures if Listed(list, id) then exists i: nat ::
            LastPlace(list, id, i) && LastIn(list, id, before) == Some(list[i].entity)
            else LastIn(list, id, before) == before
  {
    if list != [] {
      var n := |list| - 1;
      LastInIs(list[..n], id, before);
      assert list == list[..n] + [list[n]];
      if list[n].entity.id == id {
        assert LastPlace(list, id, n);
      } else if Listed(list[..n], id) {
        var i: nat :| LastPlace(list[..n], id, i) && LastIn(list[..n], id, before) == Some(list[..n][i].entity);
        assert LastPlace(list, id, i);
      }
    }
  }

  /** The i-th place of the l-th list is the last of all. */
  predicate LastPlaceOf(lists: seq<seq<ScoredEntity>>, id: EntityId, l: nat, i: nat) {
    l < |lists| && LastPlace(lists[l], id, i) && forall k | l < k < |lists| :: !Listed(lists[k], id)
  }

  lemma LastPlaceSnoc(front: seq<seq<ScoredEntity>>, list: seq<ScoredEntity>, id: EntityId, l: nat, i: nat)
    requires LastPlaceOf(front, id, l, i) && !Listed(list, id)
    ensures LastPlaceOf(front + [list], id, l, i) && (front + [list])[l] == front[l]
  {
  }

  /** The entity kept for an id is the one at its last place in the last list that has it. */
  lemma {:induction false} LastOfIs(lists: seq<seq<ScoredEntity>>, id: EntityId)
    ensures LastOf(lists, id).Some? ==> exists l: nat, i: nat ::
              LastPlaceOf(lists, id, l, i) && LastOf(lists, id) == Some(lists[l][i].entity)
    ensures LastOf(lists, id).None? ==> forall l | 0 <= l < |lists| :: !Listed(lists[l], id)
  {
    if lists != [] {
      var front, list := lists[..|lists| - 1], lists[|lists| - 1];
      assert lists == front + [list];
      LastOfIs(front, id);
      LastInIs(list, id, LastOf(front, id));
      if Listed(list, id) {
        var i: nat :| LastPlace(list, id, i) && LastOf(lists, id) == Some(list[i].entity);
        assert LastPlaceOf(lists, id, |front|, i);
      } else if LastOf(front, id).Some? {
        var l: nat, i: nat :| LastPlaceOf(front, id, l, i) && LastOf(front, id) == Some(front[l][i].entity);
        LastPlaceSnoc(front, list, id, l, i);
      }
    }
  }

  // ---- the two maps ----

  function ScoreSoFar(lists: seq<seq<ScoredEntity>>, part: seq<ScoredEntity>, id: EntityId): real {
    Score(lists, id) + ListScore(part, id)
  }

  function LastSoFar(lists: seq<seq<ScoredEntity>>, part: seq<ScoredEntity>, id: EntityId): Option<Entity> {
    LastIn(part, id, LastOf(lists, id))
  }

  /** After these lists and part of the next, the maps hold each id seen, its score and its
      last entity. */
  ghost predicate Holds(
    score: map<EntityId, real>, ent: map<EntityId, Entity>, lists: seq<seq<ScoredEntity>>, part: seq<ScoredEntity>)
  {
    && score.Keys == ent.Keys
    && (forall id :: id in ent <==> LastSoFar(lists, part, id).Some?)
    && (forall id | id in ent :: LastSoFar(lists, part, id) == Some(ent[id]) && ent[id].id == id)
    && (forall id :: ScoreSoFar(lists, part, id) == if id in score then score[id] else 0.0)
  }

  lemma HoldsSnoc(
    score: map<EntityId, real>, ent: map<EntityId, Entity>, lists: seq<seq<ScoredEntity>>, part: seq<ScoredEntity>,
    se: ScoredEntity)
    requires Holds(score, ent, lists, part)
    ensures var id := se.entity.id;
      Holds(score[id := (if id in score then score[id] else 0.0) + Weight(|part|)], ent[id := se.entity], lists,
            part + [se])
  {
    assert (part + [se])[..|part|] == part;
    forall x
      ensures LastSoFar(lists, part + [se], x)
              == if x == se.entity.id then Some(se.entity) else LastSoFar(lists, part, x)
      ensures ScoreSoFar(lists, part + [se], x)
              == ScoreSoFar(lists, part, x) + if x == se.entity.id then Weight(|part|) else 0.0
    {
    }
  }

  lemma HoldsNext(
    score: map<EntityId, real>, ent: map<EntityId, Entity>, lists: seq<seq<ScoredEntity>>, list: seq<ScoredEntity>)
    requires Holds(score, ent, lists, list)
    ensures Holds(score, ent, lists + [list], [])
  {
    assert (lists + [list])[..|lists|] == lists;
    forall x
      ensures LastSoFar(lists + [list], [], x) == LastSoFar(lists, list, x)
      ensures ScoreSoFar(lists + [list], [], x) == ScoreSoFar(lists, list, x)
    {
    }
  }

  method AddList(list: seq<ScoredEntity>, score0: map<EntityId, real>, ent0: map<EntityId, Entity>,
                 ghost lists: seq<seq<ScoredEntity>>)
    returns (score: map<EntityId, real>, ent: map<EntityId, Entity>)
    requires Holds(score0, ent0, lists, [])
    ensures Holds(score, ent, lists, list)
  {
    score, ent := score0, ent0;
    for rank := 0 to |list|
      invariant Holds(score, ent, lists, list[..rank])
    {
      HoldsSnoc(score, ent, lists, list[..rank], list[rank]);
      assert list[..rank + 1] == list[..rank] + [list[rank]];
      var id := list[rank].entity.id;
      score := score[id := (if id in score then score[id] else 0.0) + Weight(rank)];
      ent := ent[id := list[rank].entity];
    }
    assert list[..|list|] == list;
  }

  // ---- out, sorted and cut ----

  function KeyOf(se: ScoredEntity): ScoredMatch {
    ScoredMatch(se.entity.id, se.score)
  }

  function KeysOf(out: seq<ScoredEntity>): seq<ScoredMatch> {
    seq(|out|, i requires 0 <= i < |out| => KeyOf(out[i]))
  }

  predicate FusedLe(a: ScoredEntity, b: ScoredEntity) {
    RankLe(KeyOf(a), KeyOf(b))
  }

  lemma {:induction false} InsertedKeys(x: ScoredEntity, xs: seq<ScoredEntity>)
    ensures KeysOf(InsertSorted(FusedLe, x, xs)) == InsertSorted(RankLe, KeyOf(x), KeysOf(xs))
  {
    if xs != [] && !FusedLe(x, xs[0]) {
      InsertedKeys(x, xs[1..]);
      assert KeysOf(xs)[1..] == KeysOf(xs[1..]);
    }
  }

  /** Sorting the slice sorts its keys. */
  lemma {:induction false} SortedKeys(xs: seq<ScoredEntity>)
    ensures KeysOf(SortSlice(FusedLe, xs)) == SortSlice(RankLe, KeysOf(xs))
  {
    if xs != [] {
      SortedKeys(xs[1..]);
      InsertedKeys(xs[0], SortSlice(FusedLe, xs[1..]));
      assert KeysOf(xs)[1..] == KeysOf(xs[1..]);
    }
  }

  lemma {:induction false} SortKeepsElements(xs: seq<ScoredEntity>)
    ensures forall x :: x in SortSlice(FusedLe, xs) <==> x in xs
  {
    if xs != [] {
      SortKeepsElements(xs[1..]);
      InsertSortedAdds(FusedLe, xs[0], SortSlice(FusedLe, xs[1..]));
      assert xs == [xs[0]] + xs[1..];
    }
  }

  /** A greater score, or the same and no greater id. */
  predicate Above(x: real, a: EntityId, y: real, b: EntityId) {
    x > y || (x == y && TextLe(a, b))
  }

  /** The id is in the answer, or the answer is full and all of it ranks no lower. */
  ghost predicate KeptOrBelow(lists: seq<seq<ScoredEntity>>, limit: int, out: seq<ScoredEntity>, id: EntityId) {
    || (exists se | se in out :: se.entity.id == id)
    || (limit > 0 && |out| == limit && forall se | se in out :: Above(se.score, se.entity.id, Score(lists, id), id))
  }

  /** Each id at most once, exactly the listed ones before the cut, with its score and its last
      entity, best score first and equal scores by id, and nothing cut ranks above anything kept. */
  ghost predicate Fused(lists: seq<seq<ScoredEntity>>, limit: int, out: seq<ScoredEntity>) {
    && (forall i, j | 0 <= i < j < |out| ::
          && out[i].entity.id != out[j].entity.id
          && Above(out[i].score, out[i].entity.id, out[j].score, out[j].entity.id))
    && (forall se | se in out ::
          LastOf(lists, se.entity.id) == Some(se.entity) && se.score == Score(lists, se.entity.id))
    && (limit > 0 ==> |out| <= limit)
    && (forall id | LastOf(lists, id).Some? :: KeptOrBelow(lists, limit, out, id))
  }

  /** fuseRRF: the score map's entries come in any order. */
  method FuseRRF(limit: int, lists: seq<seq<ScoredEntity>>) returns (out: seq<ScoredEntity>)
    ensures Fused(lists, limit, out)
  {
    var score: map<EntityId, real>, ent: map<EntityId, Entity> := map[], map[];
    for i := 0 to |lists|
      invariant Holds(score, ent, lists[..i], [])
    {
      score, ent := AddList(lists[i], score, ent, lists[..i]);
      HoldsNext(score, ent, lists[..i], lists[i]);
      assert lists[..i + 1] == lists[..i] + [lists[i]];
    }
    assert lists[..|lists|] == lists;
    out := [];
    var left := score.Keys;
    while left != {}
      invariant left <= score.Keys
      invariant Distinct(KeysOf(out)) && forall m ::
                m in KeysOf(out) <==> m.id in score && m.id !in left && m.score == score[m.id]
      invariant forall se | se in out :: se.entity.id in ent && ent[se.entity.id] == se.entity
      decreases |left|
    {
      var id :| id in left;
      left := left - {id};
      var se := ScoredEntity(ent[id], score[id]);
      assert KeysOf(out + [se]) == KeysOf(out) + [KeyOf(se)];
      out := out + [se];
    }
    ItemsMembership(score);
    WalkOrderIrrelevant(score, KeysOf(out));
    SortedKeys(out);
    SortKeepsElements(out);
    out := SortSlice(FusedLe, out);
    ghost var all := out;
    if limit > 0 && |out| > limit {
      out := out[..limit];
    }
    RankedIsExact(score);
    CutIsFused(lists, limit, score, ent, all);
  }

  /** The sorted slice before the cut. */
  ghost predicate SortedOut(
    lists: seq<seq<ScoredEntity>>, score: map<EntityId, real>, ent: map<EntityId, Entity>, all: seq<ScoredEntity>) {
    && Holds(score, ent, lists, []) && KeysOf(all) == Ranked(score)
    && forall se | se in all :: se.entity.id in ent && ent[se.entity.id] == se.entity
  }

  lemma OutRanked(
    lists: seq<seq<ScoredEntity>>, score: map<EntityId, real>, ent: map<EntityId, Entity>, all: seq<ScoredEntity>)
    requires SortedOut(lists, score, ent, all)
    ensures forall i, j | 0 <= i < j < |all| :: all[i].entity.id != all[j].entity.id && FusedLe(all[i], all[j])
  {
    RankedIsExact(score);
    forall i, j | 0 <= i < j < |all| ensures all[i].entity.id != all[j].entity.id && FusedLe(all[i], all[j]) {
      assert KeysOf(all)[i] == KeyOf(all[i]) && KeysOf(all)[j] == KeyOf(all[j]);
      assert KeysOf(all)[i] in Ranked(score) && KeysOf(all)[j] in Ranked(score);
    }
  }

  lemma OutScored(
    lists: seq<seq<ScoredEntity>>, score: map<EntityId, real>, ent: map<EntityId, Entity>, all: seq<ScoredEntity>,
    i: nat)
    requires SortedOut(lists, score, ent, all) && i < |all|
    ensures LastOf(lists, all[i].entity.id) == Some(all[i].entity) && all[i].score == Score(lists, all[i].entity.id)
  {
    RankedIsExact(score);
    var id := all[i].entity.id;
    assert all[i] in all && KeysOf(all)[i] in Ranked(score);
    assert LastSoFar(lists, [], id) == LastOf(lists, id) && ScoreSoFar(lists, [], id) == Score(lists, id);
  }

  lemma OutCovers(
    lists: seq<seq<ScoredEntity>>, score: map<EntityId, real>, ent: map<EntityId, Entity>, all: seq<ScoredEntity>,
    id: EntityId)
    returns (i: nat)
    requires SortedOut(lists, score, ent, all) && LastOf(lists, id).Some?
    ensures i < |all| && KeyOf(all[i]) == ScoredMatch(id, Score(lists, id))
  {
    RankedIsExact(score);
    assert LastSoFar(lists, [], id) == LastOf(lists, id) && ScoreSoFar(lists, [], id) == Score(lists, id);
    var m := ScoredMatch(id, score[id]);
    assert m in Ranked(score);
    i :| 0 <= i < |all| && KeysOf(all)[i] == m;
  }

  lemma CutIsFused(
    lists: seq<seq<ScoredEntity>>, limit: int, score: map<EntityId, real>, ent: map<EntityId, Entity>,
    all: seq<ScoredEntity>)
    requires SortedOut(lists, score, ent, all)
    ensures Fused(lists, limit, Top(all, limit))
  {
    var out := Top(all, limit);
    OutRanked(lists, score, ent, all);
    forall se | se in out
      ensures LastOf(lists, se.entity.id) == Some(se.entity) && se.score == Score(lists, se.entity.id)
    {
      var i :| 0 <= i < |all| && all[i] == se;
      OutScored(lists, score, ent, all, i);
    }
    forall id | LastOf(lists, id).Some? ensures KeptOrBelow(lists, limit, out, id) {
      var i := OutCovers(lists, score, ent, all, id);
      if i < |out| {
        assert out[i] in out && out[i].entity.id == id;
      } else {
        forall se | se in out ensures RankLe(KeyOf(se), ScoredMatch(id, Score(lists, id))) {
          var k :| 0 <= k < |out| && out[k] == se;
          assert FusedLe(all[k], all[i]);
        }
      }
    }
  }

  // ---- there is only one such answer ----

  function Ids(out: seq<ScoredEntity>): set<EntityId> {
    set se | se in out :: se.entity.id
  }

  lemma {:induction false} IdsCount(out: seq<ScoredEntity>)
    requires forall i, j | 0 <= i < j < |out| :: out[i].entity.id != out[j].entity.id
    ensures |Ids(out)| == |out|
  {
    if out != [] {
      var n := |out| - 1;
      IdsCount(out[..n]);
      assert out == out[..n] + [out[n]];
      assert out[n].entity.id !in Ids(out[..n]);
      assert Ids(out) == Ids(out[..n]) + {out[n].entity.id};
    }
  }

  /** What one answer lists, the other lists too. */
  lemma NothingExtra(
    lists: seq<seq<ScoredEntity>>, limit: int, a: seq<ScoredEntity>, b: seq<ScoredEntity>, x: ScoredEntity)
    requires Fused(lists, limit, a) && Fused(lists, limit, b) && x in a
    ensures x.entity.id in Ids(b)
  {
    IdsCount(a);
    IdsCount(b);
    assert KeptOrBelow(lists, limit, b, x.entity.id);
    if x.entity.id !in Ids(b) {
      if Ids(b) <= Ids(a) {
        assert x.entity.id in Ids(a);
        SmallerSet(Ids(b), Ids(a));
        assert false;
      } else {
        var y :| y in Ids(b) && y !in Ids(a);
        var se :| se in b && se.entity.id == y;
        assert KeptOrBelow(lists, limit, a, y);
        assert RankLe(KeyOf(x), KeyOf(se)) && RankLe(KeyOf(se), KeyOf(x));
        RankOrder();
        assert false;
      }
    }
  }

  lemma DistinctKeys(lists: seq<seq<ScoredEntity>>, limit: int, a: seq<ScoredEntity>)
    requires Fused(lists, limit, a)
    ensures Distinct(KeysOf(a)) && SortedBy(RankLe, KeysOf(a))
  {
    forall i, j | 0 <= i < j < |a| ensures KeysOf(a)[i] != KeysOf(a)[j] && RankLe(KeysOf(a)[i], KeysOf(a)[j]) {
      assert FusedLe(a[i], a[j]);
    }
  }

  lemma SameKeys(lists: seq<seq<ScoredEntity>>, limit: int, a: seq<ScoredEntity>, b: seq<ScoredEntity>, m: ScoredMatch)
    requires Fused(lists, limit, a) && Fused(lists, limit, b) && m in KeysOf(a)
    ensures m in KeysOf(b)
  {
    var i :| 0 <= i < |a| && KeysOf(a)[i] == m;
    NothingExtra(lists, limit, a, b, a[i]);
    var se :| se in b && se.entity.id == a[i].entity.id;
    assert a[i] in a;
    var j :| 0 <= j < |b| && b[j] == se;
    assert KeysOf(b)[j] == m;
  }

  /** The fused ranking is determined by the lists: no walk of a map can change it. */
  lemma FusedUnique(lists: seq<seq<ScoredEntity>>, limit: int, a: seq<ScoredEntity>, b: seq<ScoredEntity>)
    requires Fused(lists, limit, a) && Fused(lists, limit, b)
    ensures a == b
  {
    DistinctKeys(lists, limit, a);
    DistinctKeys(lists, limit, b);
    forall m ensures m in KeysOf(a) <==> m in KeysOf(b) {
      if m in KeysOf(a) {
        SameKeys(lists, limit, a, b, m);
      }
      if m in KeysOf(b) {
        SameKeys(lists, limit, b, a, m);
      }
    }
    DistinctMultiset(KeysOf(a));
    DistinctMultiset(KeysOf(b));
    assert (set m | m in KeysOf(a)) == (set m | m in KeysOf(b));
    RankOrder();
    SortedUnique(RankLe, KeysOf(a), KeysOf(b));
    assert |KeysOf(a)| == |a| && |KeysOf(b)| == |b|;
    forall i | 0 <= i < |a| ensures a[i] == b[i] {
      assert KeysOf(a)[i] == KeysOf(b)[i];
      assert a[i] in a && b[i] in b;
    }
  }

  // ---- agreement between two rankings ----

  ghost predicate NoRepeats(list: seq<ScoredEntity>) {
    forall i, j | 0 <= i < j < |list| :: list[i].entity.id != list[j].entity.id
  }

  lemma {:induction false} UnlistedScore(list: seq<ScoredEntity>, id: EntityId)
    requires forall i | 0 <= i < |list| :: list[i].entity.id != id
    ensures ListScore(list, id) == 0.0
  {
    if list != [] {
      UnlistedScore(list[..|list| - 1], id);
    }
  }

  lemma {:induction false} ListedScore(list: seq<ScoredEntity>, rank: nat)
    requires NoRepeats(list) && rank < |list|
    ensures ListScore(list, list[rank].entity.id) == Weight(rank)
  {
    var n := |list| - 1;
    if rank == n {
      UnlistedScore(list[..n], list[rank].entity.id);
    } else {
      ListedScore(list[..n], rank);
    }
  }

  lemma Weights(rank: nat)
    ensures rank < K ==> Weight(rank) > 1.0 / 120.0
    ensures Weight(rank) <= 1.0 / 60.0 && Weight(rank) > 0.0
    ensures Weight(0) == 1.0 / 60.0 && Weight(K) == 1.0 / 120.0
  {
    if rank < K {
      assert 1.0 / (K + rank) as real > 1.0 / 120.0;
    }
  }

  /** In two lists of at most n different ids each, whatever both list outranks whatever only
      one lists. */
  ghost predicate AgreementWins(n: nat) {
    forall a, b, x, y | NoRepeats(a) && NoRepeats(b) && |a| <= n && |b| <= n && Listed(a, x) && Listed(b, x)
                        && (Listed(a, y) != Listed(b, y)) :: Score([a, b], x) > Score([a, b], y)
  }

  lemma TwoLists(a: seq<ScoredEntity>, b: seq<ScoredEntity>, id: EntityId)
    ensures Score([a, b], id) == ListScore(a, id) + ListScore(b, id)
  {
    assert [a, b][..1] == [a];
    assert Score([a], id) == ListScore(a, id) by {
      assert [a][..0] == [];
    }
  }

  lemma ScoreRange(list: seq<ScoredEntity>, id: EntityId)
    requires NoRepeats(list)
    ensures !Listed(list, id) ==> ListScore(list, id) == 0.0
    ensures Listed(list, id) && |list| <= K ==> ListScore(list, id) > 1.0 / 120.0
    ensures ListScore(list, id) <= 1.0 / 60.0
  {
    if Listed(list, id) {
      var se :| se in list && se.entity.id == id;
      var rank :| 0 <= rank < |list| && list[rank] == se;
      ListedScore(list, rank);
      Weights(rank);
    } else {
      forall i | 0 <= i < |list| ensures list[i].entity.id != id {
        assert list[i] in list;
      }
      UnlistedScore(list, id);
    }
  }

  /** Agreement beats any single ranking exactly for lists of at most 60. */
  lemma AgreementWinsIff(n: nat)
    ensures AgreementWins(n) <==> n <= K
  {
    if n <= K {
      forall a, b, x, y | NoRepeats(a) && NoRepeats(b) && |a| <= n && |b| <= n && Listed(a, x) && Listed(b, x)
                          && (Listed(a, y) != Listed(b, y)) ensures Score([a, b], x) > Score([a, b], y) {
        TwoLists(a, b, x);
        TwoLists(a, b, y);
        ScoreRange(a, x);
        ScoreRange(b, x);
        ScoreRange(a, y);
        ScoreRange(b, y);
      }
    } else {
      LongListsTie();
    }
  }

  function Named(id: EntityId): ScoredEntity {
    ScoredEntity(Entity(id, "", Absent, [], Provenance("", Asserted, "", 0.0, None), "", "", Private, []), 0.0)
  }

  /** n ids of one letter and different lengths. */
  function Letters(c: char, n: nat): seq<ScoredEntity> {
    seq(n, i requires 0 <= i => Named(seq(i + 1, _ => c)))
  }

  /** A ranking of 60 ids of one letter, and x at the end. */
  function Ending(c: char): seq<ScoredEntity> {
    Letters(c, K) + [Named("x")]
  }

  lemma EndingIds(c: char)
    requires c != 'x'
    ensures |Ending(c)| == K + 1 && NoRepeats(Ending(c)) && Ending(c)[K].entity.id == "x"
    ensures forall i | 0 <= i < K :: |Ending(c)[i].entity.id| == i + 1 && Ending(c)[i].entity.id[0] == c
  {
    var list := Ending(c);
    forall i, j | 0 <= i < j < |list| ensures list[i].entity.id != list[j].entity.id {
      assert list[i].entity.id[0] == c && |list[i].entity.id| == i + 1;
      assert j < K ==> |list[j].entity.id| == j + 1;
    }
  }

  lemma LongListsTie()
    ensures forall n | n > K :: !AgreementWins(n)
  {
    var a, b := Ending('a'), Ending('b');
    EndingIds('a');
    EndingIds('b');
    var y := a[0].entity.id;
    ListedScore(a, K);
    ListedScore(b, K);
    ListedScore(a, 0);
    forall i | 0 <= i < |b| ensures b[i].entity.id != y {
      assert b[i].entity.id[0] != 'a';
    }
    UnlistedScore(b, y);
    TwoLists(a, b, "x");
    TwoLists(a, b, y);
    Weights(0);
    Weights(K);
    assert a[K] in a && b[K] in b && a[0] in a;
    assert Listed(a, "x") && Listed(b, "x") && Listed(a, y) && !Listed(b, y);
    assert !(Score([a, b], "x") > Score([a, b], y));
  }
}
