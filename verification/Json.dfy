/** JSON property bags and the two ways the adapters union them: SQLite's json_patch
    (a merge patch, section 2 of RFC 7396) and Postgres's shallow jsonb `||`. */
module Json {

  datatype Json =
    | JNull
    | JBool(b: bool)
    | JNum(n: real)
    | JStr(s: string)
    | JArr(a: seq<Json>)
    | JObj(m: map<string, Json>)

  datatype Found = Missing | Here(value: Json)

  function Members(j: Json): map<string, Json> {
    if j.JObj? then j.m else map[]
  }

  /** json_patch(target, patch). */
  function MergePatch(target: Json, patch: Json): Json
    decreases patch
  {
    if !patch.JObj? then patch
    else
      var base := Members(target);
      JObj(map k | k in base.Keys + patch.m.Keys && (k in patch.m ==> patch.m[k] != JNull) ::
        if k in patch.m then MergePatch(if k in base then base[k] else JNull, patch.m[k]) else base[k])
  }

  /** The SQLite attach: the stored bag is the patch, so stored values win. */
  function Union(candidate: Json, stored: Json): Json {
    MergePatch(candidate, stored)
  }

  /** The Postgres attach, jsonb `candidate || stored`, on two objects. */
  function ShallowUnion(candidate: Json, stored: Json): Json
    requires candidate.JObj? && stored.JObj?
  {
    JObj(candidate.m + stored.m)
  }

  /** The value reached by following object members. */
  function At(j: Json, path: seq<string>): Found {
    if path == [] then Here(j)
    else if j.JObj? && path[0] in j.m then At(j.m[path[0]], path[1..])
    else Missing
  }

  predicate IsLeafAt(j: Json, path: seq<string>, v: Json) {
    At(j, path) == Here(v) && !v.JObj?
  }

  /** No object member is null, at any depth; arrays are not looked into. */
  predicate NullFree(j: Json) {
    j.JObj? ==> forall k | k in j.m :: j.m[k] != JNull && NullFree(j.m[k])
  }

  ghost predicate KeepsLeaves(old_: Json, new_: Json) {
    forall path, v | IsLeafAt(old_, path, v) :: IsLeafAt(new_, path, v)
  }

  /** Every member the candidate has is already there, wherever both sides are objects. */
  predicate AddsNothing(candidate: Json, stored: Json)
    decreases stored
  {
    candidate.JObj? && stored.JObj? ==>
      forall k | k in candidate.m :: k in stored.m && AddsNothing(candidate.m[k], stored.m[k])
  }

  lemma {:induction false} UnionKeepsLeaf(candidate: Json, stored: Json, path: seq<string>, v: Json)
    requires NullFree(stored) && IsLeafAt(stored, path, v)
    ensures IsLeafAt(Union(candidate, stored), path, v)
    decreases stored
  {
    if stored.JObj? {
      var k := path[0];
      var sub := if k in Members(candidate) then Members(candidate)[k] else JNull;
      assert Union(candidate, stored).m[k] == MergePatch(sub, stored.m[k]);
      UnionKeepsLeaf(sub, stored.m[k], path[1..], v);
    }
  }

  lemma {:induction false} NullPath(j: Json) returns (path: seq<string>)
    requires !NullFree(j)
    ensures j.JObj? && path != [] && IsLeafAt(j, path, JNull)
    decreases j
  {
    var k :| k in j.m && !(j.m[k] != JNull && NullFree(j.m[k]));
    if j.m[k] == JNull {
      path := [k];
      assert At(JNull, path[1..]) == Here(JNull);
    } else {
      var rest := NullPath(j.m[k]);
      path := [k] + rest;
    }
  }

  /** A null the stored bag holds as a member never survives a union. */
  lemma {:induction false} UnionDropsNull(candidate: Json, stored: Json, path: seq<string>)
    requires path != [] && IsLeafAt(stored, path, JNull)
    ensures At(Union(candidate, stored), path) == Missing
    decreases stored
  {
    var k := path[0];
    assert At(stored, path) == At(stored.m[k], path[1..]);
    if |path| > 1 {
      assert path[1..] != [] && stored.m[k].JObj?;
      var sub := if k in Members(candidate) then Members(candidate)[k] else JNull;
      assert Union(candidate, stored).m[k] == MergePatch(sub, stored.m[k]);
      UnionDropsNull(sub, stored.m[k], path[1..]);
    } else {
      assert path[1..] == [] && k !in Union(candidate, stored).m;
    }
  }

  /** Existing values win on every path exactly when the stored bag is null-free. */
  lemma UnionKeepsStoredIff(candidate: Json, stored: Json)
    ensures KeepsLeaves(stored, Union(candidate, stored)) <==> NullFree(stored)
  {
    if NullFree(stored) {
      forall path, v | IsLeafAt(stored, path, v) ensures IsLeafAt(Union(candidate, stored), path, v) {
        UnionKeepsLeaf(candidate, stored, path, v);
      }
    } else {
      var path := NullPath(stored);
      UnionDropsNull(candidate, stored, path);
    }
  }

  /** A member only the candidate has arrives whole, at any depth both bags reach as objects. */
  lemma {:induction false} UnionAddsMissing(candidate: Json, stored: Json, path: seq<string>, k: string)
    requires At(candidate, path).Here? && At(candidate, path).value.JObj? && k in At(candidate, path).value.m
    requires At(stored, path).Here? && At(stored, path).value.JObj? && k !in At(stored, path).value.m
    ensures At(Union(candidate, stored), path + [k]) == Here(At(candidate, path).value.m[k])
    decreases stored
  {
    if path == [] {
      assert ([] + [k])[1..] == [];
    } else {
      var h := path[0];
      assert Union(candidate, stored).m[h] == MergePatch(candidate.m[h], stored.m[h]);
      UnionAddsMissing(candidate.m[h], stored.m[h], path[1..], k);
      assert (path + [k])[1..] == path[1..] + [k];
    }
  }

  /** Every leaf of the union stood at the same path on one of the two sides. */
  lemma {:induction false} UnionInventsNothing(candidate: Json, stored: Json, path: seq<string>, v: Json)
    requires IsLeafAt(Union(candidate, stored), path, v)
    ensures IsLeafAt(stored, path, v) || IsLeafAt(candidate, path, v)
    decreases stored
  {
    if stored.JObj? {
      var k := path[0];
      if k in stored.m {
        var sub := if k in Members(candidate) then Members(candidate)[k] else JNull;
        assert stored.m[k] != JNull;
        UnionInventsNothing(sub, stored.m[k], path[1..], v);
      }
    }
  }

  predicate ObjectAt(j: Json, path: seq<string>) {
    At(j, path).Here? && At(j, path).value.JObj?
  }

  predicate MemberAt(j: Json, path: seq<string>, k: string) {
    ObjectAt(j, path) && k in At(j, path).value.m
  }

  /** What attaching a candidate's bag to a stored one must leave: no stored leaf is lost or changed but the
      null members, which go; a stored object stays one; where the stored bag has an object without a member,
      the candidate's arrives whole; and there is nothing else. */
  ghost predicate Attached(candidate: Json, stored: Json, now: Json) {
    && (forall path, v | IsLeafAt(stored, path, v) ::
          if v == JNull && path != [] then At(now, path) == Missing else IsLeafAt(now, path, v))
    && (forall path | ObjectAt(stored, path) :: ObjectAt(now, path))
    && (forall path, k | ObjectAt(stored, path) && !MemberAt(stored, path, k) && MemberAt(candidate, path, k) ::
          At(now, path + [k]) == Here(At(candidate, path).value.m[k]))
    && (forall path, v | IsLeafAt(now, path, v) :: IsLeafAt(stored, path, v) || IsLeafAt(candidate, path, v))
    && (forall path | At(now, path).Here? :: At(stored, path).Here? || At(candidate, path).Here?)
  }

  lemma {:induction false} UnionKeepsWhatIsSet(candidate: Json, stored: Json, path: seq<string>)
    requires At(stored, path).Here? && (At(stored, path).value != JNull || path == [])
    ensures var v, u := At(stored, path).value, At(Union(candidate, stored), path);
      u.Here? && if v.JObj? then u.value.JObj? else u.value == v
    decreases stored
  {
    if path != [] {
      var k := path[0];
      var sub := if k in Members(candidate) then Members(candidate)[k] else JNull;
      assert At(stored, path) == At(stored.m[k], path[1..]);
      assert path[1..] == [] ==> stored.m[k] != JNull;
      assert Union(candidate, stored).m[k] == MergePatch(sub, stored.m[k]);
      UnionKeepsWhatIsSet(sub, stored.m[k], path[1..]);
    }
  }

  lemma {:induction false} UnionReachesNothing(candidate: Json, stored: Json, path: seq<string>)
    requires At(Union(candidate, stored), path).Here?
    ensures At(stored, path).Here? || At(candidate, path).Here?
    decreases stored
  {
    if stored.JObj? && path != [] && path[0] in stored.m {
      var k := path[0];
      UnionReachesNothing(if k in Members(candidate) then Members(candidate)[k] else JNull, stored.m[k], path[1..]);
    }
  }

  lemma UnionAttaches(candidate: Json, stored: Json)
    ensures Attached(candidate, stored, Union(candidate, stored))
  {
    var u := Union(candidate, stored);
    forall path, v | IsLeafAt(stored, path, v)
      ensures if v == JNull && path != [] then At(u, path) == Missing else IsLeafAt(u, path, v)
    {
      if v == JNull && path != [] {
        UnionDropsNull(candidate, stored, path);
      } else {
        UnionKeepsWhatIsSet(candidate, stored, path);
      }
    }
    forall path | ObjectAt(stored, path) ensures ObjectAt(u, path) {
      UnionKeepsWhatIsSet(candidate, stored, path);
    }
    forall path, k | ObjectAt(stored, path) && !MemberAt(stored, path, k) && MemberAt(candidate, path, k)
      ensures At(u, path + [k]) == Here(At(candidate, path).value.m[k])
    {
      UnionAddsMissing(candidate, stored, path, k);
    }
    forall path, v | IsLeafAt(u, path, v) ensures IsLeafAt(stored, path, v) || IsLeafAt(candidate, path, v) {
      UnionInventsNothing(candidate, stored, path, v);
    }
    forall path | At(u, path).Here? ensures At(stored, path).Here? || At(candidate, path).Here? {
      UnionReachesNothing(candidate, stored, path);
    }
  }

  lemma AtMember(j: Json, k: string, path: seq<string>)
    ensures At(j, [k] + path) == if k in Members(j) then At(Members(j)[k], path) else Missing
  {
    assert ([k] + path)[1..] == path;
  }

  lemma AttachedMember(candidate: Json, stored: Json, now: Json, k: string)
    requires Attached(candidate, stored, now) && k in Members(stored) && Members(stored)[k] != JNull
    ensures k in Members(now) && Attached(SubOf(candidate, k), Members(stored)[k], Members(now)[k])
  {
    var s := Members(stored)[k];
    OneStep(stored, k);
    OneStep(now, k);
    if s.JObj? {
      assert ObjectAt(stored, [k]);
    } else {
      assert IsLeafAt(stored, [k], s);
    }
    AttachedBelow(candidate, stored, now, k);
  }

  lemma AttachedBelow(candidate: Json, stored: Json, now: Json, k: string)
    requires Attached(candidate, stored, now) && k in Members(stored) && Members(stored)[k] != JNull
             && k in Members(now)
    ensures Attached(SubOf(candidate, k), Members(stored)[k], Members(now)[k])
  {
    var c, s, u := SubOf(candidate, k), Members(stored)[k], Members(now)[k];
    forall path, v | IsLeafAt(s, path, v)
      ensures if v == JNull && path != [] then At(u, path) == Missing else IsLeafAt(u, path, v)
    {
      AtMember(stored, k, path);
      AtMember(now, k, path);
      assert IsLeafAt(stored, [k] + path, v);
    }
    forall path | ObjectAt(s, path) ensures ObjectAt(u, path) {
      AtMember(stored, k, path);
      AtMember(now, k, path);
      assert ObjectAt(stored, [k] + path);
    }
    forall path, key | ObjectAt(s, path) && !MemberAt(s, path, key) && MemberAt(c, path, key)
      ensures At(u, path + [key]) == Here(At(c, path).value.m[key])
    {
      AtMember(stored, k, path);
      AtMember(candidate, k, path);
      AtMember(now, k, path + [key]);
      assert MemberAt(candidate, [k] + path, key) && !MemberAt(stored, [k] + path, key);
      assert ([k] + path) + [key] == [k] + (path + [key]);
    }
    forall path | At(u, path).Here? ensures At(s, path).Here? || At(c, path).Here? {
      AtMember(now, k, path);
      AtMember(stored, k, path);
      AtMember(candidate, k, path);
    }
    forall path, v | IsLeafAt(u, path, v) ensures IsLeafAt(s, path, v) || IsLeafAt(c, path, v) {
      AtMember(now, k, path);
      AtMember(stored, k, path);
      AtMember(candidate, k, path);
      assert IsLeafAt(now, [k] + path, v);
    }
  }

  lemma OneStep(j: Json, k: string)
    ensures At(j, [k]) == if k in Members(j) then Here(Members(j)[k]) else Missing
  {
    assert At(j, []) == Here(j);
  }

  /** A member the stored bag does not set comes from the candidate, or is not there. */
  lemma AttachedElsewhere(candidate: Json, stored: Json, now: Json, k: string)
    requires Attached(candidate, stored, now) && stored.JObj?
    requires k in stored.m ==> stored.m[k] == JNull
    ensures now.JObj? && SameMember(now.m, Union(candidate, stored).m, k)
  {
    assert ObjectAt(stored, []) && ObjectAt(now, []);
    UnionMembers(candidate, stored, k);
    OneStep(stored, k);
    OneStep(now, k);
    OneStep(candidate, k);
    if k in stored.m {
      assert IsLeafAt(stored, [k], JNull);
    } else if k in Members(candidate) {
      assert MemberAt(candidate, [], k) && !MemberAt(stored, [], k) && [] + [k] == [k];
    }
  }

  /** Those demands are met by the merge patch alone. */
  lemma {:induction false} AttachedIff(candidate: Json, stored: Json, now: Json)
    ensures Attached(candidate, stored, now) <==> now == Union(candidate, stored)
    decreases stored
  {
    UnionAttaches(candidate, stored);
    if Attached(candidate, stored, now) {
      if stored.JObj? {
        assert ObjectAt(stored, []) && ObjectAt(now, []);
        var u := Union(candidate, stored);
        forall k ensures SameMember(now.m, u.m, k) {
          if k in stored.m && stored.m[k] != JNull {
            AttachedMember(candidate, stored, now, k);
            AttachedIff(SubOf(candidate, k), stored.m[k], now.m[k]);
            UnionMembers(candidate, stored, k);
          } else {
            AttachedElsewhere(candidate, stored, now, k);
          }
        }
        SameMembers(now.m, u.m);
      } else {
        assert IsLeafAt(stored, [], stored);
      }
    }
  }

  lemma {:induction false} FixedIffCovered(candidate: Json, stored: Json)
    requires NullFree(stored)
    ensures Union(candidate, stored) == stored <==> AddsNothing(candidate, stored)
    decreases stored
  {
    if stored.JObj? {
      var base := Members(candidate);
      var u := Union(candidate, stored);
      assert u.m.Keys == base.Keys + stored.m.Keys;
      forall k | k in stored.m
        ensures u.m[k] == stored.m[k] <==> AddsNothing(if k in base then base[k] else JNull, stored.m[k])
      {
        FixedIffCovered(if k in base then base[k] else JNull, stored.m[k]);
      }
      if AddsNothing(candidate, stored) {
        assert u.m == stored.m;
      } else {
        var k :| k in base && !(k in stored.m && AddsNothing(base[k], stored.m[k]));
        assert k in u.m;
      }
    }
  }

  lemma {:induction false} AddsNothingSelf(j: Json)
    ensures AddsNothing(j, j)
  {
    if j.JObj? {
      forall k | k in j.m ensures AddsNothing(j.m[k], j.m[k]) {
        AddsNothingSelf(j.m[k]);
      }
    }
  }

  /** The union changes nothing exactly when the stored bag is null-free and the candidate brings
      no new member. */
  lemma UnionFixedIff(candidate: Json, stored: Json)
    ensures Union(candidate, stored) == stored <==> NullFree(stored) && AddsNothing(candidate, stored)
  {
    if NullFree(stored) {
      FixedIffCovered(candidate, stored);
    } else {
      var path := NullPath(stored);
      UnionDropsNull(candidate, stored, path);
    }
  }

  /** Wherever both sides are objects: no candidate member meets a stored null, and the members
      only the candidate has hold no null. */
  predicate Settles(candidate: Json, stored: Json)
    decreases stored
  {
    candidate.JObj? && stored.JObj? ==>
      forall k | k in candidate.m ::
        if k in stored.m then stored.m[k] != JNull && Settles(candidate.m[k], stored.m[k])
        else candidate.m[k] != JNull && NullFree(candidate.m[k])
  }

  /** The candidate's value under a key, as the patch sees it. */
  function SubOf(candidate: Json, k: string): Json {
    if k in Members(candidate) then Members(candidate)[k] else JNull
  }

  lemma UnionMembers(candidate: Json, stored: Json, k: string)
    requires stored.JObj?
    ensures var u := Union(candidate, stored);
      && u.JObj?
      && (k in u.m <==> (k in stored.m && stored.m[k] != JNull) || (k !in stored.m && k in Members(candidate)))
      && (k in u.m && k in stored.m ==>
            u.m[k] == Union(SubOf(candidate, k), stored.m[k]) && u.m[k] != JNull)
      && (k in u.m && k !in stored.m ==> u.m[k] == Members(candidate)[k])
  {
  }

  predicate SettlesAt(candidate: Json, stored: Json, k: string)
    requires stored.JObj?
  {
    k in Members(candidate) ==>
      if k in stored.m then stored.m[k] != JNull && Settles(SubOf(candidate, k), stored.m[k])
      else SubOf(candidate, k) != JNull && NullFree(SubOf(candidate, k))
  }

  /** The second application leaves what the first made of one member. */
  predicate SameMember(a: map<string, Json>, b: map<string, Json>, k: string) {
    (k in a <==> k in b) && (k in a ==> a[k] == b[k])
  }

  lemma OnlyCandidates(candidate: Json, stored: Json, k: string)
    requires stored.JObj? && k !in stored.m
    ensures var u := Union(candidate, stored);
      u.JObj? && (SameMember(Union(candidate, u).m, u.m, k) <==> SettlesAt(candidate, stored, k))
  {
    var u := Union(candidate, stored);
    UnionMembers(candidate, stored, k);
    UnionMembers(candidate, u, k);
    if k in Members(candidate) {
      AddsNothingSelf(SubOf(candidate, k));
      UnionFixedIff(SubOf(candidate, k), SubOf(candidate, k));
    }
  }

  lemma SameMembers(a: map<string, Json>, b: map<string, Json>)
    ensures a == b <==> forall k :: SameMember(a, b, k)
  {
    if forall k :: SameMember(a, b, k) {
      forall k ensures k in a <==> k in b {
        assert SameMember(a, b, k);
      }
      assert forall k | k in a :: SameMember(a, b, k) && a[k] == b[k];
      assert a == b;
    }
  }

  lemma SettlesMemberwise(candidate: Json, stored: Json)
    requires stored.JObj?
    ensures Settles(candidate, stored) <==> forall k :: SettlesAt(candidate, stored, k)
  {
    if !Settles(candidate, stored) {
      var k :| k in candidate.m &&
        !(if k in stored.m then stored.m[k] != JNull && Settles(candidate.m[k], stored.m[k])
          else candidate.m[k] != JNull && NullFree(candidate.m[k]));
      assert !SettlesAt(candidate, stored, k);
    }
  }

  /** Applying a candidate a second time changes nothing exactly when it settles the first time. */
  lemma {:induction false} UnionIdempotentIff(candidate: Json, stored: Json)
    ensures Union(candidate, Union(candidate, stored)) == Union(candidate, stored) <==> Settles(candidate, stored)
    decreases stored
  {
    if stored.JObj? {
      var u := Union(candidate, stored);
      var uu := Union(candidate, u);
      forall k ensures SameMember(uu.m, u.m, k) <==> SettlesAt(candidate, stored, k) {
        if k in stored.m {
          UnionMembers(candidate, stored, k);
          UnionMembers(candidate, u, k);
          UnionIdempotentIff(SubOf(candidate, k), stored.m[k]);
        } else {
          OnlyCandidates(candidate, stored, k);
        }
      }
      SameMembers(uu.m, u.m);
      SettlesMemberwise(candidate, stored);
    }
  }

  lemma {:induction false} UnionNullFree(candidate: Json, stored: Json)
    requires NullFree(stored) && NullFree(candidate)
    ensures NullFree(Union(candidate, stored))
    ensures stored != JNull ==> Union(candidate, stored) != JNull
    decreases stored
  {
    if stored.JObj? {
      var base := Members(candidate);
      forall k | k in Union(candidate, stored).m
        ensures Union(candidate, stored).m[k] != JNull && NullFree(Union(candidate, stored).m[k])
      {
        if k in stored.m {
          UnionNullFree(if k in base then base[k] else JNull, stored.m[k]);
        }
      }
    }
  }

  /** Patching the JSON text `null` with a bag gives the bag back exactly when it is null-free. */
  lemma NullTargetIff(stored: Json)
    ensures MergePatch(JNull, stored) == stored <==> NullFree(stored)
  {
    UnionFixedIff(JNull, stored);
  }

  /** The stored member at k comes out of the deep union as it was. */
  predicate MemberKept(candidate: Json, stored: Json, k: string)
    requires candidate.JObj? && stored.JObj? && k in stored.m
  {
    stored.m[k] != JNull && NullFree(stored.m[k]) && (k in candidate.m ==> AddsNothing(candidate.m[k], stored.m[k]))
  }

  lemma MemberKeptIff(candidate: Json, stored: Json, k: string)
    requires candidate.JObj? && stored.JObj? && k in stored.m
    ensures var deep := Union(candidate, stored).m;
      k in deep && deep[k] == stored.m[k] <==> MemberKept(candidate, stored, k)
  {
    UnionFixedIff(if k in candidate.m then candidate.m[k] else JNull, stored.m[k]);
  }

  lemma AgreeMemberwise(candidate: Json, stored: Json)
    requires candidate.JObj? && stored.JObj?
    ensures Union(candidate, stored) == ShallowUnion(candidate, stored) <==>
            forall k | k in stored.m :: MemberKept(candidate, stored, k)
  {
    var deep, shallow := Union(candidate, stored).m, ShallowUnion(candidate, stored).m;
    forall k | k in stored.m ensures k in deep && deep[k] == shallow[k] <==> MemberKept(candidate, stored, k) {
      MemberKeptIff(candidate, stored, k);
    }
    if forall k | k in stored.m :: MemberKept(candidate, stored, k) {
      assert deep == shallow;
    }
  }

  /** The two adapters agree on two objects exactly when the stored one is null-free and no shared
      key needs a deep union. */
  lemma AdaptersAgreeIff(candidate: Json, stored: Json)
    requires candidate.JObj? && stored.JObj?
    ensures Union(candidate, stored) == ShallowUnion(candidate, stored) <==>
            NullFree(stored) && forall k | k in candidate.m && k in stored.m :: AddsNothing(candidate.m[k], stored.m[k])
  {
    AgreeMemberwise(candidate, stored);
    assert (forall k | k in stored.m :: MemberKept(candidate, stored, k)) ==>
      forall k | k in candidate.m && k in stored.m :: AddsNothing(candidate.m[k], stored.m[k]) by {
      assert forall k | k in candidate.m && k in stored.m && MemberKept(candidate, stored, k) ::
        AddsNothing(candidate.m[k], stored.m[k]);
    }
  }
}
