/** The bytes an entity's derived idempotency key is hashed from. The digest is not
    modelled: it is taken to be injective wherever a key is compared. */
module DedupeKey {
  import opened Domain
  import opened Order

  const NUL: string := "\0"

  predicate IsSpace(c: char) {
    c in "\t\n\r \U{000B}\U{000C}\U{0085}\U{00A0}\U{1680}\U{2028}\U{2029}\U{202F}\U{205F}\U{3000}"
    || '\U{2000}' <= c <= '\U{200A}'
  }

  /** strings.FieldsFunc, with the word being read so far; strings.Fields cuts at white space. */
  function FieldsFrom(cut: char -> bool, word: string, s: string): seq<string>
    decreases s
  {
    if s == [] then (if word == [] then [] else [word])
    else if cut(s[0]) then (if word == [] then [] else [word]) + FieldsFrom(cut, [], s[1..])
    else FieldsFrom(cut, word + [s[0]], s[1..])
  }

  function Join(xs: seq<string>, sep: string): string {
    if xs == [] then [] else if |xs| == 1 then xs[0] else xs[0] + sep + Join(xs[1..], sep)
  }

  /** Lower-cased (by the given case folding) with runs of white space collapsed. */
  function NormalizeName(lower: string -> string, name: string): string {
    Join(FieldsFrom(IsSpace, [], lower(name)), " ")
  }

  predicate RandomKeyNeeded(lower: string -> string, xs: seq<ExternalId>, name: string) {
    xs == [] && NormalizeName(lower, name) == []
  }

  function DeriveBytes(lower: string -> string, typ: string, xs: seq<ExternalId>, name: string): string {
    "jdx.entity\0" + (typ + (NUL +
      if xs == [] then NUL + NormalizeName(lower, name) else Join(SortSlice(TextLe, Keys(xs)), NUL)))
  }

  method DeriveDedupeKey(lower: string -> string, typ: string, xs: seq<ExternalId>, name: string)
    returns (bytes: string)
    ensures bytes == DeriveBytes(lower, typ, xs, name)
  {
    var keys: seq<string> := [];
    for i := 0 to |xs|
      invariant keys == Keys(xs[..i])
    {
      keys := keys + [xs[i].Key()];
    }
    assert xs[..|xs|] == xs;
    var sorted := SortSlice(TextLe, keys);
    SortedKeysCount(keys);
    bytes := "jdx.entity\0";
    var tail := NUL + Join(sorted, NUL);
    if |keys| == 0 {
      tail := tail + NUL;
      tail := tail + NormalizeName(lower, name);
      assert tail == NUL + (NUL + NormalizeName(lower, name));
    }
    bytes := bytes + (typ + tail);
  }

  lemma SortedKeysCount(keys: seq<string>)
    ensures |SortSlice(TextLe, keys)| == |keys|
    ensures multiset(SortSlice(TextLe, keys)) == multiset(keys)
  {
    TextOrder();
    SortSliceSorts(TextLe, keys);
    assert |multiset(keys)| == |keys|;
    assert |multiset(SortSlice(TextLe, keys))| == |SortSlice(TextLe, keys)|;
  }

  predicate NulFree(s: string) {
    '\0' !in s
  }

  predicate AllNulFree(xs: seq<string>) {
    forall i | 0 <= i < |xs| :: NulFree(xs[i]) && xs[i] != []
  }

  /** Two texts cut at the first place of a character agree piece by piece. */
  lemma {:induction false} CutAt(c: char, a: string, b: string, x: string, y: string)
    requires c !in a && c !in b && a + ([c] + x) == b + ([c] + y)
    ensures a == b && x == y
  {
    var l, r := a + ([c] + x), b + ([c] + y);
    assert l[|a|] == c && r[|b|] == c;
    assert forall i | 0 <= i < |a| :: l[i] == a[i] && a[i] in a;
    assert forall i | 0 <= i < |b| :: r[i] == b[i] && b[i] in b;
    assert |a| == |b|;
    assert l[..|a|] == a && r[..|b|] == b;
    assert l[|a| + 1..] == x && r[|b| + 1..] == y;
  }

  lemma {:induction false} JoinStart(xs: seq<string>)
    requires AllNulFree(xs) && xs != []
    ensures Join(xs, NUL) != [] && Join(xs, NUL)[0] == xs[0][0] && xs[0][0] in xs[0]
  {
  }

  predicate AllWithout(c: char, xs: seq<string>) {
    forall i | 0 <= i < |xs| :: c !in xs[i] && xs[i] != []
  }

  lemma {:induction false} JoinHasIff(c: char, xs: seq<string>)
    requires AllWithout(c, xs) && xs != []
    ensures c in Join(xs, [c]) <==> |xs| > 1
  {
    if |xs| > 1 {
      assert Join(xs, [c])[|xs[0]|] == c;
    }
  }

  lemma {:induction false} JoinInjective(c: char, xs: seq<string>, ys: seq<string>)
    requires AllWithout(c, xs) && AllWithout(c, ys) && xs != [] && ys != []
    requires Join(xs, [c]) == Join(ys, [c])
    ensures xs == ys
  {
    JoinHasIff(c, xs);
    JoinHasIff(c, ys);
    if |xs| > 1 {
      var j := Join(xs, [c]);
      assert j == xs[0] + ([c] + Join(xs[1..], [c])) == ys[0] + ([c] + Join(ys[1..], [c]));
      CutAt(c, xs[0], ys[0], Join(xs[1..], [c]), Join(ys[1..], [c]));
      JoinInjective(c, xs[1..], ys[1..]);
      assert xs == [xs[0]] + xs[1..] && ys == [ys[0]] + ys[1..];
    }
  }

  lemma SortedKeysNulFree(keys: seq<string>)
    requires AllNulFree(keys)
    ensures AllNulFree(SortSlice(TextLe, keys))
  {
    SortedKeysCount(keys);
    var sorted := SortSlice(TextLe, keys);
    forall i | 0 <= i < |sorted| ensures NulFree(sorted[i]) && sorted[i] != [] {
      assert sorted[i] in multiset(sorted);
      assert sorted[i] in keys;
    }
  }

  predicate SameIdentity(
    lower: string -> string, t1: string, xs1: seq<ExternalId>, n1: string, t2: string, xs2: seq<ExternalId>, n2: string)
  {
    t1 == t2 &&
    if xs1 == [] || xs2 == [] then xs1 == xs2 && NormalizeName(lower, n1) == NormalizeName(lower, n2)
    else multiset(Keys(xs1)) == multiset(Keys(xs2))
  }

  lemma KeysNonempty(xs: seq<ExternalId>)
    requires forall i | 0 <= i < |xs| :: NulFree(xs[i].Key())
    ensures AllNulFree(Keys(xs))
  {
  }

  /** Without NUL bytes, the hashed bytes agree exactly on the same identity: the same type,
      and the same multiset of external keys or (with none on either side) the same name. */
  lemma DerivedBytesIff(
    lower: string -> string, t1: string, xs1: seq<ExternalId>, n1: string, t2: string, xs2: seq<ExternalId>, n2: string)
    requires NulFree(t1) && NulFree(t2)
    requires forall i | 0 <= i < |xs1| :: NulFree(xs1[i].Key())
    requires forall i | 0 <= i < |xs2| :: NulFree(xs2[i].Key())
    ensures DeriveBytes(lower, t1, xs1, n1) == DeriveBytes(lower, t2, xs2, n2)
            <==> SameIdentity(lower, t1, xs1, n1, t2, xs2, n2)
  {
    var b1, b2 := DeriveBytes(lower, t1, xs1, n1), DeriveBytes(lower, t2, xs2, n2);
    var s1, s2 := SortSlice(TextLe, Keys(xs1)), SortSlice(TextLe, Keys(xs2));
    var r1 := if xs1 == [] then NUL + NormalizeName(lower, n1) else Join(s1, NUL);
    var r2 := if xs2 == [] then NUL + NormalizeName(lower, n2) else Join(s2, NUL);
    KeysNonempty(xs1);
    KeysNonempty(xs2);
    SortedKeysNulFree(Keys(xs1));
    SortedKeysNulFree(Keys(xs2));
    SortedKeysCount(Keys(xs1));
    SortedKeysCount(Keys(xs2));
    if b1 == b2 {
      assert b1[11..] == t1 + (NUL + r1) && b2[11..] == t2 + (NUL + r2);
      CutAt('\0', t1, t2, r1, r2);
      if xs1 != [] {
        JoinStart(s1);
      }
      if xs2 != [] {
        JoinStart(s2);
      }
      if xs1 == [] && xs2 == [] {
        assert r1[1..] == NormalizeName(lower, n1) && r2[1..] == NormalizeName(lower, n2);
      } else if xs1 != [] && xs2 != [] {
        assert NUL == ['\0'];
        JoinInjective('\0', s1, s2);
      }
    }
    if SameIdentity(lower, t1, xs1, n1, t2, xs2, n2) && xs1 != [] {
      TextOrder();
      SortSliceSorts(TextLe, Keys(xs1));
      SortSliceSorts(TextLe, Keys(xs2));
      SortedUnique(TextLe, s1, s2);
    }
  }

  lemma SpeltAsOne(a: string, b: string)
    requires TextLe(a, b)
    ensures Join(SortSlice(TextLe, [a + NUL + b]), NUL) == Join(SortSlice(TextLe, [a, b]), NUL)
  {
    assert [a + NUL + b][1..] == [] && [a, b][1..] == [b] && [b][1..] == [];
    assert SortSlice(TextLe, [b]) == [b];
    assert SortSlice(TextLe, [a + NUL + b]) == [a + NUL + b] && SortSlice(TextLe, [a, b]) == [a, b];
    assert Join([b], NUL) == b;
  }

  /** A NUL inside an external id defeats the separator: any two keys can be spelt as one. */
  lemma NulCollides(lower: string -> string, typ: string, x: ExternalId, y: ExternalId)
    requires TextLe(x.Key(), y.Key())
    ensures var one, two := [ExternalId(x.scheme, x.value + NUL + y.Key())], [x, y];
            && multiset(Keys(one)) != multiset(Keys(two))
            && DeriveBytes(lower, typ, one, "") == DeriveBytes(lower, typ, two, "")
  {
    var spelt := ExternalId(x.scheme, x.value + NUL + y.Key());
    var one, two := [spelt], [x, y];
    assert spelt.Key() == x.Key() + NUL + y.Key();
    assert Keys(one) == [spelt.Key()] && Keys(two) == [x.Key(), y.Key()];
    assert |multiset(Keys(one))| == 1 && |multiset(Keys(two))| == 2;
    SpeltAsOne(x.Key(), y.Key());
  }

  /** A caller must bring a random key exactly when the derived bytes would be those of every
      other anonymous entity of the type. */
  lemma RandomKeyNeededIff(lower: string -> string, typ: string, xs: seq<ExternalId>, name: string)
    requires NulFree(typ) && lower("") == ""
    requires forall i | 0 <= i < |xs| :: NulFree(xs[i].Key())
    ensures RandomKeyNeeded(lower, xs, name) <==> DeriveBytes(lower, typ, xs, name) == DeriveBytes(lower, typ, [], "")
  {
    DerivedBytesIff(lower, typ, xs, name, typ, [], "");
    assert NormalizeName(lower, "") == "";
  }

  // ---- the words of a name ----

  /** A word stands at n..m: only cuts before it, none in it, and a cut or the end after it. */
  predicate WordAt(cut: char -> bool, s: string, n: nat, m: nat) {
    && n < m <= |s| && (forall k | 0 <= k < n :: cut(s[k])) && (forall k | n <= k < m :: !cut(s[k]))
    && (m == |s| || cut(s[m]))
  }

  /** The text consists of these words, in order, with cuts around and between them. */
  ghost predicate Spells(cut: char -> bool, s: string, words: seq<string>)
    decreases |words|
  {
    if words == [] then forall k | 0 <= k < |s| :: cut(s[k])
    else exists n: nat, m: nat :: WordAt(cut, s, n, m) && words[0] == s[n..m] && Spells(cut, s[m..], words[1..])
  }

  lemma SpellsNext(cut: char -> bool, s: string, n: nat, m: nat, rest: seq<string>)
    requires WordAt(cut, s, n, m) && Spells(cut, s[m..], rest)
    ensures Spells(cut, s, [s[n..m]] + rest)
  {
    var words := [s[n..m]] + rest;
    assert words[0] == s[n..m] && words[1..] == rest;
  }

  lemma SpellsAfterCut(cut: char -> bool, c: char, s: string, words: seq<string>)
    requires cut(c) && Spells(cut, s, words)
    ensures Spells(cut, [c] + s, words)
  {
    if words != [] {
      var n: nat, m: nat :| WordAt(cut, s, n, m) && words[0] == s[n..m] && Spells(cut, s[m..], words[1..]);
      var t := [c] + s;
      assert forall k | 0 < k < |t| :: t[k] == s[k - 1];
      assert WordAt(cut, t, n + 1, m + 1) && t[n + 1..m + 1] == s[n..m] && t[m + 1..] == s[m..];
    }
  }

  lemma SpellsFirst(cut: char -> bool, word: string, s: string, rest: seq<string>)
    requires (forall i | 0 <= i < |word| :: !cut(word[i])) && (s == [] || cut(s[0])) && Spells(cut, s, rest)
    ensures Spells(cut, word + s, (if word == [] then [] else [word]) + rest)
  {
    var t := word + s;
    if word == [] {
      assert t == s && [] + rest == rest;
    } else {
      assert t[0..|word|] == word && t[|word|..] == s && WordAt(cut, t, 0, |word|);
      SpellsNext(cut, t, 0, |word|, rest);
    }
  }

  lemma {:induction false} FieldsSpell(cut: char -> bool, word: string, s: string)
    requires forall i | 0 <= i < |word| :: !cut(word[i])
    ensures Spells(cut, word + s, FieldsFrom(cut, word, s))
    decreases s
  {
    if s == [] {
      SpellsFirst(cut, word, s, []);
    } else if cut(s[0]) {
      var rest := FieldsFrom(cut, [], s[1..]);
      FieldsSpell(cut, [], s[1..]);
      assert [] + s[1..] == s[1..] && s == [s[0]] + s[1..];
      SpellsAfterCut(cut, s[0], s[1..], rest);
      SpellsFirst(cut, word, s, rest);
    } else {
      assert (word + [s[0]]) + s[1..] == word + s;
      FieldsSpell(cut, word + [s[0]], s[1..]);
    }
  }

  lemma OneWord(cut: char -> bool, s: string, n: nat, m: nat, i: nat, j: nat)
    requires WordAt(cut, s, n, m) && WordAt(cut, s, i, j)
    ensures n == i && m == j
  {
    assert !cut(s[n]) && !cut(s[i]);
  }

  lemma WordIn(cut: char -> bool, s: string, words: seq<string>)
    requires Spells(cut, s, words) && words != []
    ensures exists k :: 0 <= k < |s| && !cut(s[k])
  {
    var n: nat, m: nat :| WordAt(cut, s, n, m) && words[0] == s[n..m] && Spells(cut, s[m..], words[1..]);
    assert !cut(s[n]);
  }

  lemma {:induction false} OneSpelling(cut: char -> bool, s: string, a: seq<string>, b: seq<string>)
    requires Spells(cut, s, a) && Spells(cut, s, b)
    ensures a == b
    decreases |a|
  {
    if a == [] || b == [] {
      if a != b {
        WordIn(cut, s, if a == [] then b else a);
      }
    } else {
      var n: nat, m: nat :| WordAt(cut, s, n, m) && a[0] == s[n..m] && Spells(cut, s[m..], a[1..]);
      var i: nat, j: nat :| WordAt(cut, s, i, j) && b[0] == s[i..j] && Spells(cut, s[j..], b[1..]);
      OneWord(cut, s, n, m, i, j);
      OneSpelling(cut, s[m..], a[1..], b[1..]);
      assert a == [a[0]] + a[1..] && b == [b[0]] + b[1..];
    }
  }

  /** The fields of a text are the words it consists of. */
  lemma FieldsIff(cut: char -> bool, s: string, words: seq<string>)
    ensures Spells(cut, s, words) <==> words == FieldsFrom(cut, [], s)
  {
    FieldsSpell(cut, [], s);
    assert [] + s == s;
    if Spells(cut, s, words) {
      OneSpelling(cut, s, words, FieldsFrom(cut, [], s));
    }
  }

  lemma {:induction false} SpelledWords(cut: char -> bool, c: char, s: string, words: seq<string>)
    requires Spells(cut, s, words) && cut(c)
    ensures AllWithout(c, words)
    decreases |words|
  {
    if words != [] {
      var n: nat, m: nat :| WordAt(cut, s, n, m) && words[0] == s[n..m] && Spells(cut, s[m..], words[1..]);
      SpelledWords(cut, c, s[m..], words[1..]);
      assert forall k | 0 < k < |words| :: words[k] == words[1..][k - 1];
    }
  }

  lemma JoinSpelled(cut: char -> bool, c: char, s: string, words: seq<string>)
    requires Spells(cut, s, words) && cut(c)
    ensures AllWithout(c, words) && (Join(words, [c]) == [] <==> words == [])
  {
    SpelledWords(cut, c, s, words);
  }

  /** Two names normalise alike exactly when, lower-cased, they consist of the same words. */
  lemma NormalizedIff(lower: string -> string, a: string, b: string)
    ensures NormalizeName(lower, a) == NormalizeName(lower, b) <==>
            exists words :: Spells(IsSpace, lower(a), words) && Spells(IsSpace, lower(b), words)
  {
    var x, y := FieldsFrom(IsSpace, [], lower(a)), FieldsFrom(IsSpace, [], lower(b));
    FieldsIff(IsSpace, lower(a), x);
    FieldsIff(IsSpace, lower(b), y);
    JoinSpelled(IsSpace, ' ', lower(a), x);
    JoinSpelled(IsSpace, ' ', lower(b), y);
    assert " " == [' '];
    if NormalizeName(lower, a) == NormalizeName(lower, b) && x != [] {
      JoinInjective(' ', x, y);
    }
    if words :| Spells(IsSpace, lower(a), words) && Spells(IsSpace, lower(b), words) {
      FieldsIff(IsSpace, lower(a), words);
      FieldsIff(IsSpace, lower(b), words);
    }
  }
}
