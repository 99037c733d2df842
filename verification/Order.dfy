/** Total orders, the two sorts built on them (a finite set into a sequence, a
    slice in place of Go's sort.Slice / sort.Strings), and byte order on text. */
module Order {

  ghost predicate Total<T(!new)>(le: (T, T) -> bool) {
    forall x, y :: le(x, y) || le(y, x)
  }

  ghost predicate Antisymmetric<T(!new)>(le: (T, T) -> bool) {
    forall x, y :: le(x, y) && le(y, x) ==> x == y
  }

  ghost predicate Transitive<T(!new)>(le: (T, T) -> bool) {
    forall x, y, z :: le(x, y) && le(y, z) ==> le(x, z)
  }

  ghost predicate TotalOrder<T(!new)>(le: (T, T) -> bool) {
    Total(le) && Antisymmetric(le) && Transitive(le)
  }

  ghost predicate SortedBy<T>(le: (T, T) -> bool, xs: seq<T>) {
    forall i, j | 0 <= i < j < |xs| :: le(xs[i], xs[j])
  }

  predicate Distinct<T(==)>(xs: seq<T>) {
    forall i, j | 0 <= i < j < |xs| :: xs[i] != xs[j]
  }

  ghost predicate IsLeast<T>(le: (T, T) -> bool, least: T, s: set<T>) {
    least in s && forall x | x in s :: le(least, x)
  }

  lemma SmallerSet<T>(a: set<T>, b: set<T>)
    requires a <= b
    ensures |a| <= |b| && (|a| == |b| ==> a == b)
  {
    assert b == a + (b - a);
    assert |b| == |a| + |b - a|;
  }

  // ---- a finite set, in order ----

  lemma {:induction false} HasLeast<T(!new)>(le: (T, T) -> bool, s: set<T>)
    requires TotalOrder(le) && s != {}
    ensures exists m :: IsLeast(le, m, s)
  {
    var y :| y in s;
    var rest := s - {y};
    if rest == {} {
      assert s == {y};
      assert IsLeast(le, y, s);
    } else {
      HasLeast(le, rest);
      var m :| IsLeast(le, m, rest);
      var l := if le(m, y) then m else y;
      forall x | x in s ensures le(l, x) {
        if x != y {
          assert x in rest && le(m, x);
        }
      }
      assert IsLeast(le, l, s);
    }
  }

  function Least<T(!new, ==)>(le: (T, T) -> bool, s: set<T>): (m: T)
    requires TotalOrder(le) && s != {}
    ensures m in s && forall x | x in s :: le(m, x)
  {
    HasLeast(le, s);
    var m :| m in s && forall x | x in s :: le(m, x);
    m
  }

  /** The elements of a set in ascending order: what ORDER BY returns. */
  function SortSet<T(!new, ==)>(le: (T, T) -> bool, s: set<T>): seq<T>
    requires TotalOrder(le)
    decreases |s|
  {
    if s == {} then [] else
      var m := Least(le, s);
      [m] + SortSet(le, s - {m})
  }

  lemma {:induction false} SortSetHolds<T(!new)>(le: (T, T) -> bool, s: set<T>)
    requires TotalOrder(le)
    ensures multiset(SortSet(le, s)) == multiset(s) && |SortSet(le, s)| == |s|
    ensures forall x :: x in SortSet(le, s) <==> x in s
    decreases |s|
  {
    if s != {} {
      var m := Least(le, s);
      SortSetHolds(le, s - {m});
      assert multiset(s) == multiset{m} + multiset(s - {m});
    }
  }

  lemma {:induction false} SortSetSorts<T(!new)>(le: (T, T) -> bool, s: set<T>)
    requires TotalOrder(le)
    ensures multiset(SortSet(le, s)) == multiset(s)
    ensures SortedBy(le, SortSet(le, s)) && Distinct(SortSet(le, s)) && |SortSet(le, s)| == |s|
    ensures forall x :: x in SortSet(le, s) <==> x in s
    decreases |s|
  {
    SortSetHolds(le, s);
    if s != {} {
      var m := Least(le, s);
      var rest := SortSet(le, s - {m});
      SortSetSorts(le, s - {m});
      var r := SortSet(le, s);
      forall i, j | 0 <= i < j < |r| ensures le(r[i], r[j]) && r[i] != r[j] {
        assert r[j] == rest[j - 1] && rest[j - 1] in s - {m};
      }
    }
  }

  // ---- sorting a slice ----

  function InsertSorted<T(!new)>(le: (T, T) -> bool, x: T, xs: seq<T>): seq<T> {
    if xs == [] || le(x, xs[0]) then [x] + xs else [xs[0]] + InsertSorted(le, x, xs[1..])
  }

  /** Stands for the library sorts: the sorted rearrangement of xs. */
  function SortSlice<T(!new)>(le: (T, T) -> bool, xs: seq<T>): seq<T> {
    if xs == [] then [] else InsertSorted(le, xs[0], SortSlice(le, xs[1..]))
  }

  lemma {:induction false} InsertSortedAdds<T(!new)>(le: (T, T) -> bool, x: T, xs: seq<T>)
    ensures multiset(InsertSorted(le, x, xs)) == multiset{x} + multiset(xs)
    ensures forall y :: y in InsertSorted(le, x, xs) <==> y == x || y in xs
  {
    if xs == [] || le(x, xs[0]) {
    } else {
      assert xs == [xs[0]] + xs[1..];
      InsertSortedAdds(le, x, xs[1..]);
    }
  }

  lemma {:induction false} InsertSortedSorts<T(!new)>(le: (T, T) -> bool, x: T, xs: seq<T>)
    requires TotalOrder(le) && SortedBy(le, xs)
    ensures SortedBy(le, InsertSorted(le, x, xs))
  {
    var r := InsertSorted(le, x, xs);
    if xs == [] || le(x, xs[0]) {
      forall i, j | 0 <= i < j < |r| ensures le(r[i], r[j]) {
        if i == 0 && j > 1 {
          assert le(xs[0], xs[j - 1]);
        }
      }
    } else {
      var tail := InsertSorted(le, x, xs[1..]);
      InsertSortedSorts(le, x, xs[1..]);
      InsertSortedAdds(le, x, xs[1..]);
      forall i, j | 0 <= i < j < |r| ensures le(r[i], r[j]) {
        assert r[j] == tail[j - 1];
        if i == 0 {
          assert tail[j - 1] in tail;
        }
      }
    }
  }

  lemma {:induction false} SortSliceSorts<T(!new)>(le: (T, T) -> bool, xs: seq<T>)
    requires TotalOrder(le)
    ensures SortedBy(le, SortSlice(le, xs)) && multiset(SortSlice(le, xs)) == multiset(xs)
  {
    if xs != [] {
      SortSliceSorts(le, xs[1..]);
      InsertSortedSorts(le, xs[0], SortSlice(le, xs[1..]));
      InsertSortedAdds(le, xs[0], SortSlice(le, xs[1..]));
      assert xs == [xs[0]] + xs[1..];
    }
  }

  lemma TailMultiset<T>(xs: seq<T>)
    requires xs != []
    ensures multiset(xs[1..]) == multiset(xs) - multiset{xs[0]}
  {
    assert xs == [xs[0]] + xs[1..];
  }

  lemma SameHead<T(!new)>(le: (T, T) -> bool, xs: seq<T>, ys: seq<T>)
    requires TotalOrder(le) && SortedBy(le, xs) && SortedBy(le, ys)
    requires xs != [] && ys != [] && multiset(xs) == multiset(ys)
    ensures xs[0] == ys[0]
  {
    assert xs[0] in multiset(ys) && ys[0] in multiset(xs);
    var i :| 0 <= i < |ys| && ys[i] == xs[0];
    var j :| 0 <= j < |xs| && xs[j] == ys[0];
    assert le(ys[0], xs[0]) && le(xs[0], ys[0]) by {
      assert Total(le);
      assert le(xs[0], xs[0]) && le(ys[0], ys[0]);
    }
  }

  /** A multiset has one sorted arrangement. */
  lemma {:induction false} SortedUnique<T(!new)>(le: (T, T) -> bool, xs: seq<T>, ys: seq<T>)
    requires TotalOrder(le) && SortedBy(le, xs) && SortedBy(le, ys)
    requires multiset(xs) == multiset(ys)
    ensures xs == ys
  {
    if xs == [] {
      assert |multiset(ys)| == 0;
    } else {
      assert |multiset(xs)| == |xs| && |multiset(ys)| == |ys|;
      SameHead(le, xs, ys);
      TailMultiset(xs);
      TailMultiset(ys);
      SortedUnique(le, xs[1..], ys[1..]);
      assert xs == [xs[0]] + xs[1..] && ys == [ys[0]] + ys[1..];
    }
  }

  // ---- byte order on text ----

  predicate TextLe(a: string, b: string) {
    a == [] || (b != [] && (a[0] < b[0] || (a[0] == b[0] && TextLe(a[1..], b[1..]))))
  }

  lemma {:induction false} TextLeTotal(a: string, b: string)
    ensures TextLe(a, b) || TextLe(b, a)
    ensures TextLe(a, b) && TextLe(b, a) ==> a == b
  {
    if a != [] && b != [] && a[0] == b[0] {
      TextLeTotal(a[1..], b[1..]);
      assert a == [a[0]] + a[1..] && b == [b[0]] + b[1..];
    }
  }

  /** The texts agree up to n, where the first has the smaller character. */
  predicate SmallerAt(a: string, b: string, n: nat) {
    n < |a| && n < |b| && a[..n] == b[..n] && a[n] < b[n]
  }

  lemma SmallerLater(c: char, a: string, b: string, n: nat)
    ensures SmallerAt([c] + a, [c] + b, n + 1) <==> SmallerAt(a, b, n)
  {
    if n <= |a| && n <= |b| {
      assert ([c] + a)[..n + 1] == [c] + a[..n] && ([c] + b)[..n + 1] == [c] + b[..n];
      assert ([c] + a)[..n + 1][1..] == a[..n] && ([c] + b)[..n + 1][1..] == b[..n];
    }
  }

  /** The first text starts the second, or is smaller at the first character where they differ. */
  lemma {:induction false} TextLeIff(a: string, b: string)
    ensures TextLe(a, b) <==> a <= b || exists n: nat :: SmallerAt(a, b, n)
  {
    if a != [] && b != [] && a[0] == b[0] {
      var x, y := a[1..], b[1..];
      TextLeIff(x, y);
      assert a == [a[0]] + x && b == [a[0]] + y;
      if n: nat :| SmallerAt(x, y, n) {
        SmallerLater(a[0], x, y, n);
      }
      if n: nat :| SmallerAt(a, b, n) {
        SmallerLater(a[0], x, y, n - 1);
      }
    } else if a != [] && b != [] && a[0] < b[0] {
      assert SmallerAt(a, b, 0);
    }
  }

  lemma {:induction false} TextLeTransitive(a: string, b: string, c: string)
    requires TextLe(a, b) && TextLe(b, c)
    ensures TextLe(a, c)
  {
    if a != [] && b != [] && c != [] && a[0] == b[0] == c[0] {
      TextLeTransitive(a[1..], b[1..], c[1..]);
    }
  }

  lemma TextOrder()
    ensures TotalOrder(TextLe)
  {
    forall a, b ensures TextLe(a, b) || TextLe(b, a) {
      TextLeTotal(a, b);
    }
    forall a, b | TextLe(a, b) && TextLe(b, a) ensures a == b {
      TextLeTotal(a, b);
    }
    forall a, b, c | TextLe(a, b) && TextLe(b, c) ensures TextLe(a, c) {
      TextLeTransitive(a, b, c);
    }
  }
}
