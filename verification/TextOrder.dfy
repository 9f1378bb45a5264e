// Text ordering and the stable sort the compilers rely on.  Python compares
// strings by code point, and `sorted` keeps the original order of equal keys.
module TextOrder {

  predicate Leq(a: string, b: string) {
    |a| == 0 || (|b| > 0 && (a[0] < b[0] || (a[0] == b[0] && Leq(a[1..], b[1..]))))
  }

  lemma {:induction false} LeqTotal(a: string, b: string)
    ensures Leq(a, b) || Leq(b, a)
  {
    if |a| > 0 && |b| > 0 && a[0] == b[0] {
      LeqTotal(a[1..], b[1..]);
    }
  }

  lemma {:induction false} LeqAntisymmetric(a: string, b: string)
    requires Leq(a, b) && Leq(b, a)
    ensures a == b
  {
    if |a| > 0 {
      LeqAntisymmetric(a[1..], b[1..]);
      assert a == [a[0]] + a[1..] && b == [b[0]] + b[1..];
    }
  }

  lemma {:induction false} LeqTransitive(a: string, b: string, c: string)
    requires Leq(a, b) && Leq(b, c)
    ensures Leq(a, c)
  {
    if |a| > 0 && a[0] == b[0] && b[0] == c[0] {
      LeqTransitive(a[1..], b[1..], c[1..]);
    }
  }

  // By code points: a prefix comes first, else the first difference decides.
  lemma {:induction false} LeqMeaning(a: string, b: string)
    ensures Leq(a, b) <==> a <= b || exists k :: FirstDifference(a, b, k) && a[k] < b[k]
  {
    if |a| > 0 && |b| > 0 && a[0] == b[0] {
      LeqMeaning(a[1..], b[1..]);
      assert a == [a[0]] + a[1..] && b == [b[0]] + b[1..];
      forall k ensures FirstDifference(a[1..], b[1..], k) <==> FirstDifference(a, b, k + 1) {
        DifferenceBehind(a, b, k);
      }
      if k :| FirstDifference(a, b, k) && a[k] < b[k] {
        assert FirstDifference(a[1..], b[1..], k - 1);
      }
    } else if |a| > 0 && |b| > 0 {
      assert FirstDifference(a, b, 0);
    }
  }

  predicate FirstDifference(a: string, b: string, k: int) {
    0 <= k < |a| && k < |b| && a[k] != b[k] && a[..k] == b[..k]
  }

  lemma DifferenceBehind(a: string, b: string, k: int)
    requires |a| > 0 && |b| > 0 && a[0] == b[0]
    ensures FirstDifference(a[1..], b[1..], k) <==> k >= 0 && FirstDifference(a, b, k + 1)
  {
    if 0 <= k < |a| - 1 && k < |b| - 1 {
      assert a[..k + 1] == [a[0]] + a[1..][..k] && b[..k + 1] == [b[0]] + b[1..][..k];
      assert a[..k + 1][1..] == a[1..][..k] && b[..k + 1][1..] == b[1..][..k];
    }
  }

  // ----- the stable sort -----

  function Itself(s: string): string { s }

  function Insert<T>(key: T -> string, x: T, s: seq<T>): seq<T> {
    if s == [] || Leq(key(x), key(s[0])) then [x] + s else [s[0]] + Insert(key, x, s[1..])
  }

  function SortBy<T>(key: T -> string, s: seq<T>): seq<T> {
    if s == [] then [] else Insert(key, s[0], SortBy(key, s[1..]))
  }

  // The entries with one given key, in order.
  function Keyed<T>(key: T -> string, k: string, s: seq<T>): seq<T> {
    if s == [] then [] else (if key(s[0]) == k then [s[0]] else []) + Keyed(key, k, s[1..])
  }

  ghost predicate Ascending<T>(key: T -> string, s: seq<T>) {
    forall i, j :: 0 <= i < j < |s| ==> Leq(key(s[i]), key(s[j]))
  }

  lemma {:induction false} InsertAscends<T>(key: T -> string, x: T, s: seq<T>)
    requires Ascending(key, s)
    ensures Ascending(key, Insert(key, x, s))
    ensures multiset(Insert(key, x, s)) == multiset{x} + multiset(s)
  {
    if s == [] {
    } else if Leq(key(x), key(s[0])) {
      forall j | 0 <= j < |s| ensures Leq(key(x), key(s[j])) {
        if j > 0 { LeqTransitive(key(x), key(s[0]), key(s[j])); }
      }
    } else {
      LeqTotal(key(x), key(s[0]));
      var rest := Insert(key, x, s[1..]);
      InsertAscends(key, x, s[1..]);
      assert s == [s[0]] + s[1..];
      forall j | 0 <= j < |rest| ensures Leq(key(s[0]), key(rest[j])) {
        assert rest[j] in multiset(rest);
        assert rest[j] in multiset{x} + multiset(s[1..]);
        if rest[j] != x {
          assert rest[j] in s[1..];
        }
      }
    }
  }

  lemma {:induction false} SortAscends<T>(key: T -> string, s: seq<T>)
    ensures Ascending(key, SortBy(key, s))
    ensures multiset(SortBy(key, s)) == multiset(s)
  {
    if s != [] {
      SortAscends(key, s[1..]);
      InsertAscends(key, s[0], SortBy(key, s[1..]));
      assert s == [s[0]] + s[1..];
    }
  }

  lemma {:induction false} InsertKeepsOrder<T>(key: T -> string, x: T, s: seq<T>, k: string)
    ensures Keyed(key, k, Insert(key, x, s)) == (if key(x) == k then [x] else []) + Keyed(key, k, s)
  {
    if s == [] || Leq(key(x), key(s[0])) {
      assert ([x] + s)[1..] == s;
    } else {
      InsertKeepsOrder(key, x, s[1..], k);
      assert Insert(key, x, s)[1..] == Insert(key, x, s[1..]);
      if key(x) == key(s[0]) { LeqTotal(key(x), key(s[0])); }
    }
  }

  // The sort is stable: the entries with equal keys keep their order.
  lemma {:induction false} SortIsStable<T>(key: T -> string, s: seq<T>, k: string)
    ensures Keyed(key, k, SortBy(key, s)) == Keyed(key, k, s)
  {
    if s != [] {
      SortIsStable(key, s[1..], k);
      InsertKeepsOrder(key, s[0], SortBy(key, s[1..]), k);
    }
  }

  lemma {:induction false} KeyedMember<T>(key: T -> string, k: string, s: seq<T>, x: T)
    ensures x in Keyed(key, k, s) <==> x in s && key(x) == k
  {
    if s != [] {
      KeyedMember(key, k, s[1..], x);
      assert s == [s[0]] + s[1..];
    }
  }

  // An ascending list is determined by its per-key sublists.
  lemma {:induction false} AscendingUnique<T>(key: T -> string, a: seq<T>, b: seq<T>)
    requires Ascending(key, a) && Ascending(key, b)
    requires forall k :: Keyed(key, k, a) == Keyed(key, k, b)
    ensures a == b
  {
    if a == [] {
    } else {
      var k := key(a[0]);
      KeyedMember(key, k, a, a[0]);
      KeyedMember(key, k, b, a[0]);
      assert Keyed(key, k, a) == Keyed(key, k, b);
      KeyedMember(key, key(b[0]), b, b[0]);
      assert Keyed(key, key(b[0]), a) == Keyed(key, key(b[0]), b);
      KeyedMember(key, key(b[0]), a, b[0]);
      HeadIsLeast(key, a, b[0]);
      HeadIsLeast(key, b, a[0]);
      LeqAntisymmetric(key(a[0]), key(b[0]));
      assert a[0] == Keyed(key, k, a)[0] == Keyed(key, k, b)[0] == b[0];
      forall q ensures Keyed(key, q, a[1..]) == Keyed(key, q, b[1..]) {
        assert Keyed(key, q, a) == Keyed(key, q, b);
        var head := if key(a[0]) == q then [a[0]] else [];
        assert Keyed(key, q, a)[|head|..] == Keyed(key, q, a[1..]);
        assert Keyed(key, q, b)[|head|..] == Keyed(key, q, b[1..]);
      }
      AscendingUnique(key, a[1..], b[1..]);
      assert a == [a[0]] + a[1..] && b == [b[0]] + b[1..];
    }
  }

  lemma HeadIsLeast<T>(key: T -> string, s: seq<T>, x: T)
    requires Ascending(key, s) && x in s
    ensures Leq(key(s[0]), key(x))
  {
    LeqTotal(key(x), key(x));
  }

  // Two lists that agree key by key sort to the same list, whatever the order
  // in which different keys arrived.
  lemma SortIgnoresArrivalOrder<T>(key: T -> string, a: seq<T>, b: seq<T>)
    requires forall k :: Keyed(key, k, a) == Keyed(key, k, b)
    ensures SortBy(key, a) == SortBy(key, b)
  {
    SortAscends(key, a);
    SortAscends(key, b);
    forall k ensures Keyed(key, k, SortBy(key, a)) == Keyed(key, k, SortBy(key, b)) {
      SortIsStable(key, a, k);
      SortIsStable(key, b, k);
      assert Keyed(key, k, a) == Keyed(key, k, b);
    }
    AscendingUnique(key, SortBy(key, a), SortBy(key, b));
  }

  // ----- lists without repeated keys, and counting -----

  ghost predicate DistinctKeys<T>(key: T -> string, s: seq<T>) {
    forall i, j :: 0 <= i < j < |s| ==> key(s[i]) != key(s[j])
  }

  lemma {:induction false} KeyedOfDistinct<T>(key: T -> string, k: string, s: seq<T>, i: nat)
    requires DistinctKeys(key, s) && i < |s| && key(s[i]) == k
    ensures Keyed(key, k, s) == [s[i]]
  {
    if i == 0 {
      if Keyed(key, k, s[1..]) != [] {
        var x := Keyed(key, k, s[1..])[0];
        KeyedMember(key, k, s[1..], x);
      }
    } else {
      KeyedOfDistinct(key, k, s[1..], i - 1);
    }
  }

  lemma KeyedSameMembers<T>(key: T -> string, k: string, a: seq<T>, b: seq<T>)
    requires DistinctKeys(key, a) && DistinctKeys(key, b)
    requires forall x :: x in a <==> x in b
    ensures Keyed(key, k, a) == Keyed(key, k, b)
  {
    if i :| 0 <= i < |a| && key(a[i]) == k {
      assert a[i] in b;
      var j :| 0 <= j < |b| && b[j] == a[i];
      KeyedOfDistinct(key, k, a, i);
      KeyedOfDistinct(key, k, b, j);
    } else {
      if Keyed(key, k, a) != [] { KeyedMember(key, k, a, Keyed(key, k, a)[0]); }
      if Keyed(key, k, b) != [] { KeyedMember(key, k, b, Keyed(key, k, b)[0]); }
    }
  }

  lemma {:induction false} KeyedConcat<T>(key: T -> string, k: string, a: seq<T>, b: seq<T>)
    ensures Keyed(key, k, a + b) == Keyed(key, k, a) + Keyed(key, k, b)
  {
    if a == [] {
      assert a + b == b;
    } else {
      var head := if key(a[0]) == k then [a[0]] else [];
      KeyedConcat(key, k, a[1..], b);
      assert (a + b)[1..] == a[1..] + b;
      assert Keyed(key, k, a + b) == head + Keyed(key, k, a[1..] + b);
      assert head + (Keyed(key, k, a[1..]) + Keyed(key, k, b)) == head + Keyed(key, k, a[1..]) + Keyed(key, k, b);
    }
  }

  lemma {:induction false} RepeatedKeyShows<T>(key: T -> string, s: seq<T>, i: nat, j: nat)
    requires i < j < |s| && key(s[i]) == key(s[j])
    ensures |Keyed(key, key(s[i]), s)| >= 2
  {
    if i == 0 {
      KeyedMember(key, key(s[j]), s[1..], s[1..][j - 1]);
    } else {
      RepeatedKeyShows(key, s[1..], i - 1, j - 1);
    }
  }

  lemma KeyedTellsDistinct<T>(key: T -> string, r: seq<T>, s: seq<T>)
    requires DistinctKeys(key, s) && forall k :: Keyed(key, k, r) == Keyed(key, k, s)
    ensures DistinctKeys(key, r)
  {
    forall i, j | 0 <= i < j < |r| ensures key(r[i]) != key(r[j]) {
      if key(r[i]) == key(r[j]) {
        var k := key(r[i]);
        RepeatedKeyShows(key, r, i, j);
        KeyedMember(key, k, s, Keyed(key, k, s)[0]);
        var n :| 0 <= n < |s| && s[n] == Keyed(key, k, s)[0];
        KeyedOfDistinct(key, k, s, n);
      }
    }
  }

  lemma SortKeepsDistinct<T>(key: T -> string, s: seq<T>)
    ensures DistinctKeys(key, SortBy(key, s)) <==> DistinctKeys(key, s)
  {
    forall k ensures Keyed(key, k, SortBy(key, s)) == Keyed(key, k, s) { SortIsStable(key, s, k); }
    if DistinctKeys(key, s) {
      KeyedTellsDistinct(key, SortBy(key, s), s);
    } else if DistinctKeys(key, SortBy(key, s)) {
      KeyedTellsDistinct(key, s, SortBy(key, s));
    }
  }

  function Count<T>(p: T -> bool, s: seq<T>): nat {
    if s == [] then 0 else (if p(s[0]) then 1 else 0) + Count(p, s[1..])
  }

  lemma {:induction false} CountConcat<T>(p: T -> bool, a: seq<T>, b: seq<T>)
    ensures Count(p, a + b) == Count(p, a) + Count(p, b)
  {
    if a == [] {
      assert a + b == b;
    } else {
      CountConcat(p, a[1..], b);
      assert (a + b)[1..] == a[1..] + b;
    }
  }

  lemma {:induction false} InsertCounts<T>(key: T -> string, x: T, s: seq<T>, p: T -> bool)
    ensures Count(p, Insert(key, x, s)) == (if p(x) then 1 else 0) + Count(p, s)
  {
    if s == [] || Leq(key(x), key(s[0])) {
      assert ([x] + s)[1..] == s;
    } else {
      InsertCounts(key, x, s[1..], p);
      assert Insert(key, x, s)[1..] == Insert(key, x, s[1..]);
    }
  }

  // The sort neither loses nor duplicates entries of any description.
  lemma {:induction false} SortKeepsCount<T>(key: T -> string, s: seq<T>, p: T -> bool)
    ensures Count(p, SortBy(key, s)) == Count(p, s)
  {
    if s != [] {
      SortKeepsCount(key, s[1..], p);
      InsertCounts(key, s[0], SortBy(key, s[1..]), p);
    }
  }

  lemma SortKeepsMembers<T>(key: T -> string, s: seq<T>, x: T)
    ensures x in SortBy(key, s) <==> x in s
  {
    SortAscends(key, s);
    assert x in multiset(SortBy(key, s)) <==> x in multiset(s);
  }

  // ----- sorted(set) -----

  predicate IsLeast(s: set<string>, x: string) {
    x in s && forall y :: y in s ==> Leq(x, y)
  }

  lemma LeastGrows(s: set<string>, z: string, x: string)
    requires z in s && IsLeast(s - {z}, x)
    ensures IsLeast(s, if Leq(z, x) then z else x)
  {
    LeqTotal(z, z);
    LeqTotal(x, z);
    forall y | y in s && Leq(z, x) ensures Leq(z, y) {
      if y != z { LeqTransitive(z, x, y); }
    }
  }

  lemma {:induction false} LeastExists(s: set<string>) returns (x: string)
    requires s != {}
    ensures IsLeast(s, x)
    decreases |s|
  {
    x :| x in s;
    LeqTotal(x, x);
    if s != {x} {
      var rest := s - {x};
      assert rest != {};
      var y := LeastExists(rest);
      LeastGrows(s, x, y);
      x := if Leq(x, y) then x else y;
    }
  }

  lemma LeastUnique(s: set<string>)
    requires s != {}
    ensures exists x :: IsLeast(s, x)
    ensures forall a, b :: IsLeast(s, a) && IsLeast(s, b) ==> a == b
  {
    var _ := LeastExists(s);
    forall a, b | IsLeast(s, a) && IsLeast(s, b) ensures a == b { LeqAntisymmetric(a, b); }
  }

  function Least(s: set<string>): (x: string)
    requires s != {}
    ensures IsLeast(s, x)
  {
    LeastUnique(s);
    var x :| x in s && IsLeast(s, x);
    x
  }

  function SortedSet(s: set<string>): (r: seq<string>)
    ensures forall x :: x in r <==> x in s
    decreases |s|
  {
    if s == {} then []
    else
      var x := Least(s);
      [x] + SortedSet(s - {x})
  }

  lemma {:induction false} SortedSetAscends(s: set<string>)
    ensures Ascending(Itself, SortedSet(s))
    ensures |SortedSet(s)| == |s|
    decreases |s|
  {
    if s != {} {
      SortedSetAscends(s - {Least(s)});
    }
  }

  lemma {:induction false} SortedSetDistinct(s: set<string>)
    ensures forall i, j :: 0 <= i < j < |SortedSet(s)| ==> SortedSet(s)[i] != SortedSet(s)[j]
    decreases |s|
  {
    if s != {} {
      var x := Least(s);
      SortedSetDistinct(s - {x});
      assert SortedSet(s) == [x] + SortedSet(s - {x});
      assert x !in SortedSet(s - {x});
    }
  }

  // The same as a list without repetition.
  method SortedList(s: set<string>) returns (r: seq<string>)
    ensures forall x :: x in r <==> x in s
    ensures Ascending(Itself, r) && |r| == |s|
  {
    r := SortedSet(s);
    SortedSetAscends(s);
  }
}
