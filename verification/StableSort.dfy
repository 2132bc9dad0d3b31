/**
 The stable sort behind `sort_by_key` and behind SQL `ORDER BY`, together with
 the fact that pins it down: the stable sort of a sequence is the only
 sequence that is ordered by key and keeps, for every key, the elements with
 that key in their original order.
 */
module StableSort {

  ghost predicate SortedBy<T>(key: T -> int, s: seq<T>) {
    forall i, j :: 0 <= i < j < |s| ==> key(s[i]) <= key(s[j])
  }

  /** The elements of `s` whose key is `k`, in order. */
  function WithKey<T>(key: T -> int, k: int, s: seq<T>): seq<T> {
    if s == [] then []
    else if key(s[0]) == k then [s[0]] + WithKey(key, k, s[1..])
    else WithKey(key, k, s[1..])
  }

  function Insert<T>(key: T -> int, x: T, s: seq<T>): seq<T> {
    if s == [] || key(x) <= key(s[0]) then [x] + s
    else [s[0]] + Insert(key, x, s[1..])
  }

  function Sort<T>(key: T -> int, s: seq<T>): seq<T> {
    if s == [] then [] else Insert(key, s[0], Sort(key, s[1..]))
  }

  lemma {:induction false} InsertElements<T>(key: T -> int, x: T, s: seq<T>)
    ensures multiset(Insert(key, x, s)) == multiset([x]) + multiset(s)
    ensures forall y :: y in Insert(key, x, s) ==> y == x || y in s
  {
    if s == [] || key(x) <= key(s[0]) {
    } else {
      InsertElements(key, x, s[1..]);
      assert s == [s[0]] + s[1..];
    }
  }

  lemma {:induction false} InsertSorted<T>(key: T -> int, x: T, s: seq<T>)
    requires SortedBy(key, s)
    ensures SortedBy(key, Insert(key, x, s))
  {
    if s == [] || key(x) <= key(s[0]) {
    } else {
      var r := Insert(key, x, s[1..]);
      InsertSorted(key, x, s[1..]);
      InsertElements(key, x, s[1..]);
      forall y | y in r ensures key(s[0]) <= key(y) {
        if y != x { var i :| 0 <= i < |s[1..]| && s[1..][i] == y; }
      }
      SortedCons(key, s[0], r);
    }
  }

  lemma SortedCons<T>(key: T -> int, x: T, r: seq<T>)
    requires SortedBy(key, r) && forall y :: y in r ==> key(x) <= key(y)
    ensures SortedBy(key, [x] + r)
  {
    var s := [x] + r;
    forall i, j | 0 <= i < j < |s| ensures key(s[i]) <= key(s[j]) {
      if i == 0 { assert s[j] == r[j - 1] && r[j - 1] in r; }
    }
  }

  /** Insertion puts `x` in front of the elements with its own key and leaves every other class alone. */
  lemma {:induction false} InsertClass<T>(key: T -> int, x: T, s: seq<T>, k: int)
    ensures WithKey(key, k, Insert(key, x, s)) == if key(x) == k then [x] + WithKey(key, k, s) else WithKey(key, k, s)
  {
    if s == [] || key(x) <= key(s[0]) {
      WithKeyHead(key, k, x, s);
    } else {
      var r := Insert(key, x, s[1..]);
      InsertClass(key, x, s[1..], k);
      assert Insert(key, x, s) == [s[0]] + r;
      WithKeyHead(key, k, s[0], r);
    }
  }

  lemma WithKeyHead<T>(key: T -> int, k: int, x: T, s: seq<T>)
    ensures WithKey(key, k, [x] + s) == if key(x) == k then [x] + WithKey(key, k, s) else WithKey(key, k, s)
  {
    assert ([x] + s)[1..] == s;
  }

  /** Sorting orders by key, loses and invents nothing, and is stable. */
  lemma {:induction false} SortIsStable<T>(key: T -> int, s: seq<T>, k: int)
    ensures SortedBy(key, Sort(key, s))
    ensures multiset(Sort(key, s)) == multiset(s)
    ensures WithKey(key, k, Sort(key, s)) == WithKey(key, k, s)
  {
    if s != [] {
      SortIsStable(key, s[1..], k);
      InsertElements(key, s[0], Sort(key, s[1..]));
      InsertSorted(key, s[0], Sort(key, s[1..]));
      InsertClass(key, s[0], Sort(key, s[1..]), k);
      assert s == [s[0]] + s[1..];
    }
  }

  lemma {:induction false} SortMembers<T>(key: T -> int, s: seq<T>, x: T)
    ensures |Sort(key, s)| == |s|
    ensures x in Sort(key, s) <==> x in s
  {
    SortIsStable(key, s, 0);
    assert |multiset(Sort(key, s))| == |Sort(key, s)| && |multiset(s)| == |s|;
    assert x in multiset(Sort(key, s)) <==> x in multiset(s);
  }

  lemma {:induction false} WithKeyMember<T>(key: T -> int, s: seq<T>, x: T)
    requires x in s
    ensures x in WithKey(key, key(x), s)
  {
    if s[0] != x { WithKeyMember(key, s[1..], x); }
  }

  lemma {:induction false} WithKeySound<T>(key: T -> int, k: int, s: seq<T>)
    ensures forall x :: x in WithKey(key, k, s) ==> x in s && key(x) == k
  {
    if s != [] { WithKeySound(key, k, s[1..]); }
  }

  lemma HeadIsLeast<T>(key: T -> int, r: seq<T>, q: seq<T>)
    requires r != [] && SortedBy(key, q)
    requires forall k :: WithKey(key, k, r) == WithKey(key, k, q)
    ensures q != [] && key(q[0]) <= key(r[0])
  {
    WithKeyMember(key, r, r[0]);
    assert r[0] in WithKey(key, key(r[0]), q);
    WithKeySound(key, key(r[0]), q);
    var i :| 0 <= i < |q| && q[i] == r[0];
    if i > 0 { assert key(q[0]) <= key(q[i]); }
  }

  /** Two ordered sequences with the same elements per key, in the same order, are equal. */
  lemma {:induction false} OrderedByClassesUnique<T>(key: T -> int, r: seq<T>, q: seq<T>)
    requires SortedBy(key, r) && SortedBy(key, q)
    requires forall k :: WithKey(key, k, r) == WithKey(key, k, q)
    ensures r == q
  {
    if r == [] {
      if q != [] { HeadIsLeast(key, q, r); }
    } else {
      HeadIsLeast(key, r, q);
      HeadIsLeast(key, q, r);
      var k0 := key(r[0]);
      assert WithKey(key, k0, r)[0] == r[0] && WithKey(key, k0, q)[0] == q[0];
      forall k ensures WithKey(key, k, r[1..]) == WithKey(key, k, q[1..]) {
        assert WithKey(key, k, r) == WithKey(key, k, q);
        assert k == k0 ==> WithKey(key, k, r[1..]) == WithKey(key, k, r)[1..];
        assert k == k0 ==> WithKey(key, k, q[1..]) == WithKey(key, k, q)[1..];
      }
      OrderedByClassesUnique(key, r[1..], q[1..]);
      assert r == [r[0]] + r[1..] && q == [q[0]] + q[1..];
    }
  }

  /** The independent definition: ordered by key, and every key's elements in their original order. */
  ghost predicate IsStableSort<T(!new)>(key: T -> int, s: seq<T>, r: seq<T>) {
    SortedBy(key, r) && forall k :: WithKey(key, k, r) == WithKey(key, k, s)
  }

  /** That definition has exactly one solution, and `Sort` computes it. */
  lemma StableSortUnique<T(!new)>(key: T -> int, s: seq<T>, r: seq<T>)
    ensures IsStableSort(key, s, r) <==> r == Sort(key, s)
  {
    forall k ensures WithKey(key, k, Sort(key, s)) == WithKey(key, k, s) { SortIsStable(key, s, k); }
    SortIsStable(key, s, 0);
    assert IsStableSort(key, s, Sort(key, s));
    if IsStableSort(key, s, r) {
      OrderedByClassesUnique(key, r, Sort(key, s));
    }
  }

  ghost predicate Distinct<T>(s: seq<T>) {
    forall i, j :: 0 <= i < j < |s| ==> s[i] != s[j]
  }

  lemma {:induction false} InsertDistinct<T>(key: T -> int, x: T, s: seq<T>)
    requires x !in s && Distinct(s)
    ensures forall y :: y in Insert(key, x, s) <==> y == x || y in s
    ensures Distinct(Insert(key, x, s))
  {
    if s != [] && key(x) > key(s[0]) {
      var rest := Insert(key, x, s[1..]);
      assert s == [s[0]] + s[1..];
      assert forall i :: 0 <= i < |s[1..]| ==> s[1..][i] == s[i + 1];
      InsertDistinct(key, x, s[1..]);
      assert s[0] !in rest;
      assert forall i :: 0 <= i < |rest| ==> rest[i] in rest;
      assert Insert(key, x, s) == [s[0]] + rest;
    } else {
      assert Insert(key, x, s) == [x] + s;
      assert forall i :: 0 <= i < |s| ==> s[i] in s;
    }
  }

  /** Sorting distinct elements keeps them, and keeps them distinct. */
  lemma {:induction false} SortDistinct<T>(key: T -> int, s: seq<T>)
    requires Distinct(s)
    ensures |Sort(key, s)| == |s| && (forall y :: y in Sort(key, s) <==> y in s) && Distinct(Sort(key, s))
  {
    if s != [] {
      assert s == [s[0]] + s[1..] && s[0] !in s[1..];
      SortDistinct(key, s[1..]);
      InsertDistinct(key, s[0], Sort(key, s[1..]));
      SortMembers(key, s, s[0]);
    }
  }

  // ----- Sorting what is left -----

  function Without<T(==)>(s: seq<T>, gone: set<T>): seq<T> {
    if s == [] then []
    else (if s[0] in gone then [] else [s[0]]) + Without(s[1..], gone)
  }

  lemma {:induction false} WithKeyWithout<T>(key: T -> int, k: int, s: seq<T>, gone: set<T>)
    ensures WithKey(key, k, Without(s, gone)) == Without(WithKey(key, k, s), gone)
  {
    if s != [] {
      WithKeyWithout(key, k, s[1..], gone);
      var rest := Without(s[1..], gone);
      if s[0] in gone {
        assert Without(s, gone) == rest;
      } else {
        assert Without(s, gone) == [s[0]] + rest;
        WithKeyHead(key, k, s[0], rest);
      }
      if key(s[0]) == k {
        var all := WithKey(key, k, s);
        assert all == [s[0]] + WithKey(key, k, s[1..]) && all[1..] == WithKey(key, k, s[1..]);
        assert s[0] in gone ==> Without(all, gone) == Without(all[1..], gone);
      }
    }
  }

  lemma {:induction false} WithoutPrefix<T>(s: seq<T>, n: nat, gone: set<T>)
    requires Distinct(s) && n <= |s| && forall x :: x in gone <==> x in s[..n]
    ensures Without(s, gone) == s[n..]
  {
    WithoutNone(s[n..], gone) by {
      forall i | 0 <= i < |s[n..]| ensures s[n..][i] !in gone {
        assert s[n..][i] == s[n + i];
      }
    }
    WithoutAll(s[..n], gone);
    WithoutConcat(s[..n], s[n..], gone);
    assert s == s[..n] + s[n..];
  }

  lemma {:induction false} WithoutConcat<T>(a: seq<T>, b: seq<T>, gone: set<T>)
    ensures Without(a + b, gone) == Without(a, gone) + Without(b, gone)
  {
    if a == [] {
      assert a + b == b;
    } else {
      WithoutConcat(a[1..], b, gone);
      assert (a + b)[1..] == a[1..] + b;
    }
  }

  lemma {:induction false} WithoutAll<T>(s: seq<T>, gone: set<T>)
    requires forall x :: x in s ==> x in gone
    ensures Without(s, gone) == []
  {
    if s != [] { WithoutAll(s[1..], gone); }
  }

  lemma {:induction false} WithoutNone<T>(s: seq<T>, gone: set<T>)
    requires forall i :: 0 <= i < |s| ==> s[i] !in gone
    ensures Without(s, gone) == s
  {
    if s != [] {
      assert forall i :: 0 <= i < |s[1..]| ==> s[1..][i] == s[i + 1];
      WithoutNone(s[1..], gone);
    }
  }

  /** Taking the first `n` of the sorted elements away leaves the rest in the same order. */
  lemma SortWithout<T(!new)>(key: T -> int, s: seq<T>, n: nat, gone: set<T>)
    requires Distinct(s) && n <= |Sort(key, s)| && forall x :: x in gone <==> x in Sort(key, s)[..n]
    ensures Sort(key, Without(s, gone)) == Sort(key, s)[n..]
  {
    var sorted := Sort(key, s);
    SortDistinct(key, s);
    WithoutPrefix(sorted, n, gone);
    SortIsStable(key, s, 0);
    forall k ensures WithKey(key, k, sorted[n..]) == WithKey(key, k, Without(s, gone)) {
      WithKeyWithout(key, k, sorted, gone);
      WithKeyWithout(key, k, s, gone);
      SortIsStable(key, s, k);
    }
    StableSortUnique(key, Without(s, gone), sorted[n..]);
  }
}
