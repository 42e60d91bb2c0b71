/**
 Lists whose order does not matter: filtering, mapping and grouping, and what
 they keep of the multiset of elements.
 */
module Lists {
  function Filter<T>(s: seq<T>, p: T -> bool): (r: seq<T>) {
    if s == [] then []
    else if p(s[|s| - 1]) then Filter(s[..|s| - 1], p) + [s[|s| - 1]]
    else Filter(s[..|s| - 1], p)
  }

  function FlatMap<T, U>(s: seq<T>, f: T -> seq<U>): seq<U> {
    if s == [] then [] else FlatMap(s[..|s| - 1], f) + f(s[|s| - 1])
  }

  lemma SplitLast<T>(s: seq<T>)
    requires s != []
    ensures multiset(s) == multiset(s[..|s| - 1]) + multiset{s[|s| - 1]}
  {
    assert s == s[..|s| - 1] + [s[|s| - 1]];
  }

  function Without<T>(s: seq<T>, i: nat): seq<T>
    requires i < |s|
  {
    s[..i] + s[i + 1..]
  }

  lemma SplitAt<T>(s: seq<T>, i: nat)
    requires i < |s|
    ensures s == s[..i] + ([s[i]] + s[i + 1..])
    ensures multiset(s) == multiset(Without(s, i)) + multiset{s[i]}
  {
    assert multiset(s) == multiset(s[..i]) + multiset([s[i]] + s[i + 1..]) by {
      assert s == s[..i] + ([s[i]] + s[i + 1..]);
    }
  }

  lemma {:induction false} FlatMapAppend<T, U>(a: seq<T>, b: seq<T>, f: T -> seq<U>)
    ensures FlatMap(a + b, f) == FlatMap(a, f) + FlatMap(b, f)
    decreases |b|
  {
    if b == [] {
      assert a + b == a;
    } else {
      assert (a + b)[..|a + b| - 1] == a + b[..|b| - 1];
      FlatMapAppend(a, b[..|b| - 1], f);
    }
  }

  lemma {:induction false} FilterAppend<T>(a: seq<T>, b: seq<T>, p: T -> bool)
    ensures Filter(a + b, p) == Filter(a, p) + Filter(b, p)
    decreases |b|
  {
    if b == [] {
      assert a + b == a;
    } else {
      assert (a + b)[..|a + b| - 1] == a + b[..|b| - 1];
      FilterAppend(a, b[..|b| - 1], p);
    }
  }

  /** Taking out one element takes out its part of the result. */
  lemma FlatMapWithout<T, U>(s: seq<T>, i: nat, f: T -> seq<U>)
    requires i < |s|
    ensures multiset(FlatMap(s, f)) == multiset(FlatMap(Without(s, i), f)) + multiset(f(s[i]))
  {
    SplitAt(s, i);
    FlatMapAppend(s[..i], [s[i]] + s[i + 1..], f);
    FlatMapAppend([s[i]], s[i + 1..], f);
    FlatMapAppend(s[..i], s[i + 1..], f);
    assert FlatMap([s[i]], f) == f(s[i]) by {
      assert [s[i]][..0] == [];
    }
    hide FlatMap;
    Middle(FlatMap(s[..i], f), f(s[i]), FlatMap(s[i + 1..], f));
  }

  lemma Middle<U>(a: seq<U>, b: seq<U>, c: seq<U>)
    ensures multiset(a + (b + c)) == multiset(a + c) + multiset(b)
  {
  }

  lemma FilterWithout<T>(s: seq<T>, i: nat, p: T -> bool)
    requires i < |s|
    ensures multiset(Filter(s, p)) ==
            multiset(Filter(Without(s, i), p)) + if p(s[i]) then multiset{s[i]} else multiset{}
  {
    SplitAt(s, i);
    FilterAppend(s[..i], [s[i]] + s[i + 1..], p);
    FilterAppend([s[i]], s[i + 1..], p);
    FilterAppend(s[..i], s[i + 1..], p);
    assert Filter([s[i]], p) == if p(s[i]) then [s[i]] else [] by {
      assert [s[i]][..0] == [];
    }
    hide Filter;
    Middle(Filter(s[..i], p), if p(s[i]) then [s[i]] else [], Filter(s[i + 1..], p));
  }

  /** A finder that is the sum of two adds up. */
  lemma {:induction false} FlatMapSum<T, U>(s: seq<T>, f: T -> seq<U>, g: T -> seq<U>, h: T -> seq<U>)
    requires forall i :: 0 <= i < |s| ==> f(s[i]) == g(s[i]) + h(s[i])
    ensures multiset(FlatMap(s, f)) == multiset(FlatMap(s, g)) + multiset(FlatMap(s, h))
  {
    if s != [] {
      FlatMapSum(s[..|s| - 1], f, g, h);
    }
  }

  /** Elements that add nothing can be filtered out first. */
  lemma {:induction false} FlatMapFilter<T, U>(s: seq<T>, p: T -> bool, f: T -> seq<U>)
    requires forall i :: 0 <= i < |s| && !p(s[i]) ==> f(s[i]) == []
    ensures FlatMap(Filter(s, p), f) == FlatMap(s, f)
  {
    if s != [] {
      FlatMapFilter(s[..|s| - 1], p, f);
      var passed := Filter(s, p);
      if p(s[|s| - 1]) {
        assert passed[..|passed| - 1] == Filter(s[..|s| - 1], p);
      }
    }
  }

  /** Both lists without one occurrence of the last element of the first. */
  lemma PeelSame<T>(a: seq<T>, b: seq<T>) returns (i: nat)
    requires a != [] && multiset(a) == multiset(b)
    ensures i < |b| && b[i] == a[|a| - 1]
    ensures multiset(a[..|a| - 1]) == multiset(Without(b, i))
  {
    var x := a[|a| - 1];
    SplitLast(a);
    assert x in multiset(b);
    i :| 0 <= i < |b| && b[i] == x;
    SplitAt(b, i);
    assert multiset(a[..|a| - 1]) == multiset(a) - multiset{x};
    assert multiset(Without(b, i)) == multiset(b) - multiset{x};
  }

  /** What a list maps to depends, as a multiset, only on the multiset of its elements. */
  lemma {:induction false} FlatMapPermutes<T, U>(a: seq<T>, b: seq<T>, f: T -> seq<U>)
    requires multiset(a) == multiset(b)
    ensures multiset(FlatMap(a, f)) == multiset(FlatMap(b, f))
    decreases |a|
  {
    assert |multiset(a)| == |a| && |multiset(b)| == |b|;
    if a != [] {
      var i := PeelSame(a, b);
      FlatMapWithout(b, i, f);
      FlatMapPermutes(a[..|a| - 1], Without(b, i), f);
    }
  }

  lemma {:induction false} FlatMapSame<T, U>(s: seq<T>, f: T -> seq<U>, g: T -> seq<U>)
    requires forall i :: 0 <= i < |s| ==> f(s[i]) == g(s[i])
    ensures FlatMap(s, f) == FlatMap(s, g)
  {
    if s != [] {
      FlatMapSame(s[..|s| - 1], f, g);
    }
  }

  lemma {:induction false} FlatMapIsEmpty<T, U>(s: seq<T>, f: T -> seq<U>)
    ensures FlatMap(s, f) == [] <==> forall i :: 0 <= i < |s| ==> f(s[i]) == []
  {
    if s != [] {
      FlatMapIsEmpty(s[..|s| - 1], f);
      if FlatMap(s, f) == [] {
        assert FlatMap(s[..|s| - 1], f) == [] && f(s[|s| - 1]) == [];
      }
    }
  }

  lemma {:induction false} FlatMapHas<T, U>(s: seq<T>, f: T -> seq<U>, x: U)
    ensures x in FlatMap(s, f) <==> exists i :: 0 <= i < |s| && x in f(s[i])
  {
    if s != [] {
      var front := s[..|s| - 1];
      FlatMapHas(front, f, x);
      if x in FlatMap(front, f) {
        var i :| 0 <= i < |front| && x in f(front[i]);
        assert x in f(s[i]);
      }
      if i :| 0 <= i < |s| && x in f(s[i]) {
        assert i < |front| ==> x in f(front[i]);
      }
    }
  }

  /** What passes a test depends, as a multiset, only on the multiset. */
  lemma {:induction false} FilterPermutes<T>(a: seq<T>, b: seq<T>, p: T -> bool)
    requires multiset(a) == multiset(b)
    ensures multiset(Filter(a, p)) == multiset(Filter(b, p)) && |Filter(a, p)| == |Filter(b, p)|
    decreases |a|
  {
    assert |multiset(a)| == |a| && |multiset(b)| == |b|;
    if a != [] {
      var i := PeelSame(a, b);
      FilterWithout(b, i, p);
      FilterPermutes(a[..|a| - 1], Without(b, i), p);
    }
    assert |multiset(Filter(a, p))| == |multiset(Filter(b, p))|;
  }

  lemma {:induction false} FilterSame<T>(s: seq<T>, p: T -> bool, q: T -> bool)
    requires forall i :: 0 <= i < |s| ==> p(s[i]) == q(s[i])
    ensures Filter(s, p) == Filter(s, q)
  {
    if s != [] {
      FilterSame(s[..|s| - 1], p, q);
    }
  }

  lemma {:induction false} FilterAll<T>(s: seq<T>, p: T -> bool)
    requires forall i :: 0 <= i < |s| ==> p(s[i])
    ensures Filter(s, p) == s
  {
    if s != [] {
      FilterAll(s[..|s| - 1], p);
    }
  }

  /** A test that is the disjoint union of two splits what passes. */
  lemma {:induction false} FilterSplits<T>(s: seq<T>, p: T -> bool, q: T -> bool, r: T -> bool)
    requires forall i :: 0 <= i < |s| ==> (p(s[i]) <==> q(s[i]) || r(s[i])) && !(q(s[i]) && r(s[i]))
    ensures multiset(Filter(s, p)) == multiset(Filter(s, q)) + multiset(Filter(s, r))
  {
    if s != [] {
      FilterSplits(s[..|s| - 1], p, q, r);
    }
  }

  /** Two elements pass a test exactly when at least two positions do. */
  lemma {:induction false} TwoPass<T>(s: seq<T>, p: T -> bool)
    ensures |Filter(s, p)| >= 1 <==> exists i :: 0 <= i < |s| && p(s[i])
    ensures |Filter(s, p)| >= 2 <==> exists i, j :: 0 <= i < j < |s| && p(s[i]) && p(s[j])
  {
    if s != [] {
      var front, last := s[..|s| - 1], s[|s| - 1];
      TwoPass(front, p);
      if |Filter(front, p)| >= 1 {
        var i :| 0 <= i < |front| && p(front[i]);
        assert p(s[i]);
      }
      if |Filter(front, p)| >= 2 {
        var i, j :| 0 <= i < j < |front| && p(front[i]) && p(front[j]);
        assert p(s[i]) && p(s[j]);
      }
      if i, j :| 0 <= i < j < |s| && p(s[i]) && p(s[j]) {
        assert p(front[i]);
        assert j < |front| ==> p(front[j]);
      }
      if i :| 0 <= i < |s| && p(s[i]) {
        assert i < |front| ==> p(front[i]);
      }
    }
  }

  lemma {:induction false} FilterHas<T>(s: seq<T>, p: T -> bool, x: T)
    ensures x in Filter(s, p) <==> x in s && p(x)
  {
    if s != [] {
      FilterHas(s[..|s| - 1], p, x);
      assert s == s[..|s| - 1] + [s[|s| - 1]];
    }
  }

  lemma SamePermutation<T>(a: seq<T>, b: seq<T>, x: T)
    requires multiset(a) == multiset(b)
    ensures x in a <==> x in b
  {
    assert x in a <==> x in multiset(a);
    assert x in b <==> x in multiset(b);
  }

  lemma {:induction false} FilterFindsSome<T>(s: seq<T>, i: nat, p: T -> bool)
    requires i < |s| && p(s[i])
    ensures |Filter(s, p)| >= 1
  {
    if i < |s| - 1 {
      FilterFindsSome(s[..|s| - 1], i, p);
    }
  }

  lemma {:induction false} FilterFindsBoth<T>(s: seq<T>, i: nat, j: nat, p: T -> bool)
    requires i < j < |s| && p(s[i]) && p(s[j])
    ensures |Filter(s, p)| >= 2
  {
    if j < |s| - 1 {
      FilterFindsBoth(s[..|s| - 1], i, j, p);
    } else {
      FilterFindsSome(s[..|s| - 1], i, p);
    }
  }

  lemma {:induction false} FilterFindsOne<T>(s: seq<T>, p: T -> bool)
    requires forall i, j :: 0 <= i < j < |s| ==> !(p(s[i]) && p(s[j]))
    ensures |Filter(s, p)| < 2
  {
    if s != [] {
      if p(s[|s| - 1]) {
        FilterNone(s[..|s| - 1], p);
      } else {
        FilterFindsOne(s[..|s| - 1], p);
      }
    }
  }

  lemma {:induction false} FilterNone<T>(s: seq<T>, p: T -> bool)
    requires forall i :: 0 <= i < |s| ==> !p(s[i])
    ensures Filter(s, p) == []
  {
    if s != [] {
      FilterNone(s[..|s| - 1], p);
    }
  }

  // ----------------------------------------------------------------- grouping

  function KeyTest<T, K(==)>(key: T -> K, k: K): T -> bool {
    x => key(x) == k
  }

  function InFirst<T, K(==)>(key: T -> K, keys: seq<K>, n: nat): T -> bool
    requires n <= |keys|
  {
    x => key(x) in keys[..n]
  }

  ghost predicate Distinct<K>(keys: seq<K>) {
    forall i, j :: 0 <= i < j < |keys| ==> keys[i] != keys[j]
  }

  /** The items, grouped by key in the order in which the keys first occur. */
  ghost predicate Grouped<T, K(!new)>(keys: seq<K>, groups: map<K, seq<T>>, items: seq<T>, key: T -> K) {
    && Distinct(keys)
    && (forall k :: k in keys <==> k in groups)
    && (forall k :: k in groups ==> groups[k] == Filter(items, KeyTest(key, k)))
    && forall i :: 0 <= i < |items| ==> key(items[i]) in keys
  }

  lemma GroupGrows<T, K(!new)>(
    keys: seq<K>, groups: map<K, seq<T>>, items: seq<T>, item: T, key: T -> K)
    requires Grouped(keys, groups, items, key)
    ensures var k := key(item);
            Grouped(if k in groups then keys else keys + [k],
                    groups[k := (if k in groups then groups[k] else []) + [item]], items + [item], key)
  {
    var k := key(item);
    var all := items + [item];
    assert all[..|all| - 1] == items;
    if k !in groups {
      NoneOfKey(items, key, k);
    }
    forall other | other in groups && other != k
      ensures Filter(all, KeyTest(key, other)) == groups[other]
    {
    }
  }

  lemma {:induction false} NoneOfKey<T, K>(items: seq<T>, key: T -> K, k: K)
    requires forall i :: 0 <= i < |items| ==> key(items[i]) != k
    ensures Filter(items, KeyTest(key, k)) == []
  {
    if items != [] {
      NoneOfKey(items[..|items| - 1], key, k);
    }
  }

  /** Going from the first `n` groups to one more adds exactly that group. */
  lemma GroupAdds<T, K(!new), U>(keys: seq<K>, items: seq<T>, key: T -> K, n: nat, f: T -> seq<U>)
    requires Distinct(keys) && n < |keys|
    ensures multiset(FlatMap(Filter(items, InFirst(key, keys, n + 1)), f))
            == multiset(FlatMap(Filter(items, InFirst(key, keys, n)), f))
               + multiset(FlatMap(Filter(items, KeyTest(key, keys[n])), f))
  {
    var more, less, one := InFirst(key, keys, n + 1), InFirst(key, keys, n), KeyTest(key, keys[n]);
    assert keys[..n + 1] == keys[..n] + [keys[n]];
    FilterSplits(items, more, less, one);
    FlatMapPermutes(Filter(items, more), Filter(items, less) + Filter(items, one), f);
    FlatMapAppend(Filter(items, less), Filter(items, one), f);
  }

  /** All groups together are all items. */
  lemma GroupsCover<T, K(!new)>(keys: seq<K>, groups: map<K, seq<T>>, items: seq<T>, key: T -> K)
    requires Grouped(keys, groups, items, key)
    ensures Filter(items, InFirst(key, keys, |keys|)) == items
  {
    assert keys[..|keys|] == keys;
    FilterAll(items, InFirst(key, keys, |keys|));
  }
}
