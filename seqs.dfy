/**
 * Sequence helpers for the list comprehensions of the analyzers: filtering (`[x for x in s if p(x)]`),
 * mapping, counting, the first match (`next(...)`) and Python slices.
 */
module Seqs {
  import opened Wrappers

  /** `[x for x in s if p(x)]`, built from the left. */
  function Filter<T(!new)>(s: seq<T>, p: T -> bool): (r: seq<T>)
    ensures |r| <= |s|
    ensures forall x :: x in r <==> x in s && p(x)
    ensures forall i :: 0 <= i < |r| ==> p(r[i])
  {
    if s == [] then []
    else Filter(s[..|s| - 1], p) + (if p(s[|s| - 1]) then [s[|s| - 1]] else [])
  }

  /** `[f(x) for x in s]`. */
  function Map<T, U>(s: seq<T>, f: T -> U): (r: seq<U>)
    ensures |r| == |s|
    ensures forall i :: 0 <= i < |s| ==> r[i] == f(s[i])
  {
    if s == [] then [] else Map(s[..|s| - 1], f) + [f(s[|s| - 1])]
  }

  lemma MapSnoc<T, U>(s: seq<T>, x: T, f: T -> U)
    ensures Map(s + [x], f) == Map(s, f) + [f(x)]
  {
    assert (s + [x])[..|s|] == s;
  }

  /** `sum(1 for x in s if p(x))`. */
  function Count<T(!new)>(s: seq<T>, p: T -> bool): nat
  {
    |Filter(s, p)|
  }

  /** `s[:n]`. */
  function Take<T>(s: seq<T>, n: nat): (r: seq<T>)
    ensures |r| == if n < |s| then n else |s|
    ensures r == s[..|r|]
  {
    if n < |s| then s[..n] else s
  }

  /** `s[-n:]` for `n > 0`; the whole sequence when it is shorter. */
  function LastN<T>(s: seq<T>, n: nat): (r: seq<T>)
    ensures |r| == if n < |s| then n else |s|
    ensures r == s[|s| - |r|..]
  {
    if n < |s| then s[|s| - n..] else s
  }

  /** The index of the first element satisfying `p`, or `|s|` when there is none. */
  function FirstIndex<T>(s: seq<T>, p: T -> bool): (k: nat)
    ensures k <= |s|
    ensures k < |s| ==> p(s[k])
    ensures forall j :: 0 <= j < k ==> !p(s[j])
  {
    if s == [] then 0
    else if p(s[0]) then 0
    else
      var k := FirstIndex(s[1..], p);
      assert forall j :: 0 <= j < k ==> s[1..][j] == s[j + 1];
      1 + k
  }

  /** `next((x for x in s if p(x)), None)`. */
  function FirstWhere<T>(s: seq<T>, p: T -> bool): (r: Option<T>)
    ensures r.None? <==> forall i :: 0 <= i < |s| ==> !p(s[i])
    ensures r.Some? ==> r.value in s && p(r.value)
    ensures r.Some? ==> exists k :: 0 <= k < |s| && s[k] == r.value && forall j :: 0 <= j < k ==> !p(s[j])
  {
    var k := FirstIndex(s, p);
    if k < |s| then Some(s[k]) else None
  }

  predicate NoDuplicates<T(==)>(s: seq<T>)
  {
    forall i, j :: 0 <= i < j < |s| ==> s[i] != s[j]
  }

  lemma FilterAppend<T(!new)>(a: seq<T>, b: seq<T>, p: T -> bool)
    ensures Filter(a + b, p) == Filter(a, p) + Filter(b, p)
    decreases |b|
  {
    if b == [] {
      assert a + b == a;
    } else {
      var b' := b[..|b| - 1];
      assert (a + b)[..|a + b| - 1] == a + b';
      assert (a + b)[|a + b| - 1] == b[|b| - 1];
      FilterAppend(a, b', p);
    }
  }

  lemma FilterSnoc<T(!new)>(s: seq<T>, x: T, p: T -> bool)
    ensures Filter(s + [x], p) == Filter(s, p) + (if p(x) then [x] else [])
  {
    assert (s + [x])[..|s|] == s;
  }

  /** Filtering keeps exactly the occurrences of the elements that satisfy the predicate. */
  lemma {:induction false} FilterMultiset<T(!new)>(s: seq<T>, p: T -> bool, x: T)
    ensures multiset(Filter(s, p))[x] == if p(x) then multiset(s)[x] else 0
  {
    if s != [] {
      var s' := s[..|s| - 1];
      FilterMultiset(s', p, x);
      assert s == s' + [s[|s| - 1]];
      assert multiset(s) == multiset(s') + multiset{s[|s| - 1]};
    }
  }

  /** Filtering keeps every occurrence of the elements that satisfy the predicate, and no other. */
  lemma FilterMultisets<T(!new)>(s: seq<T>, p: T -> bool)
    ensures forall x :: multiset(Filter(s, p))[x] == if p(x) then multiset(s)[x] else 0
  {
    forall x
      ensures multiset(Filter(s, p))[x] == if p(x) then multiset(s)[x] else 0
    {
      FilterMultiset(s, p, x);
    }
  }

  lemma FilterPermutation<T(!new)>(a: seq<T>, b: seq<T>, p: T -> bool)
    requires multiset(a) == multiset(b)
    ensures multiset(Filter(a, p)) == multiset(Filter(b, p))
  {
    forall x
      ensures multiset(Filter(a, p))[x] == multiset(Filter(b, p))[x]
    {
      FilterMultiset(a, p, x);
      FilterMultiset(b, p, x);
    }
  }

  lemma {:induction false} FilterAll<T(!new)>(s: seq<T>, p: T -> bool)
    requires forall i :: 0 <= i < |s| ==> p(s[i])
    ensures Filter(s, p) == s
  {
    if s != [] {
      FilterAll(s[..|s| - 1], p);
    }
  }

  lemma FilterNone<T(!new)>(s: seq<T>, p: T -> bool)
    requires forall i :: 0 <= i < |s| ==> !p(s[i])
    ensures Filter(s, p) == []
  {
  }

  lemma CountPermutation<T(!new)>(a: seq<T>, b: seq<T>, p: T -> bool)
    requires multiset(a) == multiset(b)
    ensures Count(a, p) == Count(b, p)
  {
    FilterPermutation(a, b, p);
    assert |multiset(Filter(a, p))| == |multiset(Filter(b, p))|;
  }

  /** The index Python's `max(s, key=key)` picks: the first element of largest key. */
  function ArgMaxBy<T>(s: seq<T>, key: T -> real): (i: nat)
    requires s != []
    ensures i < |s|
    ensures forall j :: 0 <= j < |s| ==> key(s[j]) <= key(s[i])
    ensures forall j :: 0 <= j < i ==> key(s[j]) < key(s[i])
  {
    if |s| == 1 then 0
    else
      var i := ArgMaxBy(s[..|s| - 1], key);
      assert forall j :: 0 <= j < |s| - 1 ==> s[..|s| - 1][j] == s[j];
      if key(s[|s| - 1]) > key(s[i]) then |s| - 1 else i
  }

  /** The index Python's `min(s, key=key)` picks: the first element of smallest key. */
  function ArgMinBy<T>(s: seq<T>, key: T -> real): (i: nat)
    requires s != []
    ensures i < |s|
    ensures forall j :: 0 <= j < |s| ==> key(s[i]) <= key(s[j])
    ensures forall j :: 0 <= j < i ==> key(s[i]) < key(s[j])
  {
    if |s| == 1 then 0
    else
      var i := ArgMinBy(s[..|s| - 1], key);
      assert forall j :: 0 <= j < |s| - 1 ==> s[..|s| - 1][j] == s[j];
      if key(s[|s| - 1]) < key(s[i]) then |s| - 1 else i
  }


  /** Two predicates that never hold together count at most the whole sequence. */
  lemma {:induction false} CountDisjoint<T(!new)>(s: seq<T>, p: T -> bool, q: T -> bool)
    requires forall x :: x in s ==> !(p(x) && q(x))
    ensures Count(s, p) + Count(s, q) <= |s|
  {
    if s != [] {
      var s' := s[..|s| - 1];
      assert forall x :: x in s' ==> x in s;
      CountDisjoint(s', p, q);
      assert s[|s| - 1] in s;
    }
  }


  lemma FilterSingleton<T(!new)>(x: T, p: T -> bool)
    ensures Filter([x], p) == if p(x) then [x] else []
  {
    assert [x][..0] == [];
  }

  lemma MapSingleton<T, U>(x: T, f: T -> U)
    ensures Map([x], f) == [f(x)]
  {
    assert [x][..0] == [];
  }


  lemma ConsConcat<T>(d: T, a: seq<T>, b: seq<T>, c: seq<T>)
    ensures [d] + a + b + c == [d] + (a + b + c)
    ensures ([d] + (a + b + c))[1..] == a + b + c
  {
  }


  lemma NoDuplicatesSnoc<T>(s: seq<T>, x: T)
    requires NoDuplicates(s) && x !in s
    ensures NoDuplicates(s + [x])
  {
  }


  /** `r` lists elements of `s` at strictly increasing indices: it keeps their order. */
  ghost predicate IsSubsequence<T>(r: seq<T>, s: seq<T>)
  {
    exists idx: seq<int> :: Picks(idx, r, s)
  }

  /** `idx` is strictly increasing, and element `k` of `r` is element `idx[k]` of `s`. */
  ghost predicate Picks<T>(idx: seq<int>, r: seq<T>, s: seq<T>)
  {
    && |idx| == |r|
    && (forall a, b :: 0 <= a < b < |idx| ==> idx[a] < idx[b])
    && (forall k :: 0 <= k < |idx| ==> 0 <= idx[k] < |s| && r[k] == s[idx[k]])
  }

  lemma PicksSnoc<T>(idx: seq<int>, r: seq<T>, s: seq<T>, x: T)
    requires Picks(idx, r, s)
    ensures Picks(idx + [|s|], r + [x], s + [x])
  {
    var idx' := idx + [|s|];
    assert forall k :: 0 <= k < |idx| ==> idx'[k] == idx[k] && (s + [x])[idx[k]] == s[idx[k]];
  }

  lemma PicksGrow<T>(idx: seq<int>, r: seq<T>, s: seq<T>, x: T)
    requires Picks(idx, r, s)
    ensures Picks(idx, r, s + [x])
  {
    assert forall k :: 0 <= k < |idx| ==> (s + [x])[idx[k]] == s[idx[k]];
  }

  /** A comprehension keeps the elements it selects in their input order. */
  lemma {:induction false} FilterSubsequence<T(!new)>(s: seq<T>, p: T -> bool)
    ensures IsSubsequence(Filter(s, p), s)
  {
    if s == [] {
      assert Picks([], Filter(s, p), s);
    } else {
      var s', x := s[..|s| - 1], s[|s| - 1];
      assert s == s' + [x];
      FilterSubsequence(s', p);
      var idx :| Picks(idx, Filter(s', p), s');
      FilterSnoc(s', x, p);
      if p(x) {
        PicksSnoc(idx, Filter(s', p), s', x);
        assert Picks(idx + [|s'|], Filter(s, p), s);
      } else {
        PicksGrow(idx, Filter(s', p), s', x);
        assert Picks(idx, Filter(s, p), s);
      }
    }
  }

  /**
   * The `k`-th kept element sits at index `i` of the original, and the elements kept before index
   * `i` are exactly the first `k` kept ones.
   */
  ghost predicate KeptAt<T(!new)>(s: seq<T>, p: T -> bool, k: nat, i: int)
  {
    0 <= i < |s| && k < |Filter(s, p)| && s[i] == Filter(s, p)[k] && Filter(s[..i], p) == Filter(s, p)[..k]
  }

  /** Every kept element comes from some index of the original. */
  lemma {:induction false} FilterPrefixAt<T(!new)>(s: seq<T>, p: T -> bool, k: nat)
    requires k < |Filter(s, p)|
    ensures exists i :: KeptAt(s, p, k, i)
  {
    var s' := s[..|s| - 1];
    var x := s[|s| - 1];
    assert s == s' + [x];
    FilterSnoc(s', x, p);
    if k < |Filter(s', p)| {
      FilterPrefixAt(s', p, k);
      var i :| KeptAt(s', p, k, i);
      assert s[..i] == s'[..i];
      assert Filter(s, p)[..k] == Filter(s', p)[..k];
      assert KeptAt(s, p, k, i);
    } else {
      assert s[..|s| - 1] == s';
      assert Filter(s, p)[..k] == Filter(s', p);
      assert KeptAt(s, p, k, |s| - 1);
    }
  }

  /**
   * Element `i` is kept, no kept element has a larger key, and every kept element before it has
   * a smaller one: the element Python's `max` picks from the kept elements.
   */
  ghost predicate FirstMaxKept<T>(s: seq<T>, p: T -> bool, key: T -> real, i: int)
  {
    && 0 <= i < |s| && p(s[i])
    && (forall j :: 0 <= j < |s| && p(s[j]) ==> key(s[j]) <= key(s[i]))
    && (forall j :: 0 <= j < i && p(s[j]) ==> key(s[j]) < key(s[i]))
  }

  /** The mirror of `FirstMaxKept` for Python's `min`. */
  ghost predicate FirstMinKept<T>(s: seq<T>, p: T -> bool, key: T -> real, i: int)
  {
    && 0 <= i < |s| && p(s[i])
    && (forall j :: 0 <= j < |s| && p(s[j]) ==> key(s[i]) <= key(s[j]))
    && (forall j :: 0 <= j < i && p(s[j]) ==> key(s[i]) < key(s[j]))
  }

  /** `max` over the kept elements picks the first kept element of largest key. */
  lemma ArgMaxByFiltered<T(!new)>(s: seq<T>, p: T -> bool, key: T -> real)
    requires Filter(s, p) != []
    ensures exists i :: FirstMaxKept(s, p, key, i) && s[i] == Filter(s, p)[ArgMaxBy(Filter(s, p), key)]
  {
    var r := Filter(s, p);
    var k := ArgMaxBy(r, key);
    FilterPrefixAt(s, p, k);
    var i :| KeptAt(s, p, k, i);
    forall j | 0 <= j < |s| && p(s[j])
      ensures key(s[j]) <= key(s[i])
    {
      assert s[j] in r;
      var m :| 0 <= m < |r| && r[m] == s[j];
    }
    forall j | 0 <= j < i && p(s[j])
      ensures key(s[j]) < key(s[i])
    {
      assert s[..i][j] == s[j];
      assert s[j] in r[..k];
    }
    assert FirstMaxKept(s, p, key, i);
  }

  /** `min` over the kept elements picks the first kept element of smallest key. */
  lemma ArgMinByFiltered<T(!new)>(s: seq<T>, p: T -> bool, key: T -> real)
    requires Filter(s, p) != []
    ensures exists i :: FirstMinKept(s, p, key, i) && s[i] == Filter(s, p)[ArgMinBy(Filter(s, p), key)]
  {
    var r := Filter(s, p);
    var k := ArgMinBy(r, key);
    FilterPrefixAt(s, p, k);
    var i :| KeptAt(s, p, k, i);
    forall j | 0 <= j < |s| && p(s[j])
      ensures key(s[i]) <= key(s[j])
    {
      assert s[j] in r;
      var m :| 0 <= m < |r| && r[m] == s[j];
    }
    forall j | 0 <= j < i && p(s[j])
      ensures key(s[i]) < key(s[j])
    {
      assert s[..i][j] == s[j];
      assert s[j] in r[..k];
    }
    assert FirstMinKept(s, p, key, i);
  }
}
