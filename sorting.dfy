/**
 * Python's `sorted(s, key=...)` and `list.sort(key=...)`: a stable sort by an integer key.
 * The analyzers sort timestamps, dates and integer readings; the model computes the sorted
 * sequence with an insertion sort, whose result is the unique stable ordering.
 */
module Sorting {

  ghost predicate SortedBy<T>(s: seq<T>, key: T -> int)
  {
    forall i, j :: 0 <= i < j < |s| ==> key(s[i]) <= key(s[j])
  }

  /** Places `x` before the first element whose key is not smaller, after all smaller ones. */
  function InsertBy<T(!new)>(x: T, s: seq<T>, key: T -> int): (r: seq<T>)
    requires SortedBy(s, key)
    ensures SortedBy(r, key)
    ensures |r| == |s| + 1
    ensures multiset(r) == multiset(s) + multiset{x}
    ensures forall y :: y in r <==> y in s || y == x
  {
    if s == [] || key(x) <= key(s[0]) then
      SortedCons(x, s, key);
      [x] + s
    else
      var t := InsertBy(x, s[1..], key);
      assert s == [s[0]] + s[1..];
      assert forall y :: y in t ==> key(s[0]) <= key(y);
      SortedCons(s[0], t, key);
      [s[0]] + t
  }

  /** A head no larger than every element of a sorted tail keeps the sequence sorted. */
  lemma SortedCons<T>(h: T, t: seq<T>, key: T -> int)
    requires SortedBy(t, key)
    requires forall y :: y in t ==> key(h) <= key(y)
    ensures SortedBy([h] + t, key)
  {
    var r := [h] + t;
    forall i, j | 0 <= i < j < |r|
      ensures key(r[i]) <= key(r[j])
    {
      assert r[j] == t[j - 1];
      if i > 0 {
        assert r[i] == t[i - 1];
      } else {
        assert t[j - 1] in t;
      }
    }
  }

  /** `sorted(s, key=key)`: the earlier of two elements with equal keys stays first. */
  function SortBy<T(!new)>(s: seq<T>, key: T -> int): (r: seq<T>)
    ensures SortedBy(r, key)
    ensures |r| == |s|
    ensures multiset(r) == multiset(s)
  {
    if s == [] then []
    else
      assert s == [s[0]] + s[1..];
      InsertBy(s[0], SortBy(s[1..], key), key)
  }

  function Identity(x: int): int
  {
    x
  }

  /** `sorted(values)` on integers. */
  function SortInts(s: seq<int>): (r: seq<int>)
    ensures |r| == |s|
    ensures multiset(r) == multiset(s)
    ensures forall i, j :: 0 <= i < j < |r| ==> r[i] <= r[j]
  {
    SortBy(s, Identity)
  }

  /** An already sorted sequence is left as it is. */
  lemma {:induction false} SortBySorted<T(!new)>(s: seq<T>, key: T -> int)
    requires SortedBy(s, key)
    ensures SortBy(s, key) == s
  {
    if s != [] {
      SortBySorted(s[1..], key);
    }
  }

  /** The first element of a sorted sequence has the smallest key. */
  lemma HeadIsSmallest<T>(s: seq<T>, key: T -> int, y: T)
    requires SortedBy(s, key) && y in s
    ensures key(s[0]) <= key(y)
  {
    var i :| 0 <= i < |s| && s[i] == y;
    if i > 0 {
      assert key(s[0]) <= key(s[i]);
    }
  }

  ghost predicate KeysDistinct<T(!new)>(s: seq<T>, key: T -> int)
  {
    forall x, y :: x in s && y in s && key(x) == key(y) ==> x == y
  }

  /**
   * Two sorted arrangements of the same elements are equal when no two different elements
   * share a key.
   */
  lemma {:induction false} SortedUnique<T(!new)>(a: seq<T>, b: seq<T>, key: T -> int)
    requires SortedBy(a, key) && SortedBy(b, key)
    requires multiset(a) == multiset(b)
    requires KeysDistinct(a, key)
    ensures a == b
    decreases |a|
  {
    if a != [] {
      HeadsEqual(a, b, key);
      TailsPermuted(a, b);
      DistinctTail(a, key);
      SortedUnique(a[1..], b[1..], key);
      assert a == [a[0]] + a[1..];
      assert b == [b[0]] + b[1..];
    }
  }

  lemma HeadsEqual<T(!new)>(a: seq<T>, b: seq<T>, key: T -> int)
    requires SortedBy(a, key) && SortedBy(b, key)
    requires multiset(a) == multiset(b) && a != []
    requires KeysDistinct(a, key)
    ensures b != [] && a[0] == b[0]
  {
    assert a[0] in multiset(b);
    assert b[0] in multiset(a);
    HeadIsSmallest(a, key, b[0]);
    HeadIsSmallest(b, key, a[0]);
  }

  lemma TailsPermuted<T>(a: seq<T>, b: seq<T>)
    requires multiset(a) == multiset(b) && a != [] && b != [] && a[0] == b[0]
    ensures multiset(a[1..]) == multiset(b[1..])
  {
    assert a == [a[0]] + a[1..];
    assert b == [b[0]] + b[1..];
    assert multiset(a[1..]) == multiset(a) - multiset{a[0]};
    assert multiset(b[1..]) == multiset(b) - multiset{b[0]};
  }

  lemma DistinctTail<T(!new)>(a: seq<T>, key: T -> int)
    requires KeysDistinct(a, key) && a != []
    ensures KeysDistinct(a[1..], key)
  {
    forall x, y | x in a[1..] && y in a[1..] && key(x) == key(y)
      ensures x == y
    {
      assert x in a && y in a;
    }
  }

  /** Sorting two arrangements of the same elements gives the same result under distinct keys. */
  lemma SortByPermutation<T(!new)>(a: seq<T>, b: seq<T>, key: T -> int)
    requires multiset(a) == multiset(b)
    requires KeysDistinct(a, key)
    ensures SortBy(a, key) == SortBy(b, key)
  {
    var sa, sb := SortBy(a, key), SortBy(b, key);
    assert KeysDistinct(sa, key) by {
      forall x, y | x in sa && y in sa && key(x) == key(y)
        ensures x == y
      {
        assert x in multiset(a) && y in multiset(a);
      }
    }
    SortedUnique(sa, sb, key);
  }

  /** The number of values below `v`; a percentile is read off these counts. */
  function CountLess(s: seq<int>, v: int): (n: nat)
    ensures n <= |s|
  {
    if s == [] then 0 else CountLess(s[..|s| - 1], v) + (if s[|s| - 1] < v then 1 else 0)
  }

  lemma {:induction false} CountLessConcat(a: seq<int>, b: seq<int>, v: int)
    ensures CountLess(a + b, v) == CountLess(a, v) + CountLess(b, v)
    decreases |b|
  {
    if b == [] {
      assert a + b == a;
    } else {
      var b' := b[..|b| - 1];
      assert (a + b)[..|a + b| - 1] == a + b';
      CountLessConcat(a, b', v);
    }
  }

  /** The count depends only on the values, not on their order. */
  lemma {:induction false} CountLessPermutation(a: seq<int>, b: seq<int>, v: int)
    requires multiset(a) == multiset(b)
    ensures CountLess(a, v) == CountLess(b, v)
    decreases |a|
  {
    if a != [] {
      var x := a[|a| - 1];
      var a' := a[..|a| - 1];
      assert a == a' + [x];
      assert x in multiset(b);
      var j :| 0 <= j < |b| && b[j] == x;
      var b' := b[..j] + b[j + 1..];
      assert b == b[..j] + [x] + b[j + 1..];
      assert multiset(b') == multiset(b) - multiset{x};
      assert multiset(a') == multiset(a) - multiset{x};
      CountLessPermutation(a', b', v);
      CountLessConcat(b[..j] + [x], b[j + 1..], v);
      CountLessConcat(b[..j], [x], v);
      CountLessConcat(b[..j], b[j + 1..], v);
      CountLessConcat(a', [x], v);
    }
  }

  lemma {:induction false} CountLessNone(s: seq<int>, v: int)
    requires forall i :: 0 <= i < |s| ==> v <= s[i]
    ensures CountLess(s, v) == 0
  {
    if s != [] {
      CountLessNone(s[..|s| - 1], v);
    }
  }

  lemma {:induction false} CountLessAll(s: seq<int>, v: int)
    requires forall i :: 0 <= i < |s| ==> s[i] < v
    ensures CountLess(s, v) == |s|
  {
    if s != [] {
      CountLessAll(s[..|s| - 1], v);
    }
  }

  /**
   * In an ascending sequence at most `k` values are below the value at position `k`, and at
   * least `k + 1` are at or below it.
   */
  lemma OrderStatistic(s: seq<int>, k: nat)
    requires k < |s|
    requires forall i, j :: 0 <= i < j < |s| ==> s[i] <= s[j]
    ensures CountLess(s, s[k]) <= k
    ensures CountLess(s, s[k] + 1) >= k + 1
  {
    var pre, post := s[..k], s[k..];
    forall i | 0 <= i < |post|
      ensures s[k] <= post[i]
    {
      assert post[i] == s[k + i];
      if i > 0 {
        assert s[k] <= s[k + i];
      }
    }
    CountLessSplit(s, k, s[k]);
    CountLessNone(post, s[k]);
    var upTo, after := s[..k + 1], s[k + 1..];
    forall i | 0 <= i < |upTo|
      ensures upTo[i] < s[k] + 1
    {
      if i < k {
        assert s[i] <= s[k];
      }
    }
    CountLessSplit(s, k + 1, s[k] + 1);
    CountLessAll(upTo, s[k] + 1);
  }

  /** Counting over a sequence is counting over its two halves. */
  lemma CountLessSplit(s: seq<int>, k: nat, v: int)
    requires k <= |s|
    ensures CountLess(s, v) == CountLess(s[..k], v) + CountLess(s[k..], v)
  {
    assert s == s[..k] + s[k..];
    CountLessConcat(s[..k], s[k..], v);
  }

  predicate IsMax(s: set<int>, m: int)
  {
    m in s && forall x :: x in s ==> x <= m
  }

  /** A non-empty set has a member, returned as a witness. */
  lemma HasElement<T>(s: set<T>) returns (y: T)
    requires s != {}
    ensures y in s
  {
    if forall x :: x !in s {
      assert false;
    }
    y :| y in s;
  }

  lemma {:induction false} MaxExists(s: set<int>)
    requires s != {}
    ensures exists m :: IsMax(s, m)
    decreases |s|
  {
    var y := HasElement(s);
    var rest := s - {y};
    if rest == {} {
      MaxStep(s, y, y);
    } else {
      MaxExists(rest);
      var m :| IsMax(rest, m);
      MaxStep(s, y, m);
    }
  }

  lemma MaxStep(s: set<int>, y: int, m: int)
    requires y in s
    requires s - {y} == {} || IsMax(s - {y}, m)
    ensures IsMax(s, if s - {y} == {} || y > m then y else m)
  {
    var top := if s - {y} == {} || y > m then y else m;
    forall x | x in s
      ensures x <= top
    {
      if x != y {
        assert x in s - {y};
      }
    }
  }

  /** `max(s)` on a non-empty set of integers. */
  function SetMax(s: set<int>): (m: int)
    requires s != {}
    ensures m in s && forall x :: x in s ==> x <= m
  {
    MaxExists(s);
    var m :| IsMax(s, m);
    m
  }

  /** `sorted(s)` on a set of integers: its elements in ascending order, each once. */
  function SortedSet(s: set<int>): (r: seq<int>)
    ensures |r| == |s|
    ensures forall x :: x in r <==> x in s
    ensures forall i :: 0 <= i < |r| ==> r[i] in s
    ensures forall i, j :: 0 <= i < j < |r| ==> r[i] < r[j]
    decreases |s|
  {
    if s == {} then []
    else
      var m := SetMax(s);
      SortedSet(s - {m}) + [m]
  }
}
