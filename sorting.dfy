/**
 * The array operations the store's queries are built from: `Array.prototype.slice(0, end)`,
 * `filter`, and the stable `sort` with a descending numeric comparator (`(a, b) => key(b) - key(a)`).
 */
module Sorting {

  /** `s.slice(0, end)`: a negative `end` counts back from the end of the array. */
  function SliceTo<T>(s: seq<T>, end: int): (r: seq<T>)
    ensures r <= s
    ensures end >= 0 ==> |r| == if end < |s| then end else |s|
    ensures end < 0 ==> |r| == if |s| + end > 0 then |s| + end else 0
  {
    if end >= 0 then
      (if end < |s| then s[..end] else s)
    else
      (if |s| + end > 0 then s[..|s| + end] else [])
  }

  /**
   * `s.filter(p)`: the elements satisfying `p`, each as often as in `s`. The kept elements stay
   * in their order in `s`; `FilterAscending` states that for an id-ordered store.
   */
  function Filter<T(!new)>(s: seq<T>, p: T -> bool): (r: seq<T>)
    ensures |r| <= |s|
    ensures forall x :: x in r <==> x in s && p(x)
    ensures multiset(r) <= multiset(s)
    ensures forall x :: x in s && p(x) ==> multiset(r)[x] == multiset(s)[x]
  {
    if s == [] then []
    else
      assert s == [s[0]] + s[1..];
      if p(s[0]) then [s[0]] + Filter(s[1..], p) else Filter(s[1..], p)
  }

  /** Keys never increase from left to right: the order of a descending comparator. */
  ghost predicate NonIncreasing<T>(s: seq<T>, key: T -> int) {
    forall i, j :: 0 <= i < j < |s| ==> key(s[i]) >= key(s[j])
  }

  /** The elements of `s` whose key is `k`, in their order in `s`. */
  function WithKey<T>(s: seq<T>, key: T -> int, k: int): seq<T> {
    if s == [] then [] else (if key(s[0]) == k then [s[0]] else []) + WithKey(s[1..], key, k)
  }

  /**
   * Places `x` in front of the first element whose key is not larger than its own,
   * so that `x` keeps its place before the elements it came before in the input.
   */
  function Insert<T>(x: T, s: seq<T>, key: T -> int): (r: seq<T>)
    ensures |r| == |s| + 1
    ensures multiset(r) == multiset(s) + multiset{x}
  {
    if s == [] || key(x) >= key(s[0]) then [x] + s
    else
      assert s == [s[0]] + s[1..];
      [s[0]] + Insert(x, s[1..], key)
  }

  /** Inserting an element bounded by `b` into a sequence bounded by `b` keeps every key bounded by `b`. */
  lemma {:induction false} InsertBounded<T>(x: T, s: seq<T>, key: T -> int, b: int)
    requires key(x) <= b
    requires forall i :: 0 <= i < |s| ==> key(s[i]) <= b
    ensures forall i :: 0 <= i < |Insert(x, s, key)| ==> key(Insert(x, s, key)[i]) <= b
  {
    if s != [] && key(x) < key(s[0]) {
      InsertBounded(x, s[1..], key, b);
    }
  }

  lemma {:induction false} InsertNonIncreasing<T>(x: T, s: seq<T>, key: T -> int)
    requires NonIncreasing(s, key)
    ensures NonIncreasing(Insert(x, s, key), key)
  {
    if s == [] || key(x) >= key(s[0]) {
    } else {
      var t := Insert(x, s[1..], key);
      NonIncreasingTail(s, key);
      InsertNonIncreasing(x, s[1..], key);
      assert forall i :: 0 <= i < |s[1..]| ==> key(s[1..][i]) <= key(s[0]) by {
        forall i | 0 <= i < |s[1..]| ensures key(s[1..][i]) <= key(s[0]) {
          assert s[1..][i] == s[i + 1];
        }
      }
      InsertBounded(x, s[1..], key, key(s[0]));
      var r := [s[0]] + t;
      forall i, j | 0 <= i < j < |r| ensures key(r[i]) >= key(r[j]) {
        if i == 0 {
          assert r[j] == t[j - 1];
        } else {
          assert r[i] == t[i - 1] && r[j] == t[j - 1];
        }
      }
    }
  }

  /** Stable sort into non-increasing key order (`s.sort((a, b) => key(b) - key(a))`). */
  function SortDesc<T>(s: seq<T>, key: T -> int): (r: seq<T>)
    ensures multiset(r) == multiset(s)
    ensures |r| == |s|
    ensures NonIncreasing(r, key)
  {
    if s == [] then []
    else
      assert s == [s[0]] + s[1..];
      var t := SortDesc(s[1..], key);
      InsertNonIncreasing(s[0], t, key);
      Insert(s[0], t, key)
  }

  lemma NonIncreasingTail<T>(s: seq<T>, key: T -> int)
    requires NonIncreasing(s, key) && s != []
    ensures NonIncreasing(s[1..], key)
  {
    forall i, j | 0 <= i < j < |s[1..]| ensures key(s[1..][i]) >= key(s[1..][j]) {
      assert s[1..][i] == s[i + 1] && s[1..][j] == s[j + 1];
    }
  }

  lemma WithKeyCons<T>(y: T, t: seq<T>, key: T -> int, k: int)
    ensures WithKey([y] + t, key, k) == if key(y) == k then [y] + WithKey(t, key, k) else WithKey(t, key, k)
  {
    assert ([y] + t)[1..] == t;
  }

  /** One step of `InsertStable`: passing over a larger head keeps the result for the tail. */
  lemma InsertStableStep<T>(x: T, s: seq<T>, key: T -> int, k: int)
    requires s != [] && key(x) < key(s[0])
    requires WithKey(Insert(x, s[1..], key), key, k) == if key(x) == k then [x] + WithKey(s[1..], key, k) else WithKey(s[1..], key, k)
    ensures WithKey(Insert(x, s, key), key, k) == if key(x) == k then [x] + WithKey(s, key, k) else WithKey(s, key, k)
  {
    var t := Insert(x, s[1..], key);
    assert Insert(x, s, key) == [s[0]] + t;
    assert s == [s[0]] + s[1..];
    WithKeyCons(s[0], t, key, k);
    WithKeyCons(s[0], s[1..], key, k);
    if key(s[0]) == k {
      assert WithKey(t, key, k) == WithKey(s[1..], key, k);
    } else if key(x) == k {
      assert WithKey(Insert(x, s, key), key, k) == WithKey(t, key, k) == [x] + WithKey(s[1..], key, k);
    } else {
      assert WithKey(Insert(x, s, key), key, k) == WithKey(t, key, k) == WithKey(s[1..], key, k);
    }
  }

  lemma {:induction false} InsertStable<T>(x: T, s: seq<T>, key: T -> int, k: int)
    requires NonIncreasing(s, key)
    ensures WithKey(Insert(x, s, key), key, k) == if key(x) == k then [x] + WithKey(s, key, k) else WithKey(s, key, k)
  {
    if s == [] || key(x) >= key(s[0]) {
      WithKeyCons(x, s, key, k);
    } else {
      NonIncreasingTail(s, key);
      InsertStable(x, s[1..], key, k);
      InsertStableStep(x, s, key, k);
    }
  }

  /** The sort is stable: elements with equal keys keep their relative order. */
  lemma {:induction false} SortDescStable<T>(s: seq<T>, key: T -> int, k: int)
    ensures WithKey(SortDesc(s, key), key, k) == WithKey(s, key, k)
  {
    if s != [] {
      var t := SortDesc(s[1..], key);
      assert SortDesc(s, key) == Insert(s[0], t, key);
      SortDescStable(s[1..], key, k);
      InsertStable(s[0], t, key, k);
      if key(s[0]) != k {
        assert WithKey(s, key, k) == [] + WithKey(s[1..], key, k) == WithKey(s[1..], key, k);
      }
    }
  }

  /**
   * `s.sort(desc by key).slice(0, limit)`: the at most `limit` entries with the largest keys,
   * largest first; every entry left out has a key no larger than any entry kept.
   */
  function TopBy<T(!new)>(s: seq<T>, key: T -> int, limit: int): (r: seq<T>)
    ensures multiset(r) <= multiset(s)
    ensures NonIncreasing(r, key)
    ensures limit >= 0 ==> |r| == if limit < |s| then limit else |s|
    ensures limit >= |s| ==> multiset(r) == multiset(s)
    ensures forall x, y :: x in multiset(s) - multiset(r) && y in r ==> key(x) <= key(y)
    ensures forall x :: x in r ==> x in s
    ensures 0 <= |r| < limit ==> forall x :: x in s ==> x in r
    ensures forall x, y :: x in s && x !in r && y in r ==> key(x) <= key(y)
  {
    var t := SortDesc(s, key);
    var r := SliceTo(t, limit);
    TopByFacts(t, r, key);
    assert 0 <= |r| < limit ==> forall x :: x in s ==> x in r by {
      if 0 <= |r| < limit {
        forall x | x in s ensures x in r {
          assert x in multiset(s);
        }
      }
    }
    forall x | x in r ensures x in s {
      assert x in multiset(r);
    }
    forall x, y | x in s && x !in r && y in r ensures key(x) <= key(y) {
      assert x in multiset(s) - multiset(r);
    }
    r
  }

  lemma TopByFacts<T>(t: seq<T>, r: seq<T>, key: T -> int)
    requires NonIncreasing(t, key) && r <= t
    ensures multiset(r) <= multiset(t)
    ensures NonIncreasing(r, key)
    ensures forall x, y :: x in multiset(t) - multiset(r) && y in r ==> key(x) <= key(y)
  {
    var m := |r|;
    var rest := t[m..];
    assert t == r + rest;
    assert multiset(t) - multiset(r) == multiset(rest);
    SuffixBelowPrefix(t, m, key);
  }

  /** In a non-increasing sequence, every element after position `m` has a key no larger than any before it. */
  lemma SuffixBelowPrefix<T>(t: seq<T>, m: nat, key: T -> int)
    requires NonIncreasing(t, key) && m <= |t|
    ensures forall x, y :: x in t[m..] && y in t[..m] ==> key(x) <= key(y)
  {
    forall x, y | x in t[m..] && y in t[..m] ensures key(x) <= key(y) {
      var j :| 0 <= j < |t[m..]| && t[m..][j] == x;
      var i :| 0 <= i < m && t[..m][i] == y;
      assert t[i] == y && t[m + j] == x;
    }
  }

  /** Keeping a prefix keeps a prefix of the elements with each key. */
  lemma {:induction false} WithKeyPrefix<T>(r: seq<T>, t: seq<T>, key: T -> int, k: int)
    requires r <= t
    ensures WithKey(r, key, k) <= WithKey(t, key, k)
  {
    if r != [] {
      assert r[0] == t[0] && r[1..] <= t[1..];
      WithKeyPrefix(r[1..], t[1..], key, k);
    }
  }

  /**
   * Ties are broken by input order: among the elements with key `k`, those `TopBy` keeps are the
   * first ones of the input, in input order.
   */
  lemma TopByStable<T(!new)>(s: seq<T>, key: T -> int, limit: int, k: int)
    ensures WithKey(TopBy(s, key, limit), key, k) <= WithKey(s, key, k)
  {
    var t := SortDesc(s, key);
    WithKeyPrefix(TopBy(s, key, limit), t, key, k);
    SortDescStable(s, key, k);
  }

  /**
   * `s.filter(p).sort(desc by key).slice(0, limit)`: only entries satisfying `p`, largest key
   * first, at most `limit` of them, all of them when fewer than `limit` are returned, and no
   * entry left out has a larger key than an entry returned.
   */
  function TopWhere<T(!new)>(s: seq<T>, p: T -> bool, key: T -> int, limit: int): (r: seq<T>)
    ensures multiset(r) <= multiset(s)
    ensures limit >= 0 ==> |r| == if limit < |Filter(s, p)| then limit else |Filter(s, p)|
    ensures forall x :: x in r ==> x in s && p(x)
    ensures NonIncreasing(r, key)
    ensures limit >= 0 ==> |r| <= limit
    ensures 0 <= |r| < limit ==> forall x :: x in s && p(x) ==> x in r
    ensures forall x, y :: x in s && p(x) && x !in r && y in r ==> key(x) <= key(y)
  {
    var m := Filter(s, p);
    var r := TopBy(m, key, limit);
    TopWhereFacts(s, p, m, r, key, limit);
    r
  }

  lemma TopWhereFacts<T(!new)>(s: seq<T>, p: T -> bool, m: seq<T>, r: seq<T>, key: T -> int, limit: int)
    requires m == Filter(s, p) && r == TopBy(m, key, limit)
    ensures forall x :: x in r ==> x in s && p(x)
    ensures 0 <= |r| < limit ==> forall x :: x in s && p(x) ==> x in r
    ensures forall x, y :: x in s && p(x) && x !in r && y in r ==> key(x) <= key(y)
  {
    forall x | x in r ensures x in s && p(x) {
      assert x in multiset(r);
    }
    if 0 <= |r| < limit {
      forall x | x in s && p(x) ensures x in r {
        assert x in multiset(m);
      }
    }
    forall x, y | x in s && p(x) && x !in r && y in r ensures key(x) <= key(y) {
      assert x in multiset(m) && x !in multiset(r);
      assert x in multiset(m) - multiset(r);
    }
  }

  /** Strictly ascending under `id`: the order of rows of an auto-increment store. */
  ghost predicate Ascending<T>(s: seq<T>, id: T -> int) {
    forall i, j :: 0 <= i < j < |s| ==> id(s[i]) < id(s[j])
  }

  lemma AscendingTail<T>(s: seq<T>, id: T -> int)
    requires Ascending(s, id) && s != []
    ensures Ascending(s[1..], id)
    ensures forall y :: y in s[1..] ==> id(s[0]) < id(y)
  {
    forall y | y in s[1..] ensures id(s[0]) < id(y) {
      var j :| 0 <= j < |s[1..]| && s[1..][j] == y;
      assert s[j + 1] == y;
    }
  }

  lemma AscendingCons<T>(x: T, t: seq<T>, id: T -> int)
    requires Ascending(t, id) && forall y :: y in t ==> id(x) < id(y)
    ensures Ascending([x] + t, id)
  {
    var r := [x] + t;
    forall i, j | 0 <= i < j < |r| ensures id(r[i]) < id(r[j]) {
      assert r[j] == t[j - 1] && r[j] in t;
      if i > 0 { assert r[i] == t[i - 1]; }
    }
  }

  /** Filtering keeps the order of the kept elements. */
  lemma {:induction false} FilterAscending<T(!new)>(s: seq<T>, p: T -> bool, id: T -> int)
    requires Ascending(s, id)
    ensures Ascending(Filter(s, p), id)
  {
    if s != [] {
      AscendingTail(s, id);
      FilterAscending(s[1..], p, id);
      var t := Filter(s[1..], p);
      if p(s[0]) {
        AscendingCons(s[0], t, id);
      }
    }
  }
}
