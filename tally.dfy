/**
 * Counting into a dictionary (`d[k] = (d[k] || 0) + 1` in a `forEach`) and summing a
 * dictionary's values (`Object.values(d).reduce(...)`, `Object.entries(d).reduce(...)`).
 */
module Tally {

  /** How many times each key occurs in `xs`; the keys of `base` are present even when they never occur. */
  function TallyOf(base: set<string>, xs: seq<string>): map<string, nat> {
    map k | k in base + (set x | x in xs) :: multiset(xs)[k]
  }

  /** `d[k] = (d[k] || 0) + 1`. */
  function Bump(d: map<string, nat>, k: string): map<string, nat> {
    d[k := (if k in d then d[k] else 0) + 1]
  }

  lemma TallyOfSnoc(base: set<string>, xs: seq<string>, x: string)
    ensures TallyOf(base, xs + [x]) == Bump(TallyOf(base, xs), x)
  {
    var a := TallyOf(base, xs + [x]);
    var b := Bump(TallyOf(base, xs), x);
    assert multiset(xs + [x]) == multiset(xs) + multiset{x};
    assert (set y | y in xs + [x]) == (set y | y in xs) + {x};
    assert a.Keys == b.Keys;
    forall k | k in a ensures a[k] == b[k] {
    }
  }

  /**
   * Counts every element of `xs` into a dictionary that starts with the keys of `base` at 0.
   * Each key of the result is a key of `base` or an element of `xs`, and holds that element's
   * number of occurrences; the counts add up to `|xs|`.
   */
  method Count(base: set<string>, xs: seq<string>) returns (d: map<string, nat>)
    ensures d == TallyOf(base, xs)
    ensures d.Keys == base + (set x | x in xs)
    ensures forall k :: k in d ==> d[k] == multiset(xs)[k]
    ensures SumBy(d, One) == |xs|
  {
    d := map k | k in base :: 0;
    for i := 0 to |xs|
      invariant d == TallyOf(base, xs[..i])
    {
      TallyOfSnoc(base, xs[..i], xs[i]);
      assert xs[..i + 1] == xs[..i] + [xs[i]];
      d := Bump(d, xs[i]);
    }
    assert xs[..|xs|] == xs;
    TallyTotal(base, xs, One);
    SeqSumByOne(xs);
  }

  /** The weight of every key: summing with it adds up the counts themselves. */
  function One(k: string): nat { 1 }

  ghost function Pick(m: map<string, nat>): string
    requires m != map[]
  {
    var k :| k in m; k
  }

  /** The sum over all entries of `w(key) * count`, in no particular order. */
  ghost function SumBy(m: map<string, nat>, w: string -> nat): nat
    decreases |m|
  {
    if m == map[] then 0
    else
      var k := Pick(m);
      assert (m - {k}).Keys == m.Keys - {k};
      w(k) * m[k] + SumBy(m - {k}, w)
  }

  /** The sum of `w(x)` over the elements of `xs`. */
  function SeqSumBy(xs: seq<string>, w: string -> nat): nat {
    if xs == [] then 0 else SeqSumBy(xs[..|xs| - 1], w) + w(xs[|xs| - 1])
  }

  lemma {:induction false} SeqSumByOne(xs: seq<string>)
    ensures SeqSumBy(xs, One) == |xs|
  {
    if xs != [] {
      SeqSumByOne(xs[..|xs| - 1]);
    }
  }

  /** The sum does not depend on which entry is taken first. */
  lemma {:induction false} SumByRemove(m: map<string, nat>, k: string, w: string -> nat)
    requires k in m
    ensures SumBy(m, w) == w(k) * m[k] + SumBy(m - {k}, w)
    decreases |m|
  {
    var p := Pick(m);
    if p != k {
      assert (m - {p}).Keys == m.Keys - {p};
      assert (m - {k}).Keys == m.Keys - {k};
      SumByRemove(m - {p}, k, w);
      SumByRemove(m - {k}, p, w);
      assert m - {p} - {k} == m - {k} - {p};
    }
  }

  lemma {:induction false} SumByZeros(m: map<string, nat>, w: string -> nat)
    requires forall k :: k in m ==> m[k] == 0
    ensures SumBy(m, w) == 0
    decreases |m|
  {
    if m != map[] {
      var k := Pick(m);
      assert (m - {k}).Keys == m.Keys - {k};
      SumByZeros(m - {k}, w);
    }
  }

  lemma SumByBump(m: map<string, nat>, k: string, w: string -> nat)
    ensures SumBy(Bump(m, k), w) == SumBy(m, w) + w(k)
  {
    var b := Bump(m, k);
    SumByRemove(b, k, w);
    assert b - {k} == m - {k};
    if k in m {
      SumByRemove(m, k, w);
      assert b[k] == m[k] + 1;
      assert w(k) * (m[k] + 1) == w(k) * m[k] + w(k);
    } else {
      assert b[k] == 1;
      assert m - {k} == m;
    }
  }

  /** Summing a tally by key weight is summing the weights of the counted elements one by one. */
  lemma {:induction false} TallyTotal(base: set<string>, xs: seq<string>, w: string -> nat)
    ensures SumBy(TallyOf(base, xs), w) == SeqSumBy(xs, w)
  {
    if xs == [] {
      SumByZeros(TallyOf(base, xs), w);
    } else {
      var ys := xs[..|xs| - 1];
      assert xs == ys + [xs[|xs| - 1]];
      TallyOfSnoc(base, ys, xs[|xs| - 1]);
      SumByBump(TallyOf(base, ys), xs[|xs| - 1], w);
      TallyTotal(base, ys, w);
    }
  }

  /** `Object.entries(d).reduce((s, [k, n]) => s + w(k) * n, 0)`. */
  method SumValues(d: map<string, nat>, w: string -> nat) returns (total: nat)
    ensures total == SumBy(d, w)
  {
    total := 0;
    var rest := d;
    while rest != map[]
      invariant total + SumBy(rest, w) == SumBy(d, w)
      decreases |rest|
    {
      var k :| k in rest;
      total := total + w(k) * rest[k];
      SumByRemove(rest, k, w);
      assert (rest - {k}).Keys == rest.Keys - {k};
      rest := rest - {k};
    }
  }
}
