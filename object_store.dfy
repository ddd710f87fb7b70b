/**
 * An IndexedDB object store, held in memory. A store with an in-line key path keeps one
 * record per key, in ascending key order (the order `getAll` returns); a store with a key
 * generator keeps rows in ascending id order.
 */
module ObjectStore {
  import opened Wrappers
  import opened Sorting

  /** Lexicographic order on strings, the order of string keys in an object store. */
  predicate LexLess(a: string, b: string) {
    |b| > 0 && (|a| == 0 || a[0] < b[0] || (a[0] == b[0] && LexLess(a[1..], b[1..])))
  }

  lemma {:induction false} LexLessIrreflexive(a: string)
    ensures !LexLess(a, a)
  {
    if |a| > 0 {
      LexLessIrreflexive(a[1..]);
    }
  }

  lemma {:induction false} LexLessTransitive(a: string, b: string, c: string)
    requires LexLess(a, b) && LexLess(b, c)
    ensures LexLess(a, c)
  {
    if |a| > 0 && a[0] == b[0] && b[0] == c[0] {
      LexLessTransitive(a[1..], b[1..], c[1..]);
    }
  }

  lemma {:induction false} LexLessTotal(a: string, b: string)
    requires a != b
    ensures LexLess(a, b) || LexLess(b, a)
  {
    if |a| > 0 && |b| > 0 && a[0] == b[0] {
      assert a == [a[0]] + a[1..] && b == [b[0]] + b[1..];
      LexLessTotal(a[1..], b[1..]);
    }
  }

  /** Keys strictly ascending: at most one record per key, in key order. */
  ghost predicate KeyOrdered<T>(s: seq<T>, key: T -> string) {
    forall i, j :: 0 <= i < j < |s| ==> LexLess(key(s[i]), key(s[j]))
  }

  lemma KeyOrderedUnique<T>(s: seq<T>, key: T -> string, x: T, y: T)
    requires KeyOrdered(s, key) && x in s && y in s && key(x) == key(y)
    ensures x == y
  {
    var i :| 0 <= i < |s| && s[i] == x;
    var j :| 0 <= j < |s| && s[j] == y;
    LexLessIrreflexive(key(x));
  }

  lemma KeyOrderedTail<T>(s: seq<T>, key: T -> string)
    requires KeyOrdered(s, key) && s != []
    ensures KeyOrdered(s[1..], key)
    ensures forall y :: y in s[1..] ==> LexLess(key(s[0]), key(y))
  {
    forall y | y in s[1..] ensures LexLess(key(s[0]), key(y)) {
      var j :| 0 <= j < |s[1..]| && s[1..][j] == y;
      assert s[j + 1] == y;
    }
  }

  /** `store.get(k)`: the record stored under key `k`, if any. */
  function Get<T>(s: seq<T>, k: string, key: T -> string): (r: Option<T>)
    ensures r.Some? ==> r.value in s && key(r.value) == k
    ensures r.None? ==> forall x :: x in s ==> key(x) != k
  {
    if s == [] then None
    else if key(s[0]) == k then Some(s[0])
    else Get(s[1..], k, key)
  }

  /** `store.put(x)`: inserts `x` at its key's place, replacing the record stored under that key. */
  function Put<T>(s: seq<T>, x: T, key: T -> string): (r: seq<T>)
    requires KeyOrdered(s, key)
    ensures KeyOrdered(r, key)
    ensures x in r
    ensures forall y :: y in r ==> y == x || (y in s && key(y) != key(x))
    ensures forall y :: y in s && key(y) != key(x) ==> y in r
  {
    if s == [] then [x]
    else if key(x) == key(s[0]) then
      KeyOrderedTail(s, key);
      forall y | y in s[1..] ensures LexLess(key(x), key(y)) && y in s && key(y) != key(x) {
        LexLessIrreflexive(key(y));
      }
      PrependOrdered(x, s[1..], key);
      [x] + s[1..]
    else if LexLess(key(x), key(s[0])) then
      KeyOrderedTail(s, key);
      forall y | y in s ensures LexLess(key(x), key(y)) && key(y) != key(x) {
        if y != s[0] { LexLessTransitive(key(x), key(s[0]), key(y)); }
        LexLessIrreflexive(key(y));
      }
      PrependOrdered(x, s, key);
      [x] + s
    else
      KeyOrderedTail(s, key);
      LexLessTotal(key(x), key(s[0]));
      var t := Put(s[1..], x, key);
      PrependOrdered(s[0], t, key);
      assert s == [s[0]] + s[1..];
      [s[0]] + t
  }

  lemma PrependOrdered<T>(x: T, s: seq<T>, key: T -> string)
    requires KeyOrdered(s, key)
    requires forall y :: y in s ==> LexLess(key(x), key(y))
    ensures KeyOrdered([x] + s, key)
  {
    var r := [x] + s;
    forall i, j | 0 <= i < j < |r| ensures LexLess(key(r[i]), key(r[j])) {
      assert r[j] == s[j - 1];
      if i > 0 { assert r[i] == s[i - 1]; }
    }
  }

  /** After `put(x)`, `get` finds `x` under its key and every other key's record as before. */
  lemma GetAfterPut<T>(s: seq<T>, x: T, key: T -> string, k: string)
    requires KeyOrdered(s, key)
    ensures Get(Put(s, x, key), k, key) == if k == key(x) then Some(x) else Get(s, k, key)
  {
    var r := Put(s, x, key);
    var g := Get(r, k, key);
    if k == key(x) {
      KeyOrderedUnique(r, key, g.value, x);
    } else {
      var h := Get(s, k, key);
      if g.Some? && h.Some? {
        KeyOrderedUnique(r, key, g.value, h.value);
      }
    }
  }

  /** A row of an auto-increment store: the generated key and the stored value. */
  datatype Row<T> = Row(id: nat, value: T)

  function RowId<T>(r: Row<T>): int { r.id }

  /** Generated keys start at 1, strictly ascend and stay below the next key to hand out. */
  ghost predicate AutoIds<T>(rows: seq<Row<T>>, next: nat) {
    && next >= 1
    && (forall i :: 0 <= i < |rows| ==> 1 <= rows[i].id < next)
    && Ascending(rows, RowId)
  }

  /** `store.add(value)` on an auto-increment store: the new row takes the next key. */
  lemma AddKeepsAutoIds<T>(rows: seq<Row<T>>, next: nat, value: T)
    requires AutoIds(rows, next)
    ensures AutoIds(rows + [Row(next, value)], next + 1)
    ensures forall r :: r in rows ==> r.id != next
  {
  }
}
