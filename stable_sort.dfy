/**
 * Python's `sorted(xs, key=k, reverse=r)`: a stable sort. With `reverse=True`
 * Python still keeps elements with equal keys in their original order, so both
 * directions are modelled by one stable insertion sort. Keys are pairs of
 * integers compared lexicographically, which covers the single-number keys
 * and the `(relevance, similarity)` tuples the services sort by.
 */
module StableSort {
  type Key = (int, int)

  predicate KeyLess(a: Key, b: Key) {
    a.0 < b.0 || (a.0 == b.0 && a.1 < b.1)
  }

  /** `x` must come strictly before `y` in the sorted output. */
  predicate Before<T>(key: T -> Key, desc: bool, x: T, y: T) {
    if desc then KeyLess(key(y), key(x)) else KeyLess(key(x), key(y))
  }

  /** No element is required to come before an earlier one. */
  predicate Ordered<T>(key: T -> Key, desc: bool, s: seq<T>) {
    forall i, j :: 0 <= i < j < |s| ==> !Before(key, desc, s[j], s[i])
  }

  /** The elements of `s` whose key is `k`, in their order in `s`. */
  function WithKey<T>(key: T -> Key, k: Key, s: seq<T>): (r: seq<T>)
    ensures |r| <= |s|
  {
    if s == [] then []
    else WithKey(key, k, s[..|s| - 1]) + (if key(s[|s| - 1]) == k then [s[|s| - 1]] else [])
  }

  /** Puts `x` after every element of `s` it need not precede. */
  function Insert<T>(key: T -> Key, desc: bool, s: seq<T>, x: T): (r: seq<T>)
    ensures |r| == |s| + 1
    ensures multiset(r) == multiset(s) + multiset{x}
  {
    if s == [] || !Before(key, desc, x, s[|s| - 1]) then s + [x]
    else
      var r := Insert(key, desc, s[..|s| - 1], x) + [s[|s| - 1]];
      assert s == s[..|s| - 1] + [s[|s| - 1]];
      r
  }

  /** `sorted(s, key=key, reverse=desc)`. */
  function Sort<T>(key: T -> Key, desc: bool, s: seq<T>): (r: seq<T>)
    ensures |r| == |s|
    ensures multiset(r) == multiset(s)
  {
    if s == [] then []
    else
      assert s == s[..|s| - 1] + [s[|s| - 1]];
      Insert(key, desc, Sort(key, desc, s[..|s| - 1]), s[|s| - 1])
  }

  lemma {:induction false} WithKeyAppend<T>(key: T -> Key, k: Key, a: seq<T>, b: seq<T>)
    ensures WithKey(key, k, a + b) == WithKey(key, k, a) + WithKey(key, k, b)
    decreases |b|
  {
    if b == [] {
      assert a + b == a;
    } else {
      assert (a + b)[..|a + b| - 1] == a + b[..|b| - 1];
      WithKeyAppend(key, k, a, b[..|b| - 1]);
    }
  }

  lemma {:induction false} InsertInSet<T>(key: T -> Key, desc: bool, s: seq<T>, x: T, y: T)
    requires y in Insert(key, desc, s, x)
    ensures y == x || y in s
  {
    assert y in multiset(Insert(key, desc, s, x));
  }

  lemma {:induction false} InsertOrdered<T>(key: T -> Key, desc: bool, s: seq<T>, x: T)
    requires Ordered(key, desc, s)
    ensures Ordered(key, desc, Insert(key, desc, s, x))
    decreases |s|
  {
    if s == [] || !Before(key, desc, x, s[|s| - 1]) {
    } else {
      var p := s[..|s| - 1];
      var last := s[|s| - 1];
      InsertOrdered(key, desc, p, x);
      var q := Insert(key, desc, p, x);
      forall e | e in q ensures !Before(key, desc, last, e) {
        InsertInSet(key, desc, p, x, e);
      }
      var r := q + [last];
      forall i, j | 0 <= i < j < |r| ensures !Before(key, desc, r[j], r[i]) {
        if j == |r| - 1 {
          assert r[i] in q;
        } else {
          assert r[i] == q[i] && r[j] == q[j];
        }
      }
    }
  }

  lemma {:induction false} InsertWithKey<T>(key: T -> Key, desc: bool, k: Key, s: seq<T>, x: T)
    ensures WithKey(key, k, Insert(key, desc, s, x)) == WithKey(key, k, s + [x])
    decreases |s|
  {
    if s == [] || !Before(key, desc, x, s[|s| - 1]) {
    } else {
      var p := s[..|s| - 1];
      var last := s[|s| - 1];
      assert key(x) != key(last);
      var q := Insert(key, desc, p, x);
      var fx := WithKey(key, k, [x]);
      var fl := WithKey(key, k, [last]);
      assert fx == [] || fl == [];
      calc {
        WithKey(key, k, q + [last]);
        { WithKeyAppend(key, k, q, [last]); }
        WithKey(key, k, q) + fl;
        { InsertWithKey(key, desc, k, p, x); WithKeyAppend(key, k, p, [x]); }
        WithKey(key, k, p) + fx + fl;
        WithKey(key, k, p) + fl + fx;
        { WithKeyAppend(key, k, p, [last]); }
        WithKey(key, k, p + [last]) + fx;
        { WithKeyAppend(key, k, p + [last], [x]); assert s == p + [last]; }
        WithKey(key, k, s + [x]);
      }
    }
  }

  /** The result is in key order. */
  lemma {:induction false} SortOrdered<T>(key: T -> Key, desc: bool, s: seq<T>)
    ensures Ordered(key, desc, Sort(key, desc, s))
    decreases |s|
  {
    if s != [] {
      SortOrdered(key, desc, s[..|s| - 1]);
      InsertOrdered(key, desc, Sort(key, desc, s[..|s| - 1]), s[|s| - 1]);
    }
  }

  /** Stability: elements with equal keys keep their original relative order. */
  lemma {:induction false} SortStable<T>(key: T -> Key, desc: bool, k: Key, s: seq<T>)
    ensures WithKey(key, k, Sort(key, desc, s)) == WithKey(key, k, s)
    decreases |s|
  {
    if s != [] {
      var p := s[..|s| - 1];
      var x := s[|s| - 1];
      var sp := Sort(key, desc, p);
      calc {
        WithKey(key, k, Sort(key, desc, s));
        WithKey(key, k, Insert(key, desc, sp, x));
        { InsertWithKey(key, desc, k, sp, x); }
        WithKey(key, k, sp + [x]);
        { WithKeyAppend(key, k, sp, [x]); }
        WithKey(key, k, sp) + WithKey(key, k, [x]);
        { SortStable(key, desc, k, p); }
        WithKey(key, k, p) + WithKey(key, k, [x]);
        { WithKeyAppend(key, k, p, [x]); assert s == p + [x]; }
        WithKey(key, k, s);
      }
    }
  }
}
