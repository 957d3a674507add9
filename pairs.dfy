/**
 * The nested loop `for i, a in enumerate(items): for b in items[i+1:]` that
 * visits every unordered pair of a list once, in order: the pairs it visits,
 * how many there are, and the list of per-pair results it builds.
 */
module Pairs {

  /** `(i, i + 1), …, (i, j - 1)`: the inner loop for one first document. */
  function Row(i: nat, j: nat): (r: seq<(nat, nat)>)
    ensures forall k :: 0 <= k < |r| ==> r[k].0 == i && i < r[k].1 < j
    decreases j
  {
    if j <= i + 1 then [] else Row(i, j - 1) + [(i, j - 1)]
  }

  /** Every pair `(a, b)`, `a < b < n`, visited before the outer loop reaches `i`. */
  function PairsBelow(i: nat, n: nat): (r: seq<(nat, nat)>)
    ensures forall k :: 0 <= k < |r| ==> r[k].0 < i && r[k].0 < r[k].1 < n
    decreases i
  {
    if i == 0 then [] else PairsBelow(i - 1, n) + Row(i - 1, n)
  }

  /** The pairs `(i, j)` in the order `for i, doc1 in enumerate(names): for doc2 in names[i+1:]` visits them. */
  function AllPairs(n: nat): seq<(nat, nat)> {
    PairsBelow(n, n)
  }

  predicate PairLess(p: (nat, nat), q: (nat, nat)) {
    p.0 < q.0 || (p.0 == q.0 && p.1 < q.1)
  }

  lemma {:induction false} RowLength(i: nat, j: nat)
    ensures |Row(i, j)| == if j <= i + 1 then 0 else j - i - 1
    decreases j
  {
    if j > i + 1 {
      RowLength(i, j - 1);
    }
  }

  lemma {:induction false} PairsBelowLength(i: nat, n: nat)
    requires i <= n
    ensures 2 * |PairsBelow(i, n)| == i * (2 * n - i - 1)
    decreases i
  {
    if i > 0 {
      PairsBelowLength(i - 1, n);
      RowLength(i - 1, n);
      assert |PairsBelow(i, n)| == |PairsBelow(i - 1, n)| + (n - i);
      PairCountStep(i, n);
    }
  }

  lemma PairCountStep(i: int, n: int)
    ensures (i - 1) * (2 * n - (i - 1) - 1) + 2 * (n - i) == i * (2 * n - i - 1)
  {
    assert (i - 1) * (2 * n - (i - 1) - 1) == i * (2 * n - i) - (2 * n - i);
    assert i * (2 * n - i - 1) == i * (2 * n - i) - i;
  }

  /** The number of pairs `a < b < n`: the pairs below `n - 1` and one more per smaller `a`. */
  function PairCount(n: nat): nat {
    if n == 0 then 0 else PairCount(n - 1) + (n - 1)
  }

  /** `n(n-1)/2`. */
  lemma {:induction false} PairCountFormula(n: nat)
    ensures 2 * PairCount(n) == n * (n - 1)
  {
    if n > 0 {
      PairCountFormula(n - 1);
      assert (n - 1) * (n - 2) + 2 * (n - 1) == n * (n - 1);
    }
  }

  /** Every pair of distinct positions is compared once. */
  lemma AllPairsCount(n: nat)
    ensures |AllPairs(n)| == PairCount(n)
  {
    PairsBelowLength(n, n);
    PairCountFormula(n);
  }

  lemma {:induction false} RowMembers(i: nat, j: nat, p: (nat, nat))
    ensures p in Row(i, j) <==> p.0 == i && i < p.1 < j
    decreases j
  {
    if j > i + 1 {
      RowMembers(i, j - 1, p);
    }
  }

  lemma {:induction false} PairsBelowMembers(i: nat, n: nat, p: (nat, nat))
    ensures p in PairsBelow(i, n) <==> p.0 < i && p.0 < p.1 < n
    decreases i
  {
    if i > 0 {
      PairsBelowMembers(i - 1, n, p);
      RowMembers(i - 1, n, p);
    }
  }

  /** Every pair `a < b < n` is compared, and nothing else is. */
  lemma AllPairsMembers(n: nat, p: (nat, nat))
    ensures p in AllPairs(n) <==> p.0 < p.1 < n
  {
    PairsBelowMembers(n, n, p);
  }

  lemma {:induction false} RowOrdered(i: nat, j: nat)
    ensures forall a, b :: 0 <= a < b < |Row(i, j)| ==> PairLess(Row(i, j)[a], Row(i, j)[b])
    decreases j
  {
    if j > i + 1 {
      RowOrdered(i, j - 1);
    }
  }

  lemma {:induction false} PairsBelowOrdered(i: nat, n: nat)
    ensures forall a, b :: 0 <= a < b < |PairsBelow(i, n)| ==> PairLess(PairsBelow(i, n)[a], PairsBelow(i, n)[b])
    decreases i
  {
    if i > 0 {
      PairsBelowOrdered(i - 1, n);
      RowOrdered(i - 1, n);
    }
  }

  /** The pairs come in strictly increasing order, so no pair is compared twice. */
  lemma AllPairsOnce(n: nat)
    ensures forall a, b :: 0 <= a < b < |AllPairs(n)| ==> PairLess(AllPairs(n)[a], AllPairs(n)[b])
    ensures forall a, b :: 0 <= a < b < |AllPairs(n)| ==> AllPairs(n)[a] != AllPairs(n)[b]
  {
    PairsBelowOrdered(n, n);
  }

  /** Pairs of positions in a list of `n` items. */
  predicate PairsWithin(pairs: seq<(nat, nat)>, n: nat) {
    forall k :: 0 <= k < |pairs| ==> pairs[k].0 < n && pairs[k].1 < n
  }

  lemma AllPairsWithin(n: nat)
    ensures PairsWithin(AllPairs(n), n)
  {
    forall k | 0 <= k < |AllPairs(n)| ensures AllPairs(n)[k].0 < n && AllPairs(n)[k].1 < n {
      AllPairsMembers(n, AllPairs(n)[k]);
    }
  }

  // ----- the per-pair results -----

  /** `f` applied to the items at each pair, in order; a pair outside `items` (one the loops never visit) is skipped. */
  function PairMap<T, U>(items: seq<T>, pairs: seq<(nat, nat)>, f: (T, T) -> U): seq<U> {
    if pairs == [] then []
    else
      var p := pairs[|pairs| - 1];
      PairMap(items, pairs[..|pairs| - 1], f)
        + (if p.0 < |items| && p.1 < |items| then [f(items[p.0], items[p.1])] else [])
  }

  lemma PairMapSnoc<T, U>(items: seq<T>, pairs: seq<(nat, nat)>, p: (nat, nat), f: (T, T) -> U)
    requires p.0 < |items| && p.1 < |items|
    ensures PairMap(items, pairs + [p], f) == PairMap(items, pairs, f) + [f(items[p.0], items[p.1])]
  {
    assert (pairs + [p])[..|pairs|] == pairs;
  }

  /** `PairMap` distributes over concatenation. */
  lemma {:induction false} PairMapAppend<T, U>(items: seq<T>, a: seq<(nat, nat)>, b: seq<(nat, nat)>, f: (T, T) -> U)
    ensures PairMap(items, a + b, f) == PairMap(items, a, f) + PairMap(items, b, f)
    decreases |b|
  {
    if b == [] {
      assert a + b == a;
    } else {
      var init := b[..|b| - 1];
      assert (a + b)[..|a + b| - 1] == a + init;
      assert (a + b)[|a + b| - 1] == b[|b| - 1];
      PairMapAppend(items, a, init, f);
    }
  }

  /** Pairs within `items` give one result each. */
  lemma {:induction false} PairMapLength<T, U>(items: seq<T>, pairs: seq<(nat, nat)>, f: (T, T) -> U)
    requires PairsWithin(pairs, |items|)
    ensures |PairMap(items, pairs, f)| == |pairs|
    decreases |pairs|
  {
    if pairs != [] {
      var init := pairs[..|pairs| - 1];
      assert PairsWithin(init, |items|) by {
        forall j | 0 <= j < |init| ensures init[j] == pairs[j] {}
      }
      PairMapLength(items, init, f);
    }
  }

  /** The `k`th result is `f` at the `k`th pair. */
  lemma {:induction false} PairMapAt<T, U>(items: seq<T>, pairs: seq<(nat, nat)>, f: (T, T) -> U, k: nat)
    requires PairsWithin(pairs, |items|) && k < |pairs|
    ensures |PairMap(items, pairs, f)| == |pairs|
    ensures PairMap(items, pairs, f)[k] == f(items[pairs[k].0], items[pairs[k].1])
    decreases |pairs|
  {
    PairMapLength(items, pairs, f);
    var init := pairs[..|pairs| - 1];
    assert PairsWithin(init, |items|) by {
      forall j | 0 <= j < |init| ensures init[j] == pairs[j] {}
    }
    PairMapLength(items, init, f);
    if k < |init| {
      PairMapAt(items, init, f, k);
      assert init[k] == pairs[k];
    }
  }

  /** One result for every pair `a < b < |items|`. */
  lemma EveryPairCount<T, U>(items: seq<T>, f: (T, T) -> U)
    ensures |PairMap(items, AllPairs(|items|), f)| == PairCount(|items|)
  {
    AllPairsWithin(|items|);
    PairMapLength(items, AllPairs(|items|), f);
    AllPairsCount(|items|);
  }

  // ----- the loops -----

  /** The results of the inner loop for `i` once it has reached `j`. */
  function RowMap<T, U>(items: seq<T>, i: nat, j: nat, f: (T, T) -> U): seq<U>
    requires i < |items| && j <= |items|
    decreases j
  {
    if j <= i + 1 then [] else RowMap(items, i, j - 1, f) + [f(items[i], items[j - 1])]
  }

  /** The results of the outer loop once `i` rows are done. */
  function MapBelow<T, U>(items: seq<T>, i: nat, f: (T, T) -> U): seq<U>
    requires i <= |items|
  {
    if i == 0 then [] else MapBelow(items, i - 1, f) + RowMap(items, i - 1, |items|, f)
  }

  lemma {:induction false} RowMapBridge<T, U>(items: seq<T>, i: nat, j: nat, f: (T, T) -> U)
    requires i < |items| && j <= |items|
    ensures RowMap(items, i, j, f) == PairMap(items, Row(i, j), f)
    decreases j
  {
    if j > i + 1 {
      RowMapBridge(items, i, j - 1, f);
      PairMapSnoc(items, Row(i, j - 1), (i, j - 1), f);
    }
  }

  lemma {:induction false} MapBelowBridge<T, U>(items: seq<T>, i: nat, f: (T, T) -> U)
    requires i <= |items|
    ensures MapBelow(items, i, f) == PairMap(items, PairsBelow(i, |items|), f)
  {
    if i > 0 {
      MapBelowBridge(items, i - 1, f);
      RowMapBridge(items, i - 1, |items|, f);
      PairMapAppend(items, PairsBelow(i - 1, |items|), Row(i - 1, |items|), f);
    }
  }

  /** The nested loop: `f` at every pair `i < j`, in the order the loops visit them. */
  method MapEveryPair<T, U>(items: seq<T>, f: (T, T) -> U) returns (r: seq<U>)
    ensures r == PairMap(items, AllPairs(|items|), f)
  {
    var n := |items|;
    r := [];
    for i := 0 to n
      invariant r == MapBelow(items, i, f)
    {
      for j := i + 1 to n
        invariant r == MapBelow(items, i, f) + RowMap(items, i, j, f)
      {
        r := r + [f(items[i], items[j])];
      }
    }
    MapBelowBridge(items, n, f);
  }
}
