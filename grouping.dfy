/**
 * Grouping into a `defaultdict(list)` keyed by a function of each element:
 * one entry per key met, in order of first appearance, each holding the
 * elements with that key in input order.
 */
module Grouping {
  datatype Group<K, T> = Group(key: K, members: seq<T>)

  /** The elements of `xs` whose key is `k`, in order. */
  function WithKey<K(==), T>(key: T -> K, xs: seq<T>, k: K): seq<T> {
    if xs == [] then []
    else WithKey(key, xs[..|xs| - 1], k) + (if key(xs[|xs| - 1]) == k then [xs[|xs| - 1]] else [])
  }

  function Keys<K, T>(groups: seq<Group<K, T>>): (r: seq<K>)
    ensures |r| == |groups| && forall i :: 0 <= i < |groups| ==> r[i] == groups[i].key
  {
    seq(|groups|, i requires 0 <= i < |groups| => groups[i].key)
  }

  /** The distinct keys of `xs`, each at the place where it first appears: the key order of the dict. */
  function FirstKeys<K(==), T>(key: T -> K, xs: seq<T>): seq<K> {
    if xs == [] then []
    else
      var init := FirstKeys(key, xs[..|xs| - 1]);
      if key(xs[|xs| - 1]) in init then init else init + [key(xs[|xs| - 1])]
  }

  /**
   * What a grouping of `xs` looks like: distinct keys in order of first
   * appearance, each group exactly its key's elements, every key present.
   */
  ghost predicate GroupsOf<K, T>(key: T -> K, xs: seq<T>, groups: seq<Group<K, T>>) {
    (forall i, j :: 0 <= i < j < |groups| ==> groups[i].key != groups[j].key)
    && Keys(groups) == FirstKeys(key, xs)
    && (forall i :: 0 <= i < |groups| ==>
          groups[i].members == WithKey(key, xs, groups[i].key) && groups[i].members != [])
    && (forall x :: x in xs ==> key(x) in Keys(groups))
  }

  lemma WithKeySnoc<K, T>(key: T -> K, xs: seq<T>, n: nat, k: K)
    requires n < |xs|
    ensures WithKey(key, xs[..n + 1], k) == WithKey(key, xs[..n], k) + (if key(xs[n]) == k then [xs[n]] else [])
  {
    assert xs[..n + 1][..n] == xs[..n];
  }

  lemma FirstKeysSnoc<K, T>(key: T -> K, xs: seq<T>, n: nat)
    requires n < |xs|
    ensures FirstKeys(key, xs[..n + 1])
            == FirstKeys(key, xs[..n]) + (if key(xs[n]) in FirstKeys(key, xs[..n]) then [] else [key(xs[n])])
  {
    assert xs[..n + 1][..n] == xs[..n];
  }

  /** There is only one grouping of `xs`: the keys fix the order and each key fixes its group. */
  lemma GroupsOfUnique<K, T>(key: T -> K, xs: seq<T>, g1: seq<Group<K, T>>, g2: seq<Group<K, T>>)
    requires GroupsOf(key, xs, g1) && GroupsOf(key, xs, g2)
    ensures g1 == g2
  {
    assert |g1| == |Keys(g1)| == |Keys(g2)| == |g2|;
    forall i | 0 <= i < |g1| ensures g1[i] == g2[i] {
      assert g1[i].key == Keys(g1)[i] == Keys(g2)[i] == g2[i].key;
    }
  }

  lemma {:induction false} WithKeyMember<K, T>(key: T -> K, xs: seq<T>, k: K)
    requires WithKey(key, xs, k) != []
    ensures exists x :: x in xs && key(x) == k
  {
    var p := xs[..|xs| - 1];
    if key(xs[|xs| - 1]) != k {
      WithKeyMember(key, p, k);
      var x :| x in p && key(x) == k;
      assert x in xs;
    }
  }

  /** Position of the group keyed `k`, or `|groups|`. */
  method FindGroup<K(==), T>(groups: seq<Group<K, T>>, k: K) returns (i: nat)
    ensures i <= |groups|
    ensures i < |groups| ==> groups[i].key == k
    ensures forall m :: 0 <= m < i ==> groups[m].key != k
  {
    i := 0;
    while i < |groups| && groups[i].key != k
      invariant 0 <= i <= |groups|
      invariant forall m :: 0 <= m < i ==> groups[m].key != k
    {
      i := i + 1;
    }
  }

  /** `groups[key(x)].append(x)` on the grouping of `xs[..n]`, `x` being `xs[n]` and `i` the place of its group. */
  function Appended<K, T>(groups: seq<Group<K, T>>, i: nat, k: K, x: T): seq<Group<K, T>>
    requires i <= |groups|
  {
    if i < |groups| then groups[i := Group(k, groups[i].members + [x])] else groups + [Group(k, [x])]
  }

  /** Appending the next element to its group, or to a new last group, keeps the grouping. */
  lemma AppendedGroups<K, T>(key: T -> K, xs: seq<T>, n: nat, before: seq<Group<K, T>>, i: nat)
    requires n < |xs| && GroupsOf(key, xs[..n], before)
    requires i <= |before| && (i < |before| ==> before[i].key == key(xs[n]))
    requires forall m :: 0 <= m < i ==> before[m].key != key(xs[n])
    ensures GroupsOf(key, xs[..n + 1], Appended(before, i, key(xs[n]), xs[n]))
  {
    var x := xs[n];
    var k := key(x);
    var groups := Appended(before, i, k, x);
    FirstKeysSnoc(key, xs, n);
    if i < |before| {
      assert Keys(groups) == Keys(before);
      assert k in Keys(before);
    } else {
      assert Keys(groups) == Keys(before) + [k];
      assert k !in Keys(before);
    }
    forall j | 0 <= j < |groups|
      ensures groups[j].members == WithKey(key, xs[..n + 1], groups[j].key)
    {
      WithKeySnoc(key, xs, n, groups[j].key);
      if j < |before| && j != i {
        assert groups[j] == before[j] && before[j].key != k;
      } else if j == i && i < |before| {
        assert groups[j].members == before[i].members + [x];
      } else {
        assert j == |before| && groups[j] == Group(k, [x]);
        assert WithKey(key, xs[..n], k) == [] by {
          if WithKey(key, xs[..n], k) != [] {
            WithKeyMember(key, xs[..n], k);
          }
        }
      }
    }
    forall y | y in xs[..n + 1] ensures key(y) in Keys(groups) {
      if y !in xs[..n] {
        assert y == x;
      } else {
        assert key(y) in Keys(before);
      }
    }
  }

  /** The loop `for x in xs: groups[key(x)].append(x)` over a `defaultdict(list)`. */
  method GroupBy<K(==), T>(key: T -> K, xs: seq<T>) returns (groups: seq<Group<K, T>>)
    ensures GroupsOf(key, xs, groups)
  {
    groups := [];
    var n := 0;
    while n < |xs|
      invariant 0 <= n <= |xs|
      invariant GroupsOf(key, xs[..n], groups)
    {
      var x := xs[n];
      var k := key(x);
      var i := FindGroup(groups, k);
      AppendedGroups(key, xs, n, groups, i);
      if i < |groups| {
        groups := groups[i := Group(k, groups[i].members + [x])];
      } else {
        groups := groups + [Group(k, [x])];
      }
      n := n + 1;
    }
    assert xs[..n] == xs;
  }
}
