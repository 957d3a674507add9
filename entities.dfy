/**
 * The bookkeeping of the entity extractor: when two entity names count as
 * the same entity, per-type deduplication that counts repeated mentions,
 * merging of the entities the model found into the pattern-found ones,
 * reading the model's `TYPE | NAME | CONTEXT` rows, and the co-occurrence
 * relation between entity names.
 */
module Entities {
  import opened Wrappers
  import opened Text
  import Grouping

  datatype HistoricalEntity = HistoricalEntity(
    name: string,
    entityType: string,
    context: string,
    sourceDocument: string,
    pageNumber: Option<int>,
    mentions: nat,
    relatedEntities: seq<string>)

  /** A `Dict[str, List[HistoricalEntity]]` keyed by entity type, entries in insertion order. */
  type ByType = seq<Grouping.Group<string, HistoricalEntity>>

  /** A document chunk as the extractor reads it. */
  datatype EntityChunk = EntityChunk(content: string, pageNumber: Option<int>, originalName: string)

  // ----- similarity -----

  function Min(a: nat, b: nat): nat { if a <= b then a else b }

  /** `set(name.split())`. */
  function WordSet(s: string): set<string> {
    set w | w in Words(s)
  }

  /**
   * `_entities_similar` on two names, after lower-casing and stripping both:
   * equal, one inside the other, or sharing at least 0.7 of the smaller word
   * set (compared as `10 * shared >= 7 * smaller`, which agrees with the
   * float comparison for every pair of sizes).
   */
  predicate SimilarNames(a: string, b: string) {
    var n1 := Strip(Lower(a));
    var n2 := Strip(Lower(b));
    n1 == n2 || Contains(n2, n1) || Contains(n1, n2)
    || 10 * |WordSet(n1) * WordSet(n2)| >= 7 * Min(|WordSet(n1)|, |WordSet(n2)|)
  }

  /** A test on two entity names, as `_entities_similar` is. */
  type NameTest = (string, string) -> bool

  ghost predicate Reflexive(sim: NameTest) { forall x :: sim(x, x) }

  ghost predicate Symmetric(sim: NameTest) { forall x, y :: sim(x, y) == sim(y, x) }

  /** Every name is similar to itself, and similarity does not depend on the order of the two names. */
  lemma SimilarNamesReflexiveSymmetric()
    ensures Reflexive(SimilarNames) && Symmetric(SimilarNames)
  {
    forall x, y ensures SimilarNames(x, y) == SimilarNames(y, x) {
      var w1, w2 := WordSet(Strip(Lower(x))), WordSet(Strip(Lower(y)));
      assert w1 * w2 == w2 * w1;
    }
  }

  // ----- deduplication -----

  /** Index of the first entity in `list` similar to `e`, or `|list|`. */
  function FirstSimilar(sim: NameTest, list: seq<HistoricalEntity>, e: HistoricalEntity): (k: nat)
    ensures k <= |list|
    ensures k < |list| ==> sim(e.name, list[k].name)
    ensures forall j :: 0 <= j < k ==> !sim(e.name, list[j].name)
  {
    if list == [] then 0
    else if sim(e.name, list[0].name) then 0
    else 1 + FirstSimilar(sim, list[1..], e)
  }

  /** One step of the deduplication loop: `e` adds a mention to the first similar entity, or is kept. */
  function Absorb(sim: NameTest, list: seq<HistoricalEntity>, e: HistoricalEntity): seq<HistoricalEntity> {
    var k := FirstSimilar(sim, list, e);
    if k < |list| then list[k := list[k].(mentions := list[k].mentions + 1)] else list + [e]
  }

  /** The deduplication loop run over `es`, starting from `list`. */
  function AbsorbAll(sim: NameTest, list: seq<HistoricalEntity>, es: seq<HistoricalEntity>): seq<HistoricalEntity>
    decreases |es|
  {
    if es == [] then list else Absorb(sim, AbsorbAll(sim, list, es[..|es| - 1]), es[|es| - 1])
  }

  /** No two entities of the list are similar. */
  predicate Dissimilar(sim: NameTest, list: seq<HistoricalEntity>) {
    forall i, j :: 0 <= i < |list| && 0 <= j < |list| && i != j ==> !sim(list[i].name, list[j].name)
  }

  function SumMentions(list: seq<HistoricalEntity>): nat {
    if list == [] then 0 else SumMentions(list[..|list| - 1]) + list[|list| - 1].mentions
  }

  predicate UnitMentions(es: seq<HistoricalEntity>) {
    forall i :: 0 <= i < |es| ==> es[i].mentions == 1
  }

  /** An entity with its mention count cleared, to compare entities up to their counts. */
  function Bare(e: HistoricalEntity): HistoricalEntity {
    e.(mentions := 0)
  }

  function Barred(list: seq<HistoricalEntity>): (r: seq<HistoricalEntity>)
    ensures |r| == |list| && forall i :: 0 <= i < |list| ==> r[i] == Bare(list[i])
  {
    seq(|list|, i requires 0 <= i < |list| => Bare(list[i]))
  }

  lemma {:induction false} SumMentionsUpdate(list: seq<HistoricalEntity>, k: nat, x: HistoricalEntity)
    requires k < |list|
    ensures SumMentions(list[k := x]) + list[k].mentions == SumMentions(list) + x.mentions
    decreases |list|
  {
    var n := |list| - 1;
    if k < n {
      assert list[k := x][..n] == list[..n][k := x];
      SumMentionsUpdate(list[..n], k, x);
    } else {
      assert list[k := x][..n] == list[..n];
    }
  }

  lemma SumMentionsSnoc(list: seq<HistoricalEntity>, e: HistoricalEntity)
    ensures SumMentions(list + [e]) == SumMentions(list) + e.mentions
  {
    assert (list + [e])[..|list|] == list;
  }

  lemma AbsorbDissimilar(sim: NameTest, list: seq<HistoricalEntity>, e: HistoricalEntity)
    requires Symmetric(sim) && Dissimilar(sim, list)
    ensures Dissimilar(sim, Absorb(sim, list, e))
  {
    var k := FirstSimilar(sim, list, e);
    var r := Absorb(sim, list, e);
    if k == |list| {
      forall j | 0 <= j < |list| ensures !sim(list[j].name, e.name) {
        assert sim(list[j].name, e.name) == sim(e.name, list[j].name);
      }
    }
  }

  lemma AbsorbMentions(sim: NameTest, list: seq<HistoricalEntity>, e: HistoricalEntity)
    ensures SumMentions(Absorb(sim, list, e))
         == SumMentions(list) + if FirstSimilar(sim, list, e) < |list| then 1 else e.mentions
  {
    var k := FirstSimilar(sim, list, e);
    var r := Absorb(sim, list, e);
    if k < |list| {
      var x := list[k].(mentions := list[k].mentions + 1);
      assert r == list[k := x];
      SumMentionsUpdate(list, k, x);
    } else {
      SumMentionsSnoc(list, e);
    }
  }

  /** Absorbing keeps every earlier entity's place and name, and leaves one similar to `e`. */
  lemma AbsorbKeeps(sim: NameTest, list: seq<HistoricalEntity>, e: HistoricalEntity)
    requires Reflexive(sim)
    ensures |list| <= |Absorb(sim, list, e)| <= |list| + 1
    ensures forall i :: 0 <= i < |list| ==> Bare(Absorb(sim, list, e)[i]) == Bare(list[i])
    ensures exists j :: 0 <= j < |Absorb(sim, list, e)| && sim(e.name, Absorb(sim, list, e)[j].name)
    ensures forall j :: 0 <= j < |Absorb(sim, list, e)| ==> Bare(Absorb(sim, list, e)[j]) in Barred(list + [e])
  {
    var k := FirstSimilar(sim, list, e);
    var r := Absorb(sim, list, e);
    if k < |list| {
      assert sim(e.name, r[k].name);
    } else {
      assert sim(e.name, r[|list|].name);
    }
    forall j | 0 <= j < |r| ensures Bare(r[j]) in Barred(list + [e]) {
      assert Bare(r[j]) == Barred(list + [e])[j];
    }
  }

  /** Deduplicating keeps a list dissimilar. */
  lemma {:induction false} AbsorbAllDissimilar(sim: NameTest, list: seq<HistoricalEntity>, es: seq<HistoricalEntity>)
    requires Symmetric(sim) && Dissimilar(sim, list)
    ensures Dissimilar(sim, AbsorbAll(sim, list, es))
    decreases |es|
  {
    if es != [] {
      AbsorbAllDissimilar(sim, list, es[..|es| - 1]);
      AbsorbDissimilar(sim, AbsorbAll(sim, list, es[..|es| - 1]), es[|es| - 1]);
    }
  }

  /** Each absorbed entity with one mention adds exactly one mention to the total. */
  lemma {:induction false} AbsorbAllMentions(sim: NameTest, list: seq<HistoricalEntity>, es: seq<HistoricalEntity>)
    requires UnitMentions(es)
    ensures SumMentions(AbsorbAll(sim, list, es)) == SumMentions(list) + |es|
    decreases |es|
  {
    if es != [] {
      var p := es[..|es| - 1];
      AbsorbAllMentions(sim, list, p);
      AbsorbMentions(sim, AbsorbAll(sim, list, p), es[|es| - 1]);
    }
  }

  /** The entities already present keep their places, names and everything but their counts. */
  lemma {:induction false} AbsorbAllKeepsPrefix(sim: NameTest, list: seq<HistoricalEntity>, es: seq<HistoricalEntity>)
    requires Reflexive(sim)
    ensures |list| <= |AbsorbAll(sim, list, es)| <= |list| + |es|
    ensures forall i :: 0 <= i < |list| ==> Bare(AbsorbAll(sim, list, es)[i]) == Bare(list[i])
    decreases |es|
  {
    if es != [] {
      var p, e := es[..|es| - 1], es[|es| - 1];
      AbsorbAllKeepsPrefix(sim, list, p);
      AbsorbKeeps(sim, AbsorbAll(sim, list, p), e);
    }
  }

  /** Some entity of the list is similar to `x`. */
  ghost predicate Covered(sim: NameTest, x: HistoricalEntity, list: seq<HistoricalEntity>) {
    exists j :: 0 <= j < |list| && sim(x.name, list[j].name)
  }

  lemma CoveredExtends(sim: NameTest, x: HistoricalEntity, q: seq<HistoricalEntity>, r: seq<HistoricalEntity>)
    requires Covered(sim, x, q)
    requires |q| <= |r| && forall i :: 0 <= i < |q| ==> Bare(r[i]) == Bare(q[i])
    ensures Covered(sim, x, r)
  {
    var j :| 0 <= j < |q| && sim(x.name, q[j].name);
    assert Bare(r[j]).name == Bare(q[j]).name;
  }

  /** Every absorbed entity is similar to a retained one. */
  lemma {:induction false} AbsorbAllCovers(sim: NameTest, list: seq<HistoricalEntity>, es: seq<HistoricalEntity>)
    requires Reflexive(sim)
    ensures forall i :: 0 <= i < |es| ==> Covered(sim, es[i], AbsorbAll(sim, list, es))
    decreases |es|
  {
    if es != [] {
      var p, e := es[..|es| - 1], es[|es| - 1];
      var q := AbsorbAll(sim, list, p);
      var r := Absorb(sim, q, e);
      AbsorbAllCovers(sim, list, p);
      AbsorbKeeps(sim, q, e);
      forall i | 0 <= i < |es| ensures Covered(sim, es[i], r) {
        if i < |p| {
          assert es[i] == p[i];
          CoveredExtends(sim, p[i], q, r);
        }
      }
    }
  }

  lemma BarredSnoc(list: seq<HistoricalEntity>, e: HistoricalEntity)
    ensures Barred(list + [e]) == Barred(list) + [Bare(e)]
  {
  }

  /** Every retained entity is, up to its count, one already present or one absorbed. */
  lemma {:induction false} AbsorbAllFrom(sim: NameTest, list: seq<HistoricalEntity>, es: seq<HistoricalEntity>, j: nat)
    requires Reflexive(sim) && j < |AbsorbAll(sim, list, es)|
    ensures Bare(AbsorbAll(sim, list, es)[j]) in Barred(list + es)
    decreases |es|
  {
    if es == [] {
      assert list + es == list;
      assert Barred(list)[j] == Bare(list[j]);
    } else {
      var p, e := es[..|es| - 1], es[|es| - 1];
      var q := AbsorbAll(sim, list, p);
      AbsorbKeeps(sim, q, e);
      assert list + es == (list + p) + [e];
      BarredSnoc(list + p, e);
      if j < |q| {
        AbsorbAllFrom(sim, list, p, j);
      } else {
        assert Absorb(sim, q, e) == q + [e];
      }
    }
  }

  /** The search `for existing in unique: if similar: existing.mentions += 1; break`, append if none. */
  method AbsorbEntity(sim: NameTest, list: seq<HistoricalEntity>, e: HistoricalEntity) returns (r: seq<HistoricalEntity>)
    ensures r == Absorb(sim, list, e)
  {
    var k := 0;
    while k < |list| && !sim(e.name, list[k].name)
      invariant k <= |list|
      invariant forall j :: 0 <= j < k ==> !sim(e.name, list[j].name)
    {
      k := k + 1;
    }
    assert k == FirstSimilar(sim, list, e);
    if k < |list| {
      r := list[k := list[k].(mentions := list[k].mentions + 1)];
    } else {
      r := list + [e];
    }
  }

  /**
   * `_deduplicate_entities` on one type's list, for a name test `sim` that is
   * reflexive and symmetric (as `SimilarNames`, the test the source uses, is
   * by `SimilarNamesReflexiveSymmetric`): the retained entities are pairwise
   * dissimilar, every input is similar to one of them, and with one mention
   * per input the counts add up to the number of inputs.
   */
  method DeduplicateList(sim: NameTest, es: seq<HistoricalEntity>) returns (unique: seq<HistoricalEntity>)
    requires Reflexive(sim) && Symmetric(sim)
    ensures unique == AbsorbAll(sim, [], es)
    ensures Dissimilar(sim, unique)
    ensures forall i :: 0 <= i < |es| ==> Covered(sim, es[i], unique)
    ensures UnitMentions(es) ==> SumMentions(unique) == |es|
  {
    unique := [];
    var n := 0;
    while n < |es|
      invariant n <= |es|
      invariant unique == AbsorbAll(sim, [], es[..n])
    {
      assert es[..n + 1][..n] == es[..n];
      unique := AbsorbEntity(sim, unique, es[n]);
      n := n + 1;
    }
    assert es[..n] == es;
    AbsorbAllDissimilar(sim, [], es);
    AbsorbAllCovers(sim, [], es);
    if UnitMentions(es) {
      AbsorbAllMentions(sim, [], es);
    }
  }

  /** One type's entry deduplicated. */
  function DedupeGroup(sim: NameTest, g: Grouping.Group<string, HistoricalEntity>): Grouping.Group<string, HistoricalEntity> {
    Grouping.Group(g.key, AbsorbAll(sim, [], g.members))
  }

  /** `_deduplicate_entities`: each type's list deduplicated, types in the same order. */
  method DeduplicateEntities(sim: NameTest, byType: ByType) returns (r: ByType)
    requires Reflexive(sim) && Symmetric(sim)
    ensures |r| == |byType| && forall i :: 0 <= i < |r| ==> r[i] == DedupeGroup(sim, byType[i])
    ensures AllDissimilar(sim, r)
  {
    r := [];
    var n := 0;
    while n < |byType|
      invariant n <= |byType|
      invariant |r| == n && forall i :: 0 <= i < n ==> r[i] == DedupeGroup(sim, byType[i])
      invariant AllDissimilar(sim, r)
    {
      var g := DeduplicateGroup(sim, byType[n]);
      AllDissimilarSnoc(sim, r, g);
      r := r + [g];
      n := n + 1;
    }
  }

  lemma AllDissimilarSnoc(sim: NameTest, groups: ByType, g: Grouping.Group<string, HistoricalEntity>)
    requires AllDissimilar(sim, groups) && Dissimilar(sim, g.members)
    ensures AllDissimilar(sim, groups + [g])
  {
    forall i | 0 <= i < |groups| + 1 ensures Dissimilar(sim, (groups + [g])[i].members) {
      if i < |groups| {
        assert (groups + [g])[i] == groups[i];
      }
    }
  }

  /** The body of the loop over the types: one type's list deduplicated. */
  method DeduplicateGroup(sim: NameTest, g: Grouping.Group<string, HistoricalEntity>) returns (d: Grouping.Group<string, HistoricalEntity>)
    requires Reflexive(sim) && Symmetric(sim)
    ensures d == DedupeGroup(sim, g) && Dissimilar(sim, d.members)
  {
    var unique := DeduplicateList(sim, g.members);
    d := Grouping.Group(g.key, unique);
  }

  // ----- merging -----

  /** Index of the entry for type `t`, or `|groups|`. */
  function KeyIndex(groups: ByType, t: string): (k: nat)
    ensures k <= |groups|
    ensures k < |groups| ==> groups[k].key == t
    ensures forall j :: 0 <= j < k ==> groups[j].key != t
  {
    if groups == [] then 0
    else if groups[0].key == t then 0
    else 1 + KeyIndex(groups[1..], t)
  }

  /**
   * One AI entry merged in: its entities are absorbed into the list of their
   * type. The `defaultdict` entry is created by the first lookup, so an empty
   * AI list adds no entry.
   */
  function MergeGroup(sim: NameTest, merged: ByType, g: Grouping.Group<string, HistoricalEntity>): ByType {
    if g.members == [] then merged
    else
      var k := KeyIndex(merged, g.key);
      if k < |merged| then merged[k := merged[k].(members := AbsorbAll(sim, merged[k].members, g.members))]
      else merged + [Grouping.Group(g.key, AbsorbAll(sim, [], g.members))]
  }

  function MergeAll(sim: NameTest, merged: ByType, ai: ByType): ByType
    decreases |ai|
  {
    if ai == [] then merged else MergeGroup(sim, MergeAll(sim, merged, ai[..|ai| - 1]), ai[|ai| - 1])
  }

  function TotalMentions(groups: ByType): nat {
    if groups == [] then 0 else TotalMentions(groups[..|groups| - 1]) + SumMentions(groups[|groups| - 1].members)
  }

  function TotalMembers(groups: ByType): nat {
    if groups == [] then 0 else TotalMembers(groups[..|groups| - 1]) + |groups[|groups| - 1].members|
  }

  predicate AllDissimilar(sim: NameTest, groups: ByType) {
    forall i :: 0 <= i < |groups| ==> Dissimilar(sim, groups[i].members)
  }

  predicate AllUnit(groups: ByType) {
    forall i :: 0 <= i < |groups| ==> UnitMentions(groups[i].members)
  }

  lemma {:induction false} TotalMentionsUpdate(groups: ByType, k: nat, g: Grouping.Group<string, HistoricalEntity>)
    requires k < |groups|
    ensures TotalMentions(groups[k := g]) + SumMentions(groups[k].members) == TotalMentions(groups) + SumMentions(g.members)
    decreases |groups|
  {
    var n := |groups| - 1;
    if k < n {
      assert groups[k := g][..n] == groups[..n][k := g];
      TotalMentionsUpdate(groups[..n], k, g);
    } else {
      assert groups[k := g][..n] == groups[..n];
    }
  }

  /** What merging keeps of the entries already there. */
  predicate Extends(merged: ByType, before: ByType) {
    |before| <= |merged|
    && forall i :: 0 <= i < |before| ==>
         merged[i].key == before[i].key && |before[i].members| <= |merged[i].members|
         && forall j :: 0 <= j < |before[i].members| ==> Bare(merged[i].members[j]) == Bare(before[i].members[j])
  }

  lemma MergeGroupProperties(sim: NameTest, merged: ByType, g: Grouping.Group<string, HistoricalEntity>)
    requires Reflexive(sim) && Symmetric(sim)
    ensures AllDissimilar(sim, merged) ==> AllDissimilar(sim, MergeGroup(sim, merged, g))
    ensures UnitMentions(g.members) ==>
              TotalMentions(MergeGroup(sim, merged, g)) == TotalMentions(merged) + |g.members|
    ensures Extends(MergeGroup(sim, merged, g), merged)
  {
    if g.members != [] {
      var k := KeyIndex(merged, g.key);
      if k < |merged| {
        var m := merged[k].members;
        AbsorbAllKeepsPrefix(sim, m, g.members);
        if AllDissimilar(sim, merged) {
          AbsorbAllDissimilar(sim, m, g.members);
        }
        if UnitMentions(g.members) {
          AbsorbAllMentions(sim, m, g.members);
          TotalMentionsUpdate(merged, k, merged[k].(members := AbsorbAll(sim, m, g.members)));
        }
      } else {
        AbsorbAllDissimilar(sim, [], g.members);
        var r := merged + [Grouping.Group(g.key, AbsorbAll(sim, [], g.members))];
        assert r[..|merged|] == merged;
        if UnitMentions(g.members) {
          AbsorbAllMentions(sim, [], g.members);
        }
      }
    }
  }

  lemma ExtendsTransitive(a: ByType, b: ByType, c: ByType)
    requires Extends(a, b) && Extends(b, c)
    ensures Extends(a, c)
  {
  }

  /**
   * Merging keeps the pattern-found entities (in place, up to their counts),
   * keeps every type's list dissimilar when it was, and adds one mention per
   * AI entity of one mention.
   */
  lemma {:induction false} MergeAllProperties(sim: NameTest, pattern: ByType, ai: ByType)
    requires Reflexive(sim) && Symmetric(sim)
    ensures AllDissimilar(sim, pattern) ==> AllDissimilar(sim, MergeAll(sim, pattern, ai))
    ensures AllUnit(ai) ==> TotalMentions(MergeAll(sim, pattern, ai)) == TotalMentions(pattern) + TotalMembers(ai)
    ensures Extends(MergeAll(sim, pattern, ai), pattern)
    decreases |ai|
  {
    if ai != [] {
      var p := ai[..|ai| - 1];
      MergeAllProperties(sim, pattern, p);
      MergeGroupProperties(sim, MergeAll(sim, pattern, p), ai[|ai| - 1]);
      ExtendsTransitive(MergeAll(sim, pattern, ai), MergeAll(sim, pattern, p), pattern);
    }
  }

  /** The loop over one AI entry: every entity absorbed into the list of its type. */
  method MergeOneType(sim: NameTest, merged: ByType, group: Grouping.Group<string, HistoricalEntity>) returns (r: ByType)
    ensures r == MergeGroup(sim, merged, group)
  {
    r := merged;
    if group.members != [] {
      var k := Grouping.FindGroup(r, group.key);
      assert k == KeyIndex(merged, group.key);
      if k == |r| {
        r := r + [Grouping.Group(group.key, [])];
      }
      var list := AbsorbEach(sim, r[k].members, group.members);
      r := r[k := r[k].(members := list)];
    }
  }

  /** The deduplication loop: each entity of `es` in turn absorbed into `start`. */
  method AbsorbEach(sim: NameTest, start: seq<HistoricalEntity>, es: seq<HistoricalEntity>) returns (list: seq<HistoricalEntity>)
    ensures list == AbsorbAll(sim, start, es)
  {
    list := start;
    var n := 0;
    while n < |es|
      invariant n <= |es|
      invariant list == AbsorbAll(sim, start, es[..n])
    {
      assert es[..n + 1][..n] == es[..n];
      list := AbsorbEntity(sim, list, es[n]);
      n := n + 1;
    }
    assert es[..n] == es;
  }

  /** `_merge_entities`: the pattern-found entries first, then every AI entity absorbed into its type. */
  method MergeEntities(pattern: ByType, ai: ByType) returns (merged: ByType)
    ensures merged == MergeAll(SimilarNames, pattern, ai)
    ensures AllDissimilar(SimilarNames, pattern) ==> AllDissimilar(SimilarNames, merged)
    ensures AllUnit(ai) ==> TotalMentions(merged) == TotalMentions(pattern) + TotalMembers(ai)
    ensures Extends(merged, pattern)
  {
    merged := pattern;
    var g := 0;
    while g < |ai|
      invariant g <= |ai|
      invariant merged == MergeAll(SimilarNames, pattern, ai[..g])
    {
      assert ai[..g + 1][..g] == ai[..g];
      merged := MergeOneType(SimilarNames, merged, ai[g]);
      g := g + 1;
    }
    assert ai[..g] == ai;
    SimilarNamesReflexiveSymmetric();
    MergeAllProperties(SimilarNames, pattern, ai);
  }

  // ----- the model's entity rows -----

  /** The type normalisation of `_parse_ai_entity_response`, checked in this order. */
  function EntityKind(raw: string): (t: string)
    ensures t in ["person", "place", "battle", "organization", "concept"]
  {
    var l := Lower(raw);
    if Contains(l, "person") || Contains(l, "people") then "person"
    else if Contains(l, "place") || Contains(l, "location") then "place"
    else if Contains(l, "battle") || Contains(l, "war") then "battle"
    else if Contains(l, "organization") || Contains(l, "group") then "organization"
    else "concept"
  }

  /** A lower-case word is its own `lower()`. */
  lemma LowerOfLower(t: string)
    requires forall i :: 0 <= i < |t| ==> 'a' <= t[i] <= 'z'
    ensures Lower(t) == t
  {
  }

  lemma PlaceIsPlace(t: string)
    requires t == "place"
    ensures EntityKind(t) == t
  {
    LowerOfLower(t);
    ContainsItself(t);
    AbsentLetter(t, "person", 'r');
    AbsentLetter(t, "people", 'o');
  }

  lemma BattleIsBattle(t: string)
    requires t == "battle"
    ensures EntityKind(t) == t
  {
    LowerOfLower(t);
    ContainsItself(t);
    AbsentLetter(t, "person", 'p');
    AbsentLetter(t, "people", 'p');
    AbsentLetter(t, "place", 'p');
    AbsentLetter(t, "location", 'o');
  }

  lemma KindOfOrganizationWord(t: string)
    requires Lower(t) == t && Contains(t, "organization")
    requires !Contains(t, "person") && !Contains(t, "people") && !Contains(t, "place")
    requires !Contains(t, "location") && !Contains(t, "battle") && !Contains(t, "war")
    ensures EntityKind(t) == "organization"
  {
  }

  lemma OrganizationIsNoPersonOrPlace(t: string)
    requires t == "organization"
    ensures !Contains(t, "person") && !Contains(t, "people") && !Contains(t, "place") && !Contains(t, "location")
  {
    AbsentLetter(t, "person", 'p');
    AbsentLetter(t, "people", 'p');
    AbsentLetter(t, "place", 'p');
    AbsentLetter(t, "location", 'l');
  }

  lemma OrganizationIsNoBattle(t: string)
    requires t == "organization"
    ensures !Contains(t, "battle") && !Contains(t, "war")
  {
    AbsentLetter(t, "battle", 'b');
    AbsentLetter(t, "war", 'w');
  }

  lemma OrganizationIsOrganization(t: string)
    requires t == "organization"
    ensures EntityKind(t) == t
  {
    LowerOfLower(t);
    ContainsItself(t);
    OrganizationIsNoPersonOrPlace(t);
    OrganizationIsNoBattle(t);
    KindOfOrganizationWord(t);
  }

  lemma KindOfOtherWord(t: string)
    requires Lower(t) == t
    requires !Contains(t, "person") && !Contains(t, "people") && !Contains(t, "place")
    requires !Contains(t, "location") && !Contains(t, "battle") && !Contains(t, "war")
    requires !Contains(t, "organization") && !Contains(t, "group")
    ensures EntityKind(t) == "concept"
  {
  }

  lemma ConceptIsConcept(t: string)
    requires t == "concept"
    ensures EntityKind(t) == t
  {
    LowerOfLower(t);
    AbsentLetter(t, "person", 'r');
    AbsentLetter(t, "people", 'l');
    AbsentLetter(t, "place", 'l');
    AbsentLetter(t, "location", 'l');
    AbsentLetter(t, "battle", 'b');
    AbsentLetter(t, "war", 'w');
    AbsentLetter(t, "organization", 'r');
    AbsentLetter(t, "group", 'r');
    KindOfOtherWord(t);
  }

  /** A normalised type is its own normal form. */
  lemma EntityKindIdempotent(raw: string)
    ensures EntityKind(EntityKind(raw)) == EntityKind(raw)
  {
    var t := EntityKind(raw);
    if t == "person" {
      LowerOfLower(t);
      ContainsItself(t);
    } else if t == "place" {
      PlaceIsPlace(t);
    } else if t == "battle" {
      BattleIsBattle(t);
    } else if t == "organization" {
      OrganizationIsOrganization(t);
    } else {
      ConceptIsConcept(t);
    }
  }

  /** The first chunk of the batch names the source and page of every entity in the reply. */
  function BatchSource(chunks: seq<EntityChunk>): (string, Option<int>) {
    if chunks == [] then ("Unknown", None) else (chunks[0].originalName, chunks[0].pageNumber)
  }

  /** One reply line: a `|` and at least three stripped fields: type, name and context. */
  function AiEntityLine(line: string, source: string, page: Option<int>): (r: Option<HistoricalEntity>)
    ensures r.Some? <==> '|' in line && |Split(line, '|')| >= 3
    ensures r.Some? ==> (r.value.mentions == 1 && r.value.relatedEntities == []
                         && r.value.sourceDocument == source && r.value.pageNumber == page)
  {
    if '|' in line then
      var parts := Split(line, '|');
      if |parts| >= 3 then
        Some(HistoricalEntity(Strip(parts[1]), EntityKind(Strip(parts[0])), Strip(parts[2]), source, page, 1, []))
      else None
    else None
  }

  function AiEntityLines(lines: seq<string>, source: string, page: Option<int>): (r: seq<HistoricalEntity>)
    ensures |r| <= |lines|
    ensures UnitMentions(r)
    ensures forall i :: 0 <= i < |r| ==> r[i].entityType in ["person", "place", "battle", "organization", "concept"]
  {
    if lines == [] then []
    else
      (match AiEntityLine(lines[0], source, page) case Some(e) => [e] case None => [])
      + AiEntityLines(lines[1..], source, page)
  }

  /** The entities of a reply, in line order. */
  function AiEntities(reply: string, chunks: seq<EntityChunk>): seq<HistoricalEntity> {
    var (source, page) := BatchSource(chunks);
    AiEntityLines(Split(Strip(reply), '\n'), source, page)
  }

  /** A row written in the requested format is read back field for field. */
  lemma AiEntityRoundTrip(kind: string, name: string, context: string, source: string, page: Option<int>)
    requires CleanField(kind) && CleanField(name) && CleanField(context)
    ensures AiEntityLine(PipeRow(kind, name, context), source, page)
         == Some(HistoricalEntity(name, EntityKind(kind), context, source, page, 1, []))
  {
    var line := PipeRow(kind, name, context);
    SplitPipeRow(kind, name, context);
    assert line[|kind| + 1] == '|';
    var parts := Split(line, '|');
    StripPadded(kind);
    StripPadded(name);
    StripPadded(context);
    assert Strip(parts[0]) == kind && Strip(parts[1]) == name && Strip(parts[2]) == context;
  }

  function EntityType(e: HistoricalEntity): string { e.entityType }

  /** `_parse_ai_entity_response`: the reply's entities grouped by normalised type. */
  method ParseAiEntityResponse(reply: string, chunks: seq<EntityChunk>) returns (byType: ByType)
    ensures Grouping.GroupsOf(EntityType, AiEntities(reply, chunks), byType)
  {
    byType := Grouping.GroupBy(EntityType, AiEntities(reply, chunks));
  }

  // ----- co-occurrence -----

  function Names(list: seq<HistoricalEntity>): (r: seq<string>)
    ensures |r| == |list| && forall i :: 0 <= i < |list| ==> r[i] == list[i].name
  {
    seq(|list|, i requires 0 <= i < |list| => list[i].name)
  }

  /** `all_entities`: every entity name, type by type, in order. */
  function AllNames(groups: ByType): seq<string> {
    if groups == [] then [] else AllNames(groups[..|groups| - 1]) + Names(groups[|groups| - 1].members)
  }

  /** The names mentioned in a chunk, case-insensitively, in `names` order with repeats. */
  function Mentioned(names: seq<string>, content: string): seq<string> {
    if names == [] then []
    else
      var last := names[|names| - 1];
      Mentioned(names[..|names| - 1], content) + (if Contains(Lower(content), Lower(last)) then [last] else [])
  }

  /** A name is mentioned exactly when its lower-case form occurs in the lower-cased chunk. */
  lemma {:induction false} MentionedMeaning(names: seq<string>, content: string, n: string)
    ensures n in Mentioned(names, content) <==> n in names && Contains(Lower(content), Lower(n))
    decreases |names|
  {
    if names != [] {
      var p := names[..|names| - 1];
      MentionedMeaning(p, content, n);
      assert names == p + [names[|names| - 1]];
    }
  }

  /** For each chunk, the names it mentions. */
  function MentionLists(names: seq<string>, chunks: seq<EntityChunk>): (r: seq<seq<string>>)
    ensures |r| == |chunks| && forall k :: 0 <= k < |chunks| ==> r[k] == Mentioned(names, chunks[k].content)
  {
    seq(|chunks|, k requires 0 <= k < |chunks| => Mentioned(names, chunks[k].content))
  }

  /** Two different names mentioned in the same chunk. */
  ghost predicate CoMentioned(ms: seq<seq<string>>, a: string, b: string) {
    a != b && exists k :: 0 <= k < |ms| && a in ms[k] && b in ms[k]
  }

  /** In the chunks' own terms: both names are entity names and both occur, ignoring case, in one chunk. */
  lemma CoMentionedMeaning(names: seq<string>, chunks: seq<EntityChunk>, a: string, b: string)
    ensures CoMentioned(MentionLists(names, chunks), a, b) <==>
            a != b && a in names && b in names
            && exists k :: 0 <= k < |chunks| && Contains(Lower(chunks[k].content), Lower(a))
                                             && Contains(Lower(chunks[k].content), Lower(b))
  {
    forall k | 0 <= k < |chunks|
      ensures a in Mentioned(names, chunks[k].content) <==> a in names && Contains(Lower(chunks[k].content), Lower(a))
      ensures b in Mentioned(names, chunks[k].content) <==> b in names && Contains(Lower(chunks[k].content), Lower(b))
    {
      MentionedMeaning(names, chunks[k].content, a);
      MentionedMeaning(names, chunks[k].content, b);
    }
  }

  /** The ordered pairs recorded for `m[i]` against `m[i+1..j]`. */
  function RowPairs(m: seq<string>, i: nat, j: nat): set<(string, string)>
    requires i < |m| && j <= |m|
  {
    if j <= i + 1 then {}
    else RowPairs(m, i, j - 1) + (if m[i] != m[j - 1] then {(m[i], m[j - 1]), (m[j - 1], m[i])} else {})
  }

  /** The pairs recorded for the first `i` rows. */
  function Pairs(m: seq<string>, i: nat): set<(string, string)>
    requires i <= |m|
  {
    if i == 0 then {} else Pairs(m, i - 1) + RowPairs(m, i - 1, |m|)
  }

  /** The pairs recorded for the first `c` chunks. */
  function ChunkPairs(ms: seq<seq<string>>, c: nat): set<(string, string)>
    requires c <= |ms|
  {
    if c == 0 then {} else ChunkPairs(ms, c - 1) + Pairs(ms[c - 1], |ms[c - 1]|)
  }

  lemma {:induction false} RowPairsMeaning(m: seq<string>, i: nat, j: nat, a: string, b: string)
    requires i < |m| && j <= |m|
    ensures (a, b) in RowPairs(m, i, j) <==>
            exists q :: i < q < j && m[i] != m[q] && ((a == m[i] && b == m[q]) || (a == m[q] && b == m[i]))
    decreases j
  {
    if j > i + 1 {
      RowPairsMeaning(m, i, j - 1, a, b);
    }
  }

  lemma {:induction false} PairsMeaning(m: seq<string>, i: nat, a: string, b: string)
    requires i <= |m|
    ensures (a, b) in Pairs(m, i) <==>
            exists p, q :: 0 <= p < i && p < q < |m| && m[p] != m[q]
                           && ((a == m[p] && b == m[q]) || (a == m[q] && b == m[p]))
    decreases i
  {
    if i > 0 {
      PairsMeaning(m, i - 1, a, b);
      RowPairsMeaning(m, i - 1, |m|, a, b);
    }
  }

  /** Every pair of different names in the list, in both orders, and only those. */
  lemma AllPairsMeaning(m: seq<string>, a: string, b: string)
    ensures (a, b) in Pairs(m, |m|) <==> a != b && a in m && b in m
  {
    PairsMeaning(m, |m|, a, b);
    if a != b && a in m && b in m {
      var x :| 0 <= x < |m| && m[x] == a;
      var y :| 0 <= y < |m| && m[y] == b;
      if x < y {
        assert 0 <= x < |m| && x < y < |m| && m[x] != m[y] && a == m[x] && b == m[y];
      } else {
        assert 0 <= y < |m| && y < x < |m| && m[y] != m[x] && a == m[x] && b == m[y];
      }
    }
  }

  lemma {:induction false} ChunkPairsMeaning(ms: seq<seq<string>>, c: nat, a: string, b: string)
    requires c <= |ms|
    ensures (a, b) in ChunkPairs(ms, c) <==> CoMentioned(ms[..c], a, b)
    decreases c
  {
    if c > 0 {
      ChunkPairsMeaning(ms, c - 1, a, b);
      AllPairsMeaning(ms[c - 1], a, b);
      if CoMentioned(ms[..c], a, b) {
        var k :| 0 <= k < c && a in ms[..c][k] && b in ms[..c][k];
        if k < c - 1 {
          assert ms[..c - 1][k] == ms[k];
        }
      }
      if CoMentioned(ms[..c - 1], a, b) {
        var k :| 0 <= k < c - 1 && a in ms[..c - 1][k] && b in ms[..c - 1][k];
        assert ms[..c][k] == ms[k];
      }
    }
  }

  /** Co-occurrence is symmetric and irreflexive. */
  lemma CoMentionedSymmetric(ms: seq<seq<string>>, a: string, b: string)
    ensures CoMentioned(ms, a, b) == CoMentioned(ms, b, a)
    ensures !CoMentioned(ms, a, a)
  {
  }

  /** `relationships[x].append(y)` on a `defaultdict(list)`, values kept as sets. */
  function Relate(rel: map<string, set<string>>, x: string, y: string): (r: map<string, set<string>>)
    ensures forall a, b :: (a in r && b in r[a]) <==> (a in rel && b in rel[a]) || (a == x && b == y)
    ensures forall a :: a in r <==> a in rel || a == x
  {
    rel[x := (if x in rel then rel[x] else {}) + {y}]
  }

  /** The names mentioned in one chunk, found by the loop over `all_entities`. */
  method MentionedIn(names: seq<string>, content: string) returns (m: seq<string>)
    ensures m == Mentioned(names, content)
  {
    var lowered := Lower(content);
    m := [];
    var k := 0;
    while k < |names|
      invariant k <= |names|
      invariant m == Mentioned(names[..k], content)
    {
      assert names[..k + 1][..k] == names[..k];
      if Contains(lowered, Lower(names[k])) {
        m := m + [names[k]];
      }
      k := k + 1;
    }
    assert names[..k] == names;
  }

  /** True when the map holds exactly the pairs of `done`, with no empty entry. */
  ghost predicate Holds(rel: map<string, set<string>>, done: set<(string, string)>) {
    (forall a, b :: (a in rel && b in rel[a]) <==> (a, b) in done)
    && forall a :: a in rel ==> rel[a] != {}
  }

  /** The inner loop for `m[i]`: it is related to every later, different name of the chunk. */
  method RecordRow(rel: map<string, set<string>>, m: seq<string>, i: nat, ghost done: set<(string, string)>)
    returns (r: map<string, set<string>>)
    requires i < |m| && Holds(rel, done)
    ensures Holds(r, done + RowPairs(m, i, |m|))
  {
    r := rel;
    var j := i + 1;
    while j < |m|
      invariant i + 1 <= j <= |m|
      invariant Holds(r, done + RowPairs(m, i, j))
    {
      if m[i] != m[j] {
        RelateBoth(r, done + RowPairs(m, i, j), m[i], m[j]);
        r := Relate(r, m[i], m[j]);
        r := Relate(r, m[j], m[i]);
      }
      j := j + 1;
    }
  }

  /** Relating two names both ways records both ordered pairs. */
  lemma RelateBoth(rel: map<string, set<string>>, done: set<(string, string)>, x: string, y: string)
    requires Holds(rel, done)
    ensures Holds(Relate(Relate(rel, x, y), y, x), done + {(x, y), (y, x)})
  {
  }

  /** Both loops over the names of one chunk. */
  method RecordChunk(rel: map<string, set<string>>, m: seq<string>, ghost done: set<(string, string)>)
    returns (r: map<string, set<string>>)
    requires Holds(rel, done)
    ensures Holds(r, done + Pairs(m, |m|))
  {
    r := rel;
    var i := 0;
    while i < |m|
      invariant i <= |m|
      invariant Holds(r, done + Pairs(m, i))
    {
      r := RecordRow(r, m, i, done + Pairs(m, i));
      i := i + 1;
    }
  }

  /** A map holding every recorded pair relates exactly the co-mentioned names. */
  lemma RelationMeaning(rel: map<string, set<string>>, ms: seq<seq<string>>)
    requires Holds(rel, ChunkPairs(ms, |ms|))
    ensures forall a, b :: (a in rel && b in rel[a]) <==> CoMentioned(ms, a, b)
  {
    assert ms[..|ms|] == ms;
    forall a, b | true
      ensures (a in rel && b in rel[a]) <==> CoMentioned(ms, a, b)
    {
      ChunkPairsMeaning(ms, |ms|, a, b);
    }
  }

  /** Such a map is symmetric and irreflexive. */
  lemma RelationSymmetric(rel: map<string, set<string>>, ms: seq<seq<string>>)
    requires forall a, b :: (a in rel && b in rel[a]) <==> CoMentioned(ms, a, b)
    ensures forall a :: a in rel ==> a !in rel[a]
    ensures forall a, b :: a in rel && b in rel[a] ==> b in rel && a in rel[b]
  {
    forall a, b | a in rel && b in rel[a] ensures b in rel && a in rel[b] && a != b {
      CoMentionedSymmetric(ms, a, b);
    }
  }

  /** The loop over the chunks: every chunk's pairs recorded. */
  method RecordChunks(names: seq<string>, chunks: seq<EntityChunk>) returns (rel: map<string, set<string>>)
    ensures Holds(rel, ChunkPairs(MentionLists(names, chunks), |chunks|))
  {
    ghost var ms := MentionLists(names, chunks);
    rel := map[];
    var c := 0;
    while c < |chunks|
      invariant c <= |chunks|
      invariant Holds(rel, ChunkPairs(ms, c))
    {
      rel := RecordMentions(rel, names, chunks[c], ChunkPairs(ms, c));
      c := c + 1;
    }
  }

  /** The body of the loop over the chunks: the names the chunk mentions, then their pairs. */
  method RecordMentions(rel: map<string, set<string>>, names: seq<string>, chunk: EntityChunk, ghost done: set<(string, string)>)
    returns (r: map<string, set<string>>)
    requires Holds(rel, done)
    ensures Holds(r, done + Pairs(Mentioned(names, chunk.content), |Mentioned(names, chunk.content)|))
  {
    var m := MentionedIn(names, chunk.content);
    r := RecordChunk(rel, m, done);
  }

  /**
   * `_calculate_entity_relationships`: `b` is related to `a` exactly when the
   * two names differ and some chunk mentions both. The relation is
   * symmetric and irreflexive, and no name has an empty entry. Each value is
   * `list(set(...))`, whose order Python leaves unspecified, so the values
   * are sets here.
   */
  method CalculateRelationships(entities: ByType, chunks: seq<EntityChunk>) returns (rel: map<string, set<string>>)
    ensures forall a, b :: (a in rel && b in rel[a]) <==> CoMentioned(MentionLists(AllNames(entities), chunks), a, b)
    ensures forall a :: a in rel ==> rel[a] != {} && a !in rel[a]
    ensures forall a, b :: a in rel && b in rel[a] ==> b in rel && a in rel[b]
  {
    var names := AllNames(entities);
    rel := RecordChunks(names, chunks);
    ghost var ms := MentionLists(names, chunks);
    RelationMeaning(rel, ms);
    RelationSymmetric(rel, ms);
  }
}
