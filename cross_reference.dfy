/**
 * The deterministic half of the cross-reference tool: grouping search hits by
 * document, one comparison per unordered pair of documents, the entities two
 * documents share, the `CONTRADICTIONS:` / `SUPPORTING_EVIDENCE:` reply
 * parser, the consensus rule and the shape of the final report. The search
 * itself, the embedding similarity and the model's reply are oracles passed
 * in as values and functions.
 */
module CrossReference {
  import opened Wrappers
  import opened Text
  import Grouping
  import opened Pairs

  /** One search hit; its `document_name` key may be absent. */
  datatype Hit = Hit(documentName: Option<string>, content: string, entities: seq<string>)

  /** `result.get("document_name", "Unknown Document")`. */
  function DocumentName(h: Hit): string {
    h.documentName.GetOr("Unknown Document")
  }

  /** One document's name and its hits. */
  type Document = Grouping.Group<string, Hit>

  type ByDocument = seq<Document>

  /** A similarity score (a float). */
  type Score = real

  datatype CrossRef = CrossRef(
    topic: string,
    document1: string,
    document2: string,
    similarity: Score,
    commonEntities: set<string>,
    contradictions: seq<string>,
    supporting: seq<string>)

  /** The hits grouped by document name, groups in order of first appearance. */
  method GroupResultsByDocument(results: seq<Hit>) returns (groups: ByDocument)
    ensures Grouping.GroupsOf(DocumentName, results, groups)
  {
    groups := Grouping.GroupBy(DocumentName, results);
  }

  // ----- distinct keys -----

  function Elements(s: seq<string>): set<string> {
    set x | x in s
  }

  predicate Distinct(s: seq<string>) {
    forall i, j :: 0 <= i < j < |s| ==> s[i] != s[j]
  }

  lemma {:induction false} DistinctCardinality(s: seq<string>)
    requires Distinct(s)
    ensures |Elements(s)| == |s|
    decreases |s|
  {
    if s != [] {
      var init := s[..|s| - 1];
      DistinctCardinality(init);
      assert Elements(s) == Elements(init) + {s[|s| - 1]};
      assert s[|s| - 1] !in Elements(init);
    }
  }

  /** The number of groups is the number of distinct document names among the hits. */
  lemma GroupCount(results: seq<Hit>, groups: ByDocument)
    requires Grouping.GroupsOf(DocumentName, results, groups)
    ensures |groups| == |set h | h in results :: DocumentName(h)|
  {
    var keys := Grouping.Keys(groups);
    var names := set h | h in results :: DocumentName(h);
    forall k | k in Elements(keys) ensures k in names {
      var i :| 0 <= i < |keys| && keys[i] == k;
      Grouping.WithKeyMember(DocumentName, results, k);
    }
    forall k | k in names ensures k in Elements(keys) {
      var h :| h in results && DocumentName(h) == k;
    }
    assert Elements(keys) == names;
    DistinctCardinality(keys);
  }

  // ----- common entities -----

  /** Some hit of the document lists the entity. */
  ghost predicate Lists(hits: seq<Hit>, e: string) {
    exists i :: 0 <= i < |hits| && e in hits[i].entities
  }

  /** Every entity some hit of the document lists. */
  function EntitySet(hits: seq<Hit>): set<string> {
    if hits == [] then {} else EntitySet(hits[..|hits| - 1]) + Elements(hits[|hits| - 1].entities)
  }

  lemma {:induction false} EntitySetMeaning(hits: seq<Hit>, e: string)
    ensures e in EntitySet(hits) <==> Lists(hits, e)
    decreases |hits|
  {
    if hits != [] {
      var init := hits[..|hits| - 1];
      EntitySetMeaning(init, e);
      if Lists(hits, e) && e !in hits[|hits| - 1].entities {
        var i :| 0 <= i < |hits| && e in hits[i].entities;
        assert init[i] == hits[i];
      }
      if Lists(init, e) {
        var i :| 0 <= i < |init| && e in init[i].entities;
        assert hits[i] == init[i];
      }
    }
  }

  /** `set(doc1 entities) & set(doc2 entities)`. */
  function SharedEntities(r1: seq<Hit>, r2: seq<Hit>): set<string> {
    EntitySet(r1) * EntitySet(r2)
  }

  /** An entity is shared exactly when each document lists it in some hit. */
  lemma SharedEntitiesMeaning(r1: seq<Hit>, r2: seq<Hit>, e: string)
    ensures e in SharedEntities(r1, r2) <==> Lists(r1, e) && Lists(r2, e)
  {
    EntitySetMeaning(r1, e);
    EntitySetMeaning(r2, e);
  }

  /** The union of the entity lists of the hits, built one hit at a time. */
  method EntitiesOf(hits: seq<Hit>) returns (s: set<string>)
    ensures s == EntitySet(hits)
  {
    s := {};
    for i := 0 to |hits|
      invariant s == EntitySet(hits[..i])
    {
      assert hits[..i + 1][..i] == hits[..i];
      s := s + Elements(hits[i].entities);
    }
    assert hits[..|hits|] == hits;
  }

  method CommonEntities(r1: seq<Hit>, r2: seq<Hit>) returns (common: set<string>)
    ensures common == SharedEntities(r1, r2)
  {
    var s1 := EntitiesOf(r1);
    var s2 := EntitiesOf(r2);
    common := s1 * s2;
  }

  // ----- the reply of the pair comparison -----

  datatype Section = NoSection | InContradictions | InSupporting

  datatype Findings = Findings(section: Section, contradictions: seq<string>, supporting: seq<string>)

  const ContradictionsHeader: string := "CONTRADICTIONS:"
  const SupportingHeader: string := "SUPPORTING_EVIDENCE:"
  const Start: Findings := Findings(NoSection, [], [])

  datatype LineKind = ContradictionsLine | SupportingLine | ItemLine(item: string) | OtherLine

  /** What one line of the reply is, once stripped. */
  function Classify(raw: string): LineKind {
    var line := Strip(raw);
    if Contains(line, ContradictionsHeader) then ContradictionsLine
    else if Contains(line, SupportingHeader) then SupportingLine
    else if StartsWith(line, "- ") then ItemLine(Strip(line[2..]))
    else OtherLine
  }

  /** The classification of every line. */
  function Kinds(lines: seq<string>): (r: seq<LineKind>)
    ensures |r| == |lines| && forall k :: 0 <= k < |lines| ==> r[k] == Classify(lines[k])
  {
    seq(|lines|, k requires 0 <= k < |lines| => Classify(lines[k]))
  }

  /** One line of the reply: a header switches the section, a `- ` line adds an item to the current one. */
  function Step(st: Findings, kind: LineKind): Findings {
    match kind
    case ContradictionsLine => st.(section := InContradictions)
    case SupportingLine => st.(section := InSupporting)
    case ItemLine(item) =>
      if st.section == InContradictions then st.(contradictions := st.contradictions + [item])
      else if st.section == InSupporting then st.(supporting := st.supporting + [item])
      else st
    case OtherLine => st
  }

  function Steps(st: Findings, kinds: seq<LineKind>): Findings
    decreases |kinds|
  {
    if kinds == [] then st else Steps(Step(st, kinds[0]), kinds[1..])
  }

  lemma {:induction false} StepsAppend(st: Findings, a: seq<LineKind>, b: seq<LineKind>)
    ensures Steps(st, a + b) == Steps(Steps(st, a), b)
    decreases |a|
  {
    if a != [] {
      assert (a + b)[1..] == a[1..] + b;
      StepsAppend(Step(st, a[0]), a[1..], b);
    } else {
      assert a + b == b;
    }
  }

  lemma StepsSnoc(st: Findings, kinds: seq<LineKind>, k: nat)
    requires k < |kinds|
    ensures Steps(st, kinds[..k + 1]) == Step(Steps(st, kinds[..k]), kinds[k])
  {
    StepsAppend(st, kinds[..k], [kinds[k]]);
    assert kinds[..k + 1] == kinds[..k] + [kinds[k]];
  }

  /** `response.result.strip().split('\n')` read line by line from no section. */
  function ParseReply(reply: string): (seq<string>, seq<string>) {
    var f := Steps(Start, Kinds(Split(Strip(reply), '\n')));
    (f.contradictions, f.supporting)
  }

  /**
   * What `_analyze_document_pair` returns: nothing when the first hit of either
   * document has no `document_name` (the lookup raises before the model is
   * asked) or when the model returns no text; the parsed reply otherwise.
   */
  function PairAnalysis(r1: seq<Hit>, r2: seq<Hit>, reply: Option<string>): (seq<string>, seq<string>) {
    if (|r1| > 0 && r1[0].documentName.None?) || (|r2| > 0 && r2[0].documentName.None?) || reply.None? then ([], [])
    else ParseReply(reply.value)
  }

  method AnalyzeDocumentPair(r1: seq<Hit>, r2: seq<Hit>, reply: Option<string>)
    returns (contradictions: seq<string>, supporting: seq<string>)
    ensures (contradictions, supporting) == PairAnalysis(r1, r2, reply)
  {
    if (|r1| > 0 && r1[0].documentName.None?) || (|r2| > 0 && r2[0].documentName.None?) || reply.None? {
      return [], [];
    }
    var lines := Split(Strip(reply.value), '\n');
    ghost var kinds := Kinds(lines);
    var st := Start;
    for k := 0 to |lines|
      invariant st == Steps(Start, kinds[..k])
    {
      StepsSnoc(Start, kinds, k);
      st := Step(st, Classify(lines[k]));
    }
    assert kinds[..|lines|] == kinds;
    contradictions, supporting := st.contradictions, st.supporting;
  }

  /** Lines before the first header never count, whatever they hold. */
  lemma {:induction false} NoSectionNoFindings(kinds: seq<LineKind>)
    requires forall k :: 0 <= k < |kinds| ==> !kinds[k].ContradictionsLine? && !kinds[k].SupportingLine?
    ensures Steps(Start, kinds) == Start
    decreases |kinds|
  {
    if kinds != [] {
      NoSectionNoFindings(kinds[1..]);
    }
  }

  /** A reply none of whose lines names a section yields no findings. */
  lemma NoHeaderNoFindings(reply: string)
    requires forall line :: line in Split(Strip(reply), '\n') ==>
      !Contains(Strip(line), ContradictionsHeader) && !Contains(Strip(line), SupportingHeader)
    ensures ParseReply(reply) == ([], [])
  {
    var lines := Split(Strip(reply), '\n');
    forall k | 0 <= k < |lines|
      ensures !Kinds(lines)[k].ContradictionsLine? && !Kinds(lines)[k].SupportingLine?
    {
      assert lines[k] in lines;
    }
    NoSectionNoFindings(Kinds(lines));
  }

  // ----- the reply format the model is asked for -----

  function Bullets(items: seq<string>): (r: seq<string>)
    ensures |r| == |items| && forall k :: 0 <= k < |items| ==> r[k] == "- " + items[k]
  {
    seq(|items|, k requires 0 <= k < |items| => "- " + items[k])
  }

  function ItemLines(items: seq<string>): (r: seq<LineKind>)
    ensures |r| == |items| && forall k :: 0 <= k < |items| ==> r[k] == ItemLine(items[k])
  {
    seq(|items|, k requires 0 <= k < |items| => ItemLine(items[k]))
  }

  /** The lines of the reply in the requested layout. */
  function ReplyLines(contradictions: seq<string>, supporting: seq<string>): seq<string> {
    [ContradictionsHeader] + Bullets(contradictions) + ["", SupportingHeader] + Bullets(supporting)
  }

  function RenderReply(contradictions: seq<string>, supporting: seq<string>): string {
    Join("\n", ReplyLines(contradictions, supporting))
  }

  /** An item that survives being written as a `- ` line and read back. */
  predicate BulletItem(x: string) {
    x != [] && !IsSpace(x[0]) && !IsSpace(x[|x| - 1]) && '\n' !in x
    && !Contains(x, ContradictionsHeader) && !Contains(x, SupportingHeader)
  }

  lemma BulletLine(x: string)
    requires BulletItem(x)
    ensures Classify("- " + x) == ItemLine(x)
  {
    var line := "- " + x;
    StripOfStripped(line);
    StripOfStripped(x);
    if Contains(line, ContradictionsHeader) {
      PrefixContains("- ", x, ContradictionsHeader);
    }
    if Contains(line, SupportingHeader) {
      PrefixContains("- ", x, SupportingHeader);
    }
    assert line[2..] == x;
  }

  lemma BulletKinds(items: seq<string>)
    requires forall k :: 0 <= k < |items| ==> BulletItem(items[k])
    ensures Kinds(Bullets(items)) == ItemLines(items)
  {
    forall k | 0 <= k < |items| ensures Kinds(Bullets(items))[k] == ItemLines(items)[k] {
      BulletLine(items[k]);
    }
  }

  lemma {:induction false} StepContradictionItems(st: Findings, items: seq<string>)
    requires st.section == InContradictions
    ensures Steps(st, ItemLines(items)) == st.(contradictions := st.contradictions + items)
    decreases |items|
  {
    if items != [] {
      var x := items[0];
      assert ItemLines(items)[1..] == ItemLines(items[1..]);
      StepContradictionItems(Step(st, ItemLine(x)), items[1..]);
      assert st.contradictions + [x] + items[1..] == st.contradictions + items;
    } else {
      assert st.contradictions + items == st.contradictions;
    }
  }

  lemma {:induction false} StepSupportingItems(st: Findings, items: seq<string>)
    requires st.section == InSupporting
    ensures Steps(st, ItemLines(items)) == st.(supporting := st.supporting + items)
    decreases |items|
  {
    if items != [] {
      var x := items[0];
      assert ItemLines(items)[1..] == ItemLines(items[1..]);
      StepSupportingItems(Step(st, ItemLine(x)), items[1..]);
      assert st.supporting + [x] + items[1..] == st.supporting + items;
    } else {
      assert st.supporting + items == st.supporting;
    }
  }

  lemma ContradictionsHeaderLine(t: string)
    requires t == ContradictionsHeader
    ensures Classify(t) == ContradictionsLine
  {
    StripOfStripped(t);
    ContainsItself(t);
  }

  lemma SupportingHeaderLine(t: string, u: string)
    requires t == ContradictionsHeader && u == SupportingHeader
    ensures Classify(u) == SupportingLine
  {
    StripOfStripped(u);
    ContainsItself(u);
    AbsentLetter(u, t, 'A');
  }

  lemma BlankLine()
    ensures Classify("") == OtherLine
  {
  }

  lemma {:induction false} KindsAppend(a: seq<string>, b: seq<string>)
    ensures Kinds(a + b) == Kinds(a) + Kinds(b)
  {
    assert forall k :: 0 <= k < |a| ==> (a + b)[k] == a[k];
    assert forall k :: |a| <= k < |a| + |b| ==> (a + b)[k] == b[k - |a|];
  }

  /** How each line of a rendered reply is read. */
  lemma ReplyKinds(c: seq<string>, s: seq<string>)
    requires forall k :: 0 <= k < |c| ==> BulletItem(c[k])
    requires forall k :: 0 <= k < |s| ==> BulletItem(s[k])
    ensures Kinds(ReplyLines(c, s)) == [ContradictionsLine] + ItemLines(c) + [OtherLine, SupportingLine] + ItemLines(s)
  {
    var t, u := ContradictionsHeader, SupportingHeader;
    ContradictionsHeaderLine(t);
    SupportingHeaderLine(t, u);
    BlankLine();
    BulletKinds(c);
    BulletKinds(s);
    KindsAppend([t] + Bullets(c) + ["", u], Bullets(s));
    KindsAppend([t] + Bullets(c), ["", u]);
    KindsAppend([t], Bullets(c));
    assert Kinds([t]) == [ContradictionsLine];
    assert Kinds(["", u]) == [OtherLine, SupportingLine];
  }

  lemma ReplyLinesClean(c: seq<string>, s: seq<string>)
    requires forall k :: 0 <= k < |c| ==> BulletItem(c[k])
    requires forall k :: 0 <= k < |s| ==> BulletItem(s[k])
    ensures forall k :: 0 <= k < |ReplyLines(c, s)| ==> '\n' !in ReplyLines(c, s)[k]
  {
    var lines := ReplyLines(c, s);
    forall k | 0 <= k < |lines| ensures '\n' !in lines[k] {
      if k > |c| + 2 {
        assert lines[k] == "- " + s[k - |c| - 3];
      } else if 0 < k <= |c| {
        assert lines[k] == "- " + c[k - 1];
      }
    }
  }

  /** A rendered reply is its own `strip()`. */
  lemma RenderedStripped(c: seq<string>, s: seq<string>)
    requires forall k :: 0 <= k < |s| ==> BulletItem(s[k])
    ensures Strip(RenderReply(c, s)) == RenderReply(c, s)
  {
    var lines := ReplyLines(c, s);
    JoinFirst("\n", lines);
    JoinLast("\n", lines);
    var last := lines[|lines| - 1];
    if s != [] {
      assert last == "- " + s[|s| - 1];
      assert last[|last| - 1] == s[|s| - 1][|s[|s| - 1]| - 1];
    }
    StripOfStripped(RenderReply(c, s));
  }

  function RenderedKinds(c: seq<string>, s: seq<string>): seq<LineKind> {
    [ContradictionsLine] + ItemLines(c) + [OtherLine, SupportingLine] + ItemLines(s)
  }

  lemma ReadRenderedReply(c: seq<string>, s: seq<string>)
    requires forall k :: 0 <= k < |c| ==> BulletItem(c[k])
    requires forall k :: 0 <= k < |s| ==> BulletItem(s[k])
    ensures Kinds(Split(Strip(RenderReply(c, s)), '\n')) == RenderedKinds(c, s)
  {
    RenderedStripped(c, s);
    ReplyLinesClean(c, s);
    SplitJoin(ReplyLines(c, s), '\n');
    ReplyKinds(c, s);
  }

  lemma StepRenderedKinds(c: seq<string>, s: seq<string>)
    ensures Steps(Start, RenderedKinds(c, s)) == Findings(InSupporting, c, s)
  {
    var rest := ItemLines(c) + ([OtherLine, SupportingLine] + ItemLines(s));
    assert RenderedKinds(c, s) == [ContradictionsLine] + rest;
    StepsAppend(Start, [ContradictionsLine], rest);
    assert Steps(Start, [ContradictionsLine]) == Findings(InContradictions, [], []);
    StepAfterHeader(c, s);
  }

  /** After the contradictions header: the items, the blank line, the supporting header and its items. */
  lemma StepAfterHeader(c: seq<string>, s: seq<string>)
    ensures Steps(Findings(InContradictions, [], []), ItemLines(c) + ([OtherLine, SupportingLine] + ItemLines(s)))
              == Findings(InSupporting, c, s)
  {
    var s0 := Findings(InContradictions, [], []);
    var s1 := Findings(InContradictions, c, []);
    var s2 := Findings(InSupporting, c, []);
    StepsAppend(s0, ItemLines(c), [OtherLine, SupportingLine] + ItemLines(s));
    StepContradictionItems(s0, c);
    assert [] + c == c;
    StepsAppend(s1, [OtherLine, SupportingLine], ItemLines(s));
    assert Steps(s1, [OtherLine, SupportingLine]) == s2;
    StepSupportingItems(s2, s);
    assert [] + s == s;
  }

  /** Writing findings in the requested layout and parsing the reply gives them back. */
  lemma ParseRenderedReply(c: seq<string>, s: seq<string>)
    requires forall k :: 0 <= k < |c| ==> BulletItem(c[k])
    requires forall k :: 0 <= k < |s| ==> BulletItem(s[k])
    ensures ParseReply(RenderReply(c, s)) == (c, s)
  {
    ReadRenderedReply(c, s);
    StepRenderedKinds(c, s);
  }

  // ----- the comparisons -----

  /** The comparison of two documents: the body of the inner loop of `_find_cross_references`. */
  function Compare(
    topic: string, d1: Document, d2: Document,
    similarity: (string, string) -> Score, reply: (string, string) -> Option<string>): CrossRef
  {
    var found := PairAnalysis(d1.members, d2.members, reply(d1.key, d2.key));
    CrossRef(topic, d1.key, d2.key, similarity(d1.key, d2.key),
             SharedEntities(d1.members, d2.members), found.0, found.1)
  }

  function Comparer(
    topic: string, similarity: (string, string) -> Score, reply: (string, string) -> Option<string>)
    : (Document, Document) -> CrossRef
  {
    (d1, d2) => Compare(topic, d1, d2, similarity, reply)
  }

  /** What `_find_cross_references` returns: one comparison per pair of documents, in the order of `AllPairs`. */
  function Comparisons(
    topic: string, groups: ByDocument,
    similarity: (string, string) -> Score, reply: (string, string) -> Option<string>): seq<CrossRef>
  {
    PairMap(groups, AllPairs(|groups|), Comparer(topic, similarity, reply))
  }

  /** `_find_cross_references`: the nested loop over the document pairs, comparing each. */
  method FindCrossReferences(
    topic: string, groups: ByDocument,
    similarity: (string, string) -> Score, reply: (string, string) -> Option<string>)
    returns (refs: seq<CrossRef>)
    ensures refs == Comparisons(topic, groups, similarity, reply)
  {
    refs := MapEveryPair(groups, Comparer(topic, similarity, reply));
  }

  // ----- the analysis over all comparisons -----

  /** The four overall verdicts. */
  datatype Verdict = StrongAgreement | GeneralAgreement | SignificantDisagreement | MixedEvidence

  /** The sentence the report shows for a verdict. */
  function VerdictText(v: Verdict): string {
    match v
    case StrongAgreement => "Strong agreement across sources"
    case GeneralAgreement => "General agreement with some discrepancies"
    case SignificantDisagreement => "Significant disagreements between sources"
    case MixedEvidence => "Mixed evidence with balanced agreements and contradictions"
  }

  /** The overall consensus, decided in the order the tool checks its cases. */
  function Consensus(agreements: nat, contradictions: nat): Verdict {
    if agreements > contradictions * 2 then StrongAgreement
    else if agreements > contradictions then GeneralAgreement
    else if contradictions > agreements then SignificantDisagreement
    else MixedEvidence
  }

  /** The four verdicts partition the counts. */
  lemma ConsensusCases(a: nat, c: nat)
    ensures Consensus(a, c) == StrongAgreement <==> a > 2 * c
    ensures Consensus(a, c) == GeneralAgreement <==> c < a <= 2 * c
    ensures Consensus(a, c) == SignificantDisagreement <==> a < c
    ensures Consensus(a, c) == MixedEvidence <==> a == c
  {
  }

  function TotalContradictions(refs: seq<CrossRef>): nat {
    if refs == [] then 0 else TotalContradictions(refs[..|refs| - 1]) + |refs[|refs| - 1].contradictions|
  }

  function TotalAgreements(refs: seq<CrossRef>): nat {
    if refs == [] then 0 else TotalAgreements(refs[..|refs| - 1]) + |refs[|refs| - 1].supporting|
  }

  /** How many comparisons share the entity. */
  function MentionCount(refs: seq<CrossRef>, e: string): (m: nat)
    ensures m <= |refs|
  {
    if refs == [] then 0
    else MentionCount(refs[..|refs| - 1], e) + (if e in refs[|refs| - 1].commonEntities then 1 else 0)
  }

  lemma {:induction false} MentionCountPositive(refs: seq<CrossRef>, e: string)
    ensures MentionCount(refs, e) > 0 <==> exists k :: 0 <= k < |refs| && e in refs[k].commonEntities
  {
    if refs != [] {
      var init := refs[..|refs| - 1];
      MentionCountPositive(init, e);
      if exists k :: 0 <= k < |refs| && e in refs[k].commonEntities {
        var k :| 0 <= k < |refs| && e in refs[k].commonEntities;
        if k < |init| {
          assert init[k] == refs[k];
        }
      }
    }
  }

  function AllShared(refs: seq<CrossRef>): set<string> {
    set k, e | 0 <= k < |refs| && e in refs[k].commonEntities :: e
  }

  /** `entity_counts`: for each shared entity, the number of comparisons that share it. */
  function EntityMentions(refs: seq<CrossRef>): map<string, nat> {
    map e | e in AllShared(refs) :: MentionCount(refs, e)
  }

  /** An entity is counted iff some comparison shares it, and then at least once and at most once per comparison. */
  lemma EntityMentionsMeaning(refs: seq<CrossRef>, e: string)
    ensures e in EntityMentions(refs) <==> exists k :: 0 <= k < |refs| && e in refs[k].commonEntities
    ensures e in EntityMentions(refs) ==> 0 < EntityMentions(refs)[e] <= |refs|
  {
    MentionCountPositive(refs, e);
    if exists k :: 0 <= k < |refs| && e in refs[k].commonEntities {
      var k :| 0 <= k < |refs| && e in refs[k].commonEntities;
      assert e in AllShared(refs);
    }
  }

  function DocumentsIn(refs: seq<CrossRef>): set<string> {
    (set k | 0 <= k < |refs| :: refs[k].document1) + (set k | 0 <= k < |refs| :: refs[k].document2)
  }

  datatype Analysis =
    | NoCrossReferences
    | Analysis(
        consensus: Verdict,
        totalContradictions: nat,
        totalAgreements: nat,
        entityMentions: map<string, nat>,
        documentsCompared: nat)

  /** `_analyze_cross_references`. */
  function AnalyzeCrossReferences(refs: seq<CrossRef>): (a: Analysis)
    ensures a.NoCrossReferences? <==> refs == []
  {
    if refs == [] then NoCrossReferences
    else
      var c, g := TotalContradictions(refs), TotalAgreements(refs);
      Analysis(Consensus(g, c), c, g, EntityMentions(refs), |DocumentsIn(refs)|)
  }

  /** A comparison that names its two documents in order, as `Compare` does. */
  ghost predicate KeepsNames(compare: (Document, Document) -> CrossRef) {
    forall d1, d2 :: compare(d1, d2).document1 == d1.key && compare(d1, d2).document2 == d2.key
  }

  lemma ComparerKeepsNames(topic: string, similarity: (string, string) -> Score, reply: (string, string) -> Option<string>)
    ensures KeepsNames(Comparer(topic, similarity, reply))
  {
  }

  /** Each document a comparison names is one of the documents. */
  lemma NamedDocuments(groups: ByDocument, compare: (Document, Document) -> CrossRef, refs: seq<CrossRef>, k: nat)
    requires KeepsNames(compare) && refs == PairMap(groups, AllPairs(|groups|), compare)
    requires k < |refs|
    ensures refs[k].document1 in Elements(Grouping.Keys(groups)) && refs[k].document2 in Elements(Grouping.Keys(groups))
  {
    var pairs := AllPairs(|groups|);
    AllPairsWithin(|groups|);
    PairMapLength(groups, pairs, compare);
    PairMapAt(groups, pairs, compare, k);
    var (a, b) := pairs[k];
    assert refs[k] == compare(groups[a], groups[b]);
    assert Grouping.Keys(groups)[a] == groups[a].key && Grouping.Keys(groups)[b] == groups[b].key;
  }

  lemma DocumentsInMeaning(refs: seq<CrossRef>, d: string)
    requires d in DocumentsIn(refs)
    ensures exists k :: 0 <= k < |refs| && (refs[k].document1 == d || refs[k].document2 == d)
  {
  }

  /** With two or more documents, each of them is named by some comparison. */
  lemma ComparedDocument(groups: ByDocument, compare: (Document, Document) -> CrossRef, refs: seq<CrossRef>, m: nat)
    requires KeepsNames(compare) && refs == PairMap(groups, AllPairs(|groups|), compare)
    requires 2 <= |groups| && m < |groups|
    ensures groups[m].key in DocumentsIn(refs)
  {
    var pairs := AllPairs(|groups|);
    var p: (nat, nat) := if m == 0 then (0, 1) else (0, m);
    AllPairsWithin(|groups|);
    AllPairsMembers(|groups|, p);
    var k :| 0 <= k < |pairs| && pairs[k] == p;
    PairMapAt(groups, pairs, compare, k);
    assert refs[k] == compare(groups[p.0], groups[p.1]);
    assert groups[m].key == refs[k].document1 || groups[m].key == refs[k].document2;
  }

  /** Comparing every pair of `n >= 2` distinct documents names each of them. */
  lemma DocumentsCompared(groups: ByDocument, compare: (Document, Document) -> CrossRef, refs: seq<CrossRef>)
    requires |groups| >= 2 && Distinct(Grouping.Keys(groups))
    requires KeepsNames(compare) && refs == PairMap(groups, AllPairs(|groups|), compare)
    ensures |DocumentsIn(refs)| == |groups|
  {
    var keys := Grouping.Keys(groups);
    forall d | d in DocumentsIn(refs) ensures d in Elements(keys) {
      DocumentsInMeaning(refs, d);
      var k :| 0 <= k < |refs| && (refs[k].document1 == d || refs[k].document2 == d);
      NamedDocuments(groups, compare, refs, k);
    }
    forall d | d in Elements(keys) ensures d in DocumentsIn(refs) {
      var m :| 0 <= m < |keys| && keys[m] == d;
      ComparedDocument(groups, compare, refs, m);
    }
    assert DocumentsIn(refs) == Elements(keys);
    DistinctCardinality(keys);
  }

  // ----- the report -----

  datatype Report =
    | NoInformation(topic: string)
    | Report(topic: string, documentsAnalyzed: nat, crossReferences: seq<CrossRef>, analysis: Analysis)

  /**
   * `cross_reference_documents` on the hits the search returned: no hits give
   * the fixed "no information" report; otherwise the documents are grouped,
   * every pair is compared and the comparisons are analysed.
   */
  method CrossReferenceDocuments(
    topic: string, results: seq<Hit>,
    similarity: (string, string) -> Score, reply: (string, string) -> Option<string>)
    returns (r: Report)
    ensures r.NoInformation? <==> results == []
    ensures r.topic == topic
    ensures r.Report? ==> r.documentsAnalyzed == |set h | h in results :: DocumentName(h)|
    ensures r.Report? ==> |r.crossReferences| == PairCount(r.documentsAnalyzed)
    ensures r.Report? ==> r.analysis == AnalyzeCrossReferences(r.crossReferences)
    ensures r.Report? ==> (r.analysis.NoCrossReferences? <==> r.documentsAnalyzed == 1)
    ensures r.Report? && r.analysis.Analysis? ==> r.analysis.documentsCompared == r.documentsAnalyzed
    ensures r.Report? ==> forall groups :: Grouping.GroupsOf(DocumentName, results, groups) ==>
              r.crossReferences == Comparisons(topic, groups, similarity, reply)
  {
    if results == [] {
      return NoInformation(topic);
    }
    var groups := GroupResultsByDocument(results);
    var refs := FindCrossReferences(topic, groups, similarity, reply);
    GroupFacts(results, groups);
    ComparerKeepsNames(topic, similarity, reply);
    ComparisonCounts(groups, Comparer(topic, similarity, reply), refs);
    forall g | Grouping.GroupsOf(DocumentName, results, g)
      ensures refs == Comparisons(topic, g, similarity, reply)
    {
      Grouping.GroupsOfUnique(DocumentName, results, groups, g);
    }
    r := Report(topic, |groups|, refs, AnalyzeCrossReferences(refs));
  }

  /** One group per document named in the hits, with distinct names. */
  lemma GroupFacts(results: seq<Hit>, groups: ByDocument)
    requires results != [] && Grouping.GroupsOf(DocumentName, results, groups)
    ensures |groups| == |set h | h in results :: DocumentName(h)|
    ensures |groups| >= 1 && Distinct(Grouping.Keys(groups))
  {
    GroupCount(results, groups);
    assert DocumentName(results[0]) in Grouping.Keys(groups);
  }

  /** One comparison per pair of documents, and with two or more documents every one of them is compared. */
  lemma ComparisonCounts(groups: ByDocument, compare: (Document, Document) -> CrossRef, refs: seq<CrossRef>)
    requires |groups| >= 1 && Distinct(Grouping.Keys(groups))
    requires KeepsNames(compare) && refs == PairMap(groups, AllPairs(|groups|), compare)
    ensures |refs| == PairCount(|groups|)
    ensures refs == [] <==> |groups| == 1
    ensures |groups| >= 2 ==> |DocumentsIn(refs)| == |groups|
  {
    EveryPairCount(groups, compare);
    if |groups| >= 2 {
      DocumentsCompared(groups, compare, refs);
      assert |refs| > 0 by {
        AllPairsMembers(|groups|, (0, 1));
      }
    }
  }

}
