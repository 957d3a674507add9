/**
 * The citation generator: the four citation styles with their fallback, the
 * page reference that is left out when the page is falsy, the 200-character
 * quote preview, the bibliography entry of each style, the deduplicated
 * bibliography in order of first occurrence and the summary of a batch.
 */
module Citations {
  import opened Wrappers
  import opened Text

  /** A search result as the generator reads it; an absent key takes its `.get` default. */
  datatype SearchResult = SearchResult(
    documentName: Option<string>,
    pageNumber: Option<int>,
    content: Option<string>,
    sourceAttribution: Option<string>)

  datatype Style = Chicago | Mla | Apa | Academic

  function StyleName(s: Style): string {
    match s
    case Chicago => "chicago"
    case Mla => "mla"
    case Apa => "apa"
    case Academic => "academic"
  }

  /** `style.upper()` of a style name. */
  function StyleUpper(s: Style): string {
    match s
    case Chicago => "CHICAGO"
    case Mla => "MLA"
    case Apa => "APA"
    case Academic => "ACADEMIC"
  }

  /** `if style not in self.citation_styles: style = 'academic'`. */
  function StyleNamed(name: string): Style {
    if name == "chicago" then Chicago
    else if name == "mla" then Mla
    else if name == "apa" then Apa
    else Academic
  }

  /** A known name selects its own style; any other name selects academic. */
  lemma StyleFallback(name: string)
    ensures StyleName(StyleNamed(name)) == name <==> name in {"chicago", "mla", "apa", "academic"}
    ensures name !in {"chicago", "mla", "apa"} ==> StyleNamed(name) == Academic
  {
  }

  lemma StyleNameRoundTrip(s: Style)
    ensures StyleNamed(StyleName(s)) == s
  {
  }

  /** Python truthiness of `page_number`: neither `None` nor `0`. */
  predicate Truthy(page: Option<int>) {
    page.Some? && page.value != 0
  }

  /** What each style writes between the document name and the page number. */
  function PageSeparator(s: Style): string {
    match s
    case Chicago => ", "
    case Mla => " "
    case Apa => ", p. "
    case Academic => ", p. "
  }

  function PageRef(s: Style, page: Option<int>): string {
    if !Truthy(page) then "" else PageSeparator(s) + IntToString(page.value)
  }

  function Opening(s: Style): string {
    match s
    case Chicago => ""
    case Mla => "("
    case Apa => "("
    case Academic => "["
  }

  function Closing(s: Style): string {
    match s
    case Chicago => "."
    case Mla => ")"
    case Apa => ")"
    case Academic => "]"
  }

  /** The four formatters. */
  function Format(s: Style, name: string, page: Option<int>): string {
    Opening(s) + name + PageRef(s, page) + Closing(s)
  }

  /** Every citation names its document, opens and closes with its style's marks. */
  lemma FormatShape(s: Style, name: string, page: Option<int>)
    ensures Contains(Format(s, name, page), name)
    ensures StartsWith(Format(s, name, page), Opening(s))
    ensures EndsWith(Format(s, name, page), Closing(s))
  {
    ContainsMiddle(Opening(s), name, PageRef(s, page) + Closing(s));
    assert Format(s, name, page) == Opening(s) + name + (PageRef(s, page) + Closing(s));
  }

  /** A truthy page is cited. */
  lemma FormatCitesPage(s: Style, name: string, page: Option<int>)
    requires Truthy(page)
    ensures Contains(Format(s, name, page), IntToString(page.value))
  {
    var n := IntToString(page.value);
    var before := Opening(s) + name + PageSeparator(s);
    assert Format(s, name, page) == before + n + Closing(s);
    ContainsMiddle(before, n, Closing(s));
  }

  /** The APA and academic styles cite a truthy page as `p. N`. */
  lemma FormatLabelsPage(s: Style, name: string, page: Option<int>)
    requires Truthy(page) && (s == Apa || s == Academic)
    ensures Contains(Format(s, name, page), "p. " + IntToString(page.value))
  {
    var n := IntToString(page.value);
    var before := Opening(s) + name + ", ";
    assert PageSeparator(s) + n == ", " + ("p. " + n);
    assert Format(s, name, page) == before + ("p. " + n) + Closing(s);
    ContainsMiddle(before, "p. " + n, Closing(s));
  }

  /** A falsy page (absent, `None` or `0`) is left out entirely. */
  lemma FormatFalsyPage(s: Style, name: string, page: Option<int>)
    requires !Truthy(page)
    ensures Format(s, name, page) == Opening(s) + name + Closing(s)
  {
  }

  /** `_create_bibliography_entry`. */
  function BibliographyEntry(s: Style, name: string): string {
    name + match s
      case Chicago => ". Historical Document."
      case Mla => ". Historical Document. PDF."
      case Apa => ". Historical document."
      case Academic => " - Historical Document"
  }

  /** Within one style, two entries agree exactly when the document names do. */
  lemma BibliographyEntryInjective(s: Style, a: string, b: string)
    ensures BibliographyEntry(s, a) == BibliographyEntry(s, b) <==> a == b
  {
    if BibliographyEntry(s, a) == BibliographyEntry(s, b) {
      var ea, eb := BibliographyEntry(s, a), BibliographyEntry(s, b);
      assert |ea| == |eb|;
      assert ea[..|a|] == a && eb[..|b|] == b;
    }
  }

  lemma BibliographyEntryNamesDocument(s: Style, name: string)
    ensures StartsWith(BibliographyEntry(s, name), name)
  {
    assert BibliographyEntry(s, name)[..|name|] == name;
  }

  // ----- first-occurrence deduplication -----

  /** The list `bibliography` ends as when each entry is appended only if it is not there yet. */
  function Dedup(xs: seq<string>): (r: seq<string>)
    ensures |r| <= |xs|
  {
    if xs == [] then []
    else
      var d := Dedup(xs[..|xs| - 1]);
      if xs[|xs| - 1] in d then d else d + [xs[|xs| - 1]]
  }

  /** The index of the first occurrence of `x`. */
  function FirstIndex(xs: seq<string>, x: string): (i: nat)
    requires x in xs
    ensures i < |xs| && xs[i] == x && x !in xs[..i]
  {
    var init := xs[..|xs| - 1];
    if x in init then
      var i := FirstIndex(init, x);
      assert xs[..i] == init[..i];
      i
    else
      assert xs[..|xs| - 1] == init;
      |xs| - 1
  }

  lemma {:induction false} DedupElements(xs: seq<string>)
    ensures forall x :: x in Dedup(xs) <==> x in xs
  {
    if xs != [] {
      var init := xs[..|xs| - 1];
      DedupElements(init);
      assert xs == init + [xs[|xs| - 1]];
    }
  }

  lemma {:induction false} DedupDistinct(xs: seq<string>)
    ensures forall i, j :: 0 <= i < j < |Dedup(xs)| ==> Dedup(xs)[i] != Dedup(xs)[j]
  {
    if xs != [] {
      DedupDistinct(xs[..|xs| - 1]);
    }
  }

  /** The kept entries come in the order of their first occurrences. */
  lemma {:induction false} DedupFirstOrder(xs: seq<string>)
    ensures forall i, j :: 0 <= i < j < |Dedup(xs)| ==>
      Dedup(xs)[i] in xs && Dedup(xs)[j] in xs && FirstIndex(xs, Dedup(xs)[i]) < FirstIndex(xs, Dedup(xs)[j])
  {
    DedupElements(xs);
    if xs != [] {
      var init := xs[..|xs| - 1];
      var d := Dedup(init);
      DedupFirstOrder(init);
      DedupElements(init);
      forall y | y in d ensures FirstIndex(xs, y) == FirstIndex(init, y) {
      }
    }
  }

  /** A list without repeats is kept as it is. */
  lemma {:induction false} DedupOfDistinct(xs: seq<string>)
    requires forall i, j :: 0 <= i < j < |xs| ==> xs[i] != xs[j]
    ensures Dedup(xs) == xs
  {
    if xs != [] {
      var init := xs[..|xs| - 1];
      DedupOfDistinct(init);
      assert xs == init + [xs[|xs| - 1]];
    }
  }

  // ----- the batch -----

  datatype CitationEntry = CitationEntry(citation: string, quote: string, pageNumber: Option<int>, document: string)

  datatype CitationReport = CitationReport(
    style: Style,
    totalCitations: nat,
    citations: seq<CitationEntry>,
    bibliography: seq<string>,
    summary: string,
    usageNote: string)

  function DocumentOf(r: SearchResult): string {
    r.documentName.GetOr("Unknown Document")
  }

  /** The `content[:200] + "..."` preview. */
  function Quote(r: SearchResult): (q: string)
    ensures |q| <= 203
    ensures q == r.content.GetOr("") || (|q| == 203 && q[200..] == "...")
  {
    Ellipsize(r.content.GetOr(""), 200)
  }

  function Cite(s: Style, r: SearchResult): CitationEntry {
    CitationEntry(Format(s, DocumentOf(r), r.pageNumber), Quote(r), r.pageNumber, DocumentOf(r))
  }

  function Entries(s: Style, results: seq<SearchResult>): (r: seq<string>)
    ensures |r| == |results| && forall k :: 0 <= k < |results| ==> r[k] == BibliographyEntry(s, DocumentOf(results[k]))
  {
    seq(|results|, k requires 0 <= k < |results| => BibliographyEntry(s, DocumentOf(results[k])))
  }

  function CountWithPages(cs: seq<CitationEntry>): (n: nat)
    ensures n <= |cs|
  {
    if cs == [] then 0
    else CountWithPages(cs[..|cs| - 1]) + (if Truthy(cs[|cs| - 1].pageNumber) then 1 else 0)
  }

  function Documents(cs: seq<CitationEntry>): set<string> {
    set k | 0 <= k < |cs| :: cs[k].document
  }

  /** `_generate_citation_summary`. */
  function CitationSummary(cs: seq<CitationEntry>, s: Style): string {
    if cs == [] then "No citations generated."
    else Join("\n", [
      "Generated " + NatToString(|cs|) + " citations in " + StyleUpper(s) + " format:",
      "- Sources: " + NatToString(|Documents(cs)|) + " unique documents",
      "- Page references: " + NatToString(CountWithPages(cs)) + " citations include page numbers",
      "",
      "Usage: Copy citations and bibliography for academic papers."])
  }

  /** The loop of `generate_citations`: one citation per result, a bibliography without repeats. */
  method CiteAll(style: Style, results: seq<SearchResult>)
    returns (citations: seq<CitationEntry>, bibliography: seq<string>)
    ensures |citations| == |results|
    ensures forall k :: 0 <= k < |results| ==> citations[k] == Cite(style, results[k])
    ensures bibliography == Dedup(Entries(style, results))
  {
    citations, bibliography := [], [];
    ghost var es := Entries(style, results);
    for k := 0 to |results|
      invariant |citations| == k
      invariant forall m :: 0 <= m < k ==> citations[m] == Cite(style, results[m])
      invariant bibliography == Dedup(es[..k])
    {
      var r := results[k];
      citations := citations + [Cite(style, r)];
      var entry := BibliographyEntry(style, DocumentOf(r));
      assert es[..k + 1][..k] == es[..k] && es[k] == entry;
      if entry !in bibliography {
        bibliography := bibliography + [entry];
      }
    }
    assert es[..|results|] == es;
  }

  /** `generate_citations`. */
  method GenerateCitations(results: seq<SearchResult>, styleName: string) returns (report: CitationReport)
    ensures report.style == StyleNamed(styleName)
    ensures report.totalCitations == |report.citations| == |results|
    ensures forall k :: 0 <= k < |results| ==> report.citations[k] == Cite(report.style, results[k])
    ensures report.bibliography == Dedup(Entries(report.style, results))
    ensures report.summary == CitationSummary(report.citations, report.style)
    ensures report.usageNote == "Citations formatted in " + StyleUpper(report.style) + " style for academic use"
  {
    var style := StyleNamed(styleName);
    var citations, bibliography := CiteAll(style, results);
    report := CitationReport(style, |citations|, citations, bibliography,
      CitationSummary(citations, style),
      "Citations formatted in " + StyleUpper(style) + " style for academic use");
  }

  /** The bibliography lists each cited document once, and nothing else. */
  lemma BibliographyCoversDocuments(s: Style, results: seq<SearchResult>, name: string)
    ensures BibliographyEntry(s, name) in Dedup(Entries(s, results)) <==>
      exists k :: 0 <= k < |results| && DocumentOf(results[k]) == name
  {
    DedupElements(Entries(s, results));
    var es := Entries(s, results);
    if BibliographyEntry(s, name) in es {
      var k :| 0 <= k < |es| && es[k] == BibliographyEntry(s, name);
      BibliographyEntryInjective(s, name, DocumentOf(results[k]));
    }
    if exists k :: 0 <= k < |results| && DocumentOf(results[k]) == name {
      var k :| 0 <= k < |results| && DocumentOf(results[k]) == name;
      assert es[k] == BibliographyEntry(s, name);
    }
  }
}
