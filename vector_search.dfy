/**
 * The deterministic half of `VectorSearchService`: the blank-query guard of
 * `search`, the minimum-length filter of `_enhance_search_results`, the source
 * attribution string, ranking and truncation, the context-window predicate of
 * `_get_context_chunks`, the merge of a primary chunk with its neighbours and
 * the two result shapes of `search_with_context`.
 *
 * The embedding call, the `search_document_chunks` RPC, the chunk and document
 * tables and the float relevance score are collaborators: their answers are
 * parameters. Scores are integers standing for the floats the service
 * compares; only their order matters here.
 */
module VectorSearch {
  import opened Wrappers
  import opened Text
  import opened PyValues
  import StableSort

  function Min(a: int, b: int): int { if a <= b then a else b }
  function Max(a: int, b: int): int { if a >= b then a else b }

  // ----- data model -----

  /**
   * `SearchConfig`. The similarity threshold and the two boost flags only feed
   * the RPC and the float relevance score, which are collaborators here.
   */
  datatype SearchConfig = SearchConfig(maxResults: int, minContentLength: int, includeMetadata: bool)

  /** `SearchConfig()`: ten results, chunks of at least fifty characters, metadata included. */
  function DefaultConfig(): SearchConfig {
    SearchConfig(10, 50, true)
  }

  /** One row the `search_document_chunks` RPC returns; `page_number` is `PyNone` when absent or null. */
  datatype Row = Row(
    id: string,
    documentId: string,
    content: string,
    similarity: int,
    pageNumber: PyValue,
    chunkIndex: int,
    documentFilename: PyValue,
    documentOriginalName: PyValue)

  /** The `SearchResult` dataclass. */
  datatype SearchResult = SearchResult(
    chunkId: string,
    documentId: string,
    content: string,
    similarityScore: int,
    relevanceScore: int,
    pageNumber: PyValue,
    chunkIndex: int,
    documentFilename: PyValue,
    documentOriginalName: PyValue,
    metadata: Dict,
    sourceAttribution: string)

  // ----- source attribution -----

  /** `result.get("document_original_name", result.get("document_filename", "Unknown Document"))`. */
  function DocumentName(originalName: Option<PyValue>, filename: Option<PyValue>): (r: PyValue)
    ensures originalName.Some? ==> r == originalName.value
    ensures originalName.None? && filename.Some? ==> r == filename.value
    ensures originalName.None? && filename.None? ==> r == PyStr("Unknown Document")
  {
    originalName.GetOr(filename.GetOr(PyStr("Unknown Document")))
  }

  /** True when `value` is present and truthy, as `d.get(key)` in a condition. */
  predicate Given(value: Option<PyValue>) {
    value.Some? && Truthy(value.value)
  }

  function PageInfo(page: Option<PyValue>, repr: PyValue -> string): string {
    if Given(page) then ", p. " + Show(page.value, repr) else ""
  }

  function TopicInfo(topic: Option<PyValue>, repr: PyValue -> string): (r: string)
    ensures r == "" || r[0] == ' '
  {
    if Given(topic) then " (" + Show(topic.value, repr) + ")" else ""
  }

  /** `_create_source_attribution(result, metadata)`. */
  function SourceAttribution(originalName: Option<PyValue>, filename: Option<PyValue>, page: Option<PyValue>,
                             metadata: Dict, repr: PyValue -> string): string
  {
    Show(DocumentName(originalName, filename), repr) + PageInfo(page, repr) + TopicInfo(Get(metadata, "topic"), repr)
  }

  /** Without a truthy page and a truthy topic the attribution is the document name alone. */
  lemma NameOnlyAttribution(originalName: Option<PyValue>, filename: Option<PyValue>, page: Option<PyValue>,
                            metadata: Dict, repr: PyValue -> string)
    requires !Given(page) && !Given(Get(metadata, "topic"))
    ensures SourceAttribution(originalName, filename, page, metadata, repr) == Show(DocumentName(originalName, filename), repr)
  {
  }

  /** A page number `n` (not zero) and no topic give `name, p. n`. */
  lemma PageAttribution(originalName: Option<PyValue>, filename: Option<PyValue>, n: int,
                        metadata: Dict, repr: PyValue -> string)
    requires n != 0 && !Given(Get(metadata, "topic"))
    ensures SourceAttribution(originalName, filename, Some(PyInt(n)), metadata, repr)
         == Show(DocumentName(originalName, filename), repr) + ", p. " + IntToString(n)
  {
  }

  /**
   * The attribution begins with the document name; what follows it begins
   * with ", p. " exactly when the page is truthy, and the attribution ends in
   * " (topic)" when the metadata carries a non-empty topic string.
   */
  lemma {:induction false} AttributionLayout(originalName: Option<PyValue>, filename: Option<PyValue>, page: Option<PyValue>,
                                             metadata: Dict, repr: PyValue -> string, topic: string)
    ensures var name := Show(DocumentName(originalName, filename), repr);
            var r := SourceAttribution(originalName, filename, page, metadata, repr);
            StartsWith(r, name) &&
            (StartsWith(r[|name|..], ", p. ") <==> Given(page)) &&
            (Get(metadata, "topic") == Some(PyStr(topic)) && topic != "" ==> EndsWith(r, " (" + topic + ")"))
  {
    var name := Show(DocumentName(originalName, filename), repr);
    var pageInfo := PageInfo(page, repr);
    var topicInfo := TopicInfo(Get(metadata, "topic"), repr);
    ThreePieces(name, pageInfo, topicInfo);
    PageMarker(pageInfo, topicInfo, Given(page), if Given(page) then Show(page.value, repr) else "");
    if Get(metadata, "topic") == Some(PyStr(topic)) && topic != "" {
      EndsWithAppend(name + pageInfo, topicInfo);
    }
  }

  lemma {:induction false} ThreePieces(a: string, b: string, c: string)
    ensures StartsWith(a + b + c, a)
    ensures (a + b + c)[|a|..] == b + c
  {
    assert a + b + c == a + (b + c);
    StartsWithAppend(a, b + c);
  }

  /** The page part begins with ", p. " when there is one, and the topic part never does. */
  lemma {:induction false} PageMarker(pageInfo: string, topicInfo: string, hasPage: bool, shown: string)
    requires pageInfo == if hasPage then ", p. " + shown else ""
    requires topicInfo == "" || topicInfo[0] == ' '
    ensures StartsWith(pageInfo + topicInfo, ", p. ") <==> hasPage
  {
    if hasPage {
      assert pageInfo + topicInfo == ", p. " + (shown + topicInfo);
      StartsWithAppend(", p. ", shown + topicInfo);
    } else {
      assert pageInfo + topicInfo == topicInfo;
    }
  }

  lemma {:induction false} StartsWithAppend(a: string, b: string)
    ensures StartsWith(a + b, a)
  {
    assert (a + b)[..|a|] == a;
  }

  lemma {:induction false} EndsWithAppend(a: string, b: string)
    ensures EndsWith(a + b, b)
  {
    assert (a + b)[|a|..] == b;
  }

  // ----- enhancing the RPC rows -----

  /** A row long enough to survive `_enhance_search_results`. */
  predicate LongEnough(row: Row, config: SearchConfig) {
    |row.content| >= config.minContentLength
  }

  /**
   * The `SearchResult` built from one row; `score` is the relevance oracle and
   * `chunkMetadata` the `metadata` column of the chunk with a given id.
   */
  function Enhance(row: Row, config: SearchConfig, score: Row -> int, chunkMetadata: string -> Dict,
                   repr: PyValue -> string): SearchResult
  {
    var meta := chunkMetadata(row.id);
    SearchResult(row.id, row.documentId, row.content, row.similarity, score(row), row.pageNumber, row.chunkIndex,
                 row.documentFilename, row.documentOriginalName,
                 if config.includeMetadata then meta else [],
                 SourceAttribution(Some(row.documentOriginalName), Some(row.documentFilename), Some(row.pageNumber), meta, repr))
  }

  /** What `_enhance_search_results` returns for `rows`. */
  function Enhanced(rows: seq<Row>, config: SearchConfig, score: Row -> int, chunkMetadata: string -> Dict,
                    repr: PyValue -> string): (r: seq<SearchResult>)
    ensures |r| <= |rows|
  {
    if rows == [] then []
    else
      var last := rows[|rows| - 1];
      Enhanced(rows[..|rows| - 1], config, score, chunkMetadata, repr)
        + (if LongEnough(last, config) then [Enhance(last, config, score, chunkMetadata, repr)] else [])
  }

  /** `_enhance_search_results`: one pass over the rows, skipping the short ones. */
  method EnhanceSearchResults(rows: seq<Row>, config: SearchConfig, score: Row -> int, chunkMetadata: string -> Dict,
                              repr: PyValue -> string)
    returns (results: seq<SearchResult>)
    ensures results == Enhanced(rows, config, score, chunkMetadata, repr)
  {
    results := [];
    for i := 0 to |rows|
      invariant results == Enhanced(rows[..i], config, score, chunkMetadata, repr)
    {
      assert rows[..i + 1][..i] == rows[..i];
      var row := rows[i];
      if |row.content| < config.minContentLength {
        continue;
      }
      var relevance := score(row);
      var meta := chunkMetadata(row.id);
      var attribution := SourceAttribution(Some(row.documentOriginalName), Some(row.documentFilename), Some(row.pageNumber), meta, repr);
      var result := SearchResult(row.id, row.documentId, row.content, row.similarity, relevance, row.pageNumber,
                                 row.chunkIndex, row.documentFilename, row.documentOriginalName,
                                 if config.includeMetadata then meta else [], attribution);
      results := results + [result];
    }
    assert rows[..|rows|] == rows;
  }

  /** Every result comes, in order, from a row at least `min_content_length` long. */
  lemma {:induction false} EnhancedSound(rows: seq<Row>, config: SearchConfig, score: Row -> int,
                                         chunkMetadata: string -> Dict, repr: PyValue -> string, k: nat)
    returns (j: nat)
    requires k < |Enhanced(rows, config, score, chunkMetadata, repr)|
    ensures j < |rows| && LongEnough(rows[j], config)
    ensures Enhanced(rows, config, score, chunkMetadata, repr)[k] == Enhance(rows[j], config, score, chunkMetadata, repr)
    decreases |rows|
  {
    var front := rows[..|rows| - 1];
    var prior := Enhanced(front, config, score, chunkMetadata, repr);
    if k < |prior| {
      j := EnhancedSound(front, config, score, chunkMetadata, repr, k);
    } else {
      j := |rows| - 1;
    }
  }

  /** Every row at least `min_content_length` long yields a result. */
  lemma {:induction false} EnhancedComplete(rows: seq<Row>, config: SearchConfig, score: Row -> int,
                                            chunkMetadata: string -> Dict, repr: PyValue -> string, j: nat)
    returns (k: nat)
    requires j < |rows| && LongEnough(rows[j], config)
    ensures k < |Enhanced(rows, config, score, chunkMetadata, repr)|
    ensures Enhanced(rows, config, score, chunkMetadata, repr)[k] == Enhance(rows[j], config, score, chunkMetadata, repr)
    decreases |rows|
  {
    var front := rows[..|rows| - 1];
    var prior := Enhanced(front, config, score, chunkMetadata, repr);
    if j < |rows| - 1 {
      assert front[j] == rows[j];
      k := EnhancedComplete(front, config, score, chunkMetadata, repr, j);
    } else {
      k := |prior|;
    }
  }

  // ----- ranking -----

  function RankKey(r: SearchResult): StableSort.Key {
    (r.relevanceScore, r.similarityScore)
  }

  /** Python's `s[:n]`, a negative `n` counting from the end. */
  function Head<T>(s: seq<T>, n: int): seq<T> {
    if n >= 0 then s[..Min(n, |s|)] else s[..Max(0, |s| + n)]
  }

  /** `_rank_and_limit_results`. */
  function RankAndLimit(results: seq<SearchResult>, config: SearchConfig): seq<SearchResult> {
    Head(StableSort.Sort(RankKey, true, results), config.maxResults)
  }

  /**
   * The ranked list holds `min(len, max_results)` of the input results (a
   * negative limit drops that many from the end), in non-increasing
   * (relevance, similarity) order.
   */
  lemma {:induction false} RankAndLimitResults(results: seq<SearchResult>, config: SearchConfig)
    ensures var r := RankAndLimit(results, config);
            (config.maxResults >= 0 ==> |r| == Min(|results|, config.maxResults)) &&
            (config.maxResults < 0 ==> |r| == Max(0, |results| + config.maxResults)) &&
            multiset(r) <= multiset(results) &&
            StableSort.Ordered(RankKey, true, r)
  {
    var sorted := StableSort.Sort(RankKey, true, results);
    var r := RankAndLimit(results, config);
    StableSort.SortOrdered(RankKey, true, results);
    assert sorted == r + sorted[|r|..];
    assert multiset(sorted) == multiset(r) + multiset(sorted[|r|..]);
  }

  /** No result that the limit drops outranks one that it keeps. */
  lemma {:induction false} RankAndLimitKeepsBest(results: seq<SearchResult>, config: SearchConfig, x: SearchResult, y: SearchResult)
    requires x in RankAndLimit(results, config)
    requires y in multiset(results) - multiset(RankAndLimit(results, config))
    ensures !StableSort.KeyLess(RankKey(x), RankKey(y))
  {
    var sorted := StableSort.Sort(RankKey, true, results);
    var r := RankAndLimit(results, config);
    StableSort.SortOrdered(RankKey, true, results);
    assert sorted == r + sorted[|r|..];
    RestOfPrefix(r, sorted[|r|..], y);
    OrderedAcross(sorted, |r|, x, y);
  }

  /** What a prefix leaves of a sequence's multiset is in the remaining suffix. */
  lemma {:induction false} RestOfPrefix<T>(a: seq<T>, b: seq<T>, y: T)
    requires y in multiset(a + b) - multiset(a)
    ensures y in b
  {
    assert multiset(a + b) == multiset(a) + multiset(b);
    assert multiset(a + b)[y] > multiset(a)[y];
  }

  /** In a ranked sequence nothing after position `n` outranks anything before it. */
  lemma {:induction false} OrderedAcross(s: seq<SearchResult>, n: nat, x: SearchResult, y: SearchResult)
    requires StableSort.Ordered(RankKey, true, s)
    requires n <= |s| && x in s[..n] && y in s[n..]
    ensures !StableSort.KeyLess(RankKey(x), RankKey(y))
  {
    var i :| 0 <= i < n && s[..n][i] == x;
    var j :| 0 <= j < |s| - n && s[n..][j] == y;
    assert s[i] == x && s[n + j] == y;
    assert !StableSort.Before(RankKey, true, s[n + j], s[i]);
  }

  /** Results with equal scores keep the order `_enhance_search_results` gave them. */
  lemma {:induction false} RankAndLimitStable(results: seq<SearchResult>, config: SearchConfig, k: StableSort.Key)
    ensures var ties := StableSort.WithKey(RankKey, k, RankAndLimit(results, config));
            var all := StableSort.WithKey(RankKey, k, results);
            |ties| <= |all| && ties == all[..|ties|]
  {
    var sorted := StableSort.Sort(RankKey, true, results);
    var r := RankAndLimit(results, config);
    assert sorted == r + sorted[|r|..];
    StableSort.WithKeyAppend(RankKey, k, r, sorted[|r|..]);
    StableSort.SortStable(RankKey, true, k, results);
    var ties := StableSort.WithKey(RankKey, k, r);
    assert StableSort.WithKey(RankKey, k, results) == ties + StableSort.WithKey(RankKey, k, sorted[|r|..]);
  }

  // ----- search -----

  function SearchFailed(message: string): HttpError {
    HttpError(500, "Vector search failed: " + message)
  }

  function EmptyQueryMessage(): string {
    "Query cannot be empty"
  }

  /**
   * What `search(query, config)` returns or raises; `fetched` is what the
   * embedding call and the RPC produced for the query.
   */
  function Searched(query: string, config: Option<SearchConfig>, fetched: Outcome<seq<Row>>, score: Row -> int,
                    chunkMetadata: string -> Dict, repr: PyValue -> string): Result<seq<SearchResult>, HttpError>
  {
    if Strip(query) == [] then Err(SearchFailed(EmptyQueryMessage()))
    else
      var c := config.GetOr(DefaultConfig());
      match fetched
      case Raised(message) => Err(SearchFailed(message))
      case Returned(rows) => Ok(RankAndLimit(Enhanced(rows, c, score, chunkMetadata, repr), c))
  }

  /** `search`. */
  method Search(query: string, config: Option<SearchConfig>, fetched: Outcome<seq<Row>>, score: Row -> int,
                chunkMetadata: string -> Dict, repr: PyValue -> string)
    returns (r: Result<seq<SearchResult>, HttpError>)
    ensures r == Searched(query, config, fetched, score, chunkMetadata, repr)
  {
    if Strip(query) == [] {
      return Err(SearchFailed(EmptyQueryMessage()));
    }
    var searchConfig := config.GetOr(DefaultConfig());
    match fetched
    case Raised(message) =>
      return Err(SearchFailed(message));
    case Returned(rows) =>
      var enhanced := EnhanceSearchResults(rows, searchConfig, score, chunkMetadata, repr);
      return Ok(RankAndLimit(enhanced, searchConfig));
  }

  /** `search` fails exactly when the query is blank or the lookup raised, with a 500 naming the cause. */
  lemma {:induction false} SearchFails(query: string, config: Option<SearchConfig>, fetched: Outcome<seq<Row>>,
                                       score: Row -> int, chunkMetadata: string -> Dict, repr: PyValue -> string)
    ensures var r := Searched(query, config, fetched, score, chunkMetadata, repr);
            (r.Err? <==> Strip(query) == [] || fetched.Raised?) &&
            (Strip(query) == [] ==> r == Err(SearchFailed(EmptyQueryMessage()))) &&
            (Strip(query) != [] && fetched.Raised? ==> r == Err(SearchFailed(fetched.message)))
  {
  }

  /**
   * A successful search returns no more results than rows and at most
   * `max_results` of them, in ranking order, each built from a row at least
   * `min_content_length` long.
   */
  lemma {:induction false} SearchResults(query: string, config: Option<SearchConfig>, fetched: Outcome<seq<Row>>,
                                         score: Row -> int, chunkMetadata: string -> Dict, repr: PyValue -> string)
    requires Searched(query, config, fetched, score, chunkMetadata, repr).Ok?
    ensures fetched.Returned?
    ensures var r := Searched(query, config, fetched, score, chunkMetadata, repr).value;
            var c := config.GetOr(DefaultConfig());
            |r| <= |fetched.result| &&
            (c.maxResults >= 0 ==> |r| <= c.maxResults) &&
            StableSort.Ordered(RankKey, true, r) &&
            forall x :: x in r ==> exists row :: row in fetched.result && LongEnough(row, c) &&
                                                 x == Enhance(row, c, score, chunkMetadata, repr)
  {
    var c := config.GetOr(DefaultConfig());
    var enhanced := Enhanced(fetched.result, c, score, chunkMetadata, repr);
    assert Searched(query, config, fetched, score, chunkMetadata, repr).value == RankAndLimit(enhanced, c);
    RankAndLimitResults(enhanced, c);
    RankedFromRows(fetched.result, c, score, chunkMetadata, repr);
  }

  lemma {:induction false} RankedFromRows(rows: seq<Row>, c: SearchConfig, score: Row -> int,
                                          chunkMetadata: string -> Dict, repr: PyValue -> string)
    ensures forall x :: x in RankAndLimit(Enhanced(rows, c, score, chunkMetadata, repr), c) ==>
              exists row :: row in rows && LongEnough(row, c) && x == Enhance(row, c, score, chunkMetadata, repr)
  {
    var enhanced := Enhanced(rows, c, score, chunkMetadata, repr);
    var ranked := RankAndLimit(enhanced, c);
    RankAndLimitResults(enhanced, c);
    forall x | x in ranked
      ensures exists row :: row in rows && LongEnough(row, c) && x == Enhance(row, c, score, chunkMetadata, repr)
    {
      assert x in multiset(ranked);
      assert x in enhanced;
      var k :| 0 <= k < |enhanced| && enhanced[k] == x;
      var j := EnhancedSound(rows, c, score, chunkMetadata, repr, k);
      assert rows[j] in rows;
    }
  }

  // ----- context chunks -----

  /** A row of `document_chunks` as `_get_context_chunks` selects it. */
  datatype ContextChunk = ContextChunk(content: string, chunkIndex: int, pageNumber: PyValue)

  function ByIndex(c: ContextChunk): StableSort.Key {
    (c.chunkIndex, 0)
  }

  /** Non-decreasing chunk indices. */
  predicate Ascending(cs: seq<ContextChunk>) {
    forall i, j :: 0 <= i < j < |cs| ==> cs[i].chunkIndex <= cs[j].chunkIndex
  }

  /** `sorted(cs, key=lambda x: x["chunk_index"])`, which is also what `.order("chunk_index")` yields. */
  function SortByIndex(cs: seq<ContextChunk>): (r: seq<ContextChunk>)
    ensures multiset(r) == multiset(cs)
  {
    StableSort.Sort(ByIndex, false, cs)
  }

  lemma {:induction false} SortByIndexAscending(cs: seq<ContextChunk>)
    ensures Ascending(SortByIndex(cs))
  {
    StableSort.SortOrdered(ByIndex, false, cs);
    var r := SortByIndex(cs);
    assert forall i, j :: 0 <= i < j < |r| ==> !StableSort.Before(ByIndex, false, r[j], r[i]);
  }

  /** The three chunk filters: the context window, and the two sides of the primary chunk. */
  datatype Bound = Window(center: int, width: int) | Below(index: int) | Above(index: int)

  predicate Keeps(b: Bound, c: ContextChunk) {
    match b
    case Window(i, w) => Max(0, i - w) <= c.chunkIndex <= i + w && c.chunkIndex != i
    case Below(p) => c.chunkIndex < p
    case Above(p) => c.chunkIndex > p
  }

  function Filter(b: Bound, cs: seq<ContextChunk>): seq<ContextChunk> {
    if cs == [] then []
    else
      assert cs == cs[..|cs| - 1] + [cs[|cs| - 1]];
      Filter(b, cs[..|cs| - 1]) + (if Keeps(b, cs[|cs| - 1]) then [cs[|cs| - 1]] else [])
  }

  /** A chunk survives a filter exactly when it is in the input and the bound keeps it. */
  lemma {:induction false} FilterMembers(b: Bound, cs: seq<ContextChunk>)
    ensures forall c :: c in Filter(b, cs) <==> c in cs && Keeps(b, c)
    decreases |cs|
  {
    if cs != [] {
      var front := cs[..|cs| - 1];
      FilterMembers(b, front);
      assert cs == front + [cs[|cs| - 1]];
    }
  }

  /** Filtering keeps the chunks in index order. */
  lemma {:induction false} FilterAscending(b: Bound, cs: seq<ContextChunk>)
    requires Ascending(cs)
    ensures Ascending(Filter(b, cs))
    decreases |cs|
  {
    if cs != [] {
      var front := cs[..|cs| - 1];
      var last := cs[|cs| - 1];
      var prior := Filter(b, front);
      assert Ascending(front);
      FilterAscending(b, front);
      FilterMembers(b, front);
      if Keeps(b, last) {
        forall i | 0 <= i < |prior|
          ensures prior[i].chunkIndex <= last.chunkIndex
        {
          assert prior[i] in front;
          var m :| 0 <= m < |front| && front[m] == prior[i];
          assert cs[m] == prior[i];
        }
      }
    }
  }

  /**
   * `_get_context_chunks(document_id, i, w)`; `stored` is the document's
   * chunk rows, or `None` when the query raised (the service then returns []).
   */
  function ContextChunks(stored: Option<seq<ContextChunk>>, i: int, w: int): seq<ContextChunk> {
    match stored
    case None => []
    case Some(cs) => SortByIndex(Filter(Window(i, w), cs))
  }

  /** The context chunks are the stored ones with index in `[max(0, i - w), i + w]` other than `i`, by index. */
  lemma {:induction false} ContextChunksWindow(stored: Option<seq<ContextChunk>>, i: int, w: int)
    ensures var r := ContextChunks(stored, i, w);
            Ascending(r) &&
            forall c :: c in r <==> stored.Some? && c in stored.value && Max(0, i - w) <= c.chunkIndex <= i + w && c.chunkIndex != i
  {
    var r := ContextChunks(stored, i, w);
    if stored.Some? {
      var kept := Filter(Window(i, w), stored.value);
      FilterMembers(Window(i, w), stored.value);
      SortByIndexAscending(kept);
      forall c
        ensures c in r <==> c in kept
      {
        assert c in r <==> c in multiset(r);
        assert c in kept <==> c in multiset(kept);
      }
    }
  }

  // ----- merging context -----

  function ContextPart(c: ContextChunk): string {
    "[Context] " + c.content
  }

  function PrimaryPart(r: SearchResult): string {
    "[Primary] " + r.content
  }

  function ContextParts(cs: seq<ContextChunk>): seq<string> {
    if cs == [] then [] else ContextParts(cs[..|cs| - 1]) + [ContextPart(cs[|cs| - 1])]
  }

  /** The context parts of the chunks below `index`, the primary part, then those above `index`. */
  function PartsAround(index: int, primaryPart: string, sorted: seq<ContextChunk>): seq<string> {
    ContextParts(Filter(Below(index), sorted)) + [primaryPart] + ContextParts(Filter(Above(index), sorted))
  }

  /** The parts `_merge_context_content` joins. */
  function MergedParts(primary: SearchResult, contextChunks: seq<ContextChunk>): seq<string> {
    PartsAround(primary.chunkIndex, PrimaryPart(primary), SortByIndex(contextChunks))
  }

  function MergedContext(primary: SearchResult, contextChunks: seq<ContextChunk>): string {
    Join("\n\n", MergedParts(primary, contextChunks))
  }

  /** `_merge_context_content`. */
  method MergeContextContent(primary: SearchResult, contextChunks: seq<ContextChunk>) returns (full: string)
    ensures full == MergedContext(primary, contextChunks)
  {
    var sorted := SortByIndex(contextChunks);
    var parts := CollectParts(primary.chunkIndex, PrimaryPart(primary), sorted);
    full := Join("\n\n", parts);
  }

  /** The two passes of `_merge_context_content` over the sorted chunks, around the primary part. */
  method CollectParts(index: int, primaryPart: string, sorted: seq<ContextChunk>) returns (parts: seq<string>)
    ensures parts == PartsAround(index, primaryPart, sorted)
  {
    parts := [];
    for i := 0 to |sorted|
      invariant parts == ContextParts(Filter(Below(index), sorted[..i]))
    {
      FilterStep(Below(index), sorted, i);
      if sorted[i].chunkIndex < index {
        ContextPartsSnoc(Filter(Below(index), sorted[..i]), sorted[i]);
        parts := parts + [ContextPart(sorted[i])];
      }
    }
    assert sorted[..|sorted|] == sorted;
    parts := parts + [primaryPart];
    ghost var before := parts;
    for i := 0 to |sorted|
      invariant parts == before + ContextParts(Filter(Above(index), sorted[..i]))
    {
      FilterStep(Above(index), sorted, i);
      if sorted[i].chunkIndex > index {
        ContextPartsSnoc(Filter(Above(index), sorted[..i]), sorted[i]);
        assert parts + [ContextPart(sorted[i])]
            == before + (ContextParts(Filter(Above(index), sorted[..i])) + [ContextPart(sorted[i])]);
        parts := parts + [ContextPart(sorted[i])];
      }
    }
    assert sorted[..|sorted|] == sorted;
  }

  lemma {:induction false} FilterStep(b: Bound, cs: seq<ContextChunk>, i: nat)
    requires i < |cs|
    ensures Keeps(b, cs[i]) ==> Filter(b, cs[..i + 1]) == Filter(b, cs[..i]) + [cs[i]]
    ensures !Keeps(b, cs[i]) ==> Filter(b, cs[..i + 1]) == Filter(b, cs[..i])
  {
    assert cs[..i + 1][..i] == cs[..i];
  }

  lemma {:induction false} ContextPartsSnoc(cs: seq<ContextChunk>, c: ContextChunk)
    ensures ContextParts(cs + [c]) == ContextParts(cs) + [ContextPart(c)]
  {
    assert (cs + [c])[..|cs|] == cs;
  }

  /**
   * The merged context is the lower-index context chunks in ascending order,
   * then the primary part, then the higher-index chunks in ascending order,
   * joined by blank lines; a chunk with the primary's own index is left out.
   */
  lemma {:induction false} MergedContextLayout(primary: SearchResult, contextChunks: seq<ContextChunk>)
    returns (before: seq<ContextChunk>, after: seq<ContextChunk>)
    ensures MergedContext(primary, contextChunks) == Join("\n\n", ContextParts(before) + [PrimaryPart(primary)] + ContextParts(after))
    ensures Ascending(before) && Ascending(after)
    ensures forall c :: c in before <==> c in contextChunks && c.chunkIndex < primary.chunkIndex
    ensures forall c :: c in after <==> c in contextChunks && c.chunkIndex > primary.chunkIndex
  {
    var sorted := SortByIndex(contextChunks);
    before := Filter(Below(primary.chunkIndex), sorted);
    after := Filter(Above(primary.chunkIndex), sorted);
    SortByIndexAscending(contextChunks);
    FilterAscending(Below(primary.chunkIndex), sorted);
    FilterAscending(Above(primary.chunkIndex), sorted);
    FilterMembers(Below(primary.chunkIndex), sorted);
    FilterMembers(Above(primary.chunkIndex), sorted);
    forall c
      ensures c in sorted <==> c in contextChunks
    {
      assert c in sorted <==> c in multiset(sorted);
    }
  }

  // ----- search with context -----

  /** `_format_result_for_context`. */
  datatype FormattedResult = FormattedResult(
    chunkId: string,
    content: string,
    similarityScore: int,
    relevanceScore: int,
    pageNumber: PyValue,
    sourceAttribution: string,
    metadata: Dict)

  function Format(r: SearchResult): FormattedResult {
    FormattedResult(r.chunkId, r.content, r.similarityScore, r.relevanceScore, r.pageNumber, r.sourceAttribution, r.metadata)
  }

  /** An entry of `search_with_context`'s list: a bare formatted result, or one with its neighbours. */
  datatype ContextResult =
    | Plain(result: FormattedResult)
    | WithContext(primaryChunk: FormattedResult, contextChunks: seq<ContextChunk>, fullContext: string)

  /** `[self._format_result_for_context(r) for r in primary_results]`. */
  function Plains(rs: seq<SearchResult>): (r: seq<ContextResult>)
    ensures |r| == |rs|
    ensures forall k :: 0 <= k < |rs| ==> r[k] == Plain(Format(rs[k]))
  {
    if rs == [] then [] else Plains(rs[..|rs| - 1]) + [Plain(Format(rs[|rs| - 1]))]
  }

  /** The entry for one primary result; `stored` gives the chunk rows of a document id. */
  function ContextEntry(r: SearchResult, window: int, stored: string -> Option<seq<ContextChunk>>): ContextResult {
    var chunks := ContextChunks(stored(r.documentId), r.chunkIndex, window);
    WithContext(Format(r), chunks, MergedContext(r, chunks))
  }

  function ContextEntries(rs: seq<SearchResult>, window: int, stored: string -> Option<seq<ContextChunk>>): (r: seq<ContextResult>)
    ensures |r| == |rs|
  {
    if rs == [] then [] else ContextEntries(rs[..|rs| - 1], window, stored) + [ContextEntry(rs[|rs| - 1], window, stored)]
  }

  lemma {:induction false} ContextEntriesAt(rs: seq<SearchResult>, window: int, stored: string -> Option<seq<ContextChunk>>, k: nat)
    requires k < |rs|
    ensures ContextEntries(rs, window, stored)[k] == ContextEntry(rs[k], window, stored)
    decreases |rs|
  {
    var front := rs[..|rs| - 1];
    var entries := ContextEntries(front, window, stored);
    var last := ContextEntry(rs[|rs| - 1], window, stored);
    assert ContextEntries(rs, window, stored) == entries + [last];
    if k < |rs| - 1 {
      ContextEntriesAt(front, window, stored, k);
      assert front[k] == rs[k];
    }
  }

  lemma {:induction false} ContextEntriesStep(rs: seq<SearchResult>, window: int, stored: string -> Option<seq<ContextChunk>>, i: nat)
    requires i < |rs|
    ensures ContextEntries(rs[..i + 1], window, stored) == ContextEntries(rs[..i], window, stored) + [ContextEntry(rs[i], window, stored)]
  {
    assert rs[..i + 1][..i] == rs[..i];
  }

  /** The 500 that `search_with_context` raises on a failed search, embedding `str` of the inner error. */
  function ContextFailed(e: HttpError): HttpError {
    HttpError(500, "Context search failed: " + HttpErrorText(e))
  }

  function SearchedWithContext(query: string, window: int, config: Option<SearchConfig>, fetched: Outcome<seq<Row>>,
                               score: Row -> int, chunkMetadata: string -> Dict, repr: PyValue -> string,
                               stored: string -> Option<seq<ContextChunk>>): Result<seq<ContextResult>, HttpError>
  {
    match Searched(query, config, fetched, score, chunkMetadata, repr)
    case Err(e) => Err(ContextFailed(e))
    case Ok(primary) =>
      Ok(if primary == [] || window <= 0 then Plains(primary) else ContextEntries(primary, window, stored))
  }

  /** `search_with_context`. */
  method SearchWithContext(query: string, window: int, config: Option<SearchConfig>, fetched: Outcome<seq<Row>>,
                           score: Row -> int, chunkMetadata: string -> Dict, repr: PyValue -> string,
                           stored: string -> Option<seq<ContextChunk>>)
    returns (r: Result<seq<ContextResult>, HttpError>)
    ensures r == SearchedWithContext(query, window, config, fetched, score, chunkMetadata, repr, stored)
  {
    var searched := Search(query, config, fetched, score, chunkMetadata, repr);
    if searched.Err? {
      return Err(ContextFailed(searched.error));
    }
    var primary := searched.value;
    if primary == [] || window <= 0 {
      return Ok(Plains(primary));
    }
    var results := CollectContext(primary, window, stored);
    return Ok(results);
  }

  /** The loop of `search_with_context` that gives each primary result its context. */
  method CollectContext(primary: seq<SearchResult>, window: int, stored: string -> Option<seq<ContextChunk>>)
    returns (results: seq<ContextResult>)
    ensures results == ContextEntries(primary, window, stored)
  {
    results := [];
    for i := 0 to |primary|
      invariant results == ContextEntries(primary[..i], window, stored)
    {
      ContextEntriesStep(primary, window, stored, i);
      var result := primary[i];
      var chunks := ContextChunks(stored(result.documentId), result.chunkIndex, window);
      var full := MergeContextContent(result, chunks);
      results := results + [WithContext(Format(result), chunks, full)];
    }
    assert primary[..|primary|] == primary;
  }

  /** A failed search, a blank query among its causes, becomes a 500 "Context search failed: …". */
  lemma {:induction false} SearchWithContextFails(query: string, window: int, config: Option<SearchConfig>,
                                                  fetched: Outcome<seq<Row>>, score: Row -> int,
                                                  chunkMetadata: string -> Dict, repr: PyValue -> string,
                                                  stored: string -> Option<seq<ContextChunk>>)
    ensures var s := Searched(query, config, fetched, score, chunkMetadata, repr);
            var r := SearchedWithContext(query, window, config, fetched, score, chunkMetadata, repr, stored);
            (r.Err? <==> s.Err?) &&
            (s.Err? ==> r.error == ContextFailed(s.error)) &&
            (Strip(query) == [] ==> r == Err(ContextFailed(SearchFailed(EmptyQueryMessage()))))
  {
  }

  /** With no primary results or a window of at most zero the entries are the plain formatted results. */
  lemma {:induction false} SearchWithoutContext(query: string, window: int, config: Option<SearchConfig>,
                                                fetched: Outcome<seq<Row>>, score: Row -> int,
                                                chunkMetadata: string -> Dict, repr: PyValue -> string,
                                                stored: string -> Option<seq<ContextChunk>>)
    requires Searched(query, config, fetched, score, chunkMetadata, repr).Ok?
    requires Searched(query, config, fetched, score, chunkMetadata, repr).value == [] || window <= 0
    ensures var s := Searched(query, config, fetched, score, chunkMetadata, repr).value;
            var r := SearchedWithContext(query, window, config, fetched, score, chunkMetadata, repr, stored);
            r.Ok? && |r.value| == |s| && forall k :: 0 <= k < |s| ==> r.value[k] == Plain(Format(s[k]))
  {
  }

  /**
   * With a positive window each primary result, in ranking order, carries
   * the chunks of its window and their merge with it.
   */
  lemma {:induction false} SearchWithContextEntry(query: string, window: int, config: Option<SearchConfig>,
                                                  fetched: Outcome<seq<Row>>, score: Row -> int,
                                                  chunkMetadata: string -> Dict, repr: PyValue -> string,
                                                  stored: string -> Option<seq<ContextChunk>>, k: nat)
    requires Searched(query, config, fetched, score, chunkMetadata, repr).Ok?
    requires window > 0 && k < |Searched(query, config, fetched, score, chunkMetadata, repr).value|
    ensures var p := Searched(query, config, fetched, score, chunkMetadata, repr).value[k];
            var r := SearchedWithContext(query, window, config, fetched, score, chunkMetadata, repr, stored);
            var chunks := ContextChunks(stored(p.documentId), p.chunkIndex, window);
            r.Ok? && k < |r.value| && r.value[k] == WithContext(Format(p), chunks, MergedContext(p, chunks))
  {
    var s := Searched(query, config, fetched, score, chunkMetadata, repr).value;
    ContextEntriesAt(s, window, stored, k);
  }
}
