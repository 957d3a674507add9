/**
 * How the agent runs the calls of an action and what it observes.
 *
 * `FormatToolResult` is the one-paragraph summary the agent writes for a
 * tool's result dict, with a fixed sentence per tool; whenever Python would
 * raise while building it (a count that does not compare with 0, a value that
 * has no `len` or no `.get`) the summary falls back to a truncated `str` of
 * the whole result. `ExecuteToolCalls` runs the parsed calls one after another
 * and joins one observation line per call.
 *
 * `str` of a list or dict is Python's `repr`, which is a parameter.
 */
module ReactTools {
  import opened Wrappers
  import opened Text
  import opened PyValues
  import opened ToolFunctions
  import opened ReactParser

  // ----- the pieces of a summary that Python can refuse -----

  /** `v > 0`; `None` when Python refuses to compare `v` with an int. */
  function Positive(v: PyValue): (r: Option<bool>)
    ensures v.PyInt? ==> r == Some(v.i > 0)
    ensures v.PyNone? || v.PyStr? || v.PyList? || v.PyDict? ==> r == None
  {
    match v
    case PyInt(i) => Some(i > 0)
    case PyBool(b) => Some(b)
    case _ => None
  }

  /** `len(v)`; `None` when `v` has no length. */
  function Len(v: PyValue): (r: Option<nat>)
    ensures v.PyStr? ==> r == Some(|v.s|)
    ensures v.PyList? ==> r == Some(|v.items|)
    ensures v.PyNone? || v.PyInt? || v.PyBool? ==> r == None
  {
    match v
    case PyStr(s) => Some(|s|)
    case PyList(items) => Some(|items|)
    case PyDict(entries) => Some(|entries|)
    case _ => None
  }

  /** `v[:3]`, iterated; a non-empty string yields characters, which have no `.get`, so it fails like the rest. */
  function FirstThree(v: PyValue): (r: Option<seq<PyValue>>)
    ensures v.PyList? ==> r.Some? && |r.value| == if |v.items| <= 3 then |v.items| else 3
    ensures v.PyList? ==> forall k :: 0 <= k < |r.value| ==> r.value[k] == v.items[k]
  {
    match v
    case PyList(items) => Some(if |items| <= 3 then items else items[..3])
    case PyStr(s) => if s == "" then Some([]) else None
    case _ => None
  }

  /** The content of a preview: `content[:200] + "..."` when longer than 200, else the value itself. */
  function ContentText(c: PyValue, repr: PyValue -> string): (r: Option<string>)
    ensures c.PyStr? ==> r == Some(Ellipsize(c.s, 200))
  {
    match Len(c)
    case None => None
    case Some(n) =>
      if n <= 200 then Some(Show(c, repr))
      else if c.PyStr? then Some(c.s[..200] + "...")
      else None
  }

  /** One search preview line, once its content is rendered. */
  function PreviewLine(r: Dict, content: string, repr: PyValue -> string): string {
    "- " + Show(GetOrDefault(r, "document_name", PyStr("Unknown")), repr)
      + " (p." + Show(GetOrDefault(r, "page_number", PyStr("N/A")), repr) + "): " + content
  }

  function PreviewLines(rs: seq<PyValue>, repr: PyValue -> string): (r: Option<seq<string>>)
    ensures r.Some? ==> |r.value| == |rs|
  {
    if rs == [] then Some([])
    else
      match rs[0]
      case PyDict(e) =>
        (match (ContentText(GetOrDefault(e, "content", PyStr("")), repr), PreviewLines(rs[1..], repr))
         case (Some(c), Some(rest)) => Some([PreviewLine(e, c, repr)] + rest)
         case _ => None)
      case _ => None
  }

  /** The `"{n} {type}s"` parts of the entity summary, for the types that have entities. */
  function TypeCounts(groups: Dict): Option<seq<string>> {
    if groups == [] then Some([])
    else
      var (kind, entities) := groups[0];
      match TypeCounts(groups[1..])
      case None => None
      case Some(rest) =>
        if !Truthy(entities) then Some(rest)
        else
          match Len(entities)
          case None => None
          case Some(n) => Some([NatToString(n) + " " + kind + "s"] + rest)
  }

  // ----- the summary of each tool -----

  const NoDocuments := "No documents found matching the query."
  const NoEvents := "No timeline events found in the documents."
  const NoEntities := "No entities found in the documents."

  function SearchSummary(result: Dict, repr: PyValue -> string): Option<string> {
    var total := GetOrDefault(result, "total_results", PyInt(0));
    match Positive(total)
    case None => None
    case Some(positive) =>
      if !positive then Some(NoDocuments)
      else
        match FirstThree(GetOrDefault(result, "results", PyList([])))
        case None => None
        case Some(rs) =>
          match PreviewLines(rs, repr)
          case None => None
          case Some(lines) => Some("Found " + Show(total, repr) + " results:\n" + Join("\n", lines))
  }

  function TimelineSummary(result: Dict, repr: PyValue -> string): Option<string> {
    var total := GetOrDefault(result, "total_events", PyInt(0));
    match Positive(total)
    case None => None
    case Some(positive) =>
      if !positive then Some(NoEvents)
      else
        var summary := GetOrDefault(result, "timeline_summary", PyStr("Timeline created successfully."));
        match GetOrDefault(result, "date_range", PyDict([]))
        case PyDict(range) =>
          Some("Timeline built with " + Show(total, repr) + " events ("
               + Show(GetOrDefault(range, "start", PyStr("Unknown")), repr) + " to "
               + Show(GetOrDefault(range, "end", PyStr("Unknown")), repr) + "). " + Show(summary, repr))
        case _ => None
  }

  function EntitySummary(result: Dict, repr: PyValue -> string): Option<string> {
    var total := GetOrDefault(result, "total_entities", PyInt(0));
    match Positive(total)
    case None => None
    case Some(positive) =>
      if !positive then Some(NoEntities)
      else
        match GetOrDefault(result, "entities_by_type", PyDict([]))
        case PyDict(groups) =>
          (match TypeCounts(groups)
           case None => None
           case Some(parts) =>
             Some("Extracted " + Show(total, repr) + " entities: " + (if parts == [] then "entities" else Join(", ", parts)) + "."))
        case _ => None
  }

  function CrossReferenceSummary(result: Dict, repr: PyValue -> string): Option<string> {
    var analyzed := GetOrDefault(result, "documents_analyzed", PyInt(0));
    var summary := GetOrDefault(result, "summary", PyStr("Cross-reference analysis completed."));
    match Len(GetOrDefault(result, "cross_references", PyList([])))
    case None => None
    case Some(n) =>
      Some("Analyzed " + Show(analyzed, repr) + " documents, found " + NatToString(n) + " cross-references. " + Show(summary, repr))
  }

  function CitationSummary(result: Dict, repr: PyValue -> string): string {
    "Generated " + Show(GetOrDefault(result, "total_citations", PyInt(0)), repr) + " citations in "
      + Show(GetOrDefault(result, "citation_style", PyStr("academic")), repr) + " style."
  }

  /** The body of the `try`, after the error check; `None` where it raises. */
  function Summary(name: string, result: Dict, repr: PyValue -> string): Option<string> {
    if name == "search_documents" then SearchSummary(result, repr)
    else if name == "build_timeline" then TimelineSummary(result, repr)
    else if name == "extract_entities" then EntitySummary(result, repr)
    else if name == "cross_reference_documents" then CrossReferenceSummary(result, repr)
    else if name == "generate_citations" then Some(CitationSummary(result, repr))
    else Some(name + " completed successfully: " + Take(repr(PyDict(result)), 300) + "...")
  }

  /** `result.get('error')` is truthy. */
  predicate HasError(result: Dict) {
    Get(result, "error").Some? && Truthy(Get(result, "error").value)
  }

  /** The sentence used when the summary raises: a `str` of the result cut to 200 characters. */
  function Unsummarised(name: string, result: Dict, repr: PyValue -> string): string {
    name + " completed with result: " + Take(repr(PyDict(result)), 200) + "..."
  }

  /** `_format_tool_result`. */
  function FormatToolResult(name: string, result: Dict, repr: PyValue -> string): (r: string)
    ensures !HasError(result) && Summary(name, result, repr).None? ==>
              r == Unsummarised(name, result, repr)
  {
    if HasError(result) then name + " failed: " + Show(Get(result, "error").value, repr)
    else
      match Summary(name, result, repr)
      case Some(text) => text
      case None => Unsummarised(name, result, repr)
  }

  // ----- properties of the summaries -----

  /** An error in the result is reported for every tool name, before anything else is read. */
  lemma ErrorFirst(name: string, result: Dict, repr: PyValue -> string, e: PyValue)
    requires Get(result, "error") == Some(e) && Truthy(e)
    ensures FormatToolResult(name, result, repr) == name + " failed: " + Show(e, repr)
  {
  }

  /** A zero count gives the fixed "No ..." sentence of its tool. */
  lemma NothingFound(result: Dict, repr: PyValue -> string, count: int)
    requires !HasError(result) && count <= 0
    ensures Get(result, "total_results") == Some(PyInt(count)) ==>
              FormatToolResult("search_documents", result, repr) == NoDocuments
    ensures Get(result, "total_events") == Some(PyInt(count)) ==>
              FormatToolResult("build_timeline", result, repr) == NoEvents
    ensures Get(result, "total_entities") == Some(PyInt(count)) ==>
              FormatToolResult("extract_entities", result, repr) == NoEntities
  {
  }

  /** A missing count reads as 0 and also gives the "No ..." sentence. */
  lemma MissingCount(result: Dict, repr: PyValue -> string)
    requires !HasError(result)
    ensures !HasKey(result, "total_results") ==> FormatToolResult("search_documents", result, repr) == NoDocuments
    ensures !HasKey(result, "total_events") ==> FormatToolResult("build_timeline", result, repr) == NoEvents
    ensures !HasKey(result, "total_entities") ==> FormatToolResult("extract_entities", result, repr) == NoEntities
  {
  }

  /** Every result is a dict with string content: the preview lines, each content cut to 200 characters plus "...". */
  predicate Previewable(items: seq<PyValue>) {
    forall k :: 0 <= k < |items| ==> items[k].PyDict? && GetOrDefault(items[k].entries, "content", PyStr("")).PyStr?
  }

  function ContentOf(item: PyValue): string
    requires item.PyDict?
  {
    match GetOrDefault(item.entries, "content", PyStr(""))
    case PyStr(s) => s
    case _ => ""
  }

  /** The preview lines of dicts with string content. */
  function Previews(items: seq<PyValue>, repr: PyValue -> string): (r: seq<string>)
    requires Previewable(items)
    ensures |r| == |items|
  {
    seq(|items|, k requires 0 <= k < |items| => PreviewLine(items[k].entries, Ellipsize(ContentOf(items[k]), 200), repr))
  }

  lemma {:induction false} PreviewLinesOf(items: seq<PyValue>, repr: PyValue -> string)
    requires Previewable(items)
    ensures PreviewLines(items, repr) == Some(Previews(items, repr))
  {
    if items != [] {
      var rest := items[1..];
      assert Previewable(rest) by {
        forall k | 0 <= k < |rest| ensures rest[k] == items[k + 1] {}
      }
      PreviewLinesOf(rest, repr);
      PreviewContent(items[0], repr);
      PreviewsCons(items, repr);
    }
  }

  lemma PreviewContent(item: PyValue, repr: PyValue -> string)
    requires item.PyDict? && GetOrDefault(item.entries, "content", PyStr("")).PyStr?
    ensures ContentText(GetOrDefault(item.entries, "content", PyStr("")), repr) == Some(Ellipsize(ContentOf(item), 200))
  {
  }

  lemma PreviewsCons(items: seq<PyValue>, repr: PyValue -> string)
    requires items != [] && Previewable(items) && Previewable(items[1..])
    ensures Previews(items, repr) == [PreviewLine(items[0].entries, Ellipsize(ContentOf(items[0]), 200), repr)] + Previews(items[1..], repr)
  {
  }

  /** Without an error, the summary is used when it can be built, and the fallback sentence otherwise. */
  lemma FormatUsesSummary(name: string, result: Dict, repr: PyValue -> string)
    requires !HasError(result)
    ensures Summary(name, result, repr).Some? ==> FormatToolResult(name, result, repr) == Summary(name, result, repr).value
    ensures Summary(name, result, repr).None? ==>
              FormatToolResult(name, result, repr) == Unsummarised(name, result, repr)
  {
  }

  /** The search summary is the one `FormatToolResult` gives once no error is reported. */
  lemma SearchFormat(result: Dict, repr: PyValue -> string)
    requires !HasError(result)
    ensures SearchSummary(result, repr).Some? ==> FormatToolResult("search_documents", result, repr) == SearchSummary(result, repr).value
    ensures SearchSummary(result, repr).None? ==>
              FormatToolResult("search_documents", result, repr) == Unsummarised("search_documents", result, repr)
  {
    SummaryOfSearch(result, repr);
    FormatUsesSummary("search_documents", result, repr);
  }

  lemma SummaryOfSearch(result: Dict, repr: PyValue -> string)
    ensures Summary("search_documents", result, repr) == SearchSummary(result, repr)
  {
  }

  /** A positive total and a list of results whose lines can be built give the "Found" summary. */
  lemma SearchSummaryFound(result: Dict, repr: PyValue -> string, total: int, rs: seq<PyValue>, lines: seq<string>)
    requires total > 0 && GetOrDefault(result, "total_results", PyInt(0)) == PyInt(total)
    requires FirstThree(GetOrDefault(result, "results", PyList([]))) == Some(rs)
    requires PreviewLines(rs, repr) == Some(lines)
    ensures SearchSummary(result, repr) == Some("Found " + IntToString(total) + " results:\n" + Join("\n", lines))
  {
  }

  lemma SearchSummaryPreviews(result: Dict, repr: PyValue -> string, total: int, items: seq<PyValue>)
    requires total > 0
    requires Get(result, "total_results") == Some(PyInt(total))
    requires Get(result, "results") == Some(PyList(items)) && Previewable(items)
    ensures var shown := if |items| <= 3 then |items| else 3;
            SearchSummary(result, repr) == Some("Found " + IntToString(total) + " results:\n" + Join("\n", Previews(items[..shown], repr)))
  {
    var shown := if |items| <= 3 then |items| else 3;
    var rs := items[..shown];
    assert Previewable(rs) by {
      forall k | 0 <= k < |rs| ensures rs[k] == items[k] {}
    }
    PreviewLinesOf(rs, repr);
    assert FirstThree(PyList(items)) == Some(rs) by {
      assert |items| <= 3 ==> rs == items;
    }
    SearchSummaryFound(result, repr, total, rs, Previews(rs, repr));
  }

  /**
   * A search with results shows the total and at most the first three of
   * them, one line each, whose content is at most 203 characters.
   */
  lemma SearchPreviews(result: Dict, repr: PyValue -> string, total: int, items: seq<PyValue>)
    requires !HasError(result) && total > 0
    requires Get(result, "total_results") == Some(PyInt(total))
    requires Get(result, "results") == Some(PyList(items)) && Previewable(items)
    ensures var shown := if |items| <= 3 then |items| else 3;
            FormatToolResult("search_documents", result, repr) ==
              "Found " + IntToString(total) + " results:\n" + Join("\n", Previews(items[..shown], repr))
    ensures forall k :: 0 <= k < |items| ==> |Ellipsize(ContentOf(items[k]), 200)| <= 203
  {
    SearchSummaryPreviews(result, repr, total, items);
    SearchFormat(result, repr);
  }

  /** A name outside the five gets the generic sentence. */
  lemma GenericSummary(name: string, result: Dict, repr: PyValue -> string)
    requires !HasError(result)
    requires name !in ["search_documents", "build_timeline", "extract_entities", "cross_reference_documents", "generate_citations"]
    ensures FormatToolResult(name, result, repr) == name + " completed successfully: " + Take(repr(PyDict(result)), 300) + "..."
  {
  }

  /** A count that Python cannot compare with 0 sends the summary to the fallback. */
  lemma UncomparableCount(result: Dict, repr: PyValue -> string)
    requires !HasError(result)
    requires Get(result, "total_results") == Some(PyNone)
    ensures FormatToolResult("search_documents", result, repr) ==
              Unsummarised("search_documents", result, repr)
  {
    assert SearchSummary(result, repr) == None;
    SearchFormat(result, repr);
  }

  // ----- running the calls of an action -----

  /** The observation line of one call, before it is rendered. */
  datatype Observed =
    | Summarised(name: string, result: Dict)
    | Raising(name: string, message: string)
    | Reported(name: string, error: PyValue)
    | UnknownTool(name: string)

  function LineOf(o: Observed, repr: PyValue -> string): string {
    match o
    case Summarised(name, result) => FormatToolResult(name, result, repr)
    case Raising(name, message) => "Tool " + name + " failed: " + message
    case Reported(name, error) => "Tool " + name + " failed: " + Show(error, repr)
    case UnknownTool(name) => "Error: Unknown tool '" + name + "'"
  }

  /**
   * The call succeeded: calling the registered function with the call's
   * keyword arguments returned a dict with no truthy `error`. The registered
   * functions are the parameter `invoke` (see `ReactAgent.WrapperCalls`).
   */
  predicate Succeeds(t: Tool, call: ToolCall, invoke: (Tool, Dict) -> Outcome<Dict>) {
    var o := invoke(t, call.arguments);
    o.Returned? && !HasError(o.result)
  }

  /** One pass of the loop of `_execute_tool_calls`: the call as appended to the step, none for an unknown name. */
  function RecordOf(call: ToolCall, invoke: (Tool, Dict) -> Outcome<Dict>): (r: Option<ToolCall>)
    ensures r.Some? <==> ToolFunctions.Registered(call.toolName)
  {
    match ToolNamed(call.toolName)
    case None => None
    case Some(t) => Some(Invoked(t, call, invoke))
  }

  /** The call once its registered function has run, with what it returned or raised. */
  function Invoked(t: Tool, call: ToolCall, invoke: (Tool, Dict) -> Outcome<Dict>): (r: ToolCall)
    ensures r.toolName == call.toolName && r.arguments == call.arguments
    ensures r.success <==> Succeeds(t, call, invoke)
  {
    match invoke(t, call.arguments)
    case Raised(message) => call.(error := Some(PyStr(message)), success := false)
    case Returned(result) =>
      if HasError(result) then call.(result := Some(result), error := Some(Get(result, "error").value), success := false)
      else call.(result := Some(result), success := true)
  }

  /** The same pass: what the call observed. */
  function ObservedOf(call: ToolCall, invoke: (Tool, Dict) -> Outcome<Dict>): Observed {
    var name := call.toolName;
    match ToolNamed(name)
    case None => UnknownTool(name)
    case Some(t) =>
      match invoke(t, call.arguments)
      case Raised(message) => Raising(name, message)
      case Returned(result) =>
        if HasError(result) then Reported(name, Get(result, "error").value) else Summarised(name, result)
  }

  /**
   * A registered call is recorded with its name and arguments; it succeeds
   * exactly when it returns a dict without an error, and then its line is the
   * summary of that dict; otherwise its line says it failed.
   */
  lemma CallOutcome(call: ToolCall, invoke: (Tool, Dict) -> Outcome<Dict>, repr: PyValue -> string)
    requires ToolFunctions.Registered(call.toolName)
    ensures var r := RecordOf(call, invoke);
            var t := ToolNamed(call.toolName).value;
            var line := LineOf(ObservedOf(call, invoke), repr);
            && r.Some?
            && r.value.toolName == call.toolName
            && r.value.arguments == call.arguments
            && (r.value.success <==> Succeeds(t, call, invoke))
            && (r.value.success ==> line == FormatToolResult(call.toolName, invoke(t, call.arguments).result, repr))
            && (!r.value.success ==> StartsWith(line, "Tool " + call.toolName + " failed: "))
  {
    var r := RecordOf(call, invoke);
    var line := LineOf(ObservedOf(call, invoke), repr);
    var p := "Tool " + call.toolName + " failed: ";
    if !r.value.success {
      assert line[..|p|] == p;
    }
  }

  /** The calls appended to the step, in order; an unknown name is skipped. */
  function Recorded(calls: seq<ToolCall>, invoke: (Tool, Dict) -> Outcome<Dict>): seq<ToolCall> {
    if calls == [] then []
    else
      var before := Recorded(calls[..|calls| - 1], invoke);
      match RecordOf(calls[|calls| - 1], invoke)
      case Some(c) => before + [c]
      case None => before
  }

  /** One observation line per call, in order. */
  function Lines(calls: seq<ToolCall>, invoke: (Tool, Dict) -> Outcome<Dict>, repr: PyValue -> string): (r: seq<string>)
    ensures |r| == |calls|
  {
    if calls == [] then []
    else Lines(calls[..|calls| - 1], invoke, repr) + [LineOf(ObservedOf(calls[|calls| - 1], invoke), repr)]
  }

  const NoCalls := "No valid tool calls found in action: "

  /** The step after `_execute_tool_calls`. */
  function ExecutedStep(step: ReasoningStep, invoke: (Tool, Dict) -> Outcome<Dict>, repr: PyValue -> string): (r: ReasoningStep)
    ensures r.stepNumber == step.stepNumber && r.thought == step.thought && r.action == step.action
    ensures !Present(step.action) ==> r == step
    ensures Present(step.action) ==> r.state == Observing && r.observation.Some?
  {
    if !Present(step.action) then step
    else WithCalls(step, ToolCallsOf(step.action.value), invoke, repr)
  }

  /** The step once the given calls of its action have run. */
  function WithCalls(step: ReasoningStep, calls: seq<ToolCall>, invoke: (Tool, Dict) -> Outcome<Dict>, repr: PyValue -> string): (r: ReasoningStep)
    requires step.action.Some?
    ensures r.stepNumber == step.stepNumber && r.thought == step.thought && r.action == step.action
    ensures r.state == Observing && r.observation.Some?
  {
    if calls == [] then step.(observation := Some(NoCalls + step.action.value), state := Observing)
    else
      step.(toolCalls := step.toolCalls + Recorded(calls, invoke),
            observation := Some(Join("\n", Lines(calls, invoke, repr))),
            state := Observing)
  }

  /** `_execute_tool_calls`, updating the step it is given. */
  method ExecuteToolCalls(step: ReasoningStep, invoke: (Tool, Dict) -> Outcome<Dict>, repr: PyValue -> string)
    returns (updated: ReasoningStep)
    ensures updated == ExecutedStep(step, invoke, repr)
  {
    if !Present(step.action) {
      return step;
    }
    var calls := ParseToolCalls(step.action.value);
    if calls == [] {
      return step.(observation := Some(NoCalls + step.action.value), state := Observing);
    }
    var recorded, observations := RunCalls(calls, invoke, repr);
    updated := step.(toolCalls := step.toolCalls + recorded, observation := Some(Join("\n", observations)), state := Observing);
  }

  /** The loop of `_execute_tool_calls`: each call in turn, one observation line each. */
  method RunCalls(calls: seq<ToolCall>, invoke: (Tool, Dict) -> Outcome<Dict>, repr: PyValue -> string)
    returns (recorded: seq<ToolCall>, observations: seq<string>)
    ensures recorded == Recorded(calls, invoke)
    ensures observations == Lines(calls, invoke, repr)
  {
    recorded, observations := [], [];
    for i := 0 to |calls|
      invariant observations == Lines(calls[..i], invoke, repr)
      invariant recorded == Recorded(calls[..i], invoke)
    {
      assert calls[..i + 1][..i] == calls[..i];
      observations := observations + [LineOf(ObservedOf(calls[i], invoke), repr)];
      var record := RecordOf(calls[i], invoke);
      if record.None? {
        continue;
      }
      recorded := recorded + [record.value];
    }
    assert calls[..|calls|] == calls;
  }

  // ----- properties of running the calls -----

  /** An action with no registered call observes so, and records nothing. */
  lemma NoValidCalls(step: ReasoningStep, invoke: (Tool, Dict) -> Outcome<Dict>, repr: PyValue -> string)
    requires Present(step.action) && ToolCallsOf(step.action.value) == []
    ensures ExecutedStep(step, invoke, repr).observation == Some("No valid tool calls found in action: " + step.action.value)
    ensures ExecutedStep(step, invoke, repr).state == Observing
    ensures ExecutedStep(step, invoke, repr).toolCalls == step.toolCalls
  {
  }

  /** Every parsed call names a registered tool, so all of them are recorded, in order. */
  lemma RecordedAll(calls: seq<ToolCall>, invoke: (Tool, Dict) -> Outcome<Dict>, repr: PyValue -> string)
    requires forall k :: 0 <= k < |calls| ==> ToolFunctions.Registered(calls[k].toolName)
    ensures |Recorded(calls, invoke)| == |calls|
    ensures forall k :: 0 <= k < |calls| ==> Recorded(calls, invoke)[k] == RecordOf(calls[k], invoke).value
  {
    RecordedLength(calls, invoke);
    forall k | 0 <= k < |calls| ensures Recorded(calls, invoke)[k] == RecordOf(calls[k], invoke).value {
      RecordedAt(calls, invoke, k);
    }
  }

  lemma {:induction false} RecordedLength(calls: seq<ToolCall>, invoke: (Tool, Dict) -> Outcome<Dict>)
    requires forall k :: 0 <= k < |calls| ==> ToolFunctions.Registered(calls[k].toolName)
    ensures |Recorded(calls, invoke)| == |calls|
  {
    if calls != [] {
      var init := calls[..|calls| - 1];
      assert forall k :: 0 <= k < |init| ==> ToolFunctions.Registered(init[k].toolName) by {
        forall k | 0 <= k < |init| ensures init[k] == calls[k] {}
      }
      RecordedLength(init, invoke);
      RecordedSnoc(calls, invoke);
    }
  }

  lemma {:induction false} RecordedAt(calls: seq<ToolCall>, invoke: (Tool, Dict) -> Outcome<Dict>, k: int)
    requires forall j :: 0 <= j < |calls| ==> ToolFunctions.Registered(calls[j].toolName)
    requires 0 <= k < |calls|
    ensures |Recorded(calls, invoke)| == |calls|
    ensures Recorded(calls, invoke)[k] == RecordOf(calls[k], invoke).value
    decreases |calls|
  {
    RecordedLength(calls, invoke);
    var init := calls[..|calls| - 1];
    assert forall j :: 0 <= j < |init| ==> ToolFunctions.Registered(init[j].toolName) by {
      forall j | 0 <= j < |init| ensures init[j] == calls[j] {}
    }
    RecordedLength(init, invoke);
    RecordedSnoc(calls, invoke);
    if k < |init| {
      RecordedAt(init, invoke, k);
      assert init[k] == calls[k];
    }
  }

  lemma RecordedSnoc(calls: seq<ToolCall>, invoke: (Tool, Dict) -> Outcome<Dict>)
    requires calls != [] && ToolFunctions.Registered(calls[|calls| - 1].toolName)
    ensures Recorded(calls, invoke) == Recorded(calls[..|calls| - 1], invoke) + [RecordOf(calls[|calls| - 1], invoke).value]
  {
  }

  /** The unknown-tool branch is never taken for the calls of an action. */
  lemma UnknownToolUnreachable(action: string, invoke: (Tool, Dict) -> Outcome<Dict>, repr: PyValue -> string)
    ensures forall c :: c in ToolCallsOf(action) ==> RecordOf(c, invoke).Some?
  {
  }

  /** Registered calls are all recorded after what the step had, each with its own success. */
  lemma RegisteredCallsRun(step: ReasoningStep, calls: seq<ToolCall>, invoke: (Tool, Dict) -> Outcome<Dict>, repr: PyValue -> string)
    requires step.action.Some? && calls != []
    requires forall k :: 0 <= k < |calls| ==> ToolFunctions.Registered(calls[k].toolName)
    ensures var after := WithCalls(step, calls, invoke, repr);
            && after.observation == Some(Join("\n", Lines(calls, invoke, repr)))
            && |after.toolCalls| == |step.toolCalls| + |calls|
            && after.toolCalls[..|step.toolCalls|] == step.toolCalls
            && (forall k :: 0 <= k < |calls| ==> after.toolCalls[|step.toolCalls| + k] == RecordOf(calls[k], invoke).value)
  {
    RecordedAll(calls, invoke, repr);
  }

  /**
   * Each parsed call is run, recorded and observed on its own line, in order;
   * a call that raises or reports an error marks only itself as failed.
   */
  lemma OneLinePerCall(step: ReasoningStep, invoke: (Tool, Dict) -> Outcome<Dict>, repr: PyValue -> string)
    requires Present(step.action) && ToolCallsOf(step.action.value) != []
    ensures var calls := ToolCallsOf(step.action.value);
            var after := ExecutedStep(step, invoke, repr);
            && after.state == Observing
            && after.observation == Some(Join("\n", Lines(calls, invoke, repr)))
            && |after.toolCalls| == |step.toolCalls| + |calls|
            && after.toolCalls[..|step.toolCalls|] == step.toolCalls
            && (forall k :: 0 <= k < |calls| ==>
                  var t := ToolNamed(calls[k].toolName).value;
                  && after.toolCalls[|step.toolCalls| + k].toolName == calls[k].toolName
                  && (after.toolCalls[|step.toolCalls| + k].success <==> Succeeds(t, calls[k], invoke)))
  {
    var calls := ToolCallsOf(step.action.value);
    RegisteredCallsRun(step, calls, invoke, repr);
    forall k | 0 <= k < |calls|
      ensures var t := ToolNamed(calls[k].toolName).value;
              var c := RecordOf(calls[k], invoke).value;
              c.toolName == calls[k].toolName && (c.success <==> Succeeds(t, calls[k], invoke))
    {
      CallOutcome(calls[k], invoke, repr);
    }
  }
}
