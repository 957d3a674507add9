/**
 * The tool functions the agent calls: a fixed registry of five wrappers, each
 * of which binds its keyword arguments, validates them against its input
 * schema, calls the underlying analysis tool, validates the tool's dict
 * against its output schema and returns it. Every failure after binding is
 * turned into that wrapper's zero-valued fallback dict carrying an `error`
 * key; only a keyword argument the function does not take, or a missing
 * required one, raises (Python's own `TypeError` at the call).
 *
 * The underlying analysis tools are an oracle from a tool and its validated
 * arguments to the dict it returned or the exception it raised.
 */
module ToolFunctions {
  import opened Wrappers
  import opened Text
  import opened PyValues

  datatype Tool = SearchDocuments | BuildTimeline | ExtractEntities | CrossReferenceDocuments | GenerateCitations

  datatype Schema =
    | DocumentSearchInput | DocumentSearchOutput
    | TimelineBuilderInput | TimelineBuilderOutput
    | EntityExtractorInput | EntityExtractorOutput
    | CrossReferenceInput | CrossReferenceOutput
    | CitationGeneratorInput | CitationGeneratorOutput

  function SchemaName(s: Schema): string {
    match s
    case DocumentSearchInput => "DocumentSearchInput"
    case DocumentSearchOutput => "DocumentSearchOutput"
    case TimelineBuilderInput => "TimelineBuilderInput"
    case TimelineBuilderOutput => "TimelineBuilderOutput"
    case EntityExtractorInput => "EntityExtractorInput"
    case EntityExtractorOutput => "EntityExtractorOutput"
    case CrossReferenceInput => "CrossReferenceInput"
    case CrossReferenceOutput => "CrossReferenceOutput"
    case CitationGeneratorInput => "CitationGeneratorInput"
    case CitationGeneratorOutput => "CitationGeneratorOutput"
  }

  /** One entry of `HISTORICAL_TOOL_FUNCTIONS`. */
  datatype ToolInfo = ToolInfo(wrapper: Tool, inputSchema: Schema, outputSchema: Schema, description: string, parameters: seq<string>)

  /** The registry's entries in declaration order. */
  const Tools: seq<Tool> := [SearchDocuments, BuildTimeline, ExtractEntities, CrossReferenceDocuments, GenerateCitations]

  function Name(t: Tool): string {
    match t
    case SearchDocuments => "search_documents"
    case BuildTimeline => "build_timeline"
    case ExtractEntities => "extract_entities"
    case CrossReferenceDocuments => "cross_reference_documents"
    case GenerateCitations => "generate_citations"
  }

  /** The pydantic model a wrapper validates its arguments with. */
  function InputSchema(t: Tool): Schema {
    match t
    case SearchDocuments => DocumentSearchInput
    case BuildTimeline => TimelineBuilderInput
    case ExtractEntities => EntityExtractorInput
    case CrossReferenceDocuments => CrossReferenceInput
    case GenerateCitations => CitationGeneratorInput
  }

  /** The pydantic model a wrapper validates the tool's result with. */
  function OutputSchema(t: Tool): Schema {
    match t
    case SearchDocuments => DocumentSearchOutput
    case BuildTimeline => TimelineBuilderOutput
    case ExtractEntities => EntityExtractorOutput
    case CrossReferenceDocuments => CrossReferenceOutput
    case GenerateCitations => CitationGeneratorOutput
  }

  function Description(t: Tool): string {
    match t
    case SearchDocuments => "Search through uploaded historical documents for relevant information"
    case BuildTimeline => "Extract and organize dates, events, and chronological information"
    case ExtractEntities => "Identify people, places, battles, and historical entities"
    case CrossReferenceDocuments => "Compare information across multiple documents"
    case GenerateCitations => "Create proper academic citations for sources"
  }

  function Parameters(t: Tool): seq<string> {
    match t
    case SearchDocuments => ["query", "document_ids (optional)"]
    case BuildTimeline => ["document_ids (optional)"]
    case ExtractEntities => ["document_ids (optional)"]
    case CrossReferenceDocuments => ["topic", "document_ids (optional)"]
    case GenerateCitations => ["search_results", "style (optional)"]
  }

  function Info(t: Tool): ToolInfo {
    ToolInfo(t, InputSchema(t), OutputSchema(t), Description(t), Parameters(t))
  }

  /** `HISTORICAL_TOOL_FUNCTIONS` as name/entry pairs. */
  function Registry(): (r: seq<(string, ToolInfo)>)
    ensures |r| == |Tools|
    ensures forall k :: 0 <= k < |r| ==> r[k] == (Name(Tools[k]), Info(Tools[k]))
  {
    seq(|Tools|, k requires 0 <= k < |Tools| => (Name(Tools[k]), Info(Tools[k])))
  }

  predicate Registered(name: string) {
    exists t: Tool :: Name(t) == name
  }

  /** Every wrapper appears once in the registry, and the five names are distinct. */
  lemma RegistryComplete(t: Tool, u: Tool)
    ensures t in Tools
    ensures Name(t) == Name(u) ==> t == u
  {
  }

  lemma NotAName(name: string)
    requires name != Name(SearchDocuments) && name != Name(BuildTimeline) && name != Name(ExtractEntities)
    requires name != Name(CrossReferenceDocuments) && name != Name(GenerateCitations)
    ensures !Registered(name)
  {
    forall t: Tool ensures Name(t) != name {
      match t
      case SearchDocuments =>
      case BuildTimeline =>
      case ExtractEntities =>
      case CrossReferenceDocuments =>
      case GenerateCitations =>
    }
  }

  /** The wrapper registered under a name. */
  function ToolNamed(name: string): (r: Option<Tool>)
    ensures r.Some? <==> Registered(name)
    ensures r.Some? ==> Name(r.value) == name
  {
    if name == Name(SearchDocuments) then Some(SearchDocuments)
    else if name == Name(BuildTimeline) then Some(BuildTimeline)
    else if name == Name(ExtractEntities) then Some(ExtractEntities)
    else if name == Name(CrossReferenceDocuments) then Some(CrossReferenceDocuments)
    else if name == Name(GenerateCitations) then Some(GenerateCitations)
    else
      NotAName(name);
      None
  }

  /** `HISTORICAL_TOOL_FUNCTIONS.get(name)`. */
  function Lookup(name: string): (r: Option<ToolInfo>)
    ensures r.Some? <==> Registered(name)
    ensures r.Some? ==> Name(r.value.wrapper) == name && r.value == Info(r.value.wrapper)
  {
    match ToolNamed(name)
    case Some(t) => Some(Info(t))
    case None => None
  }

  /** `get_tool_function`. */
  function GetToolFunction(name: string): (r: Option<Tool>)
    ensures r.Some? <==> Registered(name)
    ensures r.Some? ==> Name(r.value) == name
  {
    match Lookup(name)
    case Some(info) => Some(info.wrapper)
    case None => None
  }

  datatype ToolSchema = ToolSchema(inputSchema: Schema, outputSchema: Schema, description: string, parameters: seq<string>)

  function SchemaOf(t: Tool): ToolSchema {
    ToolSchema(InputSchema(t), OutputSchema(t), Description(t), Parameters(t))
  }

  /** `get_tool_schema`. */
  function GetToolSchema(name: string): (r: Option<ToolSchema>)
    ensures r.Some? <==> Registered(name)
    ensures r.Some? ==> r.value == SchemaOf(GetToolFunction(name).value)
  {
    match Lookup(name)
    case Some(info) => Some(ToolSchema(info.inputSchema, info.outputSchema, info.description, info.parameters))
    case None => None
  }

  /** `list_available_tools`: every registry entry, in order, with its schemas named (their JSON form is not modelled). */
  function ListAvailableTools(): (r: seq<(string, ToolSchema)>)
    ensures |r| == |Tools|
    ensures forall k :: 0 <= k < |r| ==> r[k].0 == Name(Tools[k]) && GetToolSchema(r[k].0) == Some(r[k].1)
  {
    var r := seq(|Tools|, k requires 0 <= k < |Tools| => (Name(Tools[k]), SchemaOf(Tools[k])));
    assert forall k :: 0 <= k < |r| ==> GetToolSchema(r[k].0) == Some(r[k].1) by {
      forall k | 0 <= k < |r| ensures GetToolSchema(r[k].0) == Some(r[k].1) {
        SchemaByName(Tools[k]);
      }
    }
    r
  }

  /** Each wrapper's schema is found under its own name. */
  lemma SchemaByName(t: Tool)
    ensures GetToolSchema(Name(t)) == Some(SchemaOf(t))
  {
    RegistryComplete(t, GetToolFunction(Name(t)).value);
  }

  // ----- calling a wrapper with keyword arguments -----

  /** A parameter of a wrapper's signature: a required one has no default. */
  datatype Param = Param(name: string, default: Option<PyValue>)

  function Signature(t: Tool): seq<Param> {
    match t
    case SearchDocuments => [Param("query", None), Param("document_ids", Some(PyNone))]
    case BuildTimeline => [Param("document_ids", Some(PyNone))]
    case ExtractEntities => [Param("document_ids", Some(PyNone))]
    case CrossReferenceDocuments => [Param("topic", None), Param("document_ids", Some(PyNone))]
    case GenerateCitations => [Param("search_results", None), Param("style", Some(PyStr("academic")))]
  }

  predicate Accepts(t: Tool, key: string) {
    exists k :: 0 <= k < |Signature(t)| && Signature(t)[k].name == key
  }

  /** The first keyword the signature does not take, in argument order. */
  function Unexpected(t: Tool, kwargs: Dict): (r: Option<string>)
    ensures r.None? <==> forall k :: 0 <= k < |kwargs| ==> Accepts(t, kwargs[k].0)
    ensures r.Some? ==> HasKey(kwargs, r.value) && !Accepts(t, r.value)
  {
    if kwargs == [] then None
    else if !Accepts(t, kwargs[0].0) then Some(kwargs[0].0)
    else
      var r := Unexpected(t, kwargs[1..]);
      assert forall k :: 1 <= k < |kwargs| ==> kwargs[k] == kwargs[1..][k - 1];
      HasKeyCons(kwargs, if r.Some? then r.value else "");
      r
  }

  /** The first required parameter the call leaves out. */
  function Missing(ps: seq<Param>, kwargs: Dict): (r: Option<string>)
    ensures r.None? <==> forall k :: 0 <= k < |ps| && ps[k].default.None? ==> HasKey(kwargs, ps[k].name)
    ensures r.Some? ==> !HasKey(kwargs, r.value)
  {
    if ps == [] then None
    else if ps[0].default.None? && !HasKey(kwargs, ps[0].name) then Some(ps[0].name)
    else
      var r := Missing(ps[1..], kwargs);
      assert forall k :: 1 <= k < |ps| ==> ps[k] == ps[1..][k - 1];
      r
  }

  /** The value each parameter takes: the argument passed for it, else its default. */
  function Bound(ps: seq<Param>, kwargs: Dict): (r: Dict)
    requires forall k :: 0 <= k < |ps| && ps[k].default.None? ==> HasKey(kwargs, ps[k].name)
    ensures |r| == |ps|
    ensures forall k :: 0 <= k < |ps| ==> r[k].0 == ps[k].name
    ensures forall k :: 0 <= k < |ps| ==> r[k].1 == Get(kwargs, ps[k].name).GetOr(ps[k].default.GetOr(PyNone))
  {
    seq(|ps|, k requires 0 <= k < |ps| =>
      (ps[k].name, match Get(kwargs, ps[k].name) case Some(v) => v case None => ps[k].default.value))
  }

  /** Binding `**kwargs` to a wrapper: the `TypeError` Python raises, or the parameter values. */
  function Bind(t: Tool, kwargs: Dict): (r: Result<Dict, string>)
    ensures r.Ok? <==> Unexpected(t, kwargs).None? && Missing(Signature(t), kwargs).None?
    ensures r.Ok? ==> r.value == Bound(Signature(t), kwargs)
  {
    match Unexpected(t, kwargs)
    case Some(key) => Err(Name(t) + "() got an unexpected keyword argument '" + key + "'")
    case None =>
      match Missing(Signature(t), kwargs)
      case Some(p) => Err(Name(t) + "() missing 1 required positional argument: '" + p + "'")
      case None => Ok(Bound(Signature(t), kwargs))
  }

  /** Every parameter is forwarded as passed, and an omitted one takes its default. */
  lemma BindForwards(t: Tool, kwargs: Dict, k: nat)
    requires Bind(t, kwargs).Ok? && k < |Signature(t)|
    ensures Bind(t, kwargs).value[k].0 == Signature(t)[k].name
    ensures HasKey(kwargs, Signature(t)[k].name) ==> Some(Bind(t, kwargs).value[k].1) == Get(kwargs, Signature(t)[k].name)
    ensures !HasKey(kwargs, Signature(t)[k].name) ==> Signature(t)[k].default == Some(Bind(t, kwargs).value[k].1)
  {
  }

  // ----- schemas -----

  /** The field types the schemas use. */
  datatype PyType = TStr | TInt | TAny | TListOf(elem: PyType) | TDictOf(value: PyType) | TOptional(inner: PyType)

  /** A value of type `t`; Pydantic's lax coercions are not modelled. */
  predicate HasType(v: PyValue, t: PyType)
    decreases t
  {
    match t
    case TStr => v.PyStr?
    case TInt => v.PyInt?
    case TAny => true
    case TListOf(elem) => v.PyList? && forall k :: 0 <= k < |v.items| ==> HasType(v.items[k], elem)
    case TDictOf(value) => v.PyDict? && forall k :: 0 <= k < |v.entries| ==> HasType(v.entries[k].1, value)
    case TOptional(inner) => v.PyNone? || HasType(v, inner)
  }

  function OutputFields(t: Tool): seq<(string, PyType)> {
    match t
    case SearchDocuments =>
      [("query", TStr), ("enhanced_query", TStr), ("results", TListOf(TDictOf(TAny))),
       ("total_results", TInt), ("search_strategy", TStr)]
    case BuildTimeline =>
      [("total_events", TInt), ("timeline_events", TListOf(TDictOf(TAny))),
       ("grouped_by_period", TDictOf(TListOf(TDictOf(TAny)))), ("timeline_summary", TStr),
       ("date_range", TDictOf(TStr))]
    case ExtractEntities =>
      [("total_entities", TInt), ("entities_by_type", TDictOf(TListOf(TDictOf(TAny)))),
       ("entity_relationships", TDictOf(TListOf(TStr))), ("entity_summary", TStr),
       ("extraction_method", TStr)]
    case CrossReferenceDocuments =>
      [("topic", TStr), ("documents_analyzed", TInt), ("cross_references", TListOf(TDictOf(TAny))),
       ("analysis", TDictOf(TAny)), ("summary", TStr)]
    case GenerateCitations =>
      [("total_citations", TInt), ("citations", TListOf(TDictOf(TAny))),
       ("bibliography", TListOf(TStr)), ("citation_style", TStr)]
  }

  /** Every field of the schema is present with its type; other keys are ignored. */
  predicate Conforms(d: Dict, fields: seq<(string, PyType)>) {
    forall k :: 0 <= k < |fields| ==> Get(d, fields[k].0).Some? && HasType(Get(d, fields[k].0).value, fields[k].1)
  }

  /** `Model(**d).dict()`: exactly the schema's fields, in the schema's order. */
  function Project(d: Dict, fields: seq<(string, PyType)>): (r: Dict)
    requires Conforms(d, fields)
    ensures |r| == |fields|
    ensures forall k :: 0 <= k < |fields| ==> r[k] == (fields[k].0, Get(d, fields[k].0).value)
  {
    seq(|fields|, k requires 0 <= k < |fields| => (fields[k].0, Get(d, fields[k].0).value))
  }

  /** Reading a schema field from the projection reads it from the tool's dict. */
  lemma {:induction false} ProjectGet(d: Dict, fields: seq<(string, PyType)>, k: nat)
    requires Conforms(d, fields) && k < |fields|
    ensures Get(Project(d, fields), fields[k].0) == Get(d, fields[k].0)
    decreases k
  {
    var name := fields[k].0;
    if j :| 0 <= j < k && fields[j].0 == name {
      ProjectGet(d, fields, j);
    } else {
      GetAt(Project(d, fields), k, name);
    }
  }

  /** A name outside the schema is not in the projection. */
  lemma ProjectDropsOthers(d: Dict, fields: seq<(string, PyType)>, name: string)
    requires Conforms(d, fields)
    requires forall k :: 0 <= k < |fields| ==> fields[k].0 != name
    ensures !HasKey(Project(d, fields), name)
  {
    var r := Project(d, fields);
    forall k | 0 <= k < |r| ensures r[k].0 != name {
      assert r[k].0 == fields[k].0;
    }
  }

  /** The projection conforms to the schema, and validating it again changes nothing. */
  lemma ProjectIdempotent(d: Dict, fields: seq<(string, PyType)>)
    requires Conforms(d, fields)
    ensures Conforms(Project(d, fields), fields)
    ensures Project(Project(d, fields), fields) == Project(d, fields)
  {
    forall k | 0 <= k < |fields| ensures Get(Project(d, fields), fields[k].0) == Get(d, fields[k].0) {
      ProjectGet(d, fields, k);
    }
  }

  /** A string of `lo..hi` characters. */
  predicate BoundedStr(v: PyValue, lo: nat, hi: nat) {
    v.PyStr? && lo <= |v.s| <= hi
  }

  /** The input schema accepts the bound parameter values (`Bound` order is the signature's). */
  predicate ValidInput(t: Tool, bound: Dict)
    requires |bound| == |Signature(t)|
  {
    match t
    case SearchDocuments => BoundedStr(bound[0].1, 1, 1000) && HasType(bound[1].1, TOptional(TListOf(TStr)))
    case BuildTimeline => HasType(bound[0].1, TOptional(TListOf(TStr)))
    case ExtractEntities => HasType(bound[0].1, TOptional(TListOf(TStr)))
    case CrossReferenceDocuments => BoundedStr(bound[0].1, 1, 500) && HasType(bound[1].1, TOptional(TListOf(TStr)))
    case GenerateCitations => HasType(bound[0].1, TListOf(TDictOf(TAny))) && HasType(bound[1].1, TStr)
  }

  /** The text of a Pydantic validation error, abridged to the model it names. */
  function ValidationError(s: Schema): (r: string)
    ensures r != []
  {
    "validation error for " + SchemaName(s)
  }

  /** The dict each wrapper returns from its `except` branch. */
  function Fallback(t: Tool, bound: Dict, e: string): Dict
    requires |bound| == |Signature(t)|
  {
    match t
    case SearchDocuments =>
      [("query", bound[0].1), ("enhanced_query", bound[0].1), ("results", PyList([])),
       ("total_results", PyInt(0)), ("search_strategy", PyStr("error")), ("error", PyStr(e))]
    case BuildTimeline =>
      [("total_events", PyInt(0)), ("timeline_events", PyList([])), ("grouped_by_period", PyDict([])),
       ("timeline_summary", PyStr("Timeline extraction failed: " + e)),
       ("date_range", PyDict([("start", PyStr("Unknown")), ("end", PyStr("Unknown"))])), ("error", PyStr(e))]
    case ExtractEntities =>
      [("total_entities", PyInt(0)), ("entities_by_type", PyDict([])), ("entity_relationships", PyDict([])),
       ("entity_summary", PyStr("Entity extraction failed: " + e)), ("extraction_method", PyStr("error")),
       ("error", PyStr(e))]
    case CrossReferenceDocuments =>
      [("topic", bound[0].1), ("documents_analyzed", PyInt(0)), ("cross_references", PyList([])),
       ("analysis", PyDict([])), ("summary", PyStr("Cross-reference analysis failed: " + e)), ("error", PyStr(e))]
    case GenerateCitations =>
      [("total_citations", PyInt(0)), ("citations", PyList([])), ("bibliography", PyList([])),
       ("citation_style", bound[1].1), ("error", PyStr(e))]
  }

  /** The name of the count a wrapper's dict leads with, and of the list it carries. */
  function CountKey(t: Tool): string {
    match t
    case SearchDocuments => "total_results"
    case BuildTimeline => "total_events"
    case ExtractEntities => "total_entities"
    case CrossReferenceDocuments => "documents_analyzed"
    case GenerateCitations => "total_citations"
  }

  /** Every fallback carries the error and a zero count. */
  lemma FallbackError(t: Tool, bound: Dict, e: string)
    requires |bound| == |Signature(t)|
    ensures Get(Fallback(t, bound, e), "error") == Some(PyStr(e))
    ensures Get(Fallback(t, bound, e), CountKey(t)) == Some(PyInt(0))
  {
    match t
    case SearchDocuments => FallbackKeys(Fallback(t, bound, e), 5, 3, CountKey(t), e);
    case BuildTimeline => FallbackKeys(Fallback(t, bound, e), 5, 0, CountKey(t), e);
    case ExtractEntities => FallbackKeys(Fallback(t, bound, e), 5, 0, CountKey(t), e);
    case CrossReferenceDocuments => FallbackKeys(Fallback(t, bound, e), 5, 1, CountKey(t), e);
    case GenerateCitations => FallbackKeys(Fallback(t, bound, e), 4, 0, CountKey(t), e);
  }

  lemma FallbackKeys(d: Dict, i: nat, j: nat, count: string, e: string)
    requires i < |d| && d[i] == ("error", PyStr(e)) && forall k :: 0 <= k < i ==> d[k].0 != "error"
    requires j < |d| && d[j] == (count, PyInt(0)) && forall k :: 0 <= k < j ==> d[k].0 != count
    ensures Get(d, "error") == Some(PyStr(e)) && Get(d, count) == Some(PyInt(0))
  {
    GetAt(d, i, "error");
    GetAt(d, j, count);
  }

  /** The search fallback echoes the query it was given and has no results. */
  lemma SearchFallback(bound: Dict, e: string)
    requires |bound| == |Signature(SearchDocuments)|
    ensures Get(Fallback(SearchDocuments, bound, e), "query") == Some(bound[0].1)
    ensures Get(Fallback(SearchDocuments, bound, e), "enhanced_query") == Some(bound[0].1)
    ensures Get(Fallback(SearchDocuments, bound, e), "results") == Some(PyList([]))
    ensures Get(Fallback(SearchDocuments, bound, e), "search_strategy") == Some(PyStr("error"))
  {
    var d := Fallback(SearchDocuments, bound, e);
    GetAt(d, 0, "query");
    GetAt(d, 1, "enhanced_query");
    GetAt(d, 2, "results");
    GetAt(d, 4, "search_strategy");
  }

  /** The cross-reference fallback echoes its topic and explains the failure in its summary. */
  lemma CrossReferenceFallback(bound: Dict, e: string)
    requires |bound| == |Signature(CrossReferenceDocuments)|
    ensures Get(Fallback(CrossReferenceDocuments, bound, e), "topic") == Some(bound[0].1)
    ensures Get(Fallback(CrossReferenceDocuments, bound, e), "cross_references") == Some(PyList([]))
    ensures Get(Fallback(CrossReferenceDocuments, bound, e), "summary") == Some(PyStr("Cross-reference analysis failed: " + e))
  {
    var d := Fallback(CrossReferenceDocuments, bound, e);
    GetAt(d, 0, "topic");
    GetAt(d, 2, "cross_references");
    GetAt(d, 4, "summary");
  }

  /** The citation fallback echoes the style it was given, whatever its type. */
  lemma CitationFallback(bound: Dict, e: string)
    requires |bound| == |Signature(GenerateCitations)|
    ensures Get(Fallback(GenerateCitations, bound, e), "citation_style") == Some(bound[1].1)
    ensures Get(Fallback(GenerateCitations, bound, e), "citations") == Some(PyList([]))
  {
    var d := Fallback(GenerateCitations, bound, e);
    GetAt(d, 3, "citation_style");
    GetAt(d, 1, "citations");
  }

  /** The wrapper body, once its arguments are bound. */
  function Run(t: Tool, bound: Dict, underlying: (Tool, Dict) -> Outcome<Dict>): (r: Dict)
    requires |bound| == |Signature(t)|
    ensures !ValidInput(t, bound) ==> r == Fallback(t, bound, ValidationError(InputSchema(t)))
    ensures ValidInput(t, bound) && underlying(t, bound).Raised? ==> r == Fallback(t, bound, underlying(t, bound).message)
    ensures ValidInput(t, bound) && underlying(t, bound).Returned? ==>
              var d := underlying(t, bound).result;
              if Conforms(d, OutputFields(t)) then r == Project(d, OutputFields(t))
              else r == Fallback(t, bound, ValidationError(OutputSchema(t)))
  {
    if !ValidInput(t, bound) then Fallback(t, bound, ValidationError(InputSchema(t)))
    else
      match underlying(t, bound)
      case Raised(message) => Fallback(t, bound, message)
      case Returned(d) =>
        if Conforms(d, OutputFields(t)) then Project(d, OutputFields(t))
        else Fallback(t, bound, ValidationError(OutputSchema(t)))
  }

  /** `await tool_function(**kwargs)`: raises only when the arguments do not bind. */
  function Invoke(t: Tool, kwargs: Dict, underlying: (Tool, Dict) -> Outcome<Dict>): (r: Outcome<Dict>)
    ensures r.Raised? <==> Bind(t, kwargs).Err?
    ensures r.Raised? ==> r.message == Bind(t, kwargs).error
    ensures r.Returned? ==> r.result == Run(t, Bind(t, kwargs).value, underlying)
  {
    match Bind(t, kwargs)
    case Err(message) => Raised(message)
    case Ok(bound) => Returned(Run(t, bound, underlying))
  }

  /** A successful run returns exactly the output schema's fields, so it has no `error` key. */
  lemma {:induction false} ProjectHasNoError(d: Dict, fields: seq<(string, PyType)>)
    requires Conforms(d, fields)
    requires forall k :: 0 <= k < |fields| ==> fields[k].0 != "error"
    ensures !HasKey(Project(d, fields), "error")
  {
    ProjectDropsOthers(d, fields, "error");
  }

  lemma OutputFieldsNoError(t: Tool)
    ensures forall k :: 0 <= k < |OutputFields(t)| ==> OutputFields(t)[k].0 != "error"
  {
  }

  /** Why a bound call falls back, if it does: the text its `error` key then holds. */
  function Failure(t: Tool, bound: Dict, underlying: (Tool, Dict) -> Outcome<Dict>): Option<string>
    requires |bound| == |Signature(t)|
  {
    if !ValidInput(t, bound) then Some(ValidationError(InputSchema(t)))
    else if underlying(t, bound).Raised? then Some(underlying(t, bound).message)
    else if !Conforms(underlying(t, bound).result, OutputFields(t)) then Some(ValidationError(OutputSchema(t)))
    else None
  }

  /** The `error` key is there exactly when validation or the tool failed, and then it holds the failure's text. */
  lemma RunErrorKey(t: Tool, bound: Dict, underlying: (Tool, Dict) -> Outcome<Dict>)
    requires |bound| == |Signature(t)|
    ensures Get(Run(t, bound, underlying), "error") ==
              match Failure(t, bound, underlying)
              case Some(e) => Some(PyStr(e))
              case None => None
  {
    match Failure(t, bound, underlying)
    case Some(e) =>
      RunFallsBack(t, bound, underlying);
      FallbackError(t, bound, e);
    case None =>
      OutputFieldsNoError(t);
      ProjectHasNoError(underlying(t, bound).result, OutputFields(t));
  }

  lemma RunFallsBack(t: Tool, bound: Dict, underlying: (Tool, Dict) -> Outcome<Dict>)
    requires |bound| == |Signature(t)| && Failure(t, bound, underlying).Some?
    ensures Run(t, bound, underlying) == Fallback(t, bound, Failure(t, bound, underlying).value)
  {
  }

  /** A query must be 1 to 1000 characters; outside that the tool is never called and the result carries an error. */
  lemma QueryBounds(kwargs: Dict, q: string, underlying: (Tool, Dict) -> Outcome<Dict>)
    requires kwargs == [("query", PyStr(q))]
    requires |q| == 0 || |q| > 1000
    ensures Invoke(SearchDocuments, kwargs, underlying).Returned?
    ensures Get(Invoke(SearchDocuments, kwargs, underlying).result, "error") == Some(PyStr(ValidationError(DocumentSearchInput)))
    ensures Get(Invoke(SearchDocuments, kwargs, underlying).result, "query") == Some(PyStr(q))
  {
    var bound := [("query", PyStr(q)), ("document_ids", PyNone)];
    BindOne(SearchDocuments, "query", PyStr(q));
    assert !ValidInput(SearchDocuments, bound);
    SearchFallback(bound, ValidationError(DocumentSearchInput));
    FallbackError(SearchDocuments, bound, ValidationError(DocumentSearchInput));
  }

  /** Passing only the first parameter of a two-parameter wrapper binds the second to its default. */
  lemma BindOne(t: Tool, key: string, v: PyValue)
    requires |Signature(t)| == 2 && Signature(t)[0] == Param(key, None) && Signature(t)[1].default.Some?
    requires Signature(t)[1].name != key
    ensures Bind(t, [(key, v)]) == Ok([(key, v), (Signature(t)[1].name, Signature(t)[1].default.value)])
  {
    var kwargs := [(key, v)];
    GetAt(kwargs, 0, key);
    assert !HasKey(kwargs, Signature(t)[1].name);
    assert Accepts(t, key);
    var b := Bound(Signature(t), kwargs);
    assert b == [(key, v), (Signature(t)[1].name, Signature(t)[1].default.value)];
  }

  /** A topic must be 1 to 500 characters. */
  lemma TopicBounds(kwargs: Dict, topic: string, underlying: (Tool, Dict) -> Outcome<Dict>)
    requires kwargs == [("topic", PyStr(topic))]
    ensures Invoke(CrossReferenceDocuments, kwargs, underlying).Returned?
    ensures (|topic| == 0 || |topic| > 500) ==>
              Get(Invoke(CrossReferenceDocuments, kwargs, underlying).result, "error") == Some(PyStr(ValidationError(CrossReferenceInput)))
    ensures 1 <= |topic| <= 500 ==>
              var bound := [("topic", PyStr(topic)), ("document_ids", PyNone)];
              Invoke(CrossReferenceDocuments, kwargs, underlying).result == Run(CrossReferenceDocuments, bound, underlying)
              && ValidInput(CrossReferenceDocuments, bound)
  {
    var bound := [("topic", PyStr(topic)), ("document_ids", PyNone)];
    BindOne(CrossReferenceDocuments, "topic", PyStr(topic));
    FallbackError(CrossReferenceDocuments, bound, ValidationError(CrossReferenceInput));
  }

  /** No argument the agent can write (a string, integer, boolean or None) is a list, so `search_results` never validates. */
  lemma CitationsNeedList(kwargs: Dict, underlying: (Tool, Dict) -> Outcome<Dict>)
    requires Bind(GenerateCitations, kwargs).Ok?
    requires !HasType(Get(kwargs, "search_results").value, TListOf(TDictOf(TAny)))
    ensures Invoke(GenerateCitations, kwargs, underlying).Returned?
    ensures Get(Invoke(GenerateCitations, kwargs, underlying).result, "error") == Some(PyStr(ValidationError(CitationGeneratorInput)))
    ensures Get(Invoke(GenerateCitations, kwargs, underlying).result, "total_citations") == Some(PyInt(0))
  {
    var bound := Bind(GenerateCitations, kwargs).value;
    BindForwards(GenerateCitations, kwargs, 0);
    assert bound[0].1 == Get(kwargs, "search_results").value;
    assert !ValidInput(GenerateCitations, bound);
    var fallback := Fallback(GenerateCitations, bound, ValidationError(CitationGeneratorInput));
    assert Run(GenerateCitations, bound, underlying) == fallback;
    assert Invoke(GenerateCitations, kwargs, underlying) == Returned(fallback);
    FallbackError(GenerateCitations, bound, ValidationError(CitationGeneratorInput));
  }

  /** A keyword outside the signature raises instead of returning a dict. */
  lemma UnexpectedKeywordRaises(t: Tool, kwargs: Dict, underlying: (Tool, Dict) -> Outcome<Dict>, key: string)
    requires HasKey(kwargs, key) && !Accepts(t, key)
    ensures Invoke(t, kwargs, underlying).Raised?
  {
    var k :| 0 <= k < |kwargs| && kwargs[k].0 == key;
    assert !Accepts(t, kwargs[k].0);
  }
}
