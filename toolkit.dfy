/**
 * `HistoricalAnalysisToolkit.execute_tool`: dispatch by name over the five
 * registered analysis tools. An unknown name raises a 400 inside the `try`,
 * which the handler turns into a 500 whose detail embeds the 400's text; a
 * tool that raises becomes a 500 as well. The tools themselves are an oracle,
 * and the timestamp is a parameter.
 */
module Toolkit {
  import opened Wrappers
  import opened Text

  const ToolNames: seq<string> :=
    ["document_search", "timeline_builder", "entity_extractor", "cross_reference", "citation_generator"]

  datatype Execution<R> = Execution(toolName: string, executionStatus: string, result: R, timestamp: string)

  /** Python's `repr` of a list of plain strings. */
  function ListRepr(xs: seq<string>): string {
    "[" + Join(", ", Quoted(xs)) + "]"
  }

  function Quoted(xs: seq<string>): seq<string> {
    if xs == [] then [] else ["'" + xs[0] + "'"] + Quoted(xs[1..])
  }

  function NotFoundMessage(name: string): string {
    "Tool '" + name + "' not found."
  }

  function NotFound(name: string): HttpError {
    HttpError(400, NotFoundMessage(name) + " Available tools: " + ListRepr(ToolNames))
  }

  /** The handler: everything raised inside the `try` is re-raised as a 500. */
  function Failed(message: string): HttpError {
    HttpError(500, "Tool execution failed: " + message)
  }

  function ExecuteTool<R>(name: string, run: string -> Outcome<R>, now: string): (r: Result<Execution<R>, HttpError>)
    ensures r.Ok? <==> name in ToolNames && run(name).Returned?
    ensures r.Ok? ==> r.value == Execution(name, "success", run(name).result, now)
    ensures r.Err? ==> r.error.status == 500
    ensures name !in ToolNames ==> r == Err(Failed(HttpErrorText(NotFound(name))))
    ensures name in ToolNames && run(name).Raised? ==> r == Err(Failed(run(name).message))
  {
    if name !in ToolNames then Err(Failed(HttpErrorText(NotFound(name))))
    else
      match run(name)
      case Returned(result) => Ok(Execution(name, "success", result, now))
      case Raised(message) => Err(Failed(message))
  }

  lemma FourHundred()
    ensures NatToString(400) == "400"
  {
  }

  lemma PrefixOfAppend(p: string, q: string)
    ensures StartsWith(p + q, p)
  {
    assert (p + q)[..|p|] == p;
  }

  /** The handler's text for a 400 about `name`, whatever tool list follows. */
  lemma NotFoundPrefix(name: string, listing: string)
    ensures StartsWith(Failed(HttpErrorText(HttpError(400, NotFoundMessage(name) + " Available tools: " + listing))).detail,
                       Failed("400: " + NotFoundMessage(name)).detail)
  {
    FourHundred();
    var m, rest := NotFoundMessage(name), " Available tools: " + listing;
    assert NatToString(400) + ": " == "400: ";
    assert Failed(HttpErrorText(HttpError(400, m + rest))).detail == Failed("400: " + m).detail + rest;
    PrefixOfAppend(Failed("400: " + m).detail, rest);
  }

  /** The detail of the 500 quotes the 400 it started as: `400: Tool '<name>' not found.`. */
  lemma NotFoundDetail(name: string)
    ensures StartsWith(Failed(HttpErrorText(NotFound(name))).detail, Failed("400: " + NotFoundMessage(name)).detail)
  {
    NotFoundPrefix(name, ListRepr(ToolNames));
  }

  /** An unknown name never reaches a tool and surfaces as a 500, not as the 400 it started as. */
  lemma UnknownToolIsServerError<R>(name: string, run: string -> Outcome<R>, now: string)
    requires name !in ToolNames
    ensures ExecuteTool(name, run, now).Err?
    ensures ExecuteTool(name, run, now).error.status == 500
    ensures StartsWith(ExecuteTool(name, run, now).error.detail, Failed("400: " + NotFoundMessage(name)).detail)
  {
    NotFoundDetail(name);
  }
}
