# A verified model of the historical-research ReAct agent

This project models the agent engine of a historical-research assistant and the pure logic around it. The assistant answers questions about uploaded PDF documents.

The agent works in ReAct rounds. In each round the language model writes a `Thought:`, then an `Action:` made of tool calls such as `search_documents(query="Rome")` or a `Final Answer`, and the agent observes what the tools returned. The model covers the following parts:

- `ReactParser` reads one model reply into a reasoning step and reads the tool calls out of an action. It follows the agent's regular expressions and the coercion of argument values, with `\w` read as the ASCII word characters and `isdigit()` as the ASCII digits (see "Left out").
- `ReactTools` runs the parsed calls in order. Each call's failure stays with that call. It also writes the fixed one-paragraph summary of each tool's result.
- `ReactAgent` is the bounded loop of `process_query`: at most `max_iterations` generated steps, and then one synthesised final step. It also covers the retry with linear backoff, the streaming variant as an ordered list of events, and the system prompt.
- `AgentService` contains two classes:
  - the monitor, with its counters, its per-tool and per-error tallies, a recent-sessions list capped at 100, and the health classifier;
  - the service, with its in-memory session store, its 30-minute expiry sweep and its flat responses.
- `ToolFunctions` holds the registry of the five tool wrappers. Each wrapper checks its input schema, and every failure turns into a zero-valued fallback dict with an `error` key.
- The historical analysis tools are split by tool:
  - `Timeline`: year keys, stable chronological sorting, period classification, date confidence and the `DATE | EVENT | CONFIDENCE` reply format;
  - `Entities`: entity similarity, deduplication with mention counting, merging, type normalisation and co-occurrence;
  - `CrossReference`: one comparison per pair of documents, common entities, the `CONTRADICTIONS:` / `SUPPORTING_EVIDENCE:` reply parser and the consensus rule;
  - `Citations`: the four styles and a bibliography without duplicates;
  - `Toolkit`: dispatch by tool name.
- `PdfProcessor` cleans the text of each page and cuts it into overlapping chunks that break at a space. It numbers the chunks of a document 0, 1, 2, … across its pages.
- `VectorSearch` is the deterministic half of search:
  - the blank-query guard and the minimum-length filter;
  - the source attribution;
  - stable ranking and truncation;
  - the context window, and the merge of a chunk with its neighbours.
- `Storage` covers upload validation, the storage path of an upload, the size re-check that follows reading, and the path split of file lookups.

Some modules are shared helpers:

- `Text`, `PyValues`, `StableSort`, `Grouping` and `Pairs` write out the Python built-ins the services rely on: `str` methods, dicts in insertion order, stable `sorted`, `defaultdict(list)` grouping, and the nested loop over unordered pairs.
- `Wrappers` holds the shared Option and Result types.

The model takes every external collaborator as a parameter:

- the language model is an oracle indexed by call number;
- the analysis tools are an oracle from the arguments to a returned dict or a raised message;
- the same holds for the embedding search, the Supabase tables and storage, and pypdf;
- clock readings and UUIDs are parameters too.

Where the source mutates state, the model does too:

- the monitor and the session store are classes;
- the loops of the agent, the chunker and the services are methods with invariants.

Each such method is proved equal to a specification function, and the properties are proved about that function.

## Model

| member | source | states |
|---|---|---|
| ToolFunctions.RegistryComplete | server/app/services/historical_tool_functions.py:299-335 | every wrapper is registered, and no two wrappers share a name |
| ToolFunctions.NotAName | server/app/services/historical_tool_functions.py:299-335 | a name other than the five registered names is not in the registry |
| ToolFunctions.ToolNamed | server/app/services/historical_tool_functions.py:348-349 | a wrapper is found exactly when the name is registered, and the wrapper found carries that name |
| ToolFunctions.Lookup | server/app/services/historical_tool_functions.py:348 | `HISTORICAL_TOOL_FUNCTIONS.get` finds an entry exactly for registered names, and the entry belongs to the wrapper of that name |
| ToolFunctions.GetToolFunction | server/app/services/historical_tool_functions.py:338-349 | returns a wrapper exactly for registered names (None otherwise), and the wrapper has the requested name |
| ToolFunctions.GetToolSchema | server/app/services/historical_tool_functions.py:352-370 | returns schemas exactly for registered names (None otherwise), and they are the schemas of the wrapper found by name |
| ToolFunctions.ListAvailableTools | server/app/services/historical_tool_functions.py:373-388 | one entry per registered tool, in registry order, each carrying the schema that `get_tool_schema` returns for its name |
| ToolFunctions.SchemaByName | server/app/services/historical_tool_functions.py:352-370 | looking a wrapper's own name up returns that wrapper's schema |
| ToolFunctions.Unexpected | server/app/services/historical_tool_functions.py:98 | no keyword is reported exactly when the signature accepts every keyword passed; a reported keyword was passed and is not a parameter (also lines 139, 178, 217, 258) |
| ToolFunctions.Missing | server/app/services/historical_tool_functions.py:98 | nothing is reported exactly when every parameter without a default was passed; a reported parameter was not passed (also lines 217, 258) |
| ToolFunctions.Bind | server/app/services/historical_tool_functions.py:98 | binding fails (Python's `TypeError`) exactly on an unexpected keyword or a missing required one; otherwise every parameter is bound in signature order (also lines 258) |
| ToolFunctions.BindForwards | server/app/services/historical_tool_functions.py:98 | each bound parameter is the value passed under its name, and an omitted one takes its default (`None` for `document_ids`, `"academic"` for `style`) (also lines 139, 178, 217, 258) |
| ToolFunctions.ValidationError | server/app/services/historical_tool_functions.py:108 | the text of a Pydantic validation error is non-empty (also lines 119, 166-175) |
| ToolFunctions.FallbackError | server/app/services/historical_tool_functions.py:123-131 | every fallback dict carries `error` with the failure's text and a zero count (`total_results`, `total_events`, `total_entities`, `documents_analyzed`, `total_citations`) (also lines 166-175, 205-214, 246-255, 287-295) |
| ToolFunctions.SearchFallback | server/app/services/historical_tool_functions.py:123-131 | the search fallback echoes the bound query as `query` and `enhanced_query`, has no results and the strategy `"error"` |
| ToolFunctions.CrossReferenceFallback | server/app/services/historical_tool_functions.py:246-255 | the cross-reference fallback echoes its topic, has no cross references, and its summary is "Cross-reference analysis failed: " followed by the error |
| ToolFunctions.CitationFallback | server/app/services/historical_tool_functions.py:287-295 | the citation fallback echoes the bound style, whatever its type, and has no citations |
| ToolFunctions.Run | server/app/services/historical_tool_functions.py:106-131 | input that fails validation gives the fallback with the input-schema error; a raising tool gives the fallback with its message; a returned dict is projected onto the output schema when it conforms and otherwise gives the fallback with the output-schema error |
| ToolFunctions.Invoke | server/app/services/historical_tool_functions.py:98-131 | a wrapper call raises exactly when its keywords do not bind (with that binding error), and otherwise returns the wrapper body's dict (also lines 258-295) |
| ToolFunctions.ProjectGet | server/app/services/historical_tool_functions.py:119-121 | reading a schema field from `Model(**d).dict()` gives the value the tool returned under that name |
| ToolFunctions.ProjectDropsOthers | server/app/services/historical_tool_functions.py:119-121 | a key outside the output schema is not in `Model(**d).dict()` |
| ToolFunctions.ProjectIdempotent | server/app/services/historical_tool_functions.py:119-121 | the projection conforms to the schema, and validating it a second time changes nothing |
| ToolFunctions.ProjectHasNoError | server/app/services/historical_tool_functions.py:119-121 | a successful projection has no `error` key when no output field is named `error` |
| ToolFunctions.RunErrorKey | server/app/services/historical_tool_functions.py:121-131 | the result has an `error` key exactly when validation or the tool failed, and it then holds that failure's text |
| ToolFunctions.RunFallsBack | server/app/services/historical_tool_functions.py:123-131 | whenever validation or the tool fails, the wrapper returns the fallback dict for that failure |
| ToolFunctions.QueryBounds | server/app/services/historical_tool_functions.py:26 | an empty query or one over 1000 characters never reaches the tool: the result carries the validation error and echoes the query (also lines 108, 123-131) |
| ToolFunctions.BindOne | server/app/services/historical_tool_functions.py:139 | passing only the first parameter of a two-parameter wrapper binds the second to its default (also lines 217, 258) |
| ToolFunctions.TopicBounds | server/app/services/historical_tool_functions.py:70 | a topic outside 1..500 characters gives the validation error; a topic inside runs the tool with `document_ids` None and valid input (also lines 217-255) |
| ToolFunctions.CitationsNeedList | server/app/services/historical_tool_functions.py:85 | a `search_results` argument that is not a list of dicts never validates: the result carries the validation error and zero citations (also lines 272-295) |
| ToolFunctions.UnexpectedKeywordRaises | server/app/services/historical_tool_functions.py:98 | a keyword outside the wrapper's signature raises instead of returning a dict (also lines 258) |
| ReactParser.StopAt | server/app/services/react_agent.py:499-506 | the lazy group of `(.*?)(?=stop\|$)` ends at the first position where `stop` matches ignoring case or `$` matches, and at no earlier one |
| ReactParser.EndAt | server/app/services/react_agent.py:522 | the lazy group of `(.*?)$` ends at the first position where `$` matches (before a final newline or at the end) |
| ReactParser.TailIsRest | server/app/services/react_agent.py:522-524 | the stripped observation group equals the stripped rest of the reply, because `$` only leaves out a final newline |
| ReactParser.ParseReasoningResponse | server/app/services/react_agent.py:492-528 | parsing is total and never yields the error state; the step has the given number and no tool calls |
| ReactParser.NoThoughtMarker | server/app/services/react_agent.py:499-503 | with no `Thought:` marker the thought is the whole reply, stripped |
| ReactParser.ThoughtSegment | server/app/services/react_agent.py:499-501 | the thought is the stripped text after the first `Thought:` (any case) up to the first `Action:` after it |
| ReactParser.QuietReply | server/app/services/react_agent.py:496-526 | with neither `Action:` nor `Observation:` the step stays thinking, with no action and no observation |
| ReactParser.StateClassification | server/app/services/react_agent.py:506-526 | the state is thinking iff neither marker occurs; completed iff the action starts with "Final Answer"; acting iff there is a non-final action and no observation marker; observing iff there is an observation marker and the action is not final; an action exists iff `Action:` occurs |
| ReactParser.ActionSegment | server/app/services/react_agent.py:506-508 | the action is the stripped text after the first `Action:` up to the first `Observation:` after it |
| ReactParser.FinalAnswerObservation | server/app/services/react_agent.py:512-526 | a completed step's observation is the text after "Final Answer" and an optional colon when that text is non-empty; otherwise the text after the first `Observation:`, or empty when there is none |
| ReactParser.ObservationTail | server/app/services/react_agent.py:522-526 | a reply that is not a final answer and has an `Observation:` marker is observing, with the stripped text after that marker as its observation |
| ReactParser.PlaceholderUnreachable | server/app/services/react_agent.py:515-519 | an action starting with "Final Answer" always matches the final-answer pattern at 0, so "Final answer provided." is never produced |
| ReactParser.WordEnd | server/app/services/react_agent.py:616 | the `\w+` run ends at the first character that is not a word character |
| ReactParser.CloseAt | server/app/services/react_agent.py:616 | the lazy parameter group ends at the first place from which blanks lead to `)`, and never crosses a newline |
| ReactParser.CallAt | server/app/services/react_agent.py:616 | a call match at a position has a non-empty name of word characters and ends after that position |
| ReactParser.FindCalls | server/app/services/react_agent.py:617 | every name `re.findall` returns is a non-empty run of word characters |
| ReactParser.QuoteEnd | server/app/services/react_agent.py:626 | the lazy quoted group ends at the first matching closing quote and does not cross a newline |
| ReactParser.ToolCallsOf | server/app/services/react_agent.py:611-650 | every parsed call names a registered tool and has no result, no error and success false |
| ReactParser.Registered | server/app/services/react_agent.py:619-648 | the calls kept are at most the matches, all name registered tools, and none has run yet |
| ReactParser.ParseToolCalls | server/app/services/react_agent.py:611-654 | the method's calls equal the specification `ToolCallsOf` of the action, with `\w` and `isdigit()` read as ASCII (see "Left out") |
| ReactParser.RegisteredCalls | server/app/services/react_agent.py:619-648 | the matches loop keeps exactly `Registered(matches)` |
| ReactParser.BuildArguments | server/app/services/react_agent.py:627-643 | the parameter loop builds exactly `Arguments(ms)` |
| ReactParser.ArgumentsLastWins | server/app/services/react_agent.py:627-643 | each argument holds the value of the last assignment to its key, and a key never assigned is absent |
| ReactParser.QuotedVerbatim | server/app/services/react_agent.py:628-629 | a quoted value is stored verbatim; an empty quoted value or key writes nothing |
| ReactParser.CoerceCases | server/app/services/react_agent.py:630-643 | an unquoted token becomes True, False or None when it spells those ignoring case, an int when it is all digits, and otherwise stays a string |
| ReactParser.CoerceNumber | server/app/services/react_agent.py:640-641 | a number written out in digits is coerced back to that number |
| ReactParser.RegisteredAppend | server/app/services/react_agent.py:619-648 | filtering matches to registered tools distributes over concatenation: order is kept, unknown names are dropped |
| ReactParser.RegisteredOne | server/app/services/react_agent.py:620-648 | one match becomes a call with its parsed arguments exactly when its name is registered |
| ReactTools.ContentText | server/app/services/react_agent.py:671 | string content longer than 200 characters is cut to 200 and followed by "...", shorter content is kept |
| ReactTools.FormatToolResult | server/app/services/react_agent.py:656-716 | a dict without an error whose summary cannot be built (Python raises inside the formatter) gives the "completed with result" fallback sentence |
| ReactTools.ErrorFirst | server/app/services/react_agent.py:659-660 | a truthy `error` is reported as "<name> failed: <error>" for every tool name, before anything else is read |
| ReactTools.NothingFound | server/app/services/react_agent.py:663-697 | a zero or negative count gives the fixed "No ..." sentence of the search, timeline and entity tools |
| ReactTools.MissingCount | server/app/services/react_agent.py:664-687 | a missing count defaults to 0 and also gives the "No ..." sentence |
| ReactTools.FormatUsesSummary | server/app/services/react_agent.py:658-716 | without an error, the per-tool summary is returned when it can be built, and the fallback sentence otherwise |
| ReactTools.SearchFormat | server/app/services/react_agent.py:663-675 | the search sentence is the one the formatter returns once no error is reported, or the fallback when it cannot be built |
| ReactTools.SearchPreviews | server/app/services/react_agent.py:663-673 | a search with a positive total shows "Found <total> results:" and one line for each of at most the first three results, each with at most 203 characters of content |
| ReactTools.GenericSummary | server/app/services/react_agent.py:710-712 | a tool name outside the five gets the generic "completed successfully" sentence with the first 300 characters of the result's text |
| ReactTools.UncomparableCount | server/app/services/react_agent.py:664-716 | a count Python cannot compare with 0 makes the formatter fall back to the "completed with result" sentence |
| ReactTools.RecordOf | server/app/services/react_agent.py:555-599 | one pass of the calls loop records the call exactly when its name is a registered tool |
| ReactTools.Invoked | server/app/services/react_agent.py:566-591 | a call that has run keeps its name and arguments, and succeeds exactly when it returns a dict without a truthy error |
| ReactTools.CallOutcome | server/app/services/react_agent.py:555-599 | a registered call is recorded with its name and arguments; its success is that of its run; a success's observation line is the formatted result, and a failure's line starts with "Tool <name> failed: " |
| ReactTools.Lines | server/app/services/react_agent.py:554-602 | one observation line per call |
| ReactTools.ExecutedStep | server/app/services/react_agent.py:539-609 | the step keeps its number, thought and action; a missing or empty action leaves it unchanged; otherwise it ends observing, with an observation |
| ReactTools.WithCalls | server/app/services/react_agent.py:554-603 | after the calls run the step keeps its number, thought and action and is observing, with an observation |
| ReactTools.ExecuteToolCalls | server/app/services/react_agent.py:539-609 | the method updates the step exactly as the specification `ExecutedStep` |
| ReactTools.RunCalls | server/app/services/react_agent.py:554-599 | the loop records exactly `Recorded(calls)` and collects exactly `Lines(calls)` |
| ReactTools.NoValidCalls | server/app/services/react_agent.py:546-550 | an action without registered calls records nothing and observes "No valid tool calls found in action: " followed by the action |
| ReactTools.RecordedAll | server/app/services/react_agent.py:554-599 | when every call names a registered tool all calls are recorded, in order |
| ReactTools.UnknownToolUnreachable | server/app/services/react_agent.py:560-565 | the unknown-tool branch is never taken: every parsed call names a registered tool (also lines 620-621) |
| ReactTools.RegisteredCallsRun | server/app/services/react_agent.py:554-603 | registered calls are appended after the step's earlier calls, in order, and the observation joins their lines with newlines |
| ReactTools.OneLinePerCall | server/app/services/react_agent.py:539-603 | each parsed call is run, recorded and observed on its own line, in order; a call that raises or reports an error marks only itself as failed |
| ReactAgent.Retry | server/app/services/react_agent.py:463-475 | the retry makes between one and three attempts |
| ReactAgent.RetryTerms | server/app/services/react_agent.py:463-475 | at most three calls; every call before the last one raised; the last call's outcome is returned, so a third failure is re-raised; the sleeps between calls are 1 and then 2 seconds |
| ReactAgent.RetrySucceedsIff | server/app/services/react_agent.py:465-474 | the retry returns a response exactly when one of its three calls does |
| ReactAgent.GenerateWithRetry | server/app/services/react_agent.py:463-475 | the loop's outcome, attempt count and sleeps equal the specification `Retry` |
| ReactAgent.ErrorStep | server/app/services/react_agent.py:371-378 | the failure step carries the requested number, the error state and a non-empty observation |
| ReactAgent.Acted | server/app/services/react_agent.py:366-367 | running a parsed step's tools keeps its number and never turns a step into an error step |
| ReactAgent.ReasoningStepFor | server/app/services/react_agent.py:345-378 | the step has the requested number; an error step has an observation; between one and three model calls are used |
| ReactAgent.GenerateReasoningStep | server/app/services/react_agent.py:345-378 | the method's step and model-call count equal the specification `ReasoningStepFor` |
| ReactAgent.ReplyParsed | server/app/services/react_agent.py:354-369 | a non-empty reply is parsed; its tools run exactly when it has an action that is not a final answer; the step is never an error step |
| ReactAgent.NoReplyIsError | server/app/services/react_agent.py:357-378 | three failed calls, an unreadable response or an empty one give the error step |
| ReactAgent.FinalStep | server/app/services/react_agent.py:725-742 | a reply gives a completed step with action "Final Answer" and the stripped reply (or the fixed "Unable to generate" text) as observation; a failure gives the error step whose observation starts "Error generating final answer: " |
| ReactAgent.FinalStepFor | server/app/services/react_agent.py:718-742 | the final step has the requested number and an observation, is completed or error, and uses one to three model calls |
| ReactAgent.GenerateFinalAnswer | server/app/services/react_agent.py:718-742 | the method's step and model-call count equal the specification `FinalStepFor` |
| ReactAgent.BuildSystemPrompt | server/app/services/react_agent.py:305-343 | the method returns the system prompt built around the joined tool lines |
| ReactAgent.DescribeTools | server/app/services/react_agent.py:307-312 | the loop collects exactly the tool lines of the registry |
| ReactAgent.EveryToolDescribed | server/app/services/react_agent.py:305-320 | every registered tool's line, with its parameters, occurs in the system prompt |
| ReactAgent.Recall | server/app/services/react_agent.py:168-176 | the history grows by the step heading, the thought, and the action and observation when present, and keeps what it had |
| ReactAgent.ReasonerNumbered | server/app/services/react_agent.py:162-164 | the reasoning step for round n is numbered n, and an error step carries an observation (also lines 345-378) |
| ReactAgent.FinisherAnswers | server/app/services/react_agent.py:718-742 | the final-answer step is numbered after the steps so far and is completed or error, with an observation |
| ReactAgent.HistoryOpens | server/app/services/react_agent.py:156-176 | after any number of rounds the conversation history still opens with the system prompt and `User Query: <query>`: the loop only appends to it |
| ReactAgent.SessionId | server/app/services/react_agent.py:144-145 | a given non-empty session id is kept; otherwise the id starts with "session_" |
| ReactAgent.ProcessQuery | server/app/services/react_agent.py:133-207 | the method's session and model-call count equal the specification `Process` |
| ReactAgent.RunSession | server/app/services/react_agent.py:147-201 | the session is the one the loop and the final-answer step make over the system prompt |
| ReactAgent.RunLoop | server/app/services/react_agent.py:158-187 | the loop's variables after it equal `Iterate(max_iterations)` of the step function from the start state |
| ReactAgent.Remember | server/app/services/react_agent.py:168-176 | the history lines appended for a step are exactly `Recall` |
| ReactAgent.Finish | server/app/services/react_agent.py:189-197 | the state after the final-answer step equals `Conclude` of the loop's state |
| ReactAgent.ConcludeFacts | server/app/services/react_agent.py:189-197 | after the final-answer step: one to k+1 steps numbered from 1; success iff no error; the extra step is added exactly when there was neither answer nor error; an error is the observation of the last, error, step |
| ReactAgent.ConcludeNoEarlyError | server/app/services/react_agent.py:179-194 | only the last step of a finished session can be an error step |
| ReactAgent.SessionShape | server/app/services/react_agent.py:133-201 | one to max_iterations + 1 steps numbered from 1; success iff no error; an error is the observation of the error step that ended the loop; no earlier error step; the tool-call count is the number of calls the steps recorded |
| ReactAgent.FinalStepOnlyWhenNeeded | server/app/services/react_agent.py:189-194 | the final step is added exactly when the loop ended without answer or error; it is then the last step and the session reports success even if that step is an error step |
| ReactAgent.LoopStopsAtFirstTerminal | server/app/services/react_agent.py:158-187 | the loop stops at the first completed or error step and otherwise runs all its rounds; on success the final answer is the last step's observation |
| ReactAgent.ProcessShape | server/app/services/react_agent.py:133-201 | `process_query`'s session has the session id and query, and the step, success, error and tool-count properties of `SessionShape` |
| ReactAgent.NonEmpty | server/app/services/react_agent.py:484-486 | the chunks kept are non-empty and concatenate to the same text as all chunks |
| ReactAgent.Emitted | server/app/services/react_agent.py:477-490 | the streamed texts are non-empty; they concatenate to the stream's text, followed by "[Error: <e>]" when the stream raised |
| ReactAgent.GenerateStreaming | server/app/services/react_agent.py:477-490 | the method yields exactly `Emitted` of the stream |
| ReactAgent.ThinkingEvents | server/app/services/react_agent.py:400-407 | one `thinking` update per streamed text |
| ReactAgent.ThinkingContents | server/app/services/react_agent.py:400-407 | each `thinking` update carries its chunk and the response up to and including it |
| ReactAgent.ThinkingAccumulates | server/app/services/react_agent.py:401-407 | each update's full content is the previous one's plus exactly its chunk, starting with the first chunk |
| ReactAgent.StreamedStepFor | server/app/services/react_agent.py:380-445 | a streamed step has the requested number, uses exactly one model call (no retry) and is never an error step |
| ReactAgent.StreamReasoningStep | server/app/services/react_agent.py:380-445 | the method's step, call count and updates equal the specification `StreamedStepFor` |
| ReactAgent.StreamedStepIs | server/app/services/react_agent.py:396-445 | the streamed step parses the concatenation of everything the stream yielded, an error marker included, and then runs its tools |
| ReactAgent.Accumulate | server/app/services/react_agent.py:399-407 | the response text is the concatenation of the chunks and the updates are `ThinkingEvents` |
| ReactAgent.StreamReasonerNumbered | server/app/services/react_agent.py:247-253 | the streamed step for round n is numbered n (also lines 380-445) |
| ReactAgent.StreamIterateProgress | server/app/services/react_agent.py:238-275 | the streaming loop keeps the same variables as the loop of `process_query` over the same steps |
| ReactAgent.ProcessQueryStreaming | server/app/services/react_agent.py:209-303 | the method's update list and call count equal the specification `ProcessStreaming` |
| ReactAgent.StreamSession | server/app/services/react_agent.py:223-295 | the session-level updates are those of `StreamSessionWith` over the loop and the final-answer step |
| ReactAgent.StreamLoop | server/app/services/react_agent.py:238-275 | the loop's variables and updates equal `StreamIterate` of the streamed step function |
| ReactAgent.StreamingShape | server/app/services/react_agent.py:209-295 | the updates open with `session_start` and close with `session_complete`; the session always succeeds with no error; `generating_final_answer` comes just before the end when the final step was added |
| ReactAgent.StreamEvents | server/app/services/react_agent.py:227-295 | `session_start` comes first, `session_complete` with the session last, and `generating_final_answer` just before it when neither answer nor error was reached |
| ReactAgent.StreamSessionSucceeds | server/app/services/react_agent.py:268-283 | a loop over streamed steps ends with success and no error, and the final step is added exactly when there was neither answer nor error |
| ReactAgent.IterateNoError | server/app/services/react_agent.py:238-275 | no step of a streaming loop is an error step (also lines 396-445) |
| ReactAgent.ProcessStreamingShape | server/app/services/react_agent.py:209-295 | `process_query_streaming` starts with `session_start` for the session id and query and ends with a successful `session_complete` with no error |
| AgentService.Newest | server/app/services/agent_service.py:93-107 | `xs[-n:]` is the newest n entries, or all of them when there are fewer |
| AgentService.NewestAppend | server/app/services/agent_service.py:82-94 | appending to the trimmed list and trimming again equals trimming the whole history |
| AgentService.NewestOfNewest | server/app/services/agent_service.py:107-129 | the newest 10 of the newest 100 summaries are the newest 10 |
| AgentService.Bump | server/app/services/agent_service.py:50-79 | `m[k] += 1` on a `defaultdict(int)` raises the count of k by one |
| AgentService.BumpOther | server/app/services/agent_service.py:50-79 | bumping one key leaves every other count as it was |
| AgentService.ToolErrorKey | server/app/services/agent_service.py:79 | the error key of a failed tool call is "tool_<name>_error" |
| AgentService.ToolsUsed | server/app/services/agent_service.py:218 | a step's `tools_used` lists at most as many names as it has calls |
| AgentService.ToolsUsedNames | server/app/services/agent_service.py:218 | a name is in `tools_used` exactly when some call of that tool succeeded |
| AgentService.UsedPlusFailed | server/app/services/agent_service.py:74-79 | every call is counted once, as a use of its tool or as an error of it |
| AgentService.TallyCallsCounts | server/app/services/agent_service.py:74-79 | counting the calls adds to each tool's usage its number of successful calls, and to each error key the number of failed calls it names |
| AgentService.SuccessPlusFailure | server/app/services/agent_service.py:43-48 | every recorded session is counted once, as a success or as a failure |
| AgentService.Summarize | server/app/services/agent_service.py:82-90 | a recent-session summary keeps the id, success, tool-call count and error, and the query cut to 100 characters followed by "..." when longer |
| AgentService.SuccessRate | server/app/services/agent_service.py:116-120 | the success rate is successful / total, and 1.0 when there are no sessions |
| AgentService.RateStatusInIntegers | server/app/services/agent_service.py:121-126 | at least 90% successes is healthy, at least 70% degraded, below 70% unhealthy, stated without division |
| AgentService.RateStatusMonotone | server/app/services/agent_service.py:121-126 | more successes out of the same total never give a worse status |
| AgentService.RecentErrors | server/app/services/agent_service.py:129 | the recent-error count is at most the number of the last ten sessions |
| AgentService.HealthOf | server/app/services/agent_service.py:111-142 | five or more failures among the last ten sessions are unhealthy, three or four degraded, otherwise the rate status; no sessions is healthy with rate 1.0 |
| AgentService.RecentFailuresOverride | server/app/services/agent_service.py:128-133 | three or more recent failures override even a perfect success rate |
| AgentService.ReplayFacts | server/app/services/agent_service.py:39-94 | after recording a history, the counters count its sessions, successes, failures and tool calls, the tallies count its errors and calls, and the recent list holds the summaries of the newest 100 sessions |
| AgentService.RecordedConsistent | server/app/services/agent_service.py:39-94 | recording a session keeps the counters consistent (total = successes + failures, at most 100 recent) and makes its summary the newest |
| AgentService.ReplayConsistent | server/app/services/agent_service.py:23-94 | every state a fresh monitor reaches is consistent |
| AgentService.CountCalls | server/app/services/agent_service.py:74-79 | the nested loops tally exactly the calls of all steps, one at a time |
| AgentService.AgentMonitor.constructor | server/app/services/agent_service.py:23-37 | a new monitor has zero counters, empty tallies and no recent sessions |
| AgentService.AgentMonitor.RecordSession | server/app/services/agent_service.py:39-99 | the new state is `Recorded` of the old state and the session, and the monitor stays consistent |
| AgentService.AgentMonitor.CountToolCalls | server/app/services/agent_service.py:74-79 | the tallies become `TallyCalls` of the old tallies over every call of every step |
| AgentService.AgentMonitor.Stats | server/app/services/agent_service.py:101-109 | `get_stats` shows the ten newest recent summaries, and total = successes + failures |
| AgentService.AgentMonitor.Health | server/app/services/agent_service.py:111-142 | `get_health_status` is `HealthOf` the monitor's counters and recent sessions |
| AgentService.StatsShowNewest | server/app/services/agent_service.py:93-107 | after any history, the ten summaries `get_stats` shows are those of the ten newest sessions |
| AgentService.Keep | server/app/services/agent_service.py:379 | the keys kept are those of the order also in the set, in order (also lines 440, 458) |
| AgentService.KeepDistinct | server/app/services/agent_service.py:379 | filtering keeps the keys distinct |
| AgentService.KeepKeep | server/app/services/agent_service.py:440-476 | filtering twice is filtering by both sets |
| AgentService.KeepAll | server/app/services/agent_service.py:379 | filtering by a set holding every key changes nothing |
| AgentService.StoreKeyOrder | server/app/services/agent_service.py:194-197 | storing a value keeps a key's place in the dict's order, and a new key goes last (also lines 301-304) |
| AgentService.Fresh | server/app/services/agent_service.py:466-476 | the sweep keeps exactly the sessions idle for at most 30 minutes, unchanged |
| AgentService.ExpiredKeys | server/app/services/agent_service.py:471-473 | the first loop collects exactly the expired keys, in dict order |
| AgentService.DeletingFacts | server/app/services/agent_service.py:475-476 | deleting removes exactly the listed keys and leaves the other values alone |
| AgentService.DeleteKey | server/app/services/agent_service.py:440-476 | `del` keeps the dict's key order, which stays the original order filtered by the remaining keys |
| AgentService.DeleteKeys | server/app/services/agent_service.py:475-476 | the second loop deletes exactly the collected keys and keeps the key order |
| AgentService.ExpiredKeysDistinct | server/app/services/agent_service.py:471-473 | the collected keys are distinct |
| AgentService.SweptIsFresh | server/app/services/agent_service.py:466-476 | deleting exactly the collected keys leaves the sessions that have not expired |
| AgentService.ResponseOf | server/app/services/agent_service.py:199-223 | the response carries the session's id, query, answer, success, error and tool count, a step count equal to its steps, and one detailed entry per step with its successful tools |
| AgentService.ErrorSessionId | server/app/services/agent_service.py:233 | a given session id is kept, otherwise the id starts with "error_" |
| AgentService.ErrorSession | server/app/services/agent_service.py:232-238 | the session recorded on failure is unsuccessful, carries the error text, and has no steps, tool calls or answer; its response is exactly the failure response returned to the caller (also lines 241-252) |
| AgentService.ErrorResponseOfSession | server/app/services/agent_service.py:232-252 | the failure response is the response the recorded error session would give |
| AgentService.LastCompleted | server/app/services/agent_service.py:279-294 | no session is kept exactly when no update is `session_complete`; otherwise the kept session is rebuilt from the last of them: id, query, answer, success, error and tool count kept, steps dropped |
| AgentService.AgentService.constructor | server/app/services/agent_service.py:153-161 | the service starts with no active sessions, a fresh monitor and `MaxIterationsFor` of the model: 5 iterations when the model name ends in "flash", otherwise 3 |
| AgentService.AgentService.Store | server/app/services/agent_service.py:194-197 | storing sets the entry and keeps the dict's key order |
| AgentService.AgentService.Delete | server/app/services/agent_service.py:440 | deleting removes exactly that entry and keeps the key order |
| AgentService.AgentService.CollectExpired | server/app/services/agent_service.py:469-473 | the first sweep loop returns exactly `ExpiredKeys` of the sessions |
| AgentService.AgentService.CleanupExpiredSessions | server/app/services/agent_service.py:466-476 | the sessions left are `Fresh`: those idle for at most 30 minutes, in their original order |
| AgentService.AgentService.ProcessQuery | server/app/services/agent_service.py:163-252 | sweeps, runs the agent, records the session (or the error session) in the monitor, stores a session with a non-empty id, and returns its response (or the error response); the key order is the swept order, with a newly stored id appended last |
| AgentService.AgentService.ProcessQueryStreaming | server/app/services/agent_service.py:254-304 | every agent update is passed on unchanged; the session of the last `session_complete` update, rebuilt, is recorded and stored, and without one only the sweep happens; the key order is the swept order, with a newly stored id appended last |
| AgentService.AgentService.GetSession | server/app/services/agent_service.py:316-331 | `get_session` finds an entry exactly for an active id, and it is that id's entry |
| AgentService.AgentService.ListActiveSessions | server/app/services/agent_service.py:368-390 | sweeps, then lists the summaries of the remaining sessions in dict order sorted by last activity, newest first |
| AgentService.AgentService.ClearSession | server/app/services/agent_service.py:428-443 | reports true exactly when the id was active, and removes it |
| AgentService.AgentService.ClearAllSessions | server/app/services/agent_service.py:449-460 | returns the number of active sessions and leaves none |
| AgentService.AgentService.MonitoringStatsOf | server/app/services/agent_service.py:396-417 | the stats carry the monitor's health and statistics, the number of active sessions and the iteration count |
| AgentService.ListingOrder | server/app/services/agent_service.py:390 | the listing is ordered newest first, is a permutation of the summaries, and keeps ties in dict order (also lines 378-388) |
| Timeline.FindYear | server/app/services/historical_tools.py:511-550 | `re.search(r'\b(\d{1,4})\b')` finds the first position holding a word of one to four digits, and none exists before it |
| Timeline.YearOf | server/app/services/historical_tools.py:511-554 | a year is read exactly when the text has a word of one to four digits |
| Timeline.SortChronologicallyCorrect | server/app/services/historical_tools.py:503-523 | the sorted events are a permutation of the input in non-decreasing year-key order |
| Timeline.SortChronologicallyStable | server/app/services/historical_tools.py:523 | events with the same year key keep their extraction order, so "264 BC" precedes "146 BC" and equal keys stay put |
| Timeline.PeriodIndex | server/app/services/historical_tools.py:557-577 | the thresholds select one of the named periods |
| Timeline.Period | server/app/services/historical_tools.py:544-581 | "Unknown Period" exactly when no year is found; otherwise one of the eight named periods, by the BC thresholds >800/>480/>323/>146/>27 and the AD thresholds <=476/<=1000 |
| Timeline.PeriodFollowsChronology | server/app/services/historical_tools.py:506-521 | of two dated strings, the one with the strictly smaller sort key never falls in a later period (also lines 544-577) |
| Timeline.PeriodIndexMonotone | server/app/services/historical_tools.py:557-577 | the period index never decreases along the signed year, BC counting negative |
| Timeline.HasEraDateMeans | server/app/services/historical_tools.py:498 | the confidence boost applies exactly when some position holds `\b\d{1,4}\s*(BC\|AD\|BCE\|CE)\b` (case-sensitive) |
| Timeline.BaseConfidence | server/app/services/historical_tools.py:486-495 | the base confidence per date type lies between 0.5 and 0.9, with 0.5 for an unknown type |
| Timeline.DateConfidence | server/app/services/historical_tools.py:484-501 | the confidence is the type's base plus 0.1 when the era pattern matches, capped at 1.0 (in tenths: between 5 and 10) |
| Timeline.EraDateExample | server/app/services/historical_tools.py:484-501 | "146 BC" of type exact has confidence 1.0 |
| Timeline.CenturyDateExample | server/app/services/historical_tools.py:484-501 | "2nd century BC" of type century keeps its base 0.7, since no number is directly followed by an era |
| Timeline.AiConfidence | server/app/services/historical_tools.py:464-465 | the reply's confidence word maps to 0.9, 0.7 or 0.5 |
| Timeline.AiLineEvent | server/app/services/historical_tools.py:458-462 | a reply line yields an event exactly when it has a `\|` and at least three `\|`-separated fields |
| Timeline.AiLinesEvents | server/app/services/historical_tools.py:455-478 | at most one event per line, each of type `ai_extracted`, with a confidence of 0.5, 0.7 or 0.9 and the chunk's source document and page |
| Timeline.AiLineRoundTrip | server/app/services/historical_tools.py:440-476 | a line written as `DATE \| EVENT \| CONFIDENCE` with clean fields is read back field by field |
| Timeline.AiLinesSound | server/app/services/historical_tools.py:458-476 | every event read from a list of lines is the event of one of those lines |
| Timeline.AiLinesComplete | server/app/services/historical_tools.py:458-476 | every line with a `\|` and at least three fields contributes its event |
| Timeline.ParseAiTimeline | server/app/services/historical_tools.py:451-473 | an empty reply gives no events |
| Timeline.ParseAiTimelineSound | server/app/services/historical_tools.py:455-476 | every event of a reply comes from one of its stripped, newline-split lines that has a `\|` and at least three `\|`-separated fields |
| Timeline.ParseAiTimelineComplete | server/app/services/historical_tools.py:455-476 | every such line of a non-empty reply yields an event, and that event is in the result |
| Timeline.AiLinesRoundTrip | server/app/services/historical_tools.py:455-476 | lines written as clean `DATE \| EVENT \| CONFIDENCE` rows are read back as exactly their events, in row order |
| Timeline.AiReplyRoundTrip | server/app/services/historical_tools.py:440-476 | a whole reply of such rows, one per line, is read back as exactly its events in row order |
| Timeline.GroupEventsByPeriod | server/app/services/historical_tools.py:529-538 | one group per period met, in order of first appearance, holding that period's events in timeline order |
| Timeline.DateRangeSpansTimeline | server/app/services/historical_tools.py:622-630 | on the sorted timeline the range's start has the least year key and its end the greatest (also lines 503-523) |
| Grouping.FindGroup | server/app/services/historical_tools.py:536 | returns the position of the group with the key, or the number of groups when none has it (also lines 1137) |
| Grouping.AppendedGroups | server/app/services/historical_tools.py:536-538 | appending an item to the group of its key, or to a new last group when the key is new, keeps a grouping of the longer prefix, key order included |
| Grouping.GroupsOfUnique | server/app/services/historical_tools.py:532-538 | two groupings of the same items are equal: the key order of first appearance and the items per key leave no freedom |
| Grouping.GroupBy | server/app/services/historical_tools.py:532-538 | the `defaultdict(list)` loop yields one group per distinct key in order of first appearance, each holding exactly the items with that key in order (also lines 1131-1144) |
| Toolkit.ExecuteTool | server/app/services/historical_tools.py:1667-1704 | succeeds exactly for one of the five toolkit names whose tool returns, with status "success" and the tool's result; every failure is a 500: an unknown name's 400 is caught and re-raised as "Tool execution failed: 400: ...", and a raising tool's message is wrapped the same way |
| Toolkit.NotFoundPrefix | server/app/services/historical_tools.py:1682-1704 | the 500's detail for an unknown name starts with "Tool execution failed: 400: Tool '<name>' not found. Available tools: ", whatever tool list follows |
| Toolkit.NotFoundDetail | server/app/services/historical_tools.py:1682-1704 | the 500's detail quotes the 400 it started as |
| Toolkit.UnknownToolIsServerError | server/app/services/historical_tools.py:1681-1704 | an unknown name never reaches a tool and surfaces as a 500, not the 400 it started as |
| Entities.SimilarNamesReflexiveSymmetric | server/app/services/historical_tools.py:922-948 | the name test used by `_entities_similar` is reflexive and symmetric |
| Entities.FirstSimilar | server/app/services/historical_tools.py:907-965 | the search stops at the first retained entity similar to the new one, and none before it is similar |
| Entities.AbsorbDissimilar | server/app/services/historical_tools.py:958-968 | absorbing an entity keeps a pairwise-dissimilar list dissimilar |
| Entities.AbsorbMentions | server/app/services/historical_tools.py:961-968 | absorbing adds one mention to the total when a similar entity exists, and the entity's own mentions otherwise |
| Entities.AbsorbKeeps | server/app/services/historical_tools.py:958-968 | absorbing keeps every earlier entity's place and fields but its count, grows the list by at most one, and leaves an entity similar to the new one |
| Entities.AbsorbAllDissimilar | server/app/services/historical_tools.py:955-970 | deduplicating keeps a list pairwise dissimilar |
| Entities.AbsorbAllMentions | server/app/services/historical_tools.py:955-970 | each absorbed entity with one mention adds exactly one mention to the total |
| Entities.AbsorbAllKeepsPrefix | server/app/services/historical_tools.py:955-970 | the entities already present keep their places and everything but their counts |
| Entities.AbsorbAllCovers | server/app/services/historical_tools.py:955-970 | every absorbed entity is similar to a retained one |
| Entities.AbsorbAllFrom | server/app/services/historical_tools.py:955-970 | every retained entity is, up to its count, one already present or one absorbed |
| Entities.AbsorbEntity | server/app/services/historical_tools.py:958-968 | the search loop bumps the first similar entity's mentions, or appends the new one, exactly as `Absorb` (also lines 904-914) |
| Entities.DeduplicateList | server/app/services/historical_tools.py:955-970 | the retained entities are pairwise dissimilar, every input is similar to one of them, and with one mention per input the mentions add up to the number of inputs |
| Entities.DeduplicateEntities | server/app/services/historical_tools.py:950-972 | each type's list is deduplicated, types in the same order, and every list is pairwise dissimilar |
| Entities.DeduplicateGroup | server/app/services/historical_tools.py:955-970 | one type's deduplicated list is dissimilar |
| Entities.MergeGroupProperties | server/app/services/historical_tools.py:903-914 | merging one AI type keeps dissimilar lists dissimilar, adds one mention per unit entity, and keeps the entries already merged |
| Entities.MergeAllProperties | server/app/services/historical_tools.py:892-916 | merging keeps the pattern-found entities in place up to their counts, keeps every type's list dissimilar when it was, and adds one mention per AI entity with one mention |
| Entities.MergeOneType | server/app/services/historical_tools.py:904-914 | the loop over one AI type absorbs each of its entities into that type's list |
| Entities.AbsorbEach | server/app/services/historical_tools.py:958-968 | the loop absorbs each entity in turn, exactly as `AbsorbAll` |
| Entities.MergeEntities | server/app/services/historical_tools.py:892-916 | pattern entities first, then every AI entity absorbed into its type; the pattern entities are kept, dissimilarity is preserved and unit mentions add up |
| Entities.EntityKind | server/app/services/historical_tools.py:857-868 | type normalisation always gives one of person, place, battle, organization, concept |
| Entities.KindOfOrganizationWord | server/app/services/historical_tools.py:865-866 | a lower-case type containing "organization" and none of the earlier words normalises to organization |
| Entities.KindOfOtherWord | server/app/services/historical_tools.py:867-868 | a lower-case type containing none of the listed words normalises to concept |
| Entities.EntityKindIdempotent | server/app/services/historical_tools.py:857-868 | a normalised type is its own normal form |
| Entities.AiEntityLine | server/app/services/historical_tools.py:851-884 | a reply line yields an entity exactly when it has a `\|` and at least three fields; the entity has one mention, no relations and the first chunk's source and page |
| Entities.AiEntityLines | server/app/services/historical_tools.py:849-884 | at most one entity per line, each with one mention and a normalised type |
| Entities.AiEntityRoundTrip | server/app/services/historical_tools.py:853-884 | a row written as `TYPE \| NAME \| CONTEXT` with clean fields is read back field by field |
| Entities.ParseAiEntityResponse | server/app/services/historical_tools.py:845-886 | the reply's entities, grouped by normalised type in order of first appearance |
| Entities.MentionedMeaning | server/app/services/historical_tools.py:991-997 | a name is mentioned in a chunk exactly when its lower-case form occurs in the lower-cased content |
| Entities.CoMentionedMeaning | server/app/services/historical_tools.py:990-1004 | two names are related exactly when they differ, both are entity names, and one chunk contains both, ignoring case |
| Entities.AllPairsMeaning | server/app/services/historical_tools.py:1000-1004 | the pairs recorded for a chunk are every pair of different mentioned names, in both orders, and only those |
| Entities.CoMentionedSymmetric | server/app/services/historical_tools.py:1000-1004 | co-occurrence is symmetric and irreflexive |
| Entities.Relate | server/app/services/historical_tools.py:1003-1004 | `relationships[x].append(y)` adds exactly the pair (x, y) |
| Entities.MentionedIn | server/app/services/historical_tools.py:994-997 | the loop over all entity names collects exactly the names the chunk mentions |
| Entities.RecordRow | server/app/services/historical_tools.py:1001-1004 | the inner loop relates a mentioned name to every later, different name of the chunk |
| Entities.RelateBoth | server/app/services/historical_tools.py:1003-1004 | relating two names both ways records both ordered pairs |
| Entities.RecordChunk | server/app/services/historical_tools.py:1000-1004 | both loops over one chunk's names record all its pairs |
| Entities.RelationMeaning | server/app/services/historical_tools.py:1000-1008 | a map holding every recorded pair relates exactly the co-mentioned names |
| Entities.RelationSymmetric | server/app/services/historical_tools.py:1006-1010 | such a map is symmetric and has no self-relations |
| Entities.RecordChunks | server/app/services/historical_tools.py:990-1004 | the loop over the chunks records every chunk's pairs |
| Entities.RecordMentions | server/app/services/historical_tools.py:991-1004 | one chunk's body finds its mentioned names and records their pairs |
| Entities.CalculateRelationships | server/app/services/historical_tools.py:978-1010 | b is related to a exactly when the names differ and some chunk mentions both; the relation is symmetric, irreflexive, has no empty entry and no duplicates |
| CrossReference.GroupResultsByDocument | server/app/services/historical_tools.py:1131-1140 | the hits grouped by document name, one group per name in order of first appearance, each with exactly its hits in order |
| CrossReference.GroupCount | server/app/services/historical_tools.py:1118-1140 | the number of groups is the number of distinct document names among the hits |
| CrossReference.EntitySetMeaning | server/app/services/historical_tools.py:1220-1229 | an entity is in a document's set exactly when some hit of it lists the entity |
| CrossReference.SharedEntitiesMeaning | server/app/services/historical_tools.py:1215-1234 | an entity is common exactly when each document lists it in some hit (the set intersection) |
| CrossReference.EntitiesOf | server/app/services/historical_tools.py:1223-1229 | the loop's set is the union of the hits' entity lists |
| CrossReference.CommonEntities | server/app/services/historical_tools.py:1215-1234 | the method returns exactly the shared entities |
| CrossReference.AnalyzeDocumentPair | server/app/services/historical_tools.py:1240-1308 | the method's contradictions and supporting evidence are those `PairAnalysis` reads from the reply (none when there is no reply) |
| CrossReference.NoSectionNoFindings | server/app/services/historical_tools.py:1291-1302 | lines before the first section header never count, whatever they hold |
| CrossReference.NoHeaderNoFindings | server/app/services/historical_tools.py:1288-1304 | a reply none of whose lines names a section yields no findings |
| CrossReference.ParseRenderedReply | server/app/services/historical_tools.py:1264-1304 | findings written in the requested `CONTRADICTIONS:` / `SUPPORTING_EVIDENCE:` layout are read back exactly |
| CrossReference.FindCrossReferences | server/app/services/historical_tools.py:1146-1183 | the nested loop compares every document pair i < j in loop order, exactly as `Comparisons` |
| CrossReference.ConsensusCases | server/app/services/historical_tools.py:1339-1346 | strong agreement iff agreements > 2 x contradictions; general agreement iff contradictions < agreements <= 2 x contradictions; disagreement iff agreements < contradictions; mixed iff equal |
| CrossReference.MentionCount | server/app/services/historical_tools.py:1321-1327 | an entity's count is at most the number of comparisons |
| CrossReference.EntityMentionsMeaning | server/app/services/historical_tools.py:1321-1327 | an entity is counted exactly when some comparison shares it, and then between once and once per comparison |
| CrossReference.AnalyzeCrossReferences | server/app/services/historical_tools.py:1310-1355 | the fixed "No cross-references found" verdict comes exactly when there are no comparisons |
| CrossReference.ComparerKeepsNames | server/app/services/historical_tools.py:1171-1179 | each comparison names the two documents it compared, in order |
| CrossReference.NamedDocuments | server/app/services/historical_tools.py:1171-1174 | every document a comparison names is one of the grouped documents |
| CrossReference.ComparedDocument | server/app/services/historical_tools.py:1153-1181 | with two or more documents, each of them is named by some comparison |
| CrossReference.DocumentsCompared | server/app/services/historical_tools.py:1354 | with n >= 2 distinct documents, `documents_compared` is n |
| CrossReference.CrossReferenceDocuments | server/app/services/historical_tools.py:1082-1122 | no hits give the "no information" report; otherwise the topic is kept, `documents_analyzed` is the number of distinct documents, there are n(n-1)/2 comparisons, the analysis is of those comparisons, a single document gives "No cross-references found", and `documents_compared` equals `documents_analyzed`; the comparisons are exactly `Comparisons` of the grouping of the hits, so `document1` and `document2` follow the order in which the documents first appear (also lines 1150-1154) |
| CrossReference.ComparisonCounts | server/app/services/historical_tools.py:1146-1183 | one comparison per pair of documents, none exactly for one document, and with two or more every document is compared (also lines 1354) |
| Pairs.Row | server/app/services/historical_tools.py:1154 | the inner loop visits (i, i+1) ... (i, j-1) |
| Pairs.PairsBelow | server/app/services/historical_tools.py:1153-1154 | the pairs visited before the outer loop reaches i all have a first index below i and a < b < n |
| Pairs.PairCountFormula | server/app/services/historical_tools.py:1153-1154 | the number of pairs is n(n-1)/2 |
| Pairs.AllPairsCount | server/app/services/historical_tools.py:1153-1154 | the nested loop visits exactly n(n-1)/2 pairs |
| Pairs.AllPairsMembers | server/app/services/historical_tools.py:1153-1154 | every pair a < b < n is visited, and nothing else |
| Pairs.AllPairsOnce | server/app/services/historical_tools.py:1153-1154 | the pairs come in strictly increasing order, so no pair is visited twice |
| Pairs.AllPairsWithin | server/app/services/historical_tools.py:1153-1154 | every visited pair indexes the document list |
| Pairs.PairMapAppend | server/app/services/historical_tools.py:1153-1181 | comparing a concatenation of pair lists is comparing each in turn |
| Pairs.PairMapLength | server/app/services/historical_tools.py:1153-1181 | one comparison per pair |
| Pairs.PairMapAt | server/app/services/historical_tools.py:1153-1181 | the k-th comparison is of the k-th pair's two documents |
| Pairs.EveryPairCount | server/app/services/historical_tools.py:1153-1181 | comparing every pair gives n(n-1)/2 results |
| Pairs.MapEveryPair | server/app/services/historical_tools.py:1149-1183 | the nested loop applies the comparison to every pair i < j, in the order the loops visit them |
| Citations.StyleFallback | server/app/services/historical_tools.py:1430-1431 | a style name keeps its own style exactly when it is one of chicago, mla, apa and academic; any other name falls back to academic |
| Citations.StyleNameRoundTrip | server/app/services/historical_tools.py:1410-1415 | every style is reached by its own name |
| Citations.FormatShape | server/app/services/historical_tools.py:1474-1527 | every citation contains the document name and opens and closes with its style's marks: nothing, "(", "(" and "[" before; ".", ")", ")" and "]" after |
| Citations.FormatCitesPage | server/app/services/historical_tools.py:1478-1524 | a truthy page number is printed in the citation |
| Citations.FormatLabelsPage | server/app/services/historical_tools.py:1502-1524 | APA and academic citations print the page as `p. N` |
| Citations.FormatFalsyPage | server/app/services/historical_tools.py:1478-1524 | an absent, `None` or zero page is left out, so the citation is only the document name in its style's marks |
| Citations.BibliographyEntryInjective | server/app/services/historical_tools.py:1529-1545 | within one style, two bibliography entries are equal exactly when their document names are |
| Citations.BibliographyEntryNamesDocument | server/app/services/historical_tools.py:1529-1545 | every bibliography entry starts with the document name |
| Citations.Dedup | server/app/services/historical_tools.py:1459-1462 | the deduplicated list is no longer than the list it came from |
| Citations.DedupElements | server/app/services/historical_tools.py:1459-1462 | deduplication keeps exactly the entries that occur |
| Citations.DedupDistinct | server/app/services/historical_tools.py:1459-1462 | the deduplicated bibliography has no repeats |
| Citations.DedupFirstOrder | server/app/services/historical_tools.py:1459-1462 | kept entries come in the order of their first occurrences |
| Citations.DedupOfDistinct | server/app/services/historical_tools.py:1459-1462 | a list without repeats is kept unchanged |
| Citations.Quote | server/app/services/historical_tools.py:1444 | the quote is the whole content, or exactly 200 characters of it followed by "...", so never more than 203 characters |
| Citations.CountWithPages | server/app/services/historical_tools.py:1558 | the count of citations with page numbers never exceeds the number of citations |
| Citations.CiteAll | server/app/services/historical_tools.py:1439-1462 | the loop makes one citation per result, in order, and a bibliography equal to the deduplicated entries |
| Citations.GenerateCitations | server/app/services/historical_tools.py:1417-1472 | the report names the chosen style (with the academic fallback), counts and lists one citation per result, holds the deduplicated bibliography, the summary and the usage note in upper-case style |
| Citations.BibliographyCoversDocuments | server/app/services/historical_tools.py:1441-1462 | a document's entry is in the bibliography exactly when some result cites that document |
| PdfProcessor.RemoveControls | server/app/services/pdf_processor.py:163 | removing control characters never lengthens the text |
| PdfProcessor.NewlineRun | server/app/services/pdf_processor.py:166 | the run measured is exactly the maximal run of newlines at the front |
| PdfProcessor.CollapseNewlines | server/app/services/pdf_processor.py:166 | collapsing newline runs never lengthens the text and keeps a first character that is not a newline |
| PdfProcessor.BlankRun | server/app/services/pdf_processor.py:169 | the run measured is exactly the maximal run of spaces and tabs at the front |
| PdfProcessor.CollapseBlanks | server/app/services/pdf_processor.py:169 | collapsing blanks never lengthens the text; a leading blank run becomes one space |
| PdfProcessor.ControlsRemoved | server/app/services/pdf_processor.py:163 | after the first substitution no control character other than newline, tab and carriage return is left, and text without them is unchanged |
| PdfProcessor.NewlinesCollapsed | server/app/services/pdf_processor.py:166 | after the second substitution no three newlines follow each other |
| PdfProcessor.NewlinesKeepControls | server/app/services/pdf_processor.py:163-166 | the second substitution brings back no control character |
| PdfProcessor.NewlinesFixed | server/app/services/pdf_processor.py:166 | text without three newlines in a row is left unchanged |
| PdfProcessor.BlanksCollapsed | server/app/services/pdf_processor.py:169 | after the third substitution there is no tab and no two spaces in a row |
| PdfProcessor.BlanksKeepControls | server/app/services/pdf_processor.py:163-169 | the third substitution brings back no control character |
| PdfProcessor.BlanksKeepNewlineRuns | server/app/services/pdf_processor.py:166-169 | the third substitution brings back no run of three newlines |
| PdfProcessor.BlanksFixed | server/app/services/pdf_processor.py:169 | text without tabs or double spaces is left unchanged |
| PdfProcessor.StripKeeps | server/app/services/pdf_processor.py:172 | stripping keeps all three properties the substitutions established |
| PdfProcessor.CleanText | server/app/services/pdf_processor.py:149-174 | cleaning never lengthens the text |
| PdfProcessor.CleanTextIsClean | server/app/services/pdf_processor.py:149-174 | cleaned text has no control characters, no three newlines in a row, no tab, no double space and no whitespace at either end |
| PdfProcessor.CleanIsFixed | server/app/services/pdf_processor.py:149-174 | clean text is left as it is |
| PdfProcessor.CleanTextIdempotent | server/app/services/pdf_processor.py:149-174 | cleaning twice is cleaning once |
| PdfProcessor.Slice | server/app/services/pdf_processor.py:253 | Python's `text[lo:hi]` has length max(0, min(hi, len) - lo) |
| PdfProcessor.SliceAt | server/app/services/pdf_processor.py:253 | character k of the slice is character lo + k of the text |
| PdfProcessor.SliceClamp | server/app/services/pdf_processor.py:243-253 | the end of a slice is clamped to the length of the text |
| PdfProcessor.FirstText | server/app/services/pdf_processor.py:253 | the first index holding text lies in the range |
| PdfProcessor.EndText | server/app/services/pdf_processor.py:253 | the end of the text lies in the range |
| PdfProcessor.StrippedSliceIsStrip | server/app/services/pdf_processor.py:253 | moving the bounds inwards past whitespace is `text[lo:hi].strip()` |
| PdfProcessor.LastSpace | server/app/services/pdf_processor.py:248 | `rfind` returns -1 or an index in range holding a space |
| PdfProcessor.LastSpaceIsLast | server/app/services/pdf_processor.py:248 | when a space exists in the range `rfind` finds one, and no space lies after it |
| PdfProcessor.WindowEnd | server/app/services/pdf_processor.py:243-250 | a window ends within the text, at most `chunk_size` on, strictly after its start when `chunk_size >= 1`, and on a space when it was pulled back |
| PdfProcessor.NextStart | server/app/services/pdf_processor.py:277-283 | the next start always moves forward: to `end - overlap`, or one past the start |
| PdfProcessor.WindowInBounds | server/app/services/pdf_processor.py:241-283 | every window lies inside the text, at or after the first start, at most `chunk_size` long |
| PdfProcessor.WindowsAdvance | server/app/services/pdf_processor.py:273-283 | window starts strictly increase; only the last window reaches the end of the text; with `chunk_size >= 1` and `chunk_overlap >= 0`, the next window starts no later than the previous ends |
| PdfProcessor.WindowsReachEnd | server/app/services/pdf_processor.py:241-274 | the windows run to the end of the text, so the loop ends and nothing past the last window is lost |
| PdfProcessor.FindWindowEnd | server/app/services/pdf_processor.py:243-250 | the loop body's window end is `WindowEnd` |
| PdfProcessor.ChunkText | server/app/services/pdf_processor.py:207-285 | the method's chunks are `Chunked`; a page that fits is one complete chunk of the whole text |
| PdfProcessor.ChunkedPart | server/app/services/pdf_processor.py:237-283 | each chunk of a long page carries its window's bounds, the window's text stripped, non-empty and at most `chunk_size` long, the page number and the next index |
| PdfProcessor.ChunkedOrdered | server/app/services/pdf_processor.py:241-283 | a page's chunks come in increasing order of their starts |
| PdfProcessor.ChunkedCovers | server/app/services/pdf_processor.py:252-270 | every window whose text is not all whitespace gives a chunk |
| PdfProcessor.ChunkedNumbered | server/app/services/pdf_processor.py:221-270 | chunk m of a page carries the page number and index `start_chunk_index + m`, and is not empty |
| PdfProcessor.CreateChunks | server/app/services/pdf_processor.py:176-205 | the method's chunks are `DocumentChunks` |
| PdfProcessor.DocumentChunksNumbered | server/app/services/pdf_processor.py:187-203 | chunks are numbered 0, 1, 2, ... across the pages, each is non-empty and carries the number of a non-blank page |
| PdfProcessor.PageChunksOnPage | server/app/services/pdf_processor.py:195-200 | all chunks of a page carry that page's number |
| PdfProcessor.DocumentChunksInPageOrder | server/app/services/pdf_processor.py:190-203 | with the pages in reading order, each page's chunks come after those of every earlier page |
| PdfProcessor.ExtractText | server/app/services/pdf_processor.py:101-147 | the method returns `Extracted` of the reading: an error for an unreadable or encrypted file, the kept pages otherwise |
| PdfProcessor.ExtractedInOrder | server/app/services/pdf_processor.py:127-136 | kept pages come in reading order with strictly increasing numbers |
| PdfProcessor.ExtractedPage | server/app/services/pdf_processor.py:127-136 | each kept page has a number from 1 to the page count and the cleaned, non-blank text of that page |
| PdfProcessor.ExtractedClean | server/app/services/pdf_processor.py:133-136 | the text of every kept page is clean |
| PdfProcessor.ExtractedKeepsEveryPage | server/app/services/pdf_processor.py:127-140 | no page whose cleaned text is non-blank is dropped |
| PdfProcessor.ProcessPdf | server/app/services/pdf_processor.py:51-99 | the method returns `Processed` |
| PdfProcessor.ProcessedFails | server/app/services/pdf_processor.py:62-99 | processing fails exactly when reading fails or no page has text; a failure has no chunks, zero totals and the error message ("No text content found in PDF" when no page has text) |
| PdfProcessor.ProcessedChunks | server/app/services/pdf_processor.py:76-89 | on success the chunks are numbered 0, 1, 2, ..., non-empty, each from a kept page, and the totals are the number of kept pages and the sum of their lengths |
| VectorSearch.TopicInfo | server/app/services/vector_search.py:316-318 | the topic part is empty or begins with a space, so it can never be mistaken for the page part |
| VectorSearch.NameOnlyAttribution | server/app/services/vector_search.py:305-320 | without a truthy page and topic the attribution is the document name alone |
| VectorSearch.PageAttribution | server/app/services/vector_search.py:312-313 | a non-zero page and no topic give `name, p. n` |
| VectorSearch.AttributionLayout | server/app/services/vector_search.py:305-320 | the attribution starts with the document name; what follows starts with ", p. " exactly when the page is truthy; a non-empty topic string ends it as " (topic)" |
| VectorSearch.Enhanced | server/app/services/vector_search.py:166-198 | enhancing never yields more results than rows |
| VectorSearch.EnhanceSearchResults | server/app/services/vector_search.py:151-200 | the loop's results are `Enhanced` of the rows |
| VectorSearch.EnhancedSound | server/app/services/vector_search.py:166-198 | every result comes, in order, from a row at least `min_content_length` long, built from that row's fields |
| VectorSearch.EnhancedComplete | server/app/services/vector_search.py:166-169 | no row at least `min_content_length` long is skipped |
| VectorSearch.RankAndLimitResults | server/app/services/vector_search.py:326-339 | the ranked list keeps min(len, `max_results`) of the results (a negative limit drops that many from the end, as Python's slice does), is a sub-multiset of them and is in non-increasing (relevance, similarity) order |
| VectorSearch.RankAndLimitKeepsBest | server/app/services/vector_search.py:332-339 | no result the limit drops outranks one it keeps |
| VectorSearch.RankAndLimitStable | server/app/services/vector_search.py:332-336 | results with equal scores keep their relative order (Python's sort is stable, also under `reverse=True`) |
| VectorSearch.Search | server/app/services/vector_search.py:53-113 | the method returns `Searched` |
| VectorSearch.SearchFails | server/app/services/vector_search.py:75-113 | search fails exactly when the query is blank or the lookup raised, with a 500 "Vector search failed: ..." naming "Query cannot be empty" or the raised message |
| VectorSearch.SearchResults | server/app/services/vector_search.py:79-106 | a successful search returns at most as many results as rows and at most `max_results` (default 10), in ranking order, each built from a row long enough |
| VectorSearch.SortByIndex | server/app/services/vector_search.py:414-442 | sorting by chunk index is a permutation |
| VectorSearch.SortByIndexAscending | server/app/services/vector_search.py:441-442 | the sorted chunks are in ascending chunk-index order |
| VectorSearch.FilterMembers | server/app/services/vector_search.py:410-455 | a chunk survives a filter exactly when it is in the input and the bound keeps it |
| VectorSearch.FilterAscending | server/app/services/vector_search.py:410-414 | filtering keeps index order |
| VectorSearch.ContextChunksWindow | server/app/services/vector_search.py:396-421 | the context chunks are, in index order, the stored chunks of the document whose index lies in [max(0, i - w), i + w] and is not i; none when the lookup fails |
| VectorSearch.MergeContextContent | server/app/services/vector_search.py:435-458 | the method returns `MergedContext` |
| VectorSearch.CollectParts | server/app/services/vector_search.py:445-456 | the two passes produce the lower context parts, the primary part, then the higher context parts |
| VectorSearch.MergedContextLayout | server/app/services/vector_search.py:435-458 | the merge is the lower-index chunks ascending as "[Context] ...", then "[Primary] ...", then the higher-index chunks ascending, joined by blank lines; a chunk with the primary's own index is dropped |
| VectorSearch.Plains | server/app/services/vector_search.py:367 | one plain formatted entry per result, in order |
| VectorSearch.SearchWithContext | server/app/services/vector_search.py:345-394 | the method returns `SearchedWithContext` |
| VectorSearch.CollectContext | server/app/services/vector_search.py:370-387 | the loop gives each primary result its entry, in order |
| VectorSearch.SearchWithContextFails | server/app/services/vector_search.py:362-394 | search with context fails exactly when the search does, as a 500 "Context search failed: ..." wrapping the search's error; a blank query is one such failure |
| VectorSearch.SearchWithoutContext | server/app/services/vector_search.py:366-367 | with no results or a window of at most 0 the entries are the plain formatted results |
| VectorSearch.SearchWithContextEntry | server/app/services/vector_search.py:369-385 | with a positive window, entry k is result k formatted, with the chunks of its window and their merge with it |
| Storage.ValidationOrder | server/app/services/storage.py:36-57 | the declared size is checked first (413), then the content type (400), then the filename (400); a file passes exactly when none of the three fails (also lines 28-29 of `server/app/core/config.py`) |
| Storage.TooLargeQuotesLimit | server/app/services/storage.py:42 | the limit 26214400 is quoted as "25.0MB" (also lines 28 of `server/app/core/config.py`) |
| Storage.LastName | server/app/services/storage.py:64-67 | the last path component is one of the components, or empty |
| Storage.Name | server/app/services/storage.py:64-67 | a path's name holds no slash |
| Storage.RFind | server/app/services/storage.py:64-67 | `rfind` is -1 or the last index holding the character |
| Storage.StemAndSuffix | server/app/services/storage.py:64-67 | stem and suffix make up the name; the suffix is empty or a dot followed by at least one non-dot character; a non-empty suffix leaves a non-empty stem |
| Storage.Underscored | server/app/services/storage.py:67 | replacing spaces by underscores changes those characters and no others |
| Storage.SafeStemClean | server/app/services/storage.py:67 | the safe stem has no spaces and at most 50 characters |
| Storage.NoSlashInStem | server/app/services/storage.py:64-68 | neither the safe stem nor the suffix holds a slash |
| Storage.StoragePathSegments | server/app/services/storage.py:59-70 | a storage path is "documents" and one further segment, the storage file name, which ends with the original suffix |
| Storage.UploadRejects | server/app/services/storage.py:85-154 | an upload fails with the validation error, else with 413 when the bytes read exceed the limit whatever size was declared, else with 500 "File upload failed: ..." when the storage call fails; it succeeds exactly when none of these happens |
| Storage.UploadMetadata | server/app/services/storage.py:131-142 | a stored upload keeps the original name, is an allowed type of at most `MAX_FILE_SIZE` bytes read, has status "ready", and its `filename` is the last segment of its storage path |
| Storage.ListEntriesShape | server/app/services/storage.py:296-305 | the listing has one entry per dict item, each with storage path `prefix/name` when there is a prefix and the bare name otherwise |
| Storage.ListEntriesFail | server/app/services/storage.py:296-314 | the entry listing, and `list_files` on a listing the bucket returned, fail exactly when some dict item has a `metadata` that is not a dict |
| Storage.SplitStoragePathRejoins | server/app/services/storage.py:328-334 | the file name is what follows the last slash and the directory what precedes it, so they rejoin to the path; a path without a slash is all file name with an empty directory |
| Storage.FindNamedFirst | server/app/services/storage.py:340-344 | the entry found is the first listed with that name; none is found only when no entry has it |
| Storage.FileInfoFound | server/app/services/storage.py:316-344 | the info found is an entry of its directory's listing, named as the path's last segment, with the directory-prefixed storage path |

## Left out

- The language model, embeddings, the Supabase tables, RPC and storage, and pypdf are foreign services. Their answers are oracle parameters. `documents.py`, `chunks.py`, `embeddings.py` and `document_processor.py` are not part of this model.
- Clock readings, `uuid4()` and durations are not modelled. Where a value depends on them (session ids, storage names, `uploaded_at`, expiry) it is a parameter. Timestamps and durations in steps, tool calls, responses and recent-session entries are left out.
- `asyncio` sleeps and the async generators are left out. The retry keeps only its delay values (1 s, then 2 s), and streaming becomes an ordered list of events. `asyncio.gather` in `analyze_comprehensive` is not modelled, nor is `analyze_comprehensive` itself.
- The monitor's running averages, its average response time, `total_size_mb`, and the float relevance and similarity scores (`_calculate_relevance_score`, `_calculate_historical_relevance`, `_calculate_document_similarity`) are floating point. Scores enter the model as integers whose order matters, or as functions.
- Health rates use integer cross-multiplication. Timeline confidence is kept in tenths.
- The regular-expression extractors `_extract_pattern_entities`, `_extract_events_from_chunk` and `_extract_quick_entities` are not modelled, nor is the query rewriting of the search tool. Their matches enter only as inputs to the post-processing that is modelled.
- The generated prose summaries are not modelled: `_generate_timeline_summary`, `_generate_entity_summary`, `_generate_cross_reference_summary` and `_generate_comprehensive_summary`. The citation summary is modelled.
- `str()` and `repr()` of lists and dicts are an opaque parameter `repr`. The generic tool formatter's `str(result)[:300]` uses it.
- ParseToolCalls: `\w` in the call and parameter patterns is read as ASCII letters, digits and `_`, where Python's `str` patterns also match Unicode letters and digits; a tool name or bare value such as `Équateur` is therefore not matched as the source would match it.
- ParseToolCalls: a bare value that `isdigit()` accepts but `int()` refuses (a superscript digit such as `²`) makes the source raise at react_agent.py:641, and the handler at lines 651-652 then returns only the calls parsed before it. With ASCII `isdigit()` such a value stays a string in the model and every call is kept.
- FindYear: `\b` and `\d` of `\b(\d{1,4})\b` are read as ASCII, where Python's `str` patterns use Unicode word characters and digits. So `"é264"` yields 264 in the model and no year in the source, and `"٣٠٠ BC"` yields no year in the model and 300 in the source.
- YearOf: inherits the ASCII reading of FindYear, so it reads a year from the same ASCII digit words only.
- Period: the period thresholds are exact, but the year comes from the ASCII FindYear, so a date written in non-ASCII digits gets "Unknown Period".
- HasEraDateMeans: characterises `\b\d{1,4}\s*(BC|AD|BCE|CE)\b` with `\b` and `\d` read as ASCII (`\s` is Unicode whitespace), not Python's Unicode reading.
- DateConfidence: the 0.1 era boost rests on that ASCII era match, so a non-ASCII-digit era date gets no boost in the model.
- `str.isspace` is modelled on Python's full set of whitespace characters. `lower()` is modelled on ASCII letters only, and `isdigit()` on the ASCII digits only; Unicode case mapping and other Unicode digits are not captured.
- Dicts are association lists in insertion order. Sets that the source lists (the co-occurrence relation, common entities) are compared as sets.
- Three outer `except` handlers cannot be reached in the model and are left out. The first is the one of `process_query` (react_agent.py:203-207): step generation and the final answer catch their own exceptions, and so do tool calls. The second is the one of `parse_reasoning_response` (react_agent.py:530-537, the "Failed to parse response" error step), because the modelled regex searches and strips do not raise. The third is the one of `_execute_tool_calls` (react_agent.py:606-609, "Tool execution failed"), because `_parse_tool_calls` catches its own exceptions and so does each tool call.
- The step-error and session-error events of the streaming variant can never be produced, because a failing model call is streamed as an `[Error: …]` text chunk. They are left out.
- Pydantic's validation messages are abridged to a fixed text per schema, and Pydantic's lax coercions are not modelled. The JSON `.schema()` of the input and output models is left out, as are `get_available_tools` and the tool list of `get_monitoring_stats`.
- `validate_pdf`, `get_pdf_info`, `get_search_statistics`, `_get_document_metadata`, `download_file`, `get_signed_url` and `delete_file` are left out: they only forward to pypdf or Supabase.
- The `limit` of `list_files` is passed only to the bucket. The listing it returns is a parameter.
- The database's order for `.order("chunk_index")` is modelled as a stable sort by chunk index.
- A row that lacks a key the source indexes with `[...]` raises a `KeyError`; such rows are outside the model.
- The `"Unknown Source"` fallback of `_create_source_attribution` (vector_search.py:322-324) is left out. Both `[...]` lookups there are guarded by a truthy `.get`, so the fallback is reached only when a chunk's metadata is not a dict (a null metadata column, say). The model types chunk metadata as a dict, which excludes that case.
- `_analyze_cross_references`: the entity counts are modelled, but not their top-five `most_common_entities` list (a sort by count) or the rounded `average_similarity` (a float).
- The REST endpoints, `main.py`, `routes.py`, `run.py` and the SSE/JSON rendering are transport code and are left out.
- `config.py` is pydantic settings; only `MAX_FILE_SIZE` and `ALLOWED_FILE_TYPES` are used.
