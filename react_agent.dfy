/**
 * The ReAct loop of `ReActAgent`: think, act, observe, repeat.
 *
 * The model is an oracle: `model(i, prompt)` is what the `i`-th call of
 * `generate_content` gives back, and every call, retries included, takes the
 * next index, so the counter is threaded through every operation. The
 * streaming variant takes a second oracle for `generate_content(stream=True)`
 * and shares the counter. The tools are the registered wrappers over an
 * oracle for the underlying analysis tools. Clock readings (timestamps,
 * durations) are left out; the default session id takes the time stamp as a
 * parameter.
 */
module ReactAgent {
  import opened Wrappers
  import opened Text
  import opened PyValues
  import opened ToolFunctions
  import opened ReactParser
  import opened ReactTools

  // ----- the model and the retry -----

  /** A response of `generate_content`: one whose `.text` reads, or one whose `.text` raises. */
  datatype Reply = Reply(text: string) | Unreadable(message: string)

  /** `generate_content`: the answer to the `i`-th call with a prompt, `Raised` when the call raises. */
  type Model = (nat, string) -> Outcome<Reply>

  const MaxRetries: nat := 3

  /** How `_generate_with_retry` ended: the last outcome, the calls it made and the sleeps between them, in seconds. */
  datatype Retried = Retried(outcome: Outcome<Reply>, attempts: nat, delays: seq<nat>)

  /** The sleeps after the first `n` failed attempts: `1 * (attempt + 1)` seconds each. */
  function Backoff(n: nat): (r: seq<nat>)
    ensures |r| == n
    ensures forall k :: 0 <= k < n ==> r[k] == k + 1
  {
    seq(n, k requires 0 <= k < n => k + 1)
  }

  /** The retry loop from attempt `attempt` on. */
  function RetryFrom(model: Model, calls: nat, prompt: string, attempt: nat): (r: Retried)
    requires attempt < MaxRetries
    ensures attempt < r.attempts <= MaxRetries
    decreases MaxRetries - attempt
  {
    var o := model(calls + attempt, prompt);
    if o.Returned? || attempt == MaxRetries - 1 then Retried(o, attempt + 1, Backoff(attempt))
    else RetryFrom(model, calls, prompt, attempt + 1)
  }

  function Retry(model: Model, calls: nat, prompt: string): (r: Retried)
    ensures 1 <= r.attempts <= MaxRetries
  {
    RetryFrom(model, calls, prompt, 0)
  }

  /** Every call with an index in `[lo, hi)` raised. */
  ghost predicate RaisedBetween(model: Model, prompt: string, lo: nat, hi: nat) {
    forall j: nat :: lo <= j < hi ==> model(j, prompt).Raised?
  }

  lemma {:induction false} RetryFromTerms(model: Model, calls: nat, prompt: string, attempt: nat)
    requires attempt < MaxRetries
    requires RaisedBetween(model, prompt, calls, calls + attempt)
    ensures var r := RetryFrom(model, calls, prompt, attempt);
            && r.outcome == model(calls + r.attempts - 1, prompt)
            && r.delays == Backoff(r.attempts - 1)
            && RaisedBetween(model, prompt, calls, calls + r.attempts - 1)
            && (r.outcome.Raised? ==> r.attempts == MaxRetries)
    decreases MaxRetries - attempt
  {
    var o := model(calls + attempt, prompt);
    if !(o.Returned? || attempt == MaxRetries - 1) {
      RetryFromTerms(model, calls, prompt, attempt + 1);
    }
  }

  /**
   * At most three calls: every call before the last one raised, the last
   * one's outcome is returned (a final failure is re-raised), and the sleeps
   * between them are 1 and then 2 seconds.
   */
  lemma RetryTerms(model: Model, calls: nat, prompt: string)
    ensures var r := Retry(model, calls, prompt);
            && 1 <= r.attempts <= MaxRetries
            && r.outcome == model(calls + r.attempts - 1, prompt)
            && RaisedBetween(model, prompt, calls, calls + r.attempts - 1)
            && (r.outcome.Raised? ==> r.attempts == MaxRetries)
            && r.delays == [1, 2][..r.attempts - 1]
  {
    RetryFromTerms(model, calls, prompt, 0);
    var r := Retry(model, calls, prompt);
    var b := Backoff(r.attempts - 1);
    if r.attempts == 1 {
      assert b == [];
    } else if r.attempts == 2 {
      assert b == [1];
    } else {
      assert b == [1, 2];
    }
  }

  /** The retry returns a response exactly when one of the three calls does. */
  lemma RetrySucceedsIff(model: Model, calls: nat, prompt: string)
    ensures Retry(model, calls, prompt).outcome.Returned? <==> !RaisedBetween(model, prompt, calls, calls + MaxRetries)
  {
    RetryTerms(model, calls, prompt);
    var r := Retry(model, calls, prompt);
    if r.outcome.Returned? {
      assert model(calls + r.attempts - 1, prompt).Returned?;
    }
  }

  /** `_generate_with_retry`. */
  method GenerateWithRetry(model: Model, calls: nat, prompt: string)
    returns (outcome: Outcome<Reply>, attempts: nat, delays: seq<nat>)
    ensures Retried(outcome, attempts, delays) == Retry(model, calls, prompt)
  {
    delays := [];
    var attempt: nat := 0;
    while true
      invariant attempt < MaxRetries
      invariant delays == Backoff(attempt)
      invariant RetryFrom(model, calls, prompt, attempt) == Retry(model, calls, prompt)
      decreases MaxRetries - attempt
    {
      outcome := model(calls + attempt, prompt);
      if outcome.Returned? || attempt == MaxRetries - 1 {
        return outcome, attempt + 1, delays;
      }
      delays := delays + [attempt + 1];
      attempt := attempt + 1;
    }
  }

  // ----- one reasoning step -----

  /** The prompt for step `n`: the history so far, then the step's heading. */
  function StepPrompt(history: seq<string>, n: nat): string {
    Join("\n", history) + "\n\nStep " + NatToString(n) + ":\nThought:"
  }

  const EmptyResponse := "Empty response from Gemini"

  /** The step that reports a failure to produce step `n`. */
  function ErrorStep(n: nat, message: string): (step: ReasoningStep)
    ensures step.stepNumber == n && step.state == Error && Present(step.observation)
  {
    ReasoningStep(n, Error, "Error generating reasoning step: " + message, None,
                  Some("Failed to process step " + NatToString(n) + ": " + message), [])
  }

  /** The text of a response, or the message of what raised on the way to it. */
  function ReplyText(outcome: Outcome<Reply>): Result<string, string> {
    match outcome
    case Raised(message) => Err(message)
    case Returned(Unreadable(message)) => Err(message)
    case Returned(Reply(text)) => Ok(text)
  }

  predicate RunsTools(step: ReasoningStep) {
    Present(step.action) && !StartsWith(step.action.value, FinalAnswer)
  }

  /** A parsed step once its action has run, unless the action is a final answer. */
  function Acted(step: ReasoningStep, invoke: (Tool, Dict) -> Outcome<Dict>, repr: PyValue -> string): (r: ReasoningStep)
    ensures r.stepNumber == step.stepNumber
    ensures step.state != Error ==> r.state != Error
  {
    if RunsTools(step) then ExecutedStep(step, invoke, repr) else step
  }

  /** A step and the model-call counter after it. */
  datatype Turn = Turn(step: ReasoningStep, calls: nat)

  /** `_generate_reasoning_step`. */
  function ReasoningStepFor(history: seq<string>, n: nat, model: Model, calls: nat,
                            invoke: (Tool, Dict) -> Outcome<Dict>, repr: PyValue -> string): (r: Turn)
    ensures r.step.stepNumber == n
    ensures r.step.state == Error ==> Present(r.step.observation)
    ensures calls < r.calls <= calls + MaxRetries
  {
    var retried := Retry(model, calls, StepPrompt(history, n));
    var used := calls + retried.attempts;
    match ReplyText(retried.outcome)
    case Err(message) => Turn(ErrorStep(n, message), used)
    case Ok(text) =>
      if text == "" then Turn(ErrorStep(n, EmptyResponse), used)
      else Turn(Acted(ParseReasoningResponse(text, n), invoke, repr), used)
  }

  method GenerateReasoningStep(history: seq<string>, n: nat, model: Model, calls: nat,
                               invoke: (Tool, Dict) -> Outcome<Dict>, repr: PyValue -> string)
    returns (step: ReasoningStep, used: nat)
    ensures Turn(step, used) == ReasoningStepFor(history, n, model, calls, invoke, repr)
  {
    var outcome, attempts, _ := GenerateWithRetry(model, calls, StepPrompt(history, n));
    used := calls + attempts;
    match ReplyText(outcome)
    case Err(message) =>
      step := ErrorStep(n, message);
    case Ok(text) =>
      if text == "" {
        step := ErrorStep(n, EmptyResponse);
      } else {
        step := ParseReasoningResponse(text, n);
        if RunsTools(step) {
          step := ExecuteToolCalls(step, invoke, repr);
        }
      }
  }

  /** The model's reply is parsed into the step, and its calls run only when it is not a final answer. */
  lemma ReplyParsed(history: seq<string>, n: nat, model: Model, calls: nat,
                    invoke: (Tool, Dict) -> Outcome<Dict>, repr: PyValue -> string, text: string)
    requires ReplyText(Retry(model, calls, StepPrompt(history, n)).outcome) == Ok(text) && text != ""
    ensures var step := ReasoningStepFor(history, n, model, calls, invoke, repr).step;
            var parsed := ParseReasoningResponse(text, n);
            && (RunsTools(parsed) ==> step == ExecutedStep(parsed, invoke, repr))
            && (!RunsTools(parsed) ==> step == parsed)
            && step.state != Error
  {
  }

  /** A model that fails three times, an unreadable response or an empty one gives the error step. */
  lemma NoReplyIsError(history: seq<string>, n: nat, model: Model, calls: nat,
                       invoke: (Tool, Dict) -> Outcome<Dict>, repr: PyValue -> string)
    requires var reply := ReplyText(Retry(model, calls, StepPrompt(history, n)).outcome);
             reply.Err? || reply == Ok("")
    ensures ReasoningStepFor(history, n, model, calls, invoke, repr).step.state == Error
  {
  }

  // ----- the final answer -----

  const FinalRequest := "\n\nBased on your reasoning and tool usage above, provide a comprehensive final answer to the user's query."

  /** `_generate_final_answer`, numbered after the steps so far. */
  const FinalAnswerFailure := "Error generating final answer: "

  /** The final step from the model's reply: its stripped text, or the failure. */
  function FinalStep(reply: Result<string, string>, n: nat): (step: ReasoningStep)
    ensures step.stepNumber == n && step.observation.Some?
    ensures reply.Ok? <==> step.state == Completed
    ensures reply.Err? <==> step.state == Error
    ensures step.state == Completed ==> step.action == Some(FinalAnswer)
    ensures reply.Ok? && reply.value != "" ==> step.observation == Some(Strip(reply.value))
    ensures reply.Err? ==> StartsWith(step.observation.value, FinalAnswerFailure)
  {
    match reply
    case Err(message) =>
      var observation := FinalAnswerFailure + message;
      assert observation[..|FinalAnswerFailure|] == FinalAnswerFailure;
      ReasoningStep(n, Error, "Failed to generate final answer.", None, Some(observation), [])
    case Ok(text) =>
      ReasoningStep(n, Completed, "Generating final answer based on previous reasoning and tool results.",
                    Some(FinalAnswer), Some(if text != "" then Strip(text) else "Unable to generate final answer."), [])
  }

  /** `_generate_final_answer`: the history and the request for an answer, through the retry. */
  function FinalStepFor(history: seq<string>, n: nat, model: Model, calls: nat): (r: Turn)
    ensures r.step.stepNumber == n && r.step.observation.Some?
    ensures r.step.state == Completed || r.step.state == Error
    ensures calls < r.calls <= calls + MaxRetries
  {
    var retried := Retry(model, calls, Join("\n", history) + FinalRequest);
    Turn(FinalStep(ReplyText(retried.outcome), n), calls + retried.attempts)
  }

  method GenerateFinalAnswer(history: seq<string>, n: nat, model: Model, calls: nat)
    returns (step: ReasoningStep, used: nat)
    ensures Turn(step, used) == FinalStepFor(history, n, model, calls)
  {
    var outcome, attempts, _ := GenerateWithRetry(model, calls, Join("\n", history) + FinalRequest);
    used := calls + attempts;
    step := FinalStep(ReplyText(outcome), n);
  }

  // ----- the system prompt -----

  const PromptHead := "You are a ReAct (Reasoning and Acting) agent specialized in historical document analysis. \n"
    + "You can reason about problems and use tools to solve them.\n\nAvailable Tools:\n"

  const PromptTail := "\n\nReAct Pattern:\n"
    + "1. Thought: Analyze the problem and decide what to do next\n"
    + "2. Action: Either use a tool or provide a final answer\n"
    + "3. Observation: Process the results and update your understanding\n"
    + "4. Repeat until you have a complete answer\n\n"
    + "Tool Usage Format:\nAction: tool_name(parameter1=\"value1\", parameter2=\"value2\")\n\n"
    + "Final Answer Format:\nAction: Final Answer\nObservation: [Your complete answer here]\n\n"
    + "Guidelines:\n"
    + "- Always think step by step\n"
    + "- Use tools when you need specific information\n"
    + "- Provide detailed observations about tool results\n"
    + "- Give comprehensive final answers with proper citations\n"
    + "- If a tool fails, try alternative approaches\n"
    + "- Focus on historical accuracy and scholarly analysis\n\n"
    + "Begin your reasoning with \"Thought:\" and continue with the ReAct pattern."

  /** A tool's description in the prompt. */
  function ToolLine(name: string, info: ToolInfo): string {
    "- " + name + ": " + info.description + "\n  Parameters: " + Join(", ", info.parameters)
  }

  /** The lines describing a registry's tools, in its order. */
  function ToolLines(registry: seq<(string, ToolInfo)>): (r: seq<string>)
    ensures |r| == |registry|
    ensures forall k :: 0 <= k < |registry| ==> r[k] == ToolLine(registry[k].0, registry[k].1)
  {
    seq(|registry|, k requires 0 <= k < |registry| => ToolLine(registry[k].0, registry[k].1))
  }

  function SystemPrompt(): string {
    PromptHead + Join("\n", ToolLines(Registry())) + PromptTail
  }

  /** `_build_system_prompt`. */
  method BuildSystemPrompt() returns (prompt: string)
    ensures prompt == SystemPrompt()
  {
    var descriptions := DescribeTools(Registry());
    prompt := PromptHead + Join("\n", descriptions) + PromptTail;
  }

  /** The loop of `_build_system_prompt` over the registry. */
  method DescribeTools(registry: seq<(string, ToolInfo)>) returns (descriptions: seq<string>)
    ensures descriptions == ToolLines(registry)
  {
    descriptions := [];
    for i := 0 to |registry|
      invariant |descriptions| == i
      invariant forall k :: 0 <= k < i ==> descriptions[k] == ToolLine(registry[k].0, registry[k].1)
    {
      var (name, info) := registry[i];
      descriptions := descriptions + [ToolLine(name, info)];
    }
  }

  lemma {:induction false} JoinHasPart(sep: string, parts: seq<string>, k: nat)
    requires k < |parts|
    ensures Contains(Join(sep, parts), parts[k])
    decreases |parts|
  {
    if |parts| == 1 {
      ContainsItself(parts[0]);
    } else if k == 0 {
      ContainsMiddle([], parts[0], sep + Join(sep, parts[1..]));
      assert [] + parts[0] + (sep + Join(sep, parts[1..])) == Join(sep, parts);
    } else {
      JoinHasPart(sep, parts[1..], k - 1);
      ContainsWithin(parts[0] + sep, Join(sep, parts[1..]), [], parts[k]);
      assert parts[0] + sep + Join(sep, parts[1..]) + [] == Join(sep, parts);
    }
  }

  /** The position of a tool in the registry. */
  function ToolIndex(t: Tool): (k: nat)
    ensures k < |Tools| && Tools[k] == t
  {
    match t
    case SearchDocuments => 0
    case BuildTimeline => 1
    case ExtractEntities => 2
    case CrossReferenceDocuments => 3
    case GenerateCitations => 4
  }

  /** Each tool line of a registry occurs in a prompt built around the joined lines. */
  lemma DescribedIn(head: string, registry: seq<(string, ToolInfo)>, tail: string, k: nat)
    requires k < |registry|
    ensures Contains(head + Join("\n", ToolLines(registry)) + tail, ToolLine(registry[k].0, registry[k].1))
  {
    var lines := ToolLines(registry);
    JoinHasPart("\n", lines, k);
    ContainsWithin(head, Join("\n", lines), tail, lines[k]);
  }

  /** Every registered tool is described in the prompt, with its parameters. */
  lemma EveryToolDescribed(t: Tool)
    ensures Contains(SystemPrompt(), ToolLine(Name(t), Info(t)))
  {
    var k := ToolIndex(t);
    var registry := Registry();
    assert registry[k] == (Name(t), Info(t));
    DescribedIn(PromptHead, registry, PromptTail, k);
  }

  // ----- the loop -----

  /** The history after a step: its heading, its thought, and its action and observation when they are not empty. */
  function Recall(history: seq<string>, step: ReasoningStep): (r: seq<string>)
    ensures |history| + 2 <= |r| <= |history| + 4 && r[..|history|] == history
  {
    history + ["Step " + NatToString(step.stepNumber) + ":", "Thought: " + step.thought]
      + (if Present(step.action) then ["Action: " + step.action.value] else [])
      + (if Present(step.observation) then ["Observation: " + step.observation.value] else [])
  }

  /** The variables of `process_query` as the loop goes; `stopped` is the `break`. */
  datatype Progress = Progress(history: seq<string>, steps: seq<ReasoningStep>, calls: nat,
                               finalAnswer: Option<string>, success: bool, error: Option<string>, stopped: bool)

  /** The variables before the loop, with the history the system prompt and the query start. */
  function Start(prompt: string, query: string, calls: nat): (p: Progress)
    ensures p.steps == [] && !p.stopped && !p.success && p.finalAnswer.None? && p.error.None?
  {
    Progress([prompt, "User Query: " + query], [], calls, None, false, None, false)
  }

  /** The body of the loop once the step is generated. */
  function Advance(p: Progress, step: ReasoningStep, calls: nat): Progress {
    var q := p.(history := Recall(p.history, step), steps := p.steps + [step], calls := calls);
    if step.state == Completed then q.(finalAnswer := step.observation, success := true, stopped := true)
    else if step.state == Error then q.(error := step.observation, stopped := true)
    else q
  }

  /** A generator of reasoning steps: the step for a history and a step number, given the model-call counter. */
  type Stepper = (seq<string>, nat, nat) -> Turn

  /** `_generate_reasoning_step` with the agent's model and tools. */
  function Reasoner(model: Model, invoke: (Tool, Dict) -> Outcome<Dict>, repr: PyValue -> string): Stepper {
    (history: seq<string>, n: nat, calls: nat) => ReasoningStepFor(history, n, model, calls, invoke, repr)
  }

  /** Steps come numbered as asked, and an ERROR step always says why. */
  ghost predicate Numbered(next: Stepper) {
    forall history, n, calls ::
      next(history, n, calls).step.stepNumber == n &&
      (next(history, n, calls).step.state == Error ==> Present(next(history, n, calls).step.observation))
  }

  lemma ReasonerNumbered(model: Model, invoke: (Tool, Dict) -> Outcome<Dict>, repr: PyValue -> string)
    ensures Numbered(Reasoner(model, invoke, repr))
  {
    var next := Reasoner(model, invoke, repr);
    forall history, n, calls
      ensures next(history, n, calls).step.stepNumber == n
      ensures next(history, n, calls).step.state == Error ==> Present(next(history, n, calls).step.observation)
    {
      assert next(history, n, calls) == ReasoningStepFor(history, n, model, calls, invoke, repr);
    }
  }

  /** `_generate_final_answer` with the agent's model. */
  function Finisher(model: Model): Stepper {
    (history: seq<string>, n: nat, calls: nat) => FinalStepFor(history, n, model, calls)
  }

  /** Final steps come numbered as asked, and are COMPLETED or ERROR. */
  ghost predicate Answers(finish: Stepper) {
    forall history, n, calls ::
      finish(history, n, calls).step.stepNumber == n && Terminal(finish(history, n, calls).step)
  }

  lemma FinisherAnswers(model: Model)
    ensures Answers(Finisher(model))
  {
    var finish := Finisher(model);
    forall history, n, calls
      ensures finish(history, n, calls).step.stepNumber == n && Terminal(finish(history, n, calls).step)
    {
      assert finish(history, n, calls) == FinalStepFor(history, n, model, calls);
    }
  }

  /** The variables after `k` rounds of the loop. */
  function Iterate(k: nat, start: Progress, next: Stepper): Progress {
    if k == 0 then start
    else
      var p := Iterate(k - 1, start, next);
      if p.stopped then p
      else
        var turn := next(p.history, k, p.calls);
        Advance(p, turn.step, turn.calls)
  }

  /** After the loop: a final answer is generated when there is neither one nor an error. */
  function Conclude(p: Progress, finish: Stepper): Progress {
    if !Present(p.finalAnswer) && !Present(p.error) then
      var turn := finish(p.history, |p.steps| + 1, p.calls);
      p.(steps := p.steps + [turn.step], calls := turn.calls, finalAnswer := turn.step.observation, success := true)
    else p
  }

  datatype AgentSession = AgentSession(sessionId: string, query: string, reasoningSteps: seq<ReasoningStep>,
                                       finalAnswer: Option<string>, totalToolCalls: nat, success: bool, error: Option<string>)

  /** The given session id, or one made from the time stamp. */
  function SessionId(given: Option<string>, stamp: string): (r: string)
    ensures Present(given) ==> r == given.value
    ensures !Present(given) ==> StartsWith(r, "session_")
  {
    if Present(given) then given.value else "session_" + stamp
  }

  /** Every tool call of the steps, in order. */
  function AllToolCalls(steps: seq<ReasoningStep>): seq<ToolCall> {
    if steps == [] then [] else AllToolCalls(steps[..|steps| - 1]) + steps[|steps| - 1].toolCalls
  }

  /** `sum(len(step.tool_calls) for step in steps)`. */
  function ToolCallCount(steps: seq<ReasoningStep>): nat {
    if steps == [] then 0 else ToolCallCount(steps[..|steps| - 1]) + |steps[|steps| - 1].toolCalls|
  }

  lemma {:induction false} ToolCallCountIsAll(steps: seq<ReasoningStep>)
    ensures ToolCallCount(steps) == |AllToolCalls(steps)|
  {
    if steps != [] {
      ToolCallCountIsAll(steps[..|steps| - 1]);
    }
  }

  function SessionOf(id: string, query: string, p: Progress): AgentSession {
    AgentSession(id, query, p.steps, p.finalAnswer, ToolCallCount(p.steps), p.success, p.error)
  }

  /** A session and the model-call counter after it. */
  datatype Processed = Processed(session: AgentSession, calls: nat)

  /** The registered wrappers over the underlying tools: what `tool_function(**arguments)` calls. */
  function WrapperCalls(underlying: (Tool, Dict) -> Outcome<Dict>): (Tool, Dict) -> Outcome<Dict> {
    (t: Tool, kwargs: Dict) => Invoke(t, kwargs, underlying)
  }

  /** The loop of `process_query` and the final answer after it. */
  function Session(prompt: string, query: string, maxIterations: nat, calls: nat, next: Stepper, finish: Stepper): Progress {
    Conclude(Iterate(maxIterations, Start(prompt, query, calls), next), finish)
  }

  /** A `process_query` run with a given system prompt and step generator. */
  function ProcessWith(prompt: string, query: string, given: Option<string>, stamp: string, maxIterations: nat,
                       calls: nat, next: Stepper, finish: Stepper): Processed {
    var p := Session(prompt, query, maxIterations, calls, next, finish);
    Processed(SessionOf(SessionId(given, stamp), query, p), p.calls)
  }

  /** `process_query`. */
  function Process(query: string, given: Option<string>, stamp: string, maxIterations: nat, model: Model, calls: nat,
                   underlying: (Tool, Dict) -> Outcome<Dict>, repr: PyValue -> string): Processed {
    ProcessWith(SystemPrompt(), query, given, stamp, maxIterations, calls, Reasoner(model, WrapperCalls(underlying), repr), Finisher(model))
  }

  lemma {:induction false} IterateStopped(k: nat, m: nat, start: Progress, next: Stepper)
    requires k <= m && Iterate(k, start, next).stopped
    ensures Iterate(m, start, next) == Iterate(k, start, next)
    decreases m - k
  {
    if k < m {
      IterateStopped(k, m - 1, start, next);
    }
  }

  /** The history of every round opens with the system prompt and the query: the loop only appends to it. */
  lemma {:induction false} HistoryOpens(k: nat, prompt: string, query: string, calls: nat, next: Stepper)
    ensures |Iterate(k, Start(prompt, query, calls), next).history| >= 2
    ensures Iterate(k, Start(prompt, query, calls), next).history[..2] == [prompt, "User Query: " + query]
  {
    if k > 0 {
      HistoryOpens(k - 1, prompt, query, calls, next);
      var p := Iterate(k - 1, Start(prompt, query, calls), next);
      if !p.stopped {
        var h := Recall(p.history, next(p.history, k, p.calls).step);
        assert h[..2] == h[..|p.history|][..2];
      }
    }
  }

  method ProcessQuery(query: string, given: Option<string>, stamp: string, maxIterations: nat, model: Model, calls0: nat,
                      underlying: (Tool, Dict) -> Outcome<Dict>, repr: PyValue -> string)
    returns (session: AgentSession, calls: nat)
    ensures Processed(session, calls) == Process(query, given, stamp, maxIterations, model, calls0, underlying, repr)
  {
    var id := if Present(given) then given.value else "session_" + stamp;
    var systemPrompt := BuildSystemPrompt();
    session, calls := RunSession(id, systemPrompt, query, maxIterations, model, calls0, WrapperCalls(underlying), repr);
  }

  /** `process_query` once the session id and the system prompt are known. */
  method RunSession(id: string, systemPrompt: string, query: string, maxIterations: nat, model: Model, calls0: nat,
                    invoke: (Tool, Dict) -> Outcome<Dict>, repr: PyValue -> string)
    returns (session: AgentSession, calls: nat)
    ensures session == SessionOf(id, query, Session(systemPrompt, query, maxIterations, calls0, Reasoner(model, invoke, repr), Finisher(model)))
    ensures calls == Session(systemPrompt, query, maxIterations, calls0, Reasoner(model, invoke, repr), Finisher(model)).calls
  {
    var p := RunLoop(systemPrompt, query, maxIterations, model, calls0, invoke, repr);
    p := Finish(p, model);
    session := AgentSession(id, query, p.steps, p.finalAnswer, ToolCallCount(p.steps), p.success, p.error);
    calls := p.calls;
  }

  /** The loop of `process_query`. */
  method RunLoop(prompt: string, query: string, maxIterations: nat, model: Model, calls0: nat,
                 invoke: (Tool, Dict) -> Outcome<Dict>, repr: PyValue -> string)
    returns (p: Progress)
    ensures p == Iterate(maxIterations, Start(prompt, query, calls0), Reasoner(model, invoke, repr))
  {
    var history := [prompt, "User Query: " + query];
    var steps: seq<ReasoningStep> := [];
    var finalAnswer: Option<string> := None;
    var success := false;
    var error: Option<string> := None;
    var calls := calls0;
    ghost var next := Reasoner(model, invoke, repr);
    ghost var start := Start(prompt, query, calls0);
    var stopped := false;
    for iteration := 0 to maxIterations
      invariant Progress(history, steps, calls, finalAnswer, success, error, false) == Iterate(iteration, start, next)
    {
      ghost var before := Progress(history, steps, calls, finalAnswer, success, error, false);
      var step, used := GenerateReasoningStep(history, iteration + 1, model, calls, invoke, repr);
      assert Turn(step, used) == next(history, iteration + 1, calls);
      history := Remember(history, step);
      steps := steps + [step];
      calls := used;
      if step.state == Completed {
        finalAnswer := step.observation;
        success := true;
        stopped := true;
        IterateStopped(iteration + 1, maxIterations, start, next);
        break;
      }
      if step.state == Error {
        error := step.observation;
        stopped := true;
        IterateStopped(iteration + 1, maxIterations, start, next);
        break;
      }
    }
    p := Progress(history, steps, calls, finalAnswer, success, error, stopped);
  }

  /** The history lines `process_query` appends for a step. */
  method Remember(history: seq<string>, step: ReasoningStep) returns (updated: seq<string>)
    ensures updated == Recall(history, step)
  {
    updated := history + ["Step " + NatToString(step.stepNumber) + ":", "Thought: " + step.thought];
    if Present(step.action) {
      updated := updated + ["Action: " + step.action.value];
    }
    if Present(step.observation) {
      updated := updated + ["Observation: " + step.observation.value];
    }
  }

  /** The final answer after the loop, when it is needed. */
  method Finish(p: Progress, model: Model) returns (q: Progress)
    ensures q == Conclude(p, Finisher(model))
  {
    q := p;
    if !Present(p.finalAnswer) && !Present(p.error) {
      var finalStep, used := GenerateFinalAnswer(p.history, |p.steps| + 1, model, p.calls);
      assert Turn(finalStep, used) == Finisher(model)(p.history, |p.steps| + 1, p.calls);
      q := p.(steps := p.steps + [finalStep], calls := used, finalAnswer := finalStep.observation, success := true);
    }
  }

  // ----- properties of the loop -----

  function Last<T>(s: seq<T>): T
    requires |s| > 0
  {
    s[|s| - 1]
  }

  predicate Terminal(step: ReasoningStep) {
    step.state == Completed || step.state == Error
  }

  /** What holds of the variables after `k` rounds. */
  predicate Looped(p: Progress, k: nat) {
    && |p.steps| <= k
    && (!p.stopped ==> |p.steps| == k)
    && (forall j :: 0 <= j < |p.steps| ==> p.steps[j].stepNumber == j + 1)
    && (forall j :: 0 <= j < |p.steps| - 1 ==> !Terminal(p.steps[j]))
    && (p.stopped <==> |p.steps| > 0 && Terminal(Last(p.steps)))
    && (p.success <==> p.stopped && Last(p.steps).state == Completed)
    && p.finalAnswer == (if p.success then Last(p.steps).observation else None)
    && p.error == (if p.stopped && Last(p.steps).state == Error then Last(p.steps).observation else None)
    && (p.stopped && Last(p.steps).state == Error ==> Present(p.error))
  }

  lemma AdvanceLooped(p: Progress, k: nat, step: ReasoningStep, calls: nat)
    requires k > 0 && Looped(p, k - 1) && !p.stopped
    requires step.stepNumber == k
    requires step.state == Error ==> Present(step.observation)
    ensures Looped(Advance(p, step, calls), k)
  {
    var q := Advance(p, step, calls);
    assert q.steps == p.steps + [step];
    assert Last(q.steps) == step;
  }

  lemma {:induction false} IterateLooped(k: nat, start: Progress, next: Stepper)
    requires Looped(start, 0) && Numbered(next)
    ensures Looped(Iterate(k, start, next), k)
  {
    if k > 0 {
      IterateLooped(k - 1, start, next);
      var p := Iterate(k - 1, start, next);
      if !p.stopped {
        var turn := next(p.history, k, p.calls);
        AdvanceLooped(p, k, turn.step, turn.calls);
      } else {
        assert Iterate(k, start, next) == p;
      }
    }
  }

  /** What holds of a finished session, given what holds after the loop. */
  lemma ConcludeFacts(p: Progress, k: nat, finish: Stepper)
    requires Looped(p, k) && Answers(finish)
    ensures var c := Conclude(p, finish);
            && 1 <= |c.steps| <= k + 1
            && (forall j :: 0 <= j < |c.steps| ==> c.steps[j].stepNumber == j + 1)
            && (c.success <==> c.error.None?)
            && (|c.steps| == |p.steps| + 1 <==> !Present(p.finalAnswer) && !Present(p.error))
            && (|c.steps| == |p.steps| + 1 ==> c.success && Terminal(Last(c.steps)))
            && c.steps[..|p.steps|] == p.steps
            && (c.error.Some? ==> c.steps == p.steps && Last(c.steps).state == Error && c.error == Last(c.steps).observation)
  {
    var c := Conclude(p, finish);
    assert c.steps[..|p.steps|] == p.steps;
  }

  /** Only the last step of a finished session can be an ERROR step. */
  lemma ConcludeNoEarlyError(p: Progress, k: nat, finish: Stepper)
    requires Looped(p, k) && Answers(finish)
    ensures var c := Conclude(p, finish);
            forall j :: 0 <= j < |c.steps| - 1 ==> c.steps[j].state != Error
  {
    var c := Conclude(p, finish);
    assert c.steps[..|p.steps|] == p.steps;
    forall j | 0 <= j < |c.steps| - 1 ensures c.steps[j].state != Error {
      assert c.steps[j] == p.steps[j];
      if j == |p.steps| - 1 {
        assert Last(p.steps) == p.steps[j];
      }
    }
  }

  /**
   * The session the loop and the final answer make: one to
   * `max_iterations + 1` steps numbered from 1; success exactly when there is
   * no error; an error is the observation of the ERROR step that ended the
   * loop; no step but the last is an ERROR step; and the tool-call count is
   * the number of calls the steps recorded.
   */
  lemma SessionShape(prompt: string, query: string, maxIterations: nat, calls: nat, next: Stepper, finish: Stepper)
    requires Numbered(next) && Answers(finish)
    ensures var s := Session(prompt, query, maxIterations, calls, next, finish);
            && 1 <= |s.steps| <= maxIterations + 1
            && (forall j :: 0 <= j < |s.steps| ==> s.steps[j].stepNumber == j + 1)
            && (s.success <==> s.error.None?)
            && (s.error.Some? ==> Last(s.steps).state == Error && s.error == Last(s.steps).observation)
            && (forall j :: 0 <= j < |s.steps| - 1 ==> s.steps[j].state != Error)
            && ToolCallCount(s.steps) == |AllToolCalls(s.steps)|
  {
    var p := Iterate(maxIterations, Start(prompt, query, calls), next);
    IterateLooped(maxIterations, Start(prompt, query, calls), next);
    ConcludeFacts(p, maxIterations, finish);
    ConcludeNoEarlyError(p, maxIterations, finish);
    ToolCallCountIsAll(Conclude(p, finish).steps);
  }

  /**
   * The extra step is added exactly when the loop ended with neither an
   * answer nor an error; it is then the last step, and the session reports
   * success even when that step is an ERROR step.
   */
  lemma FinalStepOnlyWhenNeeded(prompt: string, query: string, maxIterations: nat, calls: nat, next: Stepper, finish: Stepper)
    requires Numbered(next) && Answers(finish)
    ensures var p := Iterate(maxIterations, Start(prompt, query, calls), next);
            var s := Session(prompt, query, maxIterations, calls, next, finish);
            var needed := !Present(p.finalAnswer) && !Present(p.error);
            && (needed <==> |s.steps| == |p.steps| + 1)
            && (needed ==> Last(s.steps) == finish(p.history, |p.steps| + 1, p.calls).step)
            && (needed ==> s.success && s.error.None?)
            && (!needed ==> s.steps == p.steps)
  {
    var p := Iterate(maxIterations, Start(prompt, query, calls), next);
    IterateLooped(maxIterations, Start(prompt, query, calls), next);
    ConcludeFacts(p, maxIterations, finish);
  }

  /** The loop stops at the first COMPLETED or ERROR step, and runs all its rounds otherwise. */
  lemma LoopStopsAtFirstTerminal(prompt: string, query: string, calls: nat, maxIterations: nat, next: Stepper)
    requires Numbered(next)
    ensures var p := Iterate(maxIterations, Start(prompt, query, calls), next);
            && (forall j :: 0 <= j < |p.steps| - 1 ==> !Terminal(p.steps[j]))
            && (|p.steps| < maxIterations ==> |p.steps| > 0 && Terminal(Last(p.steps)))
            && (p.success ==> p.finalAnswer == Last(p.steps).observation)
  {
    IterateLooped(maxIterations, Start(prompt, query, calls), next);
  }

  /**
   * The session `process_query` returns (whose step generator is `Numbered`,
   * by `ReasonerNumbered`): one to `max_iterations + 1` steps numbered from 1,
   * success exactly when there is no error, no ERROR step but the last, and
   * the tool-call count of the calls the steps recorded.
   */
  lemma ProcessShape(prompt: string, query: string, given: Option<string>, stamp: string, maxIterations: nat,
                     calls: nat, next: Stepper, finish: Stepper)
    requires Numbered(next) && Answers(finish)
    ensures var s := ProcessWith(prompt, query, given, stamp, maxIterations, calls, next, finish).session;
            && s.sessionId == SessionId(given, stamp) && s.query == query
            && 1 <= |s.reasoningSteps| <= maxIterations + 1
            && (forall j :: 0 <= j < |s.reasoningSteps| ==> s.reasoningSteps[j].stepNumber == j + 1)
            && (s.success <==> s.error.None?)
            && (s.error.Some? ==> Last(s.reasoningSteps).state == Error && s.error == Last(s.reasoningSteps).observation)
            && (forall j :: 0 <= j < |s.reasoningSteps| - 1 ==> s.reasoningSteps[j].state != Error)
            && s.totalToolCalls == |AllToolCalls(s.reasoningSteps)|
  {
    SessionShape(prompt, query, maxIterations, calls, next, finish);
  }

  // ----- streaming -----

  /** What `generate_content(prompt, stream=True)` yields: the chunk texts, and what raised after them, if anything. */
  datatype Stream = Stream(chunks: seq<string>, failure: Option<string>)

  /** The answer to the `i`-th model call made with `stream=True`. */
  type Streamer = (nat, string) -> Stream

  /** The texts joined with nothing between them. */
  function Concat(texts: seq<string>): string {
    if texts == [] then "" else Concat(texts[..|texts| - 1]) + Last(texts)
  }

  /** The chunks whose text is not empty, in order. */
  function NonEmpty(chunks: seq<string>): (r: seq<string>)
    ensures forall k :: 0 <= k < |r| ==> r[k] != ""
    ensures Concat(r) == Concat(chunks)
  {
    if chunks == [] then []
    else
      var before := NonEmpty(chunks[..|chunks| - 1]);
      if Last(chunks) != "" then
        var r := before + [Last(chunks)];
        assert r[..|r| - 1] == before;
        r
      else before
  }

  /** The text `_generate_streaming` yields for a stream that raised. */
  function ErrorChunk(message: string): string {
    "[Error: " + message + "]"
  }

  /** `_generate_streaming`: the non-empty chunk texts, then `[Error: …]` when the stream raised. */
  function Emitted(stream: Stream): (r: seq<string>)
    ensures forall k :: 0 <= k < |r| ==> r[k] != ""
    ensures stream.failure.None? ==> Concat(r) == Concat(stream.chunks)
    ensures stream.failure.Some? ==> Concat(r) == Concat(stream.chunks) + ErrorChunk(stream.failure.value)
  {
    var texts := NonEmpty(stream.chunks);
    if stream.failure.Some? then
      var r := texts + [ErrorChunk(stream.failure.value)];
      assert r[..|r| - 1] == texts;
      r
    else texts
  }

  method GenerateStreaming(streamer: Streamer, calls: nat, prompt: string) returns (texts: seq<string>)
    ensures texts == Emitted(streamer(calls, prompt))
  {
    var response := streamer(calls, prompt);
    texts := [];
    for i := 0 to |response.chunks|
      invariant texts == NonEmpty(response.chunks[..i])
    {
      assert response.chunks[..i + 1][..i] == response.chunks[..i];
      if response.chunks[i] != "" {
        texts := texts + [response.chunks[i]];
      }
    }
    assert response.chunks[..|response.chunks|] == response.chunks;
    if response.failure.Some? {
      texts := texts + ["[Error: " + response.failure.value + "]"];
      assert texts == Emitted(response);
    }
  }

  /** The updates `process_query_streaming` yields, one constructor per `type`. */
  datatype Event =
    | SessionStarted(sessionId: string, query: string)
    | IterationStarted(iteration: nat, maxIterations: nat)
    | StepStarted(stepNumber: nat)
    | ThoughtChunk(stepNumber: nat, content: string, fullContent: string)
    | StepParsed(stepNumber: nat, thought: string, action: Option<string>, state: AgentState)
    | ExecutingTools(stepNumber: nat, toolAction: string)
    | ToolsExecuted(stepNumber: nat, toolCalls: seq<ToolCall>, observation: Option<string>)
    | StepCompleted(stepNumber: nat, step: ReasoningStep)
    | GeneratingFinalAnswer
    | SessionCompleted(session: AgentSession)

  /** One `thinking` update per text, carrying the response so far. */
  function ThinkingEvents(n: nat, texts: seq<string>): (r: seq<Event>)
    ensures |r| == |texts|
  {
    if texts == [] then [] else ThinkingEvents(n, texts[..|texts| - 1]) + [ThoughtChunk(n, Last(texts), Concat(texts))]
  }

  /** Each `thinking` update carries its chunk and the response up to it. */
  lemma {:induction false} ThinkingContents(n: nat, texts: seq<string>)
    ensures forall k :: 0 <= k < |texts| ==> ThinkingEvents(n, texts)[k] == ThoughtChunk(n, texts[k], Concat(texts[..k + 1]))
  {
    if texts != [] {
      var init := texts[..|texts| - 1];
      ThinkingContents(n, init);
      var r := ThinkingEvents(n, texts);
      forall k | 0 <= k < |texts| ensures r[k] == ThoughtChunk(n, texts[k], Concat(texts[..k + 1])) {
        if k < |init| {
          assert init[..k + 1] == texts[..k + 1];
        } else {
          assert texts[..k + 1] == texts;
        }
      }
    }
  }

  /** Each `thinking` update carries its chunk, and the full content grows by exactly that chunk. */
  lemma ThinkingAccumulates(n: nat, texts: seq<string>)
    ensures forall k :: 0 <= k < |texts| ==>
              && ThinkingEvents(n, texts)[k].ThoughtChunk?
              && ThinkingEvents(n, texts)[k].stepNumber == n
              && ThinkingEvents(n, texts)[k].content == texts[k]
    ensures ThinkingEvents(n, texts) != [] ==> ThinkingEvents(n, texts)[0].fullContent == texts[0]
    ensures forall k :: 0 < k < |texts| ==>
              ThinkingEvents(n, texts)[k].fullContent == ThinkingEvents(n, texts)[k - 1].fullContent + texts[k]
  {
    ThinkingContents(n, texts);
    var r := ThinkingEvents(n, texts);
    forall k | 0 <= k < |texts|
      ensures r[k].ThoughtChunk? && r[k].stepNumber == n && r[k].content == texts[k]
      ensures k == 0 ==> r[k].fullContent == texts[k]
      ensures k > 0 ==> r[k].fullContent == r[k - 1].fullContent + texts[k]
    {
      assert r[k] == ThoughtChunk(n, texts[k], Concat(texts[..k + 1]));
      assert texts[..k + 1][..k] == texts[..k];
      assert Last(texts[..k + 1]) == texts[k];
      assert Concat(texts[..k + 1]) == Concat(texts[..k]) + texts[k];
      if k == 0 {
        assert texts[..k] == [];
      } else {
        assert r[k - 1] == ThoughtChunk(n, texts[k - 1], Concat(texts[..k]));
      }
    }
  }

  /** A streamed step, the model-call counter after it and the updates it yielded. */
  datatype StreamTurn = StreamTurn(step: ReasoningStep, calls: nat, events: seq<Event>)

  /** The updates of one streamed step. */
  function StepEvents(n: nat, texts: seq<string>, parsed: ReasoningStep, step: ReasoningStep): seq<Event> {
    [StepStarted(n)] + ThinkingEvents(n, texts) + [StepParsed(n, parsed.thought, parsed.action, parsed.state)]
      + (if RunsTools(parsed) then [ExecutingTools(n, parsed.action.value), ToolsExecuted(n, step.toolCalls, step.observation)] else [])
      + [StepCompleted(n, step)]
  }

  /**
   * `_generate_reasoning_step_streaming`: one streaming call, no retry and
   * no check for an empty response; the text parsed is everything the
   * stream yielded, an `[Error: …]` marker included.
   */
  function StreamedStepFor(history: seq<string>, n: nat, streamer: Streamer, calls: nat,
                           invoke: (Tool, Dict) -> Outcome<Dict>, repr: PyValue -> string): (r: StreamTurn)
    ensures r.step.stepNumber == n && r.step.state != Error && r.calls == calls + 1
  {
    var texts := Emitted(streamer(calls, StepPrompt(history, n)));
    var parsed := ParseReasoningResponse(Concat(texts), n);
    var step := Acted(parsed, invoke, repr);
    StreamTurn(step, calls + 1, StepEvents(n, texts, parsed, step))
  }

  method StreamReasoningStep(history: seq<string>, n: nat, streamer: Streamer, calls: nat,
                             invoke: (Tool, Dict) -> Outcome<Dict>, repr: PyValue -> string)
    returns (step: ReasoningStep, used: nat, events: seq<Event>)
    ensures StreamTurn(step, used, events) == StreamedStepFor(history, n, streamer, calls, invoke, repr)
  {
    var texts := GenerateStreaming(streamer, calls, StepPrompt(history, n));
    var responseText, thinking := Accumulate(n, texts);
    var parsed := ParseReasoningResponse(responseText, n);
    step := parsed;
    var toolEvents: seq<Event> := [];
    if RunsTools(parsed) {
      step := ExecuteToolCalls(parsed, invoke, repr);
      toolEvents := [ExecutingTools(n, parsed.action.value), ToolsExecuted(n, step.toolCalls, step.observation)];
    }
    events := [StepStarted(n)] + thinking + [StepParsed(n, parsed.thought, parsed.action, parsed.state)]
              + toolEvents + [StepCompleted(n, step)];
    used := calls + 1;
    StreamedStepIs(history, n, streamer, calls, invoke, repr, texts, parsed, step);
  }

  lemma StreamedStepIs(history: seq<string>, n: nat, streamer: Streamer, calls: nat,
                       invoke: (Tool, Dict) -> Outcome<Dict>, repr: PyValue -> string,
                       texts: seq<string>, parsed: ReasoningStep, step: ReasoningStep)
    requires texts == Emitted(streamer(calls, StepPrompt(history, n)))
    requires parsed == ParseReasoningResponse(Concat(texts), n)
    requires step == Acted(parsed, invoke, repr)
    ensures StreamedStepFor(history, n, streamer, calls, invoke, repr) == StreamTurn(step, calls + 1, StepEvents(n, texts, parsed, step))
  {
  }

  /** The `async for chunk` loop: the response text grows chunk by chunk, with a `thinking` update each time. */
  method Accumulate(n: nat, texts: seq<string>) returns (responseText: string, events: seq<Event>)
    ensures responseText == Concat(texts) && events == ThinkingEvents(n, texts)
  {
    responseText := "";
    events := [];
    for i := 0 to |texts|
      invariant responseText == Concat(texts[..i])
      invariant events == ThinkingEvents(n, texts[..i])
    {
      assert texts[..i + 1][..i] == texts[..i];
      responseText := responseText + texts[i];
      events := events + [ThoughtChunk(n, texts[i], responseText)];
    }
    assert texts[..|texts|] == texts;
  }

  /** A generator of streamed steps. */
  type StreamStepper = (seq<string>, nat, nat) -> StreamTurn

  function StreamReasoner(streamer: Streamer, invoke: (Tool, Dict) -> Outcome<Dict>, repr: PyValue -> string): StreamStepper {
    (history: seq<string>, n: nat, calls: nat) => StreamedStepFor(history, n, streamer, calls, invoke, repr)
  }

  /** Streamed steps come numbered as asked and are never ERROR steps. */
  ghost predicate StreamNumbered(next: StreamStepper) {
    forall history, n, calls ::
      next(history, n, calls).step.stepNumber == n && next(history, n, calls).step.state != Error
  }

  lemma StreamReasonerNumbered(streamer: Streamer, invoke: (Tool, Dict) -> Outcome<Dict>, repr: PyValue -> string)
    ensures StreamNumbered(StreamReasoner(streamer, invoke, repr))
  {
    var next := StreamReasoner(streamer, invoke, repr);
    forall history, n, calls
      ensures next(history, n, calls).step.stepNumber == n && next(history, n, calls).step.state != Error
    {
      assert next(history, n, calls) == StreamedStepFor(history, n, streamer, calls, invoke, repr);
    }
  }

  /** The steps of a streamed step generator, without the updates. */
  function TurnOf(next: StreamStepper): Stepper {
    (history: seq<string>, n: nat, calls: nat) => Turn(next(history, n, calls).step, next(history, n, calls).calls)
  }

  /** The loop variables and the updates yielded so far. */
  datatype Streamed = Streamed(progress: Progress, events: seq<Event>)

  /** The streaming loop after `k` rounds: an `iteration_start` update, then the step's updates. */
  function StreamIterate(k: nat, maxIterations: nat, start: Progress, next: StreamStepper): Streamed {
    if k == 0 then Streamed(start, [])
    else
      var r := StreamIterate(k - 1, maxIterations, start, next);
      if r.progress.stopped then r
      else
        var turn := next(r.progress.history, k, r.progress.calls);
        Streamed(Advance(r.progress, turn.step, turn.calls), r.events + [IterationStarted(k, maxIterations)] + turn.events)
  }

  /** The streaming loop keeps the same variables as the loop of `process_query` over the same steps. */
  lemma {:induction false} StreamIterateProgress(k: nat, maxIterations: nat, start: Progress, next: StreamStepper)
    ensures StreamIterate(k, maxIterations, start, next).progress == Iterate(k, start, TurnOf(next))
  {
    if k > 0 {
      StreamIterateProgress(k - 1, maxIterations, start, next);
      var r := StreamIterate(k - 1, maxIterations, start, next);
      if !r.progress.stopped {
        var h, c := r.progress.history, r.progress.calls;
        assert TurnOf(next)(h, k, c) == Turn(next(h, k, c).step, next(h, k, c).calls);
      }
    }
  }

  lemma StreamNumberedTurns(next: StreamStepper)
    requires StreamNumbered(next)
    ensures Numbered(TurnOf(next))
  {
    var t := TurnOf(next);
    forall history, n, calls
      ensures t(history, n, calls).step.stepNumber == n
      ensures t(history, n, calls).step.state == Error ==> Present(t(history, n, calls).step.observation)
    {
      assert t(history, n, calls).step == next(history, n, calls).step;
    }
  }

  /** All the updates of a streaming session, and the model-call counter after it. */
  datatype StreamedSession = StreamedSession(events: seq<Event>, calls: nat)

  function StreamSessionWith(id: string, prompt: string, query: string, maxIterations: nat, calls: nat,
                             next: StreamStepper, finish: Stepper): StreamedSession {
    var r := StreamIterate(maxIterations, maxIterations, Start(prompt, query, calls), next);
    var p := r.progress;
    var needed := !Present(p.finalAnswer) && !Present(p.error);
    var c := Conclude(p, finish);
    StreamedSession([SessionStarted(id, query)] + r.events + (if needed then [GeneratingFinalAnswer] else [])
                      + [SessionCompleted(SessionOf(id, query, c))],
                    c.calls)
  }

  /** `process_query_streaming`. */
  function ProcessStreaming(query: string, given: Option<string>, stamp: string, maxIterations: nat, model: Model,
                            streamer: Streamer, calls: nat, underlying: (Tool, Dict) -> Outcome<Dict>,
                            repr: PyValue -> string): StreamedSession {
    StreamSessionWith(SessionId(given, stamp), SystemPrompt(), query, maxIterations, calls,
                      StreamReasoner(streamer, WrapperCalls(underlying), repr), Finisher(model))
  }

  method ProcessQueryStreaming(query: string, given: Option<string>, stamp: string, maxIterations: nat, model: Model,
                               streamer: Streamer, calls0: nat, underlying: (Tool, Dict) -> Outcome<Dict>,
                               repr: PyValue -> string)
    returns (events: seq<Event>, calls: nat)
    ensures StreamedSession(events, calls) == ProcessStreaming(query, given, stamp, maxIterations, model, streamer, calls0, underlying, repr)
  {
    var id := if Present(given) then given.value else "session_" + stamp;
    var systemPrompt := BuildSystemPrompt();
    events, calls := StreamSession(id, systemPrompt, query, maxIterations, model, streamer, calls0, WrapperCalls(underlying), repr);
  }

  /** `process_query_streaming` once the session id and the system prompt are known. */
  method StreamSession(id: string, systemPrompt: string, query: string, maxIterations: nat, model: Model,
                       streamer: Streamer, calls0: nat, invoke: (Tool, Dict) -> Outcome<Dict>, repr: PyValue -> string)
    returns (events: seq<Event>, calls: nat)
    ensures StreamedSession(events, calls)
         == StreamSessionWith(id, systemPrompt, query, maxIterations, calls0, StreamReasoner(streamer, invoke, repr), Finisher(model))
  {
    var loop, loopEvents := StreamLoop(systemPrompt, query, maxIterations, streamer, calls0, invoke, repr);
    var finalEvents: seq<Event> := [];
    if !Present(loop.finalAnswer) && !Present(loop.error) {
      finalEvents := [GeneratingFinalAnswer];
    }
    var p := Finish(loop, model);
    var session := AgentSession(id, query, p.steps, p.finalAnswer, ToolCallCount(p.steps), p.success, p.error);
    events := [SessionStarted(id, query)] + loopEvents + finalEvents + [SessionCompleted(session)];
    calls := p.calls;
    StreamSessionOf(id, systemPrompt, query, maxIterations, calls0, StreamReasoner(streamer, invoke, repr),
                    Finisher(model), loop, loopEvents, p);
  }

  lemma StreamSessionOf(id: string, prompt: string, query: string, maxIterations: nat, calls: nat,
                        next: StreamStepper, finish: Stepper, loop: Progress, loopEvents: seq<Event>, p: Progress)
    requires Streamed(loop, loopEvents) == StreamIterate(maxIterations, maxIterations, Start(prompt, query, calls), next)
    requires p == Conclude(loop, finish)
    ensures StreamSessionWith(id, prompt, query, maxIterations, calls, next, finish)
         == StreamedSession([SessionStarted(id, query)] + loopEvents
                              + (if !Present(loop.finalAnswer) && !Present(loop.error) then [GeneratingFinalAnswer] else [])
                              + [SessionCompleted(SessionOf(id, query, p))],
                            p.calls)
  {
  }

  /** The loop of `process_query_streaming`. */
  method StreamLoop(prompt: string, query: string, maxIterations: nat, streamer: Streamer, calls0: nat,
                    invoke: (Tool, Dict) -> Outcome<Dict>, repr: PyValue -> string)
    returns (p: Progress, events: seq<Event>)
    ensures Streamed(p, events) == StreamIterate(maxIterations, maxIterations, Start(prompt, query, calls0), StreamReasoner(streamer, invoke, repr))
  {
    var history := [prompt, "User Query: " + query];
    var steps: seq<ReasoningStep> := [];
    var finalAnswer: Option<string> := None;
    var success := false;
    var error: Option<string> := None;
    var calls := calls0;
    var stopped := false;
    events := [];
    ghost var next := StreamReasoner(streamer, invoke, repr);
    ghost var start := Start(prompt, query, calls0);
    for iteration := 0 to maxIterations
      invariant Streamed(Progress(history, steps, calls, finalAnswer, success, error, false), events)
                == StreamIterate(iteration, maxIterations, start, next)
    {
      events := events + [IterationStarted(iteration + 1, maxIterations)];
      var step, used, stepEvents := StreamReasoningStep(history, iteration + 1, streamer, calls, invoke, repr);
      assert StreamTurn(step, used, stepEvents) == next(history, iteration + 1, calls);
      events := events + stepEvents;
      history := Remember(history, step);
      steps := steps + [step];
      calls := used;
      if step.state == Completed {
        finalAnswer := step.observation;
        success := true;
        stopped := true;
        StreamIterateStopped(iteration + 1, maxIterations, maxIterations, start, next);
        break;
      }
      if step.state == Error {
        error := step.observation;
        stopped := true;
        break;
      }
    }
    p := Progress(history, steps, calls, finalAnswer, success, error, stopped);
  }

  lemma {:induction false} StreamIterateStopped(k: nat, m: nat, maxIterations: nat, start: Progress, next: StreamStepper)
    requires k <= m && StreamIterate(k, maxIterations, start, next).progress.stopped
    ensures StreamIterate(m, maxIterations, start, next) == StreamIterate(k, maxIterations, start, next)
    decreases m - k
  {
    if k < m {
      StreamIterateStopped(k, m - 1, maxIterations, start, next);
    }
  }

  /**
   * A streaming session always reports success and no error, since a
   * streamed step is never an ERROR step (even when the model call raised);
   * its updates open with `session_start` and close with `session_complete`,
   * whose session has the shape of `SessionShape`, and a
   * `generating_final_answer` update comes just before the end when the
   * final step is added.
   */
  lemma StreamingShape(id: string, prompt: string, query: string, maxIterations: nat, calls: nat,
                       next: StreamStepper, finish: Stepper)
    requires StreamNumbered(next) && Answers(finish)
    ensures var events := StreamSessionWith(id, prompt, query, maxIterations, calls, next, finish).events;
            var q := Iterate(maxIterations, Start(prompt, query, calls), TurnOf(next));
            var p := Session(prompt, query, maxIterations, calls, TurnOf(next), finish);
            && |events| >= 2
            && events[0] == SessionStarted(id, query)
            && Last(events) == SessionCompleted(SessionOf(id, query, p))
            && p.success && p.error.None?
            && (|p.steps| == |q.steps| + 1 ==> events[|events| - 2] == GeneratingFinalAnswer)
  {
    StreamEvents(id, prompt, query, maxIterations, calls, next, finish);
    StreamSessionSucceeds(prompt, query, maxIterations, calls, next, finish);
  }

  /** The updates around the loop's: `session_start` first, `session_complete` last, `generating_final_answer` before it when needed. */
  lemma StreamEvents(id: string, prompt: string, query: string, maxIterations: nat, calls: nat,
                     next: StreamStepper, finish: Stepper)
    ensures var events := StreamSessionWith(id, prompt, query, maxIterations, calls, next, finish).events;
            var q := Iterate(maxIterations, Start(prompt, query, calls), TurnOf(next));
            var p := Session(prompt, query, maxIterations, calls, TurnOf(next), finish);
            && |events| >= 2
            && events[0] == SessionStarted(id, query)
            && Last(events) == SessionCompleted(SessionOf(id, query, p))
            && (!Present(q.finalAnswer) && !Present(q.error) ==> events[|events| - 2] == GeneratingFinalAnswer)
  {
    StreamIterateProgress(maxIterations, maxIterations, Start(prompt, query, calls), next);
  }

  /** A loop over streamed steps ends with success and no error, whether or not the final step is added. */
  lemma StreamSessionSucceeds(prompt: string, query: string, maxIterations: nat, calls: nat,
                              next: StreamStepper, finish: Stepper)
    requires StreamNumbered(next) && Answers(finish)
    ensures var q := Iterate(maxIterations, Start(prompt, query, calls), TurnOf(next));
            var p := Session(prompt, query, maxIterations, calls, TurnOf(next), finish);
            && p.success && p.error.None?
            && (|p.steps| == |q.steps| + 1 <==> !Present(q.finalAnswer) && !Present(q.error))
  {
    var start := Start(prompt, query, calls);
    StreamNumberedTurns(next);
    IterateLooped(maxIterations, start, TurnOf(next));
    IterateNoError(maxIterations, start, next);
    var q := Iterate(maxIterations, start, TurnOf(next));
    ConcludeFacts(q, maxIterations, finish);
    if q.stopped {
      assert Last(q.steps) == q.steps[|q.steps| - 1];
    }
  }

  predicate NoErrorStep(steps: seq<ReasoningStep>) {
    forall j :: 0 <= j < |steps| ==> steps[j].state != Error
  }

  /** No step of a loop over streamed steps is an ERROR step. */
  lemma {:induction false} IterateNoError(k: nat, start: Progress, next: StreamStepper)
    requires StreamNumbered(next) && start.steps == []
    ensures NoErrorStep(Iterate(k, start, TurnOf(next)).steps)
  {
    if k > 0 {
      IterateNoError(k - 1, start, next);
      var p := Iterate(k - 1, start, TurnOf(next));
      if !p.stopped {
        var turn := TurnOf(next)(p.history, k, p.calls);
        assert turn.step == next(p.history, k, p.calls).step;
        var steps := Iterate(k, start, TurnOf(next)).steps;
        assert steps == p.steps + [turn.step];
        forall j | 0 <= j < |steps| ensures steps[j].state != Error {
          if j < |p.steps| {
            assert steps[j] == p.steps[j];
          }
        }
      }
    }
  }

  /** `process_query_streaming` with the agent's model, streamer and tools. */
  lemma ProcessStreamingShape(query: string, given: Option<string>, stamp: string, maxIterations: nat, model: Model,
                              streamer: Streamer, calls: nat, underlying: (Tool, Dict) -> Outcome<Dict>,
                              repr: PyValue -> string)
    ensures var events := ProcessStreaming(query, given, stamp, maxIterations, model, streamer, calls, underlying, repr).events;
            && |events| >= 2
            && events[0] == SessionStarted(SessionId(given, stamp), query)
            && Last(events).SessionCompleted?
            && Last(events).session.success && Last(events).session.error.None?
  {
    var next := StreamReasoner(streamer, WrapperCalls(underlying), repr);
    StreamReasonerNumbered(streamer, WrapperCalls(underlying), repr);
    FinisherAnswers(model);
    StreamingShape(SessionId(given, stamp), SystemPrompt(), query, maxIterations, calls, next, Finisher(model));
  }
}
