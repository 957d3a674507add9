/**
 * The agent's view of one model reply and of one action line.
 *
 * `ParseReasoningResponse` reads the `Thought:`, `Action:` and
 * `Observation:` markers of a reply into a `ReasoningStep`; `ParseToolCalls`
 * reads `name(key="value", key2=value2)` calls out of an action. Both follow
 * the regular expressions of the agent exactly: the markers are found
 * case-insensitively, `.` does not cross a newline in the call and parameter
 * patterns, lazy groups stop at the first place the rest of the pattern
 * matches, and `$` also matches just before a final newline.
 */
module ReactParser {
  import opened Wrappers
  import opened Text
  import opened PyValues
  import ToolFunctions

  datatype AgentState = Thinking | Acting | Observing | Completed | Error

  /** `AgentState.value`. */
  function StateValue(s: AgentState): string {
    match s
    case Thinking => "thinking"
    case Acting => "acting"
    case Observing => "observing"
    case Completed => "completed"
    case Error => "error"
  }

  /** A tool call and what became of it (its timestamp and duration are clock readings and are left out). */
  datatype ToolCall = ToolCall(toolName: string, arguments: Dict, result: Option<Dict>, error: Option<PyValue>, success: bool)

  /** One Thought/Action/Observation round (its timestamp is left out). */
  datatype ReasoningStep = ReasoningStep(
    stepNumber: nat,
    state: AgentState,
    thought: string,
    action: Option<string>,
    observation: Option<string>,
    toolCalls: seq<ToolCall>)

  /** Python truthiness of an optional string field. */
  predicate Present(s: Option<string>) {
    s.Some? && s.value != ""
  }

  // ----- the reply markers -----

  const ThoughtMarker := "Thought:"
  const ActionMarker := "Action:"
  const ObservationMarker := "Observation:"
  const FinalAnswer := "Final Answer"

  /** Where `$` can match at or after `i`: the end, or just before a final newline. */
  predicate AtEnd(s: string, p: nat) {
    p == |s| || (p + 1 == |s| && s[p] == '\n')
  }

  /** The end of the lazy group in `(.*?)(?=stop|$)`: the first place `stop` (ignoring case) or `$` matches. */
  function StopAt(s: string, stop: string, i: nat): (p: nat)
    requires i <= |s|
    ensures i <= p <= |s|
    ensures MatchesAtCI(s, p, stop) || AtEnd(s, p)
    ensures forall j :: i <= j < p ==> !MatchesAtCI(s, j, stop) && !AtEnd(s, j)
    decreases |s| - i
  {
    if MatchesAtCI(s, i, stop) || AtEnd(s, i) then i else StopAt(s, stop, i + 1)
  }

  /** The end of the lazy group in `(.*?)$`. */
  function EndAt(s: string, i: nat): (p: nat)
    requires i <= |s|
    ensures i <= p <= |s| && AtEnd(s, p)
    ensures forall j :: i <= j < p ==> !AtEnd(s, j)
  {
    if i < |s| && s[|s| - 1] == '\n' then |s| - 1 else |s|
  }

  /** `marker\s*(.*?)(?=stop|$)` once the marker ends at `from`, group stripped. */
  function Segment(s: string, from: nat, stop: string): string
    requires from <= |s|
  {
    var a := SkipSpace(s, from);
    Strip(s[a..StopAt(s, stop, a)])
  }

  /** `marker\s*(.*?)$` once the marker ends at `from`, group stripped. */
  function Tail(s: string, from: nat): string
    requires from <= |s|
  {
    var a := SkipSpace(s, from);
    Strip(s[a..EndAt(s, a)])
  }

  /** A final newline that `$` leaves out of the group is stripped anyway: the observation runs to the end. */
  lemma TailIsRest(s: string, from: nat)
    requires from <= |s|
    ensures Tail(s, from) == Strip(s[SkipSpace(s, from)..])
  {
    var a := SkipSpace(s, from);
    if EndAt(s, a) < |s| {
      DropFinalNewline(s, a);
    } else {
      assert s[a..EndAt(s, a)] == s[a..];
    }
  }

  lemma DropFinalNewline(s: string, a: nat)
    requires a < |s| && s[|s| - 1] == '\n'
    ensures Strip(s[a..|s| - 1]) == Strip(s[a..])
  {
    var g := s[a..|s| - 1];
    assert s[a..] == g + "\n";
    StripNewline(g);
  }

  lemma StripNewline(g: string)
    ensures Strip(g + "\n") == Strip(g)
  {
    var s := g + "\n";
    var lo := SkipSpace(s, 0);
    var hi := TrimEnd(s, lo, |s|);
    var lo' := SkipSpace(g, 0);
    var hi' := TrimEnd(g, lo', |g|);
    assert IsSpace('\n');
    if lo' < |g| {
      assert lo == lo' by {
        assert forall j :: 0 <= j < lo' ==> IsSpace(s[j]);
        assert !IsSpace(s[lo']);
        SkipSpaceFirst(s, 0, lo');
      }
      assert hi == hi' by {
        assert forall m :: hi' <= m < |s| ==> IsSpace(s[m]);
        assert !IsSpace(s[hi' - 1]);
        TrimEndLast(s, lo, |s|, hi');
      }
      assert s[lo..hi] == g[lo'..hi'];
    } else {
      assert AllSpace(g);
      assert AllSpace(s);
    }
  }

  /** `SkipSpace` stops at the first non-space. */
  lemma SkipSpaceFirst(s: string, i: nat, k: nat)
    requires i <= k < |s| && !IsSpace(s[k])
    requires forall j :: i <= j < k ==> IsSpace(s[j])
    ensures SkipSpace(s, i) == k
    decreases k - i
  {
    if i < k {
      SkipSpaceFirst(s, i + 1, k);
    }
  }

  /** `TrimEnd` stops after the last non-space. */
  lemma TrimEndLast(s: string, lo: nat, j: nat, k: nat)
    requires lo < k <= j <= |s| && !IsSpace(s[k - 1])
    requires forall m :: k <= m < j ==> IsSpace(s[m])
    ensures TrimEnd(s, lo, j) == k
    decreases j - k
  {
    if k < j {
      TrimEndLast(s, lo, j - 1, k);
    }
  }

  /** Where the group of `Final Answer\s*:?\s*(.*)` starts, once the phrase is found at `i`. */
  function AnswerStart(s: string, i: nat): (k: nat)
    requires i + |FinalAnswer| <= |s|
    ensures k <= |s|
  {
    var a := SkipSpace(s, i + |FinalAnswer|);
    var b := if a < |s| && s[a] == ':' then a + 1 else a;
    SkipSpace(s, b)
  }

  /** The observation of a final answer: what follows `Final Answer` and an optional colon. */
  function FinalAnswerText(action: string): string {
    match FindCI(action, FinalAnswer, 0)
    case Some(i) => Strip(action[AnswerStart(action, i)..])
    case None => "Final answer provided."
  }

  /** The thought: after the first `Thought:` up to the next `Action:`, or else the whole reply. */
  function ThoughtOf(text: string): string {
    match FindCI(text, ThoughtMarker, 0)
    case Some(t) => Segment(text, t + |ThoughtMarker|, ActionMarker)
    case None => Strip(text)
  }

  /** The action: after the first `Action:` up to the next `Observation:`, if there is one. */
  function ActionOf(text: string): Option<string> {
    match FindCI(text, ActionMarker, 0)
    case Some(a) => Some(Segment(text, a + |ActionMarker|, ObservationMarker))
    case None => None
  }

  /** The state the action leaves the step in. */
  function ActionState(action: Option<string>): AgentState {
    if action.None? then Thinking
    else if StartsWith(action.value, FinalAnswer) then Completed
    else Acting
  }

  /** The observation a final answer sets. */
  function AnswerOf(action: Option<string>): Option<string> {
    if ActionState(action) == Completed then Some(FinalAnswerText(action.value)) else None
  }

  /** `_parse_reasoning_response`: total, with no exception path. */
  function ParseReasoningResponse(text: string, n: nat): (step: ReasoningStep)
    ensures step.stepNumber == n && step.toolCalls == []
    ensures step.state != Error
  {
    var action := ActionOf(text);
    var state := ActionState(action);
    var observation := AnswerOf(action);
    match FindCI(text, ObservationMarker, 0)
    case Some(o) =>
      if !Present(observation) then
        ReasoningStep(n, if state == Completed then Completed else Observing, ThoughtOf(text), action,
                      Some(Tail(text, o + |ObservationMarker|)), [])
      else ReasoningStep(n, state, ThoughtOf(text), action, observation, [])
    case None => ReasoningStep(n, state, ThoughtOf(text), action, observation, [])
  }

  // ----- properties of the step parser -----

  predicate HasMarker(text: string, m: string) {
    FindCI(text, m, 0).Some?
  }

  /** With no `Thought:` marker the whole reply, stripped, is the thought. */
  lemma NoThoughtMarker(text: string, n: nat)
    requires !HasMarker(text, ThoughtMarker)
    ensures ParseReasoningResponse(text, n).thought == Strip(text)
  {
  }

  /** The thought is what follows the first `Thought:`, up to the first `Action:` after it. */
  lemma ThoughtSegment(text: string, n: nat)
    requires HasMarker(text, ThoughtMarker)
    ensures var t := FindCI(text, ThoughtMarker, 0).value;
            ParseReasoningResponse(text, n).thought == Segment(text, t + |ThoughtMarker|, ActionMarker)
  {
  }

  /** With neither an `Action:` nor an `Observation:` marker the step is still thinking and has no action. */
  lemma QuietReply(text: string, n: nat)
    requires !HasMarker(text, ActionMarker) && !HasMarker(text, ObservationMarker)
    ensures ParseReasoningResponse(text, n).state == Thinking
    ensures ParseReasoningResponse(text, n).action == None
    ensures ParseReasoningResponse(text, n).observation == None
  {
  }

  /** The four ways a reply classifies. */
  lemma StateClassification(text: string, n: nat)
    ensures var step := ParseReasoningResponse(text, n);
            (step.state == Thinking <==> !HasMarker(text, ActionMarker) && !HasMarker(text, ObservationMarker))
            && (step.state == Completed <==> step.action.Some? && StartsWith(step.action.value, FinalAnswer))
            && (step.state == Acting <==> step.action.Some? && !StartsWith(step.action.value, FinalAnswer) && !HasMarker(text, ObservationMarker))
            && (step.state == Observing <==> HasMarker(text, ObservationMarker) && !(step.action.Some? && StartsWith(step.action.value, FinalAnswer)))
            && (step.action.Some? <==> HasMarker(text, ActionMarker))
  {
  }

  /** The action runs from the first `Action:` to the first `Observation:` after it. */
  lemma ActionSegment(text: string, n: nat)
    requires HasMarker(text, ActionMarker)
    ensures var a := FindCI(text, ActionMarker, 0).value;
            ParseReasoningResponse(text, n).action == Some(Segment(text, a + |ActionMarker|, ObservationMarker))
  {
  }

  /**
   * A final answer's observation is the text after `Final Answer` and an
   * optional colon when that is not empty, and otherwise the text after the
   * first `Observation:` (or empty when there is none).
   */
  lemma FinalAnswerObservation(text: string, n: nat)
    requires ParseReasoningResponse(text, n).state == Completed
    ensures ParseReasoningResponse(text, n).action.Some?
    ensures FinalAnswerText(ParseReasoningResponse(text, n).action.value) != "" ==>
              ParseReasoningResponse(text, n).observation == Some(FinalAnswerText(ParseReasoningResponse(text, n).action.value))
    ensures FinalAnswerText(ParseReasoningResponse(text, n).action.value) == "" && HasMarker(text, ObservationMarker) ==>
              ParseReasoningResponse(text, n).observation == Some(Tail(text, FindCI(text, ObservationMarker, 0).value + |ObservationMarker|))
    ensures FinalAnswerText(ParseReasoningResponse(text, n).action.value) == "" && !HasMarker(text, ObservationMarker) ==>
              ParseReasoningResponse(text, n).observation == Some("")
  {
    var action := ActionOf(text);
    assert ActionState(action) == Completed;
    var answer := FinalAnswerText(action.value);
    assert AnswerOf(action) == Some(answer);
    assert Present(AnswerOf(action)) <==> answer != "";
  }

  /** An observation that is not a final answer's is the text after the first `Observation:`. */
  lemma ObservationTail(text: string, n: nat)
    requires HasMarker(text, ObservationMarker)
    requires ParseReasoningResponse(text, n).state != Completed
    ensures ParseReasoningResponse(text, n).observation == Some(Tail(text, FindCI(text, ObservationMarker, 0).value + |ObservationMarker|))
    ensures ParseReasoningResponse(text, n).state == Observing
  {
  }

  /** The `"Final answer provided."` placeholder is never produced: an action that starts with the phrase contains it. */
  lemma PlaceholderUnreachable(action: string)
    requires StartsWith(action, FinalAnswer)
    ensures FindCI(action, FinalAnswer, 0) == Some(0)
    ensures FinalAnswerText(action) == Strip(action[AnswerStart(action, 0)..])
  {
    assert MatchesAtCI(action, 0, FinalAnswer);
  }

  // ----- the action mini-language -----

  /** The end of the run of word characters starting at `i`. */
  function WordEnd(s: string, i: nat): (k: nat)
    requires i <= |s|
    ensures i <= k <= |s|
    ensures forall j :: i <= j < k ==> IsWordChar(s[j])
    ensures k < |s| ==> !IsWordChar(s[k])
    decreases |s| - i
  {
    if i == |s| || !IsWordChar(s[i]) then i else WordEnd(s, i + 1)
  }

  /**
   * The end of the lazy group in `\s*(.*?)\s*\)` scanning from `p`: the first
   * place from which blanks lead to `)`; the group cannot cross a newline.
   */
  function CloseAt(s: string, p: nat): (r: Option<nat>)
    requires p <= |s|
    ensures r.Some? ==> p <= r.value <= |s| && SkipSpace(s, r.value) < |s| && s[SkipSpace(s, r.value)] == ')'
    ensures r.Some? ==> forall j :: p <= j < r.value ==> s[j] != '\n'
    decreases |s| - p
  {
    var q := SkipSpace(s, p);
    if q < |s| && s[q] == ')' then Some(p)
    else if p < |s| && s[p] != '\n' then CloseAt(s, p + 1)
    else None
  }

  /** A match of `(\w+)\s*\(\s*(.*?)\s*\)` at `i`: the name, the parameter text, and where the match ends. */
  function CallAt(s: string, i: nat): (r: Option<(string, string, nat)>)
    requires i < |s|
    ensures r.Some? ==> i < r.value.2 <= |s| && r.value.0 != [] && forall j :: 0 <= j < |r.value.0| ==> IsWordChar(r.value.0[j])
  {
    if !IsWordChar(s[i]) then None
    else
      var j := WordEnd(s, i);
      var k := SkipSpace(s, j);
      if k == |s| || s[k] != '(' then None
      else
        var m := SkipSpace(s, k + 1);
        match CloseAt(s, m)
        case Some(p) => Some((s[i..j], s[m..p], SkipSpace(s, p) + 1))
        case None => None
  }

  /** `re.findall` of the call pattern from `i`: scan left to right, resume after each match. */
  function FindCalls(s: string, i: nat): (r: seq<(string, string)>)
    requires i <= |s|
    ensures forall k :: 0 <= k < |r| ==> r[k].0 != [] && forall j :: 0 <= j < |r[k].0| ==> IsWordChar(r[k].0[j])
    decreases |s| - i
  {
    if i == |s| then []
    else
      match CallAt(s, i)
      case Some((name, params, e)) => [(name, params)] + FindCalls(s, e)
      case None => FindCalls(s, i + 1)
  }

  /** One `findall` tuple of the parameter pattern: the quoted alternative or the bare one. */
  datatype ParamMatch = Quoted(key: string, value: string) | Bare(key: string, word: string)

  /** The lazy group of `(["\'])(.*?)\2` from `p`: the first closing quote, not across a newline. */
  function QuoteEnd(s: string, p: nat, quote: char): (r: Option<nat>)
    requires p <= |s|
    ensures r.Some? ==> p <= r.value < |s| && s[r.value] == quote
    ensures r.Some? ==> forall j :: p <= j < r.value ==> s[j] != quote && s[j] != '\n'
    decreases |s| - p
  {
    if p == |s| then None
    else if s[p] == quote then Some(p)
    else if s[p] == '\n' then None
    else QuoteEnd(s, p + 1, quote)
  }

  /** A match of `(\w+)\s*=\s*(["\'])(.*?)\2|(\w+)\s*=\s*(\w+)` at `i`, and where it ends. */
  function ParamAt(s: string, i: nat): (r: Option<(ParamMatch, nat)>)
    requires i < |s|
    ensures r.Some? ==> i < r.value.1 <= |s|
  {
    if !IsWordChar(s[i]) then None
    else
      var j := WordEnd(s, i);
      var k := SkipSpace(s, j);
      if k == |s| || s[k] != '=' then None
      else
        var m := SkipSpace(s, k + 1);
        var quoted :=
          if m < |s| && (s[m] == '"' || s[m] == '\'') then
            match QuoteEnd(s, m + 1, s[m])
            case Some(q) => Some((Quoted(s[i..j], s[m + 1..q]), q + 1))
            case None => None
          else None;
        if quoted.Some? then quoted
        else if m < |s| && IsWordChar(s[m]) then
          var v := WordEnd(s, m);
          Some((Bare(s[i..j], s[m..v]), v))
        else None
  }

  function FindParams(s: string, i: nat): seq<ParamMatch>
    requires i <= |s|
    decreases |s| - i
  {
    if i == |s| then []
    else
      match ParamAt(s, i)
      case Some((pm, e)) => [pm] + FindParams(s, e)
      case None => FindParams(s, i + 1)
  }

  /** The value an unquoted token becomes. */
  function Coerce(word: string): PyValue {
    var w := Lower(word);
    if w == "true" then PyBool(true)
    else if w == "false" then PyBool(false)
    else if w == "none" then PyNone
    else if IsDigits(word) then PyInt(DigitsValue(word))
    else PyStr(word)
  }

  /** Whether a parameter match writes an argument: a quoted one only when both key and value are non-empty. */
  predicate Writes(pm: ParamMatch) {
    match pm
    case Quoted(key, value) => key != "" && value != ""
    case Bare(key, word) => key != "" && word != ""
  }

  function ValueOf(pm: ParamMatch): PyValue {
    match pm
    case Quoted(_, value) => PyStr(value)
    case Bare(_, word) => Coerce(word)
  }

  /** The argument dict the matches build, one assignment after another. */
  function Arguments(ms: seq<ParamMatch>): Dict
  {
    if ms == [] then []
    else
      var pm := ms[|ms| - 1];
      var before := Arguments(ms[..|ms| - 1]);
      if Writes(pm) then Put(before, pm.key, ValueOf(pm)) else before
  }

  /** The arguments a parameter text yields; a blank one yields none. */
  function ArgumentsOf(params: string): Dict {
    if Strip(params) != "" then Arguments(FindParams(params, 0)) else []
  }

  /** The calls an action yields: the matches that name a registered tool, in order, not yet run. */
  function ToolCallsOf(action: string): (r: seq<ToolCall>)
    ensures forall k :: 0 <= k < |r| ==> ToolFunctions.Registered(r[k].toolName)
    ensures forall k :: 0 <= k < |r| ==> r[k].result.None? && r[k].error.None? && !r[k].success
  {
    Registered(FindCalls(action, 0))
  }

  function Registered(matches: seq<(string, string)>): (r: seq<ToolCall>)
    ensures forall k :: 0 <= k < |r| ==> ToolFunctions.Registered(r[k].toolName)
    ensures forall k :: 0 <= k < |r| ==> r[k].result.None? && r[k].error.None? && !r[k].success
    ensures |r| <= |matches|
  {
    if matches == [] then []
    else
      var before := Registered(matches[..|matches| - 1]);
      var (name, params) := matches[|matches| - 1];
      if ToolFunctions.Registered(name) then before + [ToolCall(name, ArgumentsOf(params), None, None, false)]
      else before
  }

  /** `_parse_tool_calls`. */
  method ParseToolCalls(action: string) returns (calls: seq<ToolCall>)
    ensures calls == ToolCallsOf(action)
  {
    calls := RegisteredCalls(FindCalls(action, 0));
  }

  /** The loop of `_parse_tool_calls` over the call matches. */
  method RegisteredCalls(matches: seq<(string, string)>) returns (calls: seq<ToolCall>)
    ensures calls == Registered(matches)
  {
    calls := [];
    for i := 0 to |matches|
      invariant calls == Registered(matches[..i])
    {
      assert matches[..i + 1][..i] == matches[..i];
      var (name, params) := matches[i];
      if ToolFunctions.ToolNamed(name).None? {
        continue;
      }
      var arguments := [];
      if Strip(params) != "" {
        arguments := BuildArguments(FindParams(params, 0));
      }
      calls := calls + [ToolCall(name, arguments, None, None, false)];
    }
    assert matches[..|matches|] == matches;
  }

  /** The argument loop of `_parse_tool_calls`. */
  method BuildArguments(ms: seq<ParamMatch>) returns (arguments: Dict)
    ensures arguments == Arguments(ms)
  {
    arguments := [];
    for i := 0 to |ms|
      invariant arguments == Arguments(ms[..i])
    {
      assert ms[..i + 1][..i] == ms[..i];
      var pm := ms[i];
      if pm.Quoted? && pm.key != "" && pm.value != "" {
        arguments := Put(arguments, pm.key, PyStr(pm.value));
      } else if pm.Bare? && pm.key != "" && pm.word != "" {
        arguments := Put(arguments, pm.key, Coerce(pm.word));
      }
    }
    assert ms[..|ms|] == ms;
  }

  // ----- properties of the action language -----

  /** The value the last writing match for `key` gave, searching from the end: the independent reading of "a later duplicate overwrites". */
  function LastValue(ms: seq<ParamMatch>, key: string): Option<PyValue> {
    if ms == [] then None
    else if Writes(ms[|ms| - 1]) && ms[|ms| - 1].key == key then Some(ValueOf(ms[|ms| - 1]))
    else LastValue(ms[..|ms| - 1], key)
  }

  /** Each argument holds the value of the last assignment to its key; a key never assigned is absent. */
  lemma {:induction false} ArgumentsLastWins(ms: seq<ParamMatch>, key: string)
    ensures Get(Arguments(ms), key) == LastValue(ms, key)
  {
    if ms != [] {
      var pm := ms[|ms| - 1];
      ArgumentsLastWins(ms[..|ms| - 1], key);
      if Writes(pm) && pm.key != key {
        PutOther(Arguments(ms[..|ms| - 1]), pm.key, ValueOf(pm), key);
      }
    }
  }

  /** Quoted values are taken verbatim, and an empty quoted value writes nothing. */
  lemma QuotedVerbatim(ms: seq<ParamMatch>, key: string, value: string)
    ensures Get(Arguments(ms + [Quoted(key, value)]), key) ==
              if key != "" && value != "" then Some(PyStr(value)) else Get(Arguments(ms), key)
  {
    assert (ms + [Quoted(key, value)])[..|ms|] == ms;
  }

  /** The coercion of an unquoted token, case by case. */
  lemma CoerceCases(word: string)
    ensures Lower(word) == "true" ==> Coerce(word) == PyBool(true)
    ensures Lower(word) == "false" ==> Coerce(word) == PyBool(false)
    ensures Lower(word) == "none" ==> Coerce(word) == PyNone
    ensures IsDigits(word) ==> Coerce(word) == PyInt(DigitsValue(word))
    ensures !IsDigits(word) && Lower(word) !in ["true", "false", "none"] ==> Coerce(word) == PyStr(word)
  {
    if IsDigits(word) {
      assert Lower(word)[0] == word[0];
      assert IsDigit(word[0]);
    }
  }

  /** A number written out in digits coerces back to that number. */
  lemma CoerceNumber(n: nat)
    ensures Coerce(NatToString(n)) == PyInt(n)
  {
    CoerceCases(NatToString(n));
    NatToStringRoundTrip(n);
  }

  /** Calls to names outside the registry are dropped; the others keep their order. */
  lemma {:induction false} RegisteredAppend(a: seq<(string, string)>, b: seq<(string, string)>)
    ensures Registered(a + b) == Registered(a) + Registered(b)
    decreases |b|
  {
    if b == [] {
      assert a + b == a;
    } else {
      var init := b[..|b| - 1];
      assert (a + b)[..|a + b| - 1] == a + init;
      assert (a + b)[|a + b| - 1] == b[|b| - 1];
      RegisteredAppend(a, init);
    }
  }

  /** A single match becomes a call exactly when its name is registered. */
  lemma RegisteredOne(name: string, params: string)
    ensures Registered([(name, params)]) ==
              if ToolFunctions.Registered(name) then [ToolCall(name, ArgumentsOf(params), None, None, false)] else []
  {
    assert [(name, params)][..0] == [];
  }
}
