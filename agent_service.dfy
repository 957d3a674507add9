/**
 * The agent service: a monitor that keeps running counters over finished
 * sessions and classifies the agent's health, and a service that runs
 * queries through the agent, keeps the finished sessions in memory for 30
 * minutes of inactivity and answers with a flat response.
 *
 * Clock readings are parameters: an instant is an integer number of
 * microseconds, the resolution of Python's `datetime`. The agent run itself
 * is a parameter too (its outcome, `ReactAgent.Process` for a plain query or
 * the event list of `ReactAgent.ProcessStreaming` for a streamed one).
 */
module AgentService {
  import opened Wrappers
  import opened Text
  import opened ReactParser
  import opened ReactAgent
  import StableSort

  const MaxRecentSessions: nat := 100
  const RecentWindow: nat := 10
  /** `timedelta(minutes=30)` in microseconds. */
  const SessionTimeout: int := 30 * 60 * 1000000

  // ----- small helpers -----

  /** Python's `xs[-n:]` for `n > 0`: the newest `n` entries, or all of them. */
  function Newest<T>(xs: seq<T>, n: nat): (r: seq<T>)
    ensures |r| == if |xs| < n then |xs| else n
    ensures r == xs[|xs| - |r|..]
  {
    if |xs| > n then xs[|xs| - n..] else xs
  }

  /** Appending to a trimmed list and trimming again is trimming the whole history. */
  lemma NewestAppend<T>(xs: seq<T>, x: T, n: nat)
    requires n > 0
    ensures Newest(Newest(xs, n) + [x], n) == Newest(xs + [x], n)
  {
    var a := Newest(xs, n) + [x];
    var b := xs + [x];
    assert a == b[|b| - |a|..];
  }

  /** The newest `m` of the newest `n` are the newest `m`. */
  lemma NewestOfNewest<T>(xs: seq<T>, n: nat, m: nat)
    requires m <= n
    ensures Newest(Newest(xs, n), m) == Newest(xs, m)
  {
  }

  /** The value of a `defaultdict(int)` entry. */
  function Count(m: map<string, nat>, k: string): nat {
    if k in m then m[k] else 0
  }

  /** `m[k] += 1` on a `defaultdict(int)`. */
  function Bump(m: map<string, nat>, k: string): (r: map<string, nat>)
    ensures Count(r, k) == Count(m, k) + 1
  {
    m[k := Count(m, k) + 1]
  }

  /** Bumping one key leaves every other count as it was. */
  lemma BumpOther(m: map<string, nat>, k: string, j: string)
    requires j != k
    ensures Count(Bump(m, k), j) == Count(m, j)
  {
  }

  /** How often `x` occurs in `xs`. */
  function Occurrences(xs: seq<string>, x: string): nat {
    multiset(xs)[x]
  }

  // ----- the monitor's tallies -----

  /** The per-tool usage counts and the per-error counts. */
  datatype Tallies = Tallies(toolUsage: map<string, nat>, errors: map<string, nat>)

  /** The error key of a failed call of tool `name`. */
  function ToolErrorKey(name: string): (r: string)
    ensures StartsWith(r, "tool_") && EndsWith(r, "_error")
  {
    "tool_" + name + "_error"
  }

  function TallyCall(t: Tallies, c: ToolCall): Tallies {
    if c.success then t.(toolUsage := Bump(t.toolUsage, c.toolName))
    else t.(errors := Bump(t.errors, ToolErrorKey(c.toolName)))
  }

  /** The tallies after counting the calls in order. */
  function TallyCalls(t: Tallies, calls: seq<ToolCall>): Tallies {
    if calls == [] then t else TallyCall(TallyCalls(t, calls[..|calls| - 1]), calls[|calls| - 1])
  }

  /** The names of the calls that succeeded, in order: a step's `tools_used`. */
  function ToolsUsed(calls: seq<ToolCall>): (r: seq<string>)
    ensures |r| <= |calls|
  {
    if calls == [] then []
    else
      var c := calls[|calls| - 1];
      ToolsUsed(calls[..|calls| - 1]) + (if c.success then [c.toolName] else [])
  }

  /** A name is listed exactly when some call of that tool succeeded. */
  lemma {:induction false} ToolsUsedNames(calls: seq<ToolCall>, name: string)
    ensures name in ToolsUsed(calls) <==> exists j :: 0 <= j < |calls| && calls[j].success && calls[j].toolName == name
  {
    if calls != [] {
      var init := calls[..|calls| - 1];
      ToolsUsedNames(init, name);
      assert forall j :: 0 <= j < |init| ==> calls[j] == init[j];
      if name in ToolsUsed(calls) && name !in ToolsUsed(init) {
        assert calls[|calls| - 1].success && calls[|calls| - 1].toolName == name;
      }
    }
  }

  /** The error keys of the calls that failed, in order. */
  function FailedKeys(calls: seq<ToolCall>): seq<string> {
    if calls == [] then []
    else
      var c := calls[|calls| - 1];
      FailedKeys(calls[..|calls| - 1]) + (if c.success then [] else [ToolErrorKey(c.toolName)])
  }

  /** Every call is counted once: as a use of its tool or as an error of it. */
  lemma {:induction false} UsedPlusFailed(calls: seq<ToolCall>)
    ensures |ToolsUsed(calls)| + |FailedKeys(calls)| == |calls|
  {
    if calls != [] {
      UsedPlusFailed(calls[..|calls| - 1]);
    }
  }

  /**
   * Counting the calls adds to each tool's usage the number of its successful
   * calls, and to each error key the number of failed calls it names.
   */
  lemma {:induction false} TallyCallsCounts(t: Tallies, calls: seq<ToolCall>, name: string)
    ensures Count(TallyCalls(t, calls).toolUsage, name) == Count(t.toolUsage, name) + Occurrences(ToolsUsed(calls), name)
    ensures Count(TallyCalls(t, calls).errors, name) == Count(t.errors, name) + Occurrences(FailedKeys(calls), name)
  {
    if calls != [] {
      var init := calls[..|calls| - 1];
      var c := calls[|calls| - 1];
      TallyCallsCounts(t, init, name);
      var before := TallyCalls(t, init);
      if c.success && c.toolName != name {
        BumpOther(before.toolUsage, c.toolName, name);
      } else if !c.success && ToolErrorKey(c.toolName) != name {
        BumpOther(before.errors, ToolErrorKey(c.toolName), name);
      }
    }
  }

  /** A failed session's own error, if it has one, is counted under its text. */
  function TallyError(t: Tallies, s: AgentSession): Tallies {
    if !s.success && Present(s.error) then t.(errors := Bump(t.errors, s.error.value)) else t
  }

  /** What `record_session` adds to the tallies for one session. */
  function TallySession(t: Tallies, s: AgentSession): Tallies {
    TallyCalls(TallyError(t, s), AllToolCalls(s.reasoningSteps))
  }

  /** The tallies over a history of sessions, from empty maps. */
  function TallyAll(ss: seq<AgentSession>): Tallies {
    if ss == [] then Tallies(map[], map[]) else TallySession(TallyAll(ss[..|ss| - 1]), ss[|ss| - 1])
  }

  // ----- the monitor's counters -----

  function SuccessCount(ss: seq<AgentSession>): nat {
    if ss == [] then 0 else SuccessCount(ss[..|ss| - 1]) + (if ss[|ss| - 1].success then 1 else 0)
  }

  function FailureCount(ss: seq<AgentSession>): nat {
    if ss == [] then 0 else FailureCount(ss[..|ss| - 1]) + (if ss[|ss| - 1].success then 0 else 1)
  }

  /** Every recorded session is counted exactly once, as a success or as a failure. */
  lemma {:induction false} SuccessPlusFailure(ss: seq<AgentSession>)
    ensures SuccessCount(ss) + FailureCount(ss) == |ss|
  {
    if ss != [] {
      SuccessPlusFailure(ss[..|ss| - 1]);
    }
  }

  /** The sum of the sessions' `total_tool_calls`. */
  function CallSum(ss: seq<AgentSession>): nat {
    if ss == [] then 0 else CallSum(ss[..|ss| - 1]) + ss[|ss| - 1].totalToolCalls
  }

  /** An entry of `recent_sessions` (its duration and time stamp are clock readings and are left out). */
  datatype SessionSummary = SessionSummary(sessionId: string, query: string, success: bool, toolCalls: nat, error: Option<string>)

  function Summarize(s: AgentSession): (r: SessionSummary)
    ensures r.sessionId == s.sessionId && r.success == s.success && r.toolCalls == s.totalToolCalls && r.error == s.error
    ensures |s.query| <= 100 ==> r.query == s.query
    ensures |s.query| > 100 ==> r.query == s.query[..100] + "..."
  {
    SessionSummary(s.sessionId, Ellipsize(s.query, 100), s.success, s.totalToolCalls, s.error)
  }

  function Summaries(ss: seq<AgentSession>): (r: seq<SessionSummary>)
    ensures |r| == |ss|
    ensures forall k :: 0 <= k < |ss| ==> r[k] == Summarize(ss[k])
  {
    seq(|ss|, k requires 0 <= k < |ss| => Summarize(ss[k]))
  }

  // ----- health -----

  datatype Health = Healthy | Degraded | Unhealthy

  function HealthName(h: Health): string {
    match h
    case Healthy => "healthy"
    case Degraded => "degraded"
    case Unhealthy => "unhealthy"
  }

  /** `successful / total`, and 1.0 when there are no sessions. */
  function SuccessRate(total: nat, successful: nat): (r: real)
    ensures total == 0 ==> r == 1.0
    ensures total > 0 ==> r * (total as real) == successful as real
  {
    if total == 0 then 1.0 else (successful as real) / (total as real)
  }

  /** The status the success rate alone gives. */
  function RateStatus(total: nat, successful: nat): Health {
    if total == 0 then Healthy
    else
      var rate := SuccessRate(total, successful);
      if rate >= 0.9 then Healthy else if rate >= 0.7 then Degraded else Unhealthy
  }

  /** The rate buckets in integers: at least 90% successes is healthy, at least 70% is degraded. */
  lemma RateStatusInIntegers(total: nat, successful: nat)
    requires total > 0
    ensures RateStatus(total, successful) == Healthy <==> 10 * successful >= 9 * total
    ensures RateStatus(total, successful) == Degraded <==> 7 * total <= 10 * successful < 9 * total
    ensures RateStatus(total, successful) == Unhealthy <==> 10 * successful < 7 * total
  {
    var t := total as real;
    var rate := SuccessRate(total, successful);
    assert (rate - 0.9) * t == successful as real - 0.9 * t;
    assert (rate - 0.7) * t == successful as real - 0.7 * t;
    SignOfProduct(rate - 0.9, t);
    SignOfProduct(rate - 0.7, t);
  }

  /** Multiplying by a positive number keeps the sign. */
  lemma SignOfProduct(x: real, t: real)
    requires t > 0.0
    ensures x >= 0.0 <==> x * t >= 0.0
  {
    if x >= 0.0 {
      assert x * t >= 0.0;
    } else {
      assert x * t < 0.0;
    }
  }

  /** More successes out of the same total never give a worse status. */
  lemma RateStatusMonotone(total: nat, s1: nat, s2: nat)
    requires s1 <= s2
    ensures RateStatus(total, s1) == Healthy ==> RateStatus(total, s2) == Healthy
    ensures RateStatus(total, s2) == Unhealthy ==> RateStatus(total, s1) == Unhealthy
  {
    if total > 0 {
      RateStatusInIntegers(total, s1);
      RateStatusInIntegers(total, s2);
    }
  }

  /** The number of failed sessions among the last ten recent ones. */
  function RecentErrors(recent: seq<SessionSummary>): (r: nat)
    ensures r <= |Newest(recent, RecentWindow)|
  {
    FailedSummaries(Newest(recent, RecentWindow))
  }

  function FailedSummaries(xs: seq<SessionSummary>): (r: nat)
    ensures r <= |xs|
  {
    if xs == [] then 0 else FailedSummaries(xs[..|xs| - 1]) + (if xs[|xs| - 1].success then 0 else 1)
  }

  datatype HealthStatus = HealthStatus(status: Health, successRate: real, totalSessions: nat, recentErrors: nat)

  /** `get_health_status` (the average response time is a float and is left out). */
  function HealthOf(total: nat, successful: nat, recent: seq<SessionSummary>): (r: HealthStatus)
    ensures r.totalSessions == total && r.successRate == SuccessRate(total, successful)
    ensures r.recentErrors == RecentErrors(recent) && r.recentErrors <= RecentWindow
    ensures r.recentErrors >= 5 ==> r.status == Unhealthy
    ensures 3 <= r.recentErrors < 5 ==> r.status == Degraded
    ensures r.recentErrors < 3 ==> r.status == RateStatus(total, successful)
    ensures total == 0 && r.recentErrors < 3 ==> r.status == Healthy && r.successRate == 1.0
  {
    var errors := RecentErrors(recent);
    var base := RateStatus(total, successful);
    var status := if errors >= 5 then Unhealthy else if errors >= 3 then Degraded else base;
    HealthStatus(status, SuccessRate(total, successful), total, errors)
  }

  /** Three or more recent failures override even a perfect success rate. */
  lemma RecentFailuresOverride(total: nat, successful: nat, recent: seq<SessionSummary>)
    requires RecentErrors(recent) >= 3
    ensures HealthOf(total, successful, recent).status != Healthy
    ensures HealthOf(total, successful, recent).status == (if RecentErrors(recent) >= 5 then Unhealthy else Degraded)
  {
  }

  /** What `get_stats` returns (the running averages are floats and are left out). */
  datatype MonitorStats = MonitorStats(totalSessions: nat, successfulSessions: nat, failedSessions: nat, totalToolCalls: nat,
                                       toolUsage: map<string, nat>, errors: map<string, nat>, recentSessions: seq<SessionSummary>)

  /** The monitor's fields as one value. */
  datatype MonitorState = MonitorState(totalSessions: nat, successfulSessions: nat, failedSessions: nat, totalToolCalls: nat,
                                       tallies: Tallies, recent: seq<SessionSummary>)

  const Initial := MonitorState(0, 0, 0, 0, Tallies(map[], map[]), [])

  /** What `record_session` makes of the monitor's fields. */
  function Recorded(m: MonitorState, s: AgentSession): MonitorState {
    MonitorState(m.totalSessions + 1,
                 m.successfulSessions + (if s.success then 1 else 0),
                 m.failedSessions + (if s.success then 0 else 1),
                 m.totalToolCalls + s.totalToolCalls,
                 TallySession(m.tallies, s),
                 Newest(m.recent + [Summarize(s)], MaxRecentSessions))
  }

  /** The fields after recording the sessions in order, from a fresh monitor. */
  function Replay(ss: seq<AgentSession>): MonitorState {
    if ss == [] then Initial else Recorded(Replay(ss[..|ss| - 1]), ss[|ss| - 1])
  }

  /** A state whose fields are those `record_session` computes is the recorded state. */
  lemma RecordedFields(m: MonitorState, s: AgentSession, r: MonitorState)
    requires r.totalSessions == m.totalSessions + 1
    requires r.successfulSessions == m.successfulSessions + (if s.success then 1 else 0)
    requires r.failedSessions == m.failedSessions + (if s.success then 0 else 1)
    requires r.totalToolCalls == m.totalToolCalls + s.totalToolCalls
    requires r.tallies == TallySession(m.tallies, s)
    requires r.recent == Newest(m.recent + [Summarize(s)], MaxRecentSessions)
    ensures r == Recorded(m, s)
  {
  }

  lemma ReplaySnoc(ss: seq<AgentSession>, s: AgentSession)
    ensures Replay(ss + [s]) == Recorded(Replay(ss), s)
  {
    assert (ss + [s])[..|ss|] == ss;
  }

  /**
   * The fields as functions of the recorded history: the counters count the
   * sessions, the tallies count their errors and calls, and the recent list
   * holds the summaries of the newest 100 sessions.
   */
  lemma {:induction false} ReplayFacts(ss: seq<AgentSession>)
    ensures Replay(ss).totalSessions == |ss|
    ensures Replay(ss).successfulSessions == SuccessCount(ss)
    ensures Replay(ss).failedSessions == FailureCount(ss)
    ensures Replay(ss).totalToolCalls == CallSum(ss)
    ensures Replay(ss).tallies == TallyAll(ss)
    ensures Replay(ss).recent == Newest(Summaries(ss), MaxRecentSessions)
  {
    ReplayCounts(ss);
    ReplayTallies(ss);
    ReplayRecent(ss);
  }

  lemma {:induction false} ReplayCounts(ss: seq<AgentSession>)
    ensures Replay(ss).totalSessions == |ss|
    ensures Replay(ss).successfulSessions == SuccessCount(ss)
    ensures Replay(ss).failedSessions == FailureCount(ss)
    ensures Replay(ss).totalToolCalls == CallSum(ss)
  {
    if ss != [] {
      ReplayCounts(ss[..|ss| - 1]);
    }
  }

  lemma {:induction false} ReplayTallies(ss: seq<AgentSession>)
    ensures Replay(ss).tallies == TallyAll(ss)
  {
    if ss != [] {
      ReplayTallies(ss[..|ss| - 1]);
    }
  }

  lemma {:induction false} ReplayRecent(ss: seq<AgentSession>)
    ensures Replay(ss).recent == Newest(Summaries(ss), MaxRecentSessions)
  {
    if ss != [] {
      var init := ss[..|ss| - 1];
      ReplayRecent(init);
      NewestAppend(Summaries(init), Summarize(ss[|ss| - 1]), MaxRecentSessions);
      SummariesSnoc(ss);
    }
  }

  lemma SummariesSnoc(ss: seq<AgentSession>)
    requires ss != []
    ensures Summaries(ss) == Summaries(ss[..|ss| - 1]) + [Summarize(ss[|ss| - 1])]
  {
    var r := Summaries(ss[..|ss| - 1]) + [Summarize(ss[|ss| - 1])];
    assert forall k :: 0 <= k < |ss| ==> r[k] == Summarize(ss[k]);
  }

  /** The invariant the monitor keeps: every session is a success or a failure, and at most 100 are kept. */
  predicate Consistent(m: MonitorState) {
    m.totalSessions == m.successfulSessions + m.failedSessions && |m.recent| <= MaxRecentSessions
  }

  lemma RecordedConsistent(m: MonitorState, s: AgentSession)
    requires Consistent(m)
    ensures Consistent(Recorded(m, s))
    ensures Last(Recorded(m, s).recent) == Summarize(s)
  {
  }

  /** Every state a fresh monitor reaches is consistent. */
  lemma ReplayConsistent(ss: seq<AgentSession>)
    ensures Consistent(Replay(ss))
  {
    ReplayFacts(ss);
    SuccessPlusFailure(ss);
  }

  lemma TallyCallsSnoc(start: Tallies, done: seq<ToolCall>, calls: seq<ToolCall>, j: int)
    requires 0 <= j < |calls|
    ensures TallyCalls(start, done + calls[..j + 1]) == TallyCall(TallyCalls(start, done + calls[..j]), calls[j])
  {
    assert (done + calls[..j + 1])[..|done + calls[..j]|] == done + calls[..j];
  }

  /** The tallies as the nested loops of `record_session` update them, one call at a time. */
  method CountCalls(start: Tallies, steps: seq<ReasoningStep>) returns (r: Tallies)
    ensures r == TallyCalls(start, AllToolCalls(steps))
  {
    var usage, errors := start.toolUsage, start.errors;
    for i := 0 to |steps|
      invariant Tallies(usage, errors) == TallyCalls(start, AllToolCalls(steps[..i]))
    {
      var calls := steps[i].toolCalls;
      ghost var done := AllToolCalls(steps[..i]);
      assert done + calls[..0] == done;
      for j := 0 to |calls|
        invariant Tallies(usage, errors) == TallyCalls(start, done + calls[..j])
      {
        TallyCallsSnoc(start, done, calls, j);
        if calls[j].success {
          usage := Bump(usage, calls[j].toolName);
        } else {
          errors := Bump(errors, ToolErrorKey(calls[j].toolName));
        }
      }
      assert steps[..i + 1][..i] == steps[..i];
      assert calls[..|calls|] == calls;
    }
    assert steps[..|steps|] == steps;
    r := Tallies(usage, errors);
  }

  /**
   * `AgentMonitor`. Recording a session changes its fields as `Recorded`
   * says, so after any sequence of sessions they are `Replay` of it, as
   * `ReplayFacts` spells out.
   */
  class AgentMonitor {
    var totalSessions: nat
    var successfulSessions: nat
    var failedSessions: nat
    var totalToolCalls: nat
    var toolUsage: map<string, nat>
    var errorStats: map<string, nat>
    var recentSessions: seq<SessionSummary>

    function State(): MonitorState
      reads this
    {
      MonitorState(totalSessions, successfulSessions, failedSessions, totalToolCalls, Tallies(toolUsage, errorStats), recentSessions)
    }

    ghost predicate Valid()
      reads this
    {
      Consistent(State())
    }

    constructor()
      ensures totalSessions == 0 && successfulSessions == 0 && failedSessions == 0 && totalToolCalls == 0
      ensures toolUsage == map[] && errorStats == map[] && recentSessions == []
    {
      totalSessions, successfulSessions, failedSessions, totalToolCalls := 0, 0, 0, 0;
      toolUsage, errorStats := map[], map[];
      recentSessions := [];
    }

    /** `record_session`. */
    method RecordSession(session: AgentSession)
      requires Valid()
      modifies this
      ensures Valid()
      ensures State() == Recorded(old(State()), session)
    {
      ghost var before := State();
      totalSessions := totalSessions + 1;
      if session.success {
        successfulSessions := successfulSessions + 1;
      } else {
        failedSessions := failedSessions + 1;
        if session.error.Some? && session.error.value != "" {
          errorStats := Bump(errorStats, session.error.value);
        }
      }
      totalToolCalls := totalToolCalls + session.totalToolCalls;
      assert Tallies(toolUsage, errorStats) == TallyError(before.tallies, session);
      CountToolCalls(session.reasoningSteps);
      recentSessions := recentSessions + [Summarize(session)];
      if |recentSessions| > MaxRecentSessions {
        recentSessions := recentSessions[|recentSessions| - MaxRecentSessions..];
      }
      RecordedFields(before, session, State());
      RecordedConsistent(before, session);
    }

    /** The loop of `record_session` over every tool call of every step. */
    method CountToolCalls(steps: seq<ReasoningStep>)
      modifies this`toolUsage, this`errorStats
      ensures Tallies(toolUsage, errorStats) == TallyCalls(Tallies(old(toolUsage), old(errorStats)), AllToolCalls(steps))
    {
      var counted := CountCalls(Tallies(toolUsage, errorStats), steps);
      toolUsage, errorStats := counted.toolUsage, counted.errors;
    }

    /** `get_stats`: the counters, the tallies and the ten newest summaries. */
    function Stats(): (r: MonitorStats)
      reads this
      ensures |r.recentSessions| <= RecentWindow
      ensures r.recentSessions == Newest(recentSessions, RecentWindow)
      ensures Valid() ==> r.totalSessions == r.successfulSessions + r.failedSessions
    {
      MonitorStats(totalSessions, successfulSessions, failedSessions, totalToolCalls, toolUsage, errorStats,
                   Newest(recentSessions, RecentWindow))
    }

    /** `get_health_status`. */
    function Health(): (r: HealthStatus)
      reads this
      ensures r == HealthOf(totalSessions, successfulSessions, recentSessions)
    {
      HealthOf(totalSessions, successfulSessions, recentSessions)
    }
  }

  /** After any history, the ten newest summaries `get_stats` shows are those of the ten newest sessions. */
  lemma StatsShowNewest(ss: seq<AgentSession>)
    ensures Newest(Replay(ss).recent, RecentWindow) == Newest(Summaries(ss), RecentWindow)
  {
    ReplayFacts(ss);
    NewestOfNewest(Summaries(ss), MaxRecentSessions, RecentWindow);
  }

  // ----- the service -----

  /** `settings.GEMINI_MODEL.endswith("flash") and 5 or 3`. */
  function MaxIterationsFor(model: string): (r: nat)
    ensures r == 5 <==> EndsWith(model, "flash")
    ensures r == 3 <==> !EndsWith(model, "flash")
  {
    if EndsWith(model, "flash") then 5 else 3
  }

  /** A value of `active_sessions`: the session and when it was last active. */
  datatype Active = Active(session: AgentSession, lastActivity: int)

  /** No key occurs twice. */
  predicate Distinct(keys: seq<string>) {
    forall i, j :: 0 <= i < j < |keys| ==> keys[i] != keys[j]
  }

  /**
   * A Python dict is a map together with the order its keys were inserted
   * in: `order` lists every key of `m` exactly once.
   */
  ghost predicate KeyOrder(order: seq<string>, m: map<string, Active>) {
    Distinct(order) && forall id :: id in order <==> id in m
  }

  /** The keys of `order` that are in `keep`, in order. */
  function Keep(order: seq<string>, keep: set<string>): (r: seq<string>)
    ensures forall id :: id in r <==> id in order && id in keep
    ensures |r| <= |order|
  {
    if order == [] then []
    else
      var init := order[..|order| - 1];
      assert order == init + [Last(order)];
      Keep(init, keep) + (if Last(order) in keep then [Last(order)] else [])
  }

  /** Filtering keeps the keys distinct. */
  lemma {:induction false} KeepDistinct(order: seq<string>, keep: set<string>)
    requires Distinct(order)
    ensures Distinct(Keep(order, keep))
  {
    if order != [] {
      var init := order[..|order| - 1];
      assert order == init + [Last(order)];
      assert Last(order) !in init;
      KeepDistinct(init, keep);
    }
  }

  /** Filtering twice is filtering by both. */
  lemma {:induction false} KeepKeep(order: seq<string>, a: set<string>, b: set<string>)
    ensures Keep(Keep(order, a), b) == Keep(order, a * b)
  {
    if order != [] {
      var init := order[..|order| - 1];
      var x := Last(order);
      KeepKeep(init, a, b);
      var k := Keep(init, a);
      assert Keep(order, a * b) == Keep(init, a * b) + (if x in a * b then [x] else []);
      if x in a {
        assert Keep(order, a) == k + [x];
        assert (k + [x])[..|k|] == k;
        assert Keep(k + [x], b) == Keep(k, b) + (if x in b then [x] else []);
      } else {
        assert Keep(order, a) == k;
      }
    }
  }

  /** Filtering by a set that holds every key changes nothing. */
  lemma {:induction false} KeepAll(order: seq<string>, keep: set<string>)
    requires forall id :: id in order ==> id in keep
    ensures Keep(order, keep) == order
  {
    if order != [] {
      var init := order[..|order| - 1];
      assert order == init + [Last(order)];
      KeepAll(init, keep);
    }
  }

  /** The key order after `active_sessions[id] = v`: an existing key keeps its place, a new one goes last. */
  function StoreKey(order: seq<string>, m: map<string, Active>, id: string): seq<string> {
    if id in m then order else order + [id]
  }

  /** Storing keeps the key order, whatever the value is. */
  lemma StoreKeyOrder(order: seq<string>, m: map<string, Active>, id: string, v: Active)
    requires KeyOrder(order, m)
    ensures KeyOrder(StoreKey(order, m, id), m[id := v])
    ensures id in m ==> StoreKey(order, m, id) == order
    ensures id !in m ==> StoreKey(order, m, id) == order + [id]
  {
    if id !in m {
      var r := order + [id];
      assert forall i :: 0 <= i < |order| ==> r[i] == order[i];
    }
  }

  /** An empty dict has the empty key order. */
  lemma EmptyKeyOrder()
    ensures KeyOrder([], map[])
  {
  }

  // ----- the expiry sweep -----

  /** `current_time - last_activity > session_timeout`: idle for strictly more than 30 minutes. */
  predicate Expired(a: Active, now: int) {
    now - a.lastActivity > SessionTimeout
  }

  /** The sessions the sweep keeps: those idle for at most 30 minutes, unchanged. */
  function Fresh(m: map<string, Active>, now: int): (r: map<string, Active>)
    ensures forall id :: id in r <==> id in m && !Expired(m[id], now)
    ensures forall id :: id in r ==> r[id] == m[id]
  {
    map id | id in m && !Expired(m[id], now) :: m[id]
  }

  /** The keys the first loop of `_cleanup_expired_sessions` collects, in iteration order. */
  function ExpiredKeys(order: seq<string>, m: map<string, Active>, now: int): (r: seq<string>)
    ensures forall id :: id in r <==> id in order && id in m && Expired(m[id], now)
  {
    if order == [] then []
    else
      var init := order[..|order| - 1];
      var id := Last(order);
      assert order == init + [id];
      ExpiredKeys(init, m, now) + (if id in m && Expired(m[id], now) then [id] else [])
  }

  /** `m` after `del m[id]` for every `id` of `keys` in turn. */
  function Deleting(m: map<string, Active>, keys: seq<string>): map<string, Active> {
    if keys == [] then m else Deleting(m, keys[..|keys| - 1]) - {Last(keys)}
  }

  lemma DeletingSnoc(m: map<string, Active>, keys: seq<string>, j: nat)
    requires j < |keys|
    ensures Deleting(m, keys[..j + 1]) == Deleting(m, keys[..j]) - {keys[j]}
  {
    assert keys[..j + 1][..j] == keys[..j];
  }

  /** Deleting takes out exactly the listed keys and leaves the other values alone. */
  lemma {:induction false} DeletingFacts(m: map<string, Active>, keys: seq<string>)
    ensures forall id :: id in Deleting(m, keys) <==> id in m && id !in keys
    ensures forall id :: id in Deleting(m, keys) ==> Deleting(m, keys)[id] == m[id]
  {
    if keys != [] {
      var init := keys[..|keys| - 1];
      assert keys == init + [Last(keys)];
      DeletingFacts(m, init);
    }
  }

  /** `del m[id]` keeps the key order, which stays the original order filtered by the remaining keys. */
  lemma DeleteKey(order: seq<string>, o: seq<string>, m: map<string, Active>, id: string)
    requires KeyOrder(o, m) && o == Keep(order, m.Keys) && id in m
    ensures KeyOrder(Keep(o, m.Keys - {id}), m - {id})
    ensures Keep(o, m.Keys - {id}) == Keep(order, (m - {id}).Keys)
  {
    KeepDistinct(o, m.Keys - {id});
    KeepKeep(order, m.Keys, m.Keys - {id});
    assert m.Keys * (m.Keys - {id}) == (m - {id}).Keys;
  }

  /** The second loop of `_cleanup_expired_sessions`: `del active_sessions[id]` for every collected key. */
  method DeleteKeys(m: map<string, Active>, order: seq<string>, keys: seq<string>)
    returns (m': map<string, Active>, order': seq<string>)
    requires KeyOrder(order, m)
    requires Distinct(keys) && forall id :: id in keys ==> id in m
    ensures m' == Deleting(m, keys)
    ensures KeyOrder(order', m') && order' == Keep(order, m'.Keys)
  {
    m', order' := m, order;
    KeepAll(order, m.Keys);
    for j := 0 to |keys|
      invariant m' == Deleting(m, keys[..j])
      invariant KeyOrder(order', m') && order' == Keep(order, m'.Keys)
      invariant forall k :: j <= k < |keys| ==> keys[k] in m'
    {
      var id := keys[j];
      DeletingSnoc(m, keys, j);
      DeleteKey(order, order', m', id);
      order' := Keep(order', m'.Keys - {id});
      m' := m' - {id};
    }
    assert keys[..|keys|] == keys;
  }

  /** The dict's keys are distinct, so the collected keys are too. */
  lemma {:induction false} ExpiredKeysDistinct(order: seq<string>, m: map<string, Active>, now: int)
    requires Distinct(order)
    ensures Distinct(ExpiredKeys(order, m, now))
  {
    if order != [] {
      var init := order[..|order| - 1];
      var id := Last(order);
      assert order == init + [id];
      assert id !in init;
      ExpiredKeysDistinct(init, m, now);
    }
  }

  /** Deleting exactly the collected keys leaves the sessions that are not expired. */
  lemma SweptIsFresh(m0: map<string, Active>, m1: map<string, Active>, order: seq<string>, now: int)
    requires KeyOrder(order, m0)
    requires forall id :: id in m1 <==> id in m0 && id !in ExpiredKeys(order, m0, now)
    requires forall id :: id in m1 ==> m1[id] == m0[id]
    ensures m1 == Fresh(m0, now)
  {
  }

  // ----- responses -----

  /** One entry of `detailed_reasoning`. */
  datatype StepView = StepView(step: nat, thought: string, action: Option<string>, observation: Option<string>, toolsUsed: seq<string>)

  function ViewStep(s: ReasoningStep): StepView {
    StepView(s.stepNumber, s.thought, s.action, s.observation, ToolsUsed(s.toolCalls))
  }

  /** The response of `AgentService.process_query` (its duration and time stamp are clock readings and are left out). */
  datatype Response = Response(sessionId: string, query: string, answer: Option<string>, success: bool, error: Option<string>,
                               reasoningSteps: nat, toolCalls: nat, detailedReasoning: seq<StepView>)

  /** The response for a finished session. */
  function ResponseOf(s: AgentSession): (r: Response)
    ensures r.sessionId == s.sessionId && r.query == s.query && r.answer == s.finalAnswer
    ensures r.success == s.success && r.error == s.error && r.toolCalls == s.totalToolCalls
    ensures r.reasoningSteps == |s.reasoningSteps| == |r.detailedReasoning|
    ensures forall k :: 0 <= k < |s.reasoningSteps| ==>
              r.detailedReasoning[k].step == s.reasoningSteps[k].stepNumber
              && r.detailedReasoning[k].toolsUsed == ToolsUsed(s.reasoningSteps[k].toolCalls)
  {
    var views := seq(|s.reasoningSteps|, k requires 0 <= k < |s.reasoningSteps| => ViewStep(s.reasoningSteps[k]));
    Response(s.sessionId, s.query, s.finalAnswer, s.success, s.error, |s.reasoningSteps|, s.totalToolCalls, views)
  }

  /** `session_id or f"error_{stamp}"`. */
  function ErrorSessionId(given: Option<string>, stamp: string): (r: string)
    ensures Present(given) ==> r == given.value
    ensures !Present(given) ==> StartsWith(r, "error_")
  {
    if Present(given) then given.value else "error_" + stamp
  }

  /** The session recorded when running the query raised. */
  function ErrorSession(given: Option<string>, stamp: string, query: string, message: string): (r: AgentSession)
    ensures !r.success && r.error == Some(message) && r.reasoningSteps == [] && r.totalToolCalls == 0 && r.finalAnswer.None?
    ensures r.sessionId == ErrorSessionId(given, stamp) && r.query == query
    ensures ResponseOf(r) == ErrorResponse(r.sessionId, query, message)
  {
    var r := AgentSession(ErrorSessionId(given, stamp), query, [], None, 0, false, Some(message));
    assert ResponseOf(r).detailedReasoning == [];
    r
  }

  /** The response when running the query raised. */
  function ErrorResponse(id: string, query: string, message: string): (r: Response)
    ensures r.sessionId == id && r.query == query && r.error == Some(message)
    ensures !r.success && r.answer.None? && r.reasoningSteps == 0 && r.toolCalls == 0 && r.detailedReasoning == []
  {
    Response(id, query, None, false, Some(message), 0, 0, [])
  }

  /** The error response is what the recorded error session would give. */
  lemma ErrorResponseOfSession(given: Option<string>, stamp: string, query: string, message: string)
    ensures ErrorResponse(ErrorSessionId(given, stamp), query, message) == ResponseOf(ErrorSession(given, stamp, query, message))
  {
    var r := ResponseOf(ErrorSession(given, stamp, query, message));
    assert r.detailedReasoning == [];
  }

  /** The session `process_query_streaming` rebuilds from a `session_complete` update: the steps are not carried over. */
  function Rebuilt(s: AgentSession): (r: AgentSession)
    ensures r.reasoningSteps == [] && r.totalToolCalls == s.totalToolCalls && r.query == s.query
    ensures r.sessionId == s.sessionId && r.success == s.success && r.error == s.error && r.finalAnswer == s.finalAnswer
  {
    AgentSession(s.sessionId, s.query, [], s.finalAnswer, s.totalToolCalls, s.success, s.error)
  }

  /** The session of the last `session_complete` update, rebuilt. */
  function LastCompleted(events: seq<Event>): (r: Option<AgentSession>)
    ensures r.None? <==> forall k :: 0 <= k < |events| ==> !events[k].SessionCompleted?
    ensures r.Some? ==> exists k :: 0 <= k < |events| && events[k].SessionCompleted? && r.value == Rebuilt(events[k].session)
                                   && forall j :: k < j < |events| ==> !events[j].SessionCompleted?
  {
    if events == [] then None
    else if Last(events).SessionCompleted? then Some(Rebuilt(Last(events).session))
    else
      var init := events[..|events| - 1];
      var r := LastCompleted(init);
      assert forall k :: 0 <= k < |init| ==> events[k] == init[k];
      if r.None? then r
      else
        var k :| 0 <= k < |init| && init[k].SessionCompleted? && r.value == Rebuilt(init[k].session)
                 && forall j :: k < j < |init| ==> !init[j].SessionCompleted?;
        assert forall j :: k < j < |events| ==> !events[j].SessionCompleted?;
        r
  }

  /** A summary of `list_active_sessions` (the session start is a clock reading and is left out). */
  datatype ActiveSummary = ActiveSummary(sessionId: string, query: string, success: bool, toolCalls: nat, lastActivity: int)

  function SummarizeActive(id: string, a: Active): ActiveSummary {
    ActiveSummary(id, Ellipsize(a.session.query, 100), a.session.success, a.session.totalToolCalls, a.lastActivity)
  }

  /** One summary per key, in key order. */
  function ActiveSummaries(order: seq<string>, m: map<string, Active>): (r: seq<ActiveSummary>)
    requires forall id :: id in order ==> id in m
    ensures |r| == |order|
    ensures forall k :: 0 <= k < |order| ==> r[k] == SummarizeActive(order[k], m[order[k]])
  {
    seq(|order|, k requires 0 <= k < |order| => SummarizeActive(order[k], m[order[k]]))
  }

  /** The sort key of the listing: the last activity (its ISO text sorts as the instant does). */
  function ByLastActivity(s: ActiveSummary): StableSort.Key {
    (s.lastActivity, 0)
  }

  /** `get_monitoring_stats` (the configured temperature and the tool names are constants and are left out). */
  datatype MonitoringStats = MonitoringStats(health: HealthStatus, statistics: MonitorStats, activeSessions: nat, maxIterations: nat)

  /** `AgentService`: the monitor and the sessions kept in memory, with their insertion order. */
  class AgentService {
    const maxIterations: nat
    const monitor: AgentMonitor
    var activeSessions: map<string, Active>
    var order: seq<string>

    ghost predicate Valid()
      reads this, monitor
    {
      monitor.Valid() && KeyOrder(order, activeSessions)
    }

    constructor(model: string)
      ensures Valid() && fresh(monitor)
      ensures maxIterations == MaxIterationsFor(model)
      ensures activeSessions == map[] && order == [] && monitor.totalSessions == 0
    {
      maxIterations := MaxIterationsFor(model);
      monitor := new AgentMonitor();
      activeSessions := map[];
      order := [];
      new;
      EmptyKeyOrder();
    }

    /** `active_sessions[id] = Active(session, at)`. */
    method Store(id: string, session: AgentSession, at: int)
      requires Valid()
      modifies this`activeSessions, this`order
      ensures Valid()
      ensures activeSessions == old(activeSessions)[id := Active(session, at)]
      ensures order == StoreKey(old(order), old(activeSessions), id)
    {
      StoreKeyOrder(order, activeSessions, id, Active(session, at));
      order := StoreKey(order, activeSessions, id);
      activeSessions := activeSessions[id := Active(session, at)];
    }

    /** `del active_sessions[id]` for a present key. */
    method Delete(id: string)
      requires Valid() && id in activeSessions
      modifies this`activeSessions, this`order
      ensures Valid()
      ensures activeSessions == old(activeSessions) - {id}
      ensures order == Keep(old(order), old(activeSessions).Keys - {id})
    {
      KeepDistinct(order, activeSessions.Keys - {id});
      order := Keep(order, activeSessions.Keys - {id});
      activeSessions := activeSessions - {id};
    }

    /** The first loop of `_cleanup_expired_sessions`: the expired keys, in iteration order. */
    method CollectExpired(now: int) returns (expired: seq<string>)
      requires Valid()
      ensures expired == ExpiredKeys(order, activeSessions, now)
    {
      expired := [];
      for i := 0 to |order|
        invariant expired == ExpiredKeys(order[..i], activeSessions, now)
      {
        assert order[..i + 1][..i] == order[..i];
        var id := order[i];
        if now - activeSessions[id].lastActivity > SessionTimeout {
          expired := expired + [id];
        }
      }
      assert order[..|order|] == order;
    }

    /** `_cleanup_expired_sessions`: drop every session idle for more than 30 minutes. */
    method CleanupExpiredSessions(now: int)
      requires Valid()
      modifies this`activeSessions, this`order
      ensures Valid()
      ensures activeSessions == Fresh(old(activeSessions), now)
      ensures order == Keep(old(order), Fresh(old(activeSessions), now).Keys)
    {
      var expired := CollectExpired(now);
      ExpiredKeysDistinct(order, activeSessions, now);
      ghost var m0, o0 := activeSessions, order;
      activeSessions, order := DeleteKeys(activeSessions, order, expired);
      DeletingFacts(m0, expired);
      SweptIsFresh(m0, activeSessions, o0, now);
    }

    /** `process_query`: sweep, run, record, keep the session, answer. */
    method ProcessQuery(query: string, given: Option<string>, run: Outcome<AgentSession>, stamp: string, now: int, finished: int)
      returns (response: Response)
      requires Valid()
      modifies this, monitor
      ensures Valid()
      ensures run.Returned? ==> response == ResponseOf(run.result)
      ensures run.Raised? ==> response == ErrorResponse(ErrorSessionId(given, stamp), query, run.message)
      ensures monitor.State() == Recorded(old(monitor.State()),
                                          if run.Returned? then run.result else ErrorSession(given, stamp, query, run.message))
      ensures run.Returned? && run.result.sessionId != "" ==>
                activeSessions == Fresh(old(activeSessions), now)[run.result.sessionId := Active(run.result, finished)]
      ensures !(run.Returned? && run.result.sessionId != "") ==> activeSessions == Fresh(old(activeSessions), now)
      ensures run.Returned? && run.result.sessionId != "" ==>
                order == StoreKey(Keep(old(order), Fresh(old(activeSessions), now).Keys),
                                  Fresh(old(activeSessions), now), run.result.sessionId)
      ensures !(run.Returned? && run.result.sessionId != "") ==>
                order == Keep(old(order), Fresh(old(activeSessions), now).Keys)
    {
      CleanupExpiredSessions(now);
      match run
      case Returned(session) =>
        monitor.RecordSession(session);
        if session.sessionId != "" {
          Store(session.sessionId, session, finished);
        }
        response := ResponseOf(session);
      case Raised(message) =>
        var errorSession := ErrorSession(given, stamp, query, message);
        monitor.RecordSession(errorSession);
        response := ErrorResponse(errorSession.sessionId, query, message);
    }

    /**
     * `process_query_streaming`: every update of the agent is passed on; the
     * session of the last `session_complete` update, rebuilt without its
     * steps, is recorded and kept.
     */
    method ProcessQueryStreaming(events: seq<Event>, now: int, finished: int) returns (updates: seq<Event>)
      requires Valid()
      modifies this, monitor
      ensures Valid()
      ensures updates == events
      ensures LastCompleted(events).None? ==>
                monitor.State() == old(monitor.State()) && activeSessions == Fresh(old(activeSessions), now)
      ensures LastCompleted(events).Some? ==>
                var s := LastCompleted(events).value;
                monitor.State() == Recorded(old(monitor.State()), s)
                && activeSessions == Fresh(old(activeSessions), now)[s.sessionId := Active(s, finished)]
      ensures LastCompleted(events).None? ==> order == Keep(old(order), Fresh(old(activeSessions), now).Keys)
      ensures LastCompleted(events).Some? ==>
                order == StoreKey(Keep(old(order), Fresh(old(activeSessions), now).Keys),
                                  Fresh(old(activeSessions), now), LastCompleted(events).value.sessionId)
    {
      CleanupExpiredSessions(now);
      var session: Option<AgentSession> := None;
      updates := [];
      for i := 0 to |events|
        invariant session == LastCompleted(events[..i])
        invariant updates == events[..i]
      {
        var update := events[i];
        assert events[..i + 1][..i] == events[..i];
        if update.SessionCompleted? {
          var s := update.session;
          session := Some(AgentSession(s.sessionId, s.query, [], s.finalAnswer, s.totalToolCalls, s.success, s.error));
        }
        updates := updates + [update];
      }
      assert events[..|events|] == events;
      if session.Some? {
        monitor.RecordSession(session.value);
        Store(session.value.sessionId, session.value, finished);
      }
    }

    /** `get_session`. */
    function GetSession(id: string): (r: Option<Active>)
      reads this
      ensures r.None? <==> id !in activeSessions
      ensures r.Some? ==> r.value == activeSessions[id]
    {
      if id in activeSessions then Some(activeSessions[id]) else None
    }

    /** `list_active_sessions`: sweep, summarise in key order, then sort by last activity, newest first. */
    method ListActiveSessions(now: int) returns (listed: seq<ActiveSummary>)
      requires Valid()
      modifies this`activeSessions, this`order
      ensures Valid()
      ensures activeSessions == Fresh(old(activeSessions), now)
      ensures order == Keep(old(order), Fresh(old(activeSessions), now).Keys)
      ensures listed == StableSort.Sort(ByLastActivity, true, ActiveSummaries(order, activeSessions))
    {
      CleanupExpiredSessions(now);
      var sessions: seq<ActiveSummary> := [];
      for i := 0 to |order|
        invariant sessions == ActiveSummaries(order[..i], activeSessions)
      {
        var id := order[i];
        var a := activeSessions[id];
        sessions := sessions + [ActiveSummary(id, Ellipsize(a.session.query, 100), a.session.success,
                                              a.session.totalToolCalls, a.lastActivity)];
      }
      assert order[..|order|] == order;
      listed := StableSort.Sort(ByLastActivity, true, sessions);
    }

    /** `clear_session`. */
    method ClearSession(id: string) returns (cleared: bool)
      requires Valid()
      modifies this`activeSessions, this`order
      ensures Valid()
      ensures cleared <==> id in old(activeSessions)
      ensures activeSessions == old(activeSessions) - {id}
      ensures order == Keep(old(order), old(activeSessions).Keys - {id})
    {
      if id in activeSessions {
        Delete(id);
        cleared := true;
      } else {
        KeepAll(order, activeSessions.Keys - {id});
        cleared := false;
      }
    }

    /** `clear_all_sessions`. */
    method ClearAllSessions() returns (count: nat)
      requires Valid()
      modifies this`activeSessions, this`order
      ensures Valid()
      ensures count == |old(activeSessions)| && activeSessions == map[] && order == []
    {
      count := |activeSessions|;
      activeSessions := map[];
      order := [];
    }

    /** `get_monitoring_stats`. */
    function MonitoringStatsOf(): (r: MonitoringStats)
      reads this, monitor
      ensures r.health == monitor.Health() && r.statistics == monitor.Stats()
      ensures r.activeSessions == |activeSessions| && r.maxIterations == maxIterations
    {
      MonitoringStats(monitor.Health(), monitor.Stats(), |activeSessions|, maxIterations)
    }
  }

  /** The listing is newest first, keeps every session, and keeps ties in key order. */
  lemma ListingOrder(order: seq<string>, m: map<string, Active>, at: int)
    requires forall id :: id in order ==> id in m
    ensures StableSort.Ordered(ByLastActivity, true, StableSort.Sort(ByLastActivity, true, ActiveSummaries(order, m)))
    ensures multiset(StableSort.Sort(ByLastActivity, true, ActiveSummaries(order, m))) == multiset(ActiveSummaries(order, m))
    ensures StableSort.WithKey(ByLastActivity, (at, 0), StableSort.Sort(ByLastActivity, true, ActiveSummaries(order, m)))
            == StableSort.WithKey(ByLastActivity, (at, 0), ActiveSummaries(order, m))
  {
    StableSort.SortOrdered(ByLastActivity, true, ActiveSummaries(order, m));
    StableSort.SortStable(ByLastActivity, true, (at, 0), ActiveSummaries(order, m));
  }

  /** A key order has one key per session. */
  lemma {:induction false} KeyOrderSize(order: seq<string>, m: map<string, Active>)
    requires KeyOrder(order, m)
    ensures |order| == |m|
    decreases |order|
  {
    if order == [] {
      assert m == map[];
    } else {
      var init := order[..|order| - 1];
      var id := Last(order);
      assert order == init + [id];
      assert id !in init;
      assert KeyOrder(init, m - {id});
      KeyOrderSize(init, m - {id});
    }
  }
}
