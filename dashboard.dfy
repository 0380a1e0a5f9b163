/**
  The control flow of app.py around one analysis run: the credential check
  and construction order inside `run_analysis`, and the two session-state
  entries (`analysis_result`, `running`) that the "Run Analysis" button
  guards and updates. Widgets and rendering are not modelled; the date
  range only feeds task text and is left out; `crew.kickoff` is a
  parameter that either returns some output or raises.
 */
module Dashboard {
  import opened Wrappers
  import opened Setup
  import opened Aggregator

  const DATA_ANALYST := "Customer Support Data Analyst"
  const PROCESS_OPTIMIZER := "Process Optimization Specialist"
  const REPORT_WRITER := "Executive Report Writer"
  const SUPPORT_DATA_TOOL := "CustomerSupportDataTool"

  /** An object `run_analysis` constructs or a call it makes into crewai, in program order. */
  datatype Step =
    | LlmBuilt(config: LlmConfig)
    | SupportDataToolBuilt
    | AgentBuilt(role: string)
    | TaskBuilt(agentRole: string)
    | CrewBuilt(agentRoles: seq<string>, taskAgents: seq<string>, process: Process)
    | KickoffCalled

  /** What `crew.kickoff(...)` does: return some output, or raise. */
  datatype Kickoff = Completes(output: CrewOutput) | Fails

  /** Why `run_analysis` raised. */
  datatype RunError =
    | MissingApiKey            // the ValueError of the credential check
    | UndefinedName(name: string)  // a NameError
    | KickoffRaised            // whatever crewai raised from kickoff

  /** How a call of `run_analysis` ends. */
  datatype RunOutcome = Returned(report: Report) | Raised(error: RunError)

  /** The steps of a run that gets past the credential check, in program order. */
  function FullRun(config: LlmConfig): (steps: seq<Step>)
    ensures |steps| == 10 && steps[0] == LlmBuilt(config) && steps[9] == KickoffCalled
  {
    [ LlmBuilt(config), SupportDataToolBuilt,
      AgentBuilt(DATA_ANALYST), AgentBuilt(PROCESS_OPTIMIZER), AgentBuilt(REPORT_WRITER),
      TaskBuilt(DATA_ANALYST), TaskBuilt(PROCESS_OPTIMIZER), TaskBuilt(REPORT_WRITER),
      CrewBuilt([DATA_ANALYST, PROCESS_OPTIMIZER, REPORT_WRITER],
                [DATA_ANALYST, PROCESS_OPTIMIZER, REPORT_WRITER], Sequential),
      KickoffCalled ]
  }

  /** How `run_analysis` ends once the support-data tool can be built. */
  function AnalysisOutcome(apiKey: Option<string>, kickoff: Kickoff, loads: string -> Option<Json>): RunOutcome {
    if !ApiKeySet(apiKey) then Raised(MissingApiKey)
    else match kickoff
      case Fails => Raised(KickoffRaised)
      case Completes(output) => Returned(Formatted(output, loads))
  }

  /**
    `run_analysis` as app.py has it: line 85 calls `CustomerSupportDataTool()`,
    a name app.py neither defines nor imports, so every run that passes the
    credential check raises NameError right after building the LLM.
   */
  method RunAnalysisAsWritten(apiKey: Option<string>, temperature: real) returns (outcome: RunOutcome, steps: seq<Step>)
    ensures outcome == AnalysisOutcomeAsWritten(apiKey)
    ensures !ApiKeySet(apiKey) ==> outcome == Raised(MissingApiKey) && steps == []
    ensures ApiKeySet(apiKey) ==>
      outcome == Raised(UndefinedName(SUPPORT_DATA_TOOL))
      && steps == [LlmBuilt(LlmConfig(GEMINI_MODEL, apiKey.value, temperature))]
  {
    steps := [];
    var llm := ConfigureGemini(apiKey, temperature);
    if llm.Failure? {
      outcome := Raised(MissingApiKey);
      return;
    }
    steps := steps + [LlmBuilt(llm.value)];
    outcome := Raised(UndefinedName(SUPPORT_DATA_TOOL));
  }

  /**
    `run_analysis` with the support-data tool available: credential check,
    LLM, tool, three agents, three tasks, a sequential crew, kickoff, then
    the result formatter. A missing or empty key raises before anything is
    constructed.
   */
  method RunAnalysis(apiKey: Option<string>, temperature: real, kickoff: Kickoff, loads: string -> Option<Json>)
    returns (outcome: RunOutcome, steps: seq<Step>)
    ensures outcome == AnalysisOutcome(apiKey, kickoff, loads)
    ensures !ApiKeySet(apiKey) ==> outcome == Raised(MissingApiKey) && steps == []
    ensures ApiKeySet(apiKey) ==> steps == FullRun(LlmConfig(GEMINI_MODEL, apiKey.value, temperature))
    ensures ApiKeySet(apiKey) && kickoff.Completes? ==> outcome == Returned(Formatted(kickoff.output, loads))
    ensures ApiKeySet(apiKey) && kickoff.Fails? ==> outcome == Raised(KickoffRaised)
  {
    steps := [];
    var llm := ConfigureGemini(apiKey, temperature);
    if llm.Failure? {
      outcome := Raised(MissingApiKey);
      return;
    }
    steps := steps + [LlmBuilt(llm.value), SupportDataToolBuilt];
    var agents := [DATA_ANALYST, PROCESS_OPTIMIZER, REPORT_WRITER];
    steps := steps + [AgentBuilt(agents[0]), AgentBuilt(agents[1]), AgentBuilt(agents[2])];
    steps := steps + [TaskBuilt(agents[0]), TaskBuilt(agents[1]), TaskBuilt(agents[2])];
    steps := steps + [CrewBuilt(agents, agents, Sequential), KickoffCalled];
    match kickoff
    case Fails =>
      outcome := Raised(KickoffRaised);
    case Completes(output) =>
      var report := FormatResult(output, loads);
      outcome := Returned(report);
  }

  /** A value stored in `st.session_state`. */
  datatype SessionValue = NoneValue | Flag(b: bool) | ReportValue(report: Report)

  const ANALYSIS_RESULT := "analysis_result"
  const RUNNING := "running"

  /** Python truthiness of a stored value; a report dictionary always has its two keys. */
  predicate Truthy(v: SessionValue) {
    match v
    case NoneValue => false
    case Flag(b) => b
    case ReportValue(_) => true
  }

  /** The two `if key not in st.session_state` defaults at the top of app.py. */
  function WithDefaults(store: map<string, SessionValue>): (r: map<string, SessionValue>)
    ensures ANALYSIS_RESULT in r && RUNNING in r
    ensures r.Keys == store.Keys + {ANALYSIS_RESULT, RUNNING}
    ensures forall k :: k in store ==> r[k] == store[k]
    ensures ANALYSIS_RESULT !in store ==> r[ANALYSIS_RESULT] == NoneValue
    ensures RUNNING !in store ==> r[RUNNING] == Flag(false)
  {
    var withResult := if ANALYSIS_RESULT !in store then store[ANALYSIS_RESULT := NoneValue] else store;
    if RUNNING !in withResult then withResult[RUNNING := Flag(false)] else withResult
  }

  /**
    The session after one click on "Run Analysis" when `run_analysis` would
    end with `run`. While `running` is truthy the click does nothing. Otherwise
    `running` is set, the call is made, and only a normal return stores the
    report and clears `running`: there is no `finally`, so a raise leaves
    `running` set and `analysis_result` as it was.
   */
  function ClickStep(store: map<string, SessionValue>, run: RunOutcome): (r: map<string, SessionValue>)
    requires RUNNING in store
    ensures RUNNING in r && r.Keys == store.Keys + (if run.Returned? && !Truthy(store[RUNNING]) then {ANALYSIS_RESULT} else {})
  {
    if Truthy(store[RUNNING]) then store
    else
      var during := store[RUNNING := Flag(true)];
      match run
      case Raised(_) => during
      case Returned(report) => during[ANALYSIS_RESULT := ReportValue(report)][RUNNING := Flag(false)]
  }

  /** The session after a series of clicks, the i-th run ending with `runs[i]`. */
  function Clicks(store: map<string, SessionValue>, runs: seq<RunOutcome>): (r: map<string, SessionValue>)
    requires RUNNING in store
    ensures r.Keys >= store.Keys
    decreases |runs|
  {
    if runs == [] then store else Clicks(ClickStep(store, runs[0]), runs[1..])
  }

  /** `st.session_state`: survives across reruns of the script within one browser session. */
  class Session {
    var store: map<string, SessionValue>

    /** A new browser session starts with nothing stored. */
    constructor ()
      ensures store == map[]
    {
      store := map[];
    }

    /** Lines 9-12 of app.py, run at the top of every rerun. */
    method InitDefaults()
      modifies this
      ensures store == WithDefaults(old(store))
    {
      if ANALYSIS_RESULT !in store {
        store := store[ANALYSIS_RESULT := NoneValue];
      }
      if RUNNING !in store {
        store := store[RUNNING := Flag(false)];
      }
    }

    /**
      Lines 33-36 of app.py after the button reported a click. `call` is
      None when the guard refused; `during` is the session while
      `run_analysis` executes.
     */
    method ClickRunAnalysis(apiKey: Option<string>, temperature: real, kickoff: Kickoff, loads: string -> Option<Json>)
      returns (call: Option<RunOutcome>, ghost during: Option<map<string, SessionValue>>)
      requires RUNNING in store
      modifies this
      ensures call.None? <==> Truthy(old(store)[RUNNING])
      ensures call.Some? ==> call.value == AnalysisOutcome(apiKey, kickoff, loads)
      ensures during.Some? <==> call.Some?
      ensures during.Some? ==> during.value == old(store)[RUNNING := Flag(true)]
      ensures store == ClickStep(old(store), AnalysisOutcome(apiKey, kickoff, loads))
    {
      if Truthy(store[RUNNING]) {
        call, during := None, None;
        return;
      }
      store := store[RUNNING := Flag(true)];
      during := Some(store);
      var outcome, _ := RunAnalysis(apiKey, temperature, kickoff, loads);
      call := Some(outcome);
      match outcome
      case Raised(_) =>
        // the exception leaves the handler; the next line never runs
      case Returned(report) =>
        store := store[ANALYSIS_RESULT := ReportValue(report)];
        store := store[RUNNING := Flag(false)];
    }
  }

  /** Initialising the defaults twice is the same as once. */
  lemma InitIdempotent(store: map<string, SessionValue>)
    ensures WithDefaults(WithDefaults(store)) == WithDefaults(store)
  {
  }

  /** Once `running` is truthy, no number of further clicks changes the session. */
  lemma {:induction false} GuardHoldsForever(store: map<string, SessionValue>, runs: seq<RunOutcome>)
    requires RUNNING in store && Truthy(store[RUNNING])
    ensures Clicks(store, runs) == store
    decreases |runs|
  {
    if runs != [] {
      GuardHoldsForever(ClickStep(store, runs[0]), runs[1..]);
    }
  }

  /**
    A click whose run raises leaves `running` set and `analysis_result`
    untouched, and from then on every click is a no-op.
   */
  lemma RaiseLocksSession(store: map<string, SessionValue>, error: RunError, later: seq<RunOutcome>)
    requires RUNNING in store && !Truthy(store[RUNNING])
    ensures var after := ClickStep(store, Raised(error));
      && after[RUNNING] == Flag(true)
      && (ANALYSIS_RESULT in store ==> ANALYSIS_RESULT in after && after[ANALYSIS_RESULT] == store[ANALYSIS_RESULT])
      && Clicks(store, [Raised(error)] + later) == after
  {
    var after := ClickStep(store, Raised(error));
    GuardHoldsForever(after, later);
    assert ([Raised(error)] + later)[1..] == later;
  }

  /**
    With runs that all return, the guard is open after every click and the
    session holds the report of the last run.
   */
  lemma {:induction false} ReturnsReleaseGuard(store: map<string, SessionValue>, reports: seq<Report>)
    requires RUNNING in store && !Truthy(store[RUNNING]) && |reports| > 0
    ensures var after := Clicks(store, seq(|reports|, i requires 0 <= i < |reports| => Returned(reports[i])));
      && after[RUNNING] == Flag(false)
      && after[ANALYSIS_RESULT] == ReportValue(reports[|reports| - 1])
    decreases |reports|
  {
    var runs := seq(|reports|, i requires 0 <= i < |reports| => Returned(reports[i]));
    var next := ClickStep(store, runs[0]);
    if |reports| > 1 {
      ReturnsReleaseGuard(next, reports[1..]);
      assert runs[1..] == seq(|reports| - 1, i requires 0 <= i < |reports| - 1 => Returned(reports[1..][i]));
    }
  }

  /** How `run_analysis` as written ends, for every input. */
  function AnalysisOutcomeAsWritten(apiKey: Option<string>): RunOutcome {
    if !ApiKeySet(apiKey) then Raised(MissingApiKey) else Raised(UndefinedName(SUPPORT_DATA_TOOL))
  }

  /**
    As written, no click ever stores a report: from a fresh session every
    run raises, so `analysis_result` stays None whatever the keys, and
    after the first click `running` stays True.
   */
  lemma AsWrittenNeverStoresReport(keys: seq<Option<string>>)
    requires |keys| > 0
    ensures var runs := seq(|keys|, i requires 0 <= i < |keys| => AnalysisOutcomeAsWritten(keys[i]));
      var after := Clicks(WithDefaults(map[]), runs);
      after[ANALYSIS_RESULT] == NoneValue && after[RUNNING] == Flag(true)
  {
    var runs := seq(|keys|, i requires 0 <= i < |keys| => AnalysisOutcomeAsWritten(keys[i]));
    var initial := WithDefaults(map[]);
    assert runs == [runs[0]] + runs[1..];
    RaiseLocksSession(initial, runs[0].error, runs[1..]);
  }
}
