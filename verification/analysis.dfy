/** App.tsx `handleAnalyze`: the three-agent analysis workflow as a state
    transition. The two research calls and the synthesis call are not made
    here; their outcomes are parameters, and the states the page passes
    through at each `await` are returned in order. */
module Analysis {
  import opened Wrappers
  import opened Text
  import opened Types
  import opened GeminiService

  /** The analysis tab's state: the ticker field, the busy flag, the three
      agents' statuses and their results. */
  datatype AppState = AppState(
    ticker: string,
    isAnalyzing: bool,
    fomcStatus: AgentStatus,
    tickerStatus: AgentStatus,
    synthesisStatus: AgentStatus,
    results: AnalysisResult)

  const NoResults := AnalysisResult(None, None, None)

  /** The state the page starts in. */
  const InitialApp := AppState("", false, Idle, Idle, Idle, NoResults)

  const FomcFallback := AgentResponse("Error fetching FOMC data", [])
  const TickerFallback := AgentResponse("Error fetching Ticker data", [])

  /** How the three provider calls of one run settle. */
  datatype AnalysisCalls = AnalysisCalls(fomc: CallOutcome, ticker: CallOutcome, synthesis: CallOutcome)

  /** The arguments the synthesis agent is called with. */
  datatype SynthesisRequest = SynthesisRequest(ticker: string, fomcText: string, tickerText: string)

  /** One submission: the states shown after the reset, after the research
      phase and at the end (none when the guard returns early), and the
      synthesis call made, if any. */
  datatype Run = Run(phases: seq<AppState>, request: Option<SynthesisRequest>)

  /** The state a run leaves behind. */
  function After(s: AppState, run: Run): AppState {
    if run.phases == [] then s else run.phases[|run.phases| - 1]
  }

  /** A research agent's result, or its fallback when the agent threw. */
  function OrFallback(r: Result<AgentResponse, ServiceError>, fallback: AgentResponse): (a: AgentResponse)
    ensures r.Success? ==> a == r.value
    ensures r.Failure? ==> a == fallback
  {
    r.GetOr(fallback)
  }

  /** The reset applied to an accepted submission. */
  function Reset(s: AppState): AppState {
    s.(isAnalyzing := true, fomcStatus := Working, tickerStatus := Working,
       synthesisStatus := Idle, results := NoResults)
  }

  /** `handleAnalyze`. */
  function HandleAnalyze(s: AppState, env: Env, calls: AnalysisCalls): (run: Run)
    // the guard: a blank ticker changes nothing and calls nobody
    ensures run.phases == [] <==> AllSpace(s.ticker)
    ensures run.phases == [] ==> run.request == None && After(s, run) == s
    ensures run.phases != [] ==> |run.phases| == 3 && run.request.Some?
    // the reset
    ensures run.phases != [] ==>
      var p := run.phases[0];
      p.isAnalyzing && p.fomcStatus == Working && p.tickerStatus == Working
      && p.synthesisStatus == Idle && p.results == NoResults && p.ticker == s.ticker
    // research never aborts the run: both results are stored, with fallbacks
    ensures run.phases != [] ==>
      var p := run.phases[1];
      p.isAnalyzing && p.fomcStatus == Completed && p.tickerStatus == Completed
      && p.synthesisStatus == Working && p.results.synthesis == None
      && p.results.fomcData == Some(OrFallback(RunFomcAgent(env, calls.fomc), FomcFallback))
      && p.results.tickerData == Some(OrFallback(RunTickerAgent(env, s.ticker, calls.ticker), TickerFallback))
    // synthesis sees the untrimmed ticker and exactly the stored reports
    ensures run.phases != [] ==>
      run.request == Some(SynthesisRequest(s.ticker, run.phases[1].results.fomcData.value.rawText,
                                           run.phases[1].results.tickerData.value.rawText))
    // the end: research kept, synthesis stored or left working, never busy
    ensures run.phases != [] ==>
      var p, q := run.phases[2], run.phases[1];
      var syn := RunSynthesisAgent(env, s.ticker, run.request.value.fomcText, run.request.value.tickerText, calls.synthesis);
      !p.isAnalyzing && p.ticker == s.ticker
      && p.fomcStatus == Completed && p.tickerStatus == Completed
      && p.results.fomcData == q.results.fomcData && p.results.tickerData == q.results.tickerData
      && (syn.Success? ==> p.synthesisStatus == Completed && p.results.synthesis == Some(syn.value))
      && (syn.Failure? ==> p.synthesisStatus == Working && p.results.synthesis == None)
  {
    if Trim(s.ticker) == [] then
      TrimEmpty(s.ticker);
      Run([], None)
    else
      TrimEmpty(s.ticker);
      var reset := Reset(s);
      var fomc := OrFallback(RunFomcAgent(env, calls.fomc), FomcFallback);
      var tick := OrFallback(RunTickerAgent(env, s.ticker, calls.ticker), TickerFallback);
      var researched := reset.(results := reset.results.(fomcData := Some(fomc), tickerData := Some(tick)),
                               fomcStatus := Completed, tickerStatus := Completed, synthesisStatus := Working);
      var request := SynthesisRequest(s.ticker, fomc.rawText, tick.rawText);
      var finished :=
        match RunSynthesisAgent(env, s.ticker, request.fomcText, request.tickerText, calls.synthesis)
        case Success(report) =>
          researched.(results := researched.results.(synthesis := Some(report)), synthesisStatus := Completed)
        case Failure(_) => researched;
      Run([reset, researched, finished.(isAnalyzing := false)], Some(request))
  }

  /** No state a run passes through marks an agent as failed. */
  predicate NoErrorStatus(p: AppState) {
    p.fomcStatus != Error && p.tickerStatus != Error && p.synthesisStatus != Error
  }

  lemma NeverError(s: AppState, env: Env, calls: AnalysisCalls)
    requires NoErrorStatus(s)
    ensures forall p | p in HandleAnalyze(s, env, calls).phases :: NoErrorStatus(p)
  {
  }

  /** When no key is configured, both research slots hold their fallbacks
      and the synthesis stays working. */
  lemma MissingKeyRun(s: AppState, env: Env, calls: AnalysisCalls)
    requires !AllSpace(s.ticker)
    requires SelectApiKey(env).Failure?
    ensures var p := After(s, HandleAnalyze(s, env, calls));
            && p.results == AnalysisResult(Some(FomcFallback), Some(TickerFallback), None)
            && p.fomcStatus == Completed && p.tickerStatus == Completed && p.synthesisStatus == Working
            && !p.isAnalyzing
  {
  }

  /** When every call resolves with non-empty text and readable citations,
      the run ends with all three agents completed and their texts stored. */
  lemma SuccessfulRun(s: AppState, env: Env, fomc: ModelResponse, tick: ModelResponse, syn: ModelResponse)
    requires !AllSpace(s.ticker)
    requires SelectApiKey(env).Success?
    requires fomc.text != "" && tick.text != "" && syn.text != ""
    requires ExtractSources(GenerateResult(Some(fomc))).Success? && ExtractSources(GenerateResult(Some(tick))).Success?
    ensures var calls := AnalysisCalls(Resolved(GenerateResult(Some(fomc))), Resolved(GenerateResult(Some(tick))),
                                       Resolved(GenerateResult(Some(syn))));
            var p := After(s, HandleAnalyze(s, env, calls));
            && p.fomcStatus == Completed && p.tickerStatus == Completed && p.synthesisStatus == Completed
            && p.results.fomcData.Some? && p.results.fomcData.value.rawText == fomc.text
            && p.results.tickerData.Some? && p.results.tickerData.value.rawText == tick.text
            && p.results.synthesis == Some(syn.text)
            && !p.isAnalyzing
  {
  }

  // ---------------------------------------------------------------------
  // the page over time

  /** What the user can do on the analysis tab between runs: edit the ticker
      (the field is disabled while a run is in progress) or submit. */
  datatype Event = Edit(text: string) | Analyze(env: Env, calls: AnalysisCalls)

  function Step(s: AppState, e: Event): AppState {
    match e
    case Edit(text) => if s.isAnalyzing then s else s.(ticker := text)
    case Analyze(env, calls) => After(s, HandleAnalyze(s, env, calls))
  }

  function Replay(s: AppState, events: seq<Event>): AppState
    decreases |events|
  {
    if events == [] then s else Replay(Step(s, events[0]), events[1..])
  }

  /** What holds whenever the page is idle: nothing is busy, no agent is
      marked failed, the two research agents move together and have results
      exactly when completed, and a report is shown exactly when the
      synthesis completed, which needs both research results. */
  predicate Settled(p: AppState) {
    && !p.isAnalyzing
    && NoErrorStatus(p)
    && p.fomcStatus == p.tickerStatus
    && p.fomcStatus != Working
    && (p.results.fomcData.Some? <==> p.fomcStatus == Completed)
    && (p.results.tickerData.Some? <==> p.tickerStatus == Completed)
    && (p.synthesisStatus == Idle <==> p.fomcStatus == Idle)
    && (p.results.synthesis.Some? <==> p.synthesisStatus == Completed)
  }

  lemma StepSettled(s: AppState, e: Event)
    requires Settled(s)
    ensures Settled(Step(s, e))
  {
  }

  /** From the initial page, every sequence of edits and submissions leaves
      the page settled. */
  lemma {:induction false} ReplaySettled(s: AppState, events: seq<Event>)
    requires Settled(s)
    ensures Settled(Replay(s, events))
    decreases |events|
  {
    if events != [] {
      StepSettled(s, events[0]);
      ReplaySettled(Step(s, events[0]), events[1..]);
    }
  }

  lemma InitialSettled()
    ensures Settled(InitialApp)
    ensures forall events: seq<Event> :: Settled(Replay(InitialApp, events))
  {
    forall events: seq<Event> ensures Settled(Replay(InitialApp, events)) {
      ReplaySettled(InitialApp, events);
    }
  }
}
