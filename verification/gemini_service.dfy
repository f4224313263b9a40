/** services/geminiService.ts: picking the API key, turning the provider's
    grounding metadata into citations, and the three single-shot agents and
    the chat factory built on them. The provider calls themselves are not
    modelled: each agent receives the outcome of its call as a parameter. */
module GeminiService {
  import opened Wrappers
  import opened Types

  // ---------------------------------------------------------------------
  // the provider's response, every field optional

  /** The `web` part of a grounding chunk. */
  datatype WebRef = WebRef(title: Option<string>, uri: Option<string>)

  /** One entry of the chunk list. An `Entry` has a `web` part or not (`None`
      also covers values that are not objects, such as query strings, and a
      falsy `web`); a `NullEntry` is `null` or `undefined`, on which reading
      `chunk.web` throws a `TypeError`. */
  datatype Chunk = Entry(web: Option<WebRef>) | NullEntry

  /** A field that should hold the chunk list: absent or otherwise falsy,
      an array, or some other truthy value. */
  datatype ChunkField = Absent | Items(chunks: seq<Chunk>) | NonArray

  datatype GroundingMetadata = GroundingMetadata(groundingChunks: ChunkField, webSearchQueries: ChunkField)

  datatype Candidate = Candidate(groundingMetadata: Option<GroundingMetadata>)

  /** `result.response`: the generated text (what `text()` returns) and the
      candidates. */
  datatype ModelResponse = ModelResponse(text: string, candidates: Option<seq<Candidate>>)

  /** What a successful provider call resolves to. */
  datatype GenerateResult = GenerateResult(response: Option<ModelResponse>)

  /** How a provider call settles: it resolves with a result or rejects. */
  datatype CallOutcome = Resolved(result: GenerateResult) | Rejected(reason: string)

  /** Why an agent call threw: the key is missing (a setup error), the
      provider call itself failed, or reading the response threw (a `null`
      entry in the chunk list). */
  datatype ServiceError = ConfigError(message: string) | CallError(reason: string) | MalformedResponse

  /** The two environment values the key is read from. */
  datatype Env = Env(geminiApiKey: Option<string>, apiKey: Option<string>)

  /** A chat session handle: the key it was opened with and the history it
      was started from. */
  datatype ChatSession = ChatSession(apiKey: string, history: seq<ChatMessage>)

  const WebSourceTitle := "Web Source"
  const MissingUri := "#"
  const ApiKeyMissing := "API Key missing. Please set GEMINI_API_KEY in your .env file"
  const NoAnalysis := "No analysis generated."
  const NoSynthesis := "Unable to synthesize recommendation."

  /** JavaScript truthiness of an optional string: present and non-empty. */
  predicate Truthy(s: Option<string>) {
    s.Some? && s.value != ""
  }

  /** `s || fallback` for an optional string. */
  function Or(s: Option<string>, fallback: string): string {
    if Truthy(s) then s.value else fallback
  }

  // ---------------------------------------------------------------------
  // extractSources

  /** `response.response?.candidates?.[0]?.groundingMetadata`. */
  function FirstMetadata(g: GenerateResult): Option<GroundingMetadata> {
    if g.response.None? then None
    else match g.response.value.candidates
      case None => None
      case Some(cs) => if |cs| == 0 then None else cs[0].groundingMetadata
  }

  /** `metadata?.groundingChunks || metadata?.webSearchQueries`. */
  function ChosenField(m: GroundingMetadata): ChunkField {
    if m.groundingChunks.Absent? then m.webSearchQueries else m.groundingChunks
  }

  /** The citation for one chunk's `web` part, with the two defaults. */
  function SourceOf(w: WebRef): (g: GroundingSource)
    ensures g.title != "" && g.uri != ""
    ensures g.title == WebSourceTitle || w.title == Some(g.title)
    ensures g.uri == MissingUri || w.uri == Some(g.uri)
    ensures Truthy(w.title) <==> w.title == Some(g.title)
    ensures Truthy(w.uri) <==> w.uri == Some(g.uri)
  {
    GroundingSource(Or(w.title, WebSourceTitle), Or(w.uri, MissingUri))
  }

  /** Every entry of the list is an object whose `web` can be read. */
  predicate AllEntries(chunks: seq<Chunk>) {
    forall i | 0 <= i < |chunks| :: chunks[i].Entry?
  }

  /** The `forEach` over a list it runs through to the end: one citation per
      chunk with `web`. */
  function SourcesOf(chunks: seq<Chunk>): (sources: seq<GroundingSource>)
    requires AllEntries(chunks)
    ensures |sources| <= |chunks|
    ensures forall s | s in sources :: s.title != "" && s.uri != ""
  {
    if chunks == [] then []
    else
      var rest := SourcesOf(chunks[1..]);
      match chunks[0].web
      case Some(w) => [SourceOf(w)] + rest
      case None => rest
  }

  /** `extractSources`: the citations of the first candidate's chunk list;
      empty when anything on the way is missing or the list is not an
      array; a `TypeError` when the list holds a `null` entry, since the
      partial list is then discarded. */
  function ExtractSources(g: GenerateResult): (r: Result<seq<GroundingSource>, ServiceError>)
    ensures r.Failure? <==>
      FirstMetadata(g).Some? && ChosenField(FirstMetadata(g).value).Items?
      && !AllEntries(ChosenField(FirstMetadata(g).value).chunks)
    ensures r.Failure? ==> r.error == MalformedResponse
    ensures r.Success? ==> forall s | s in r.value :: s.title != "" && s.uri != ""
  {
    match FirstMetadata(g)
    case None => Success([])
    case Some(m) =>
      match ChosenField(m)
      case Items(chunks) => if AllEntries(chunks) then Success(SourcesOf(chunks)) else Failure(MalformedResponse)
      case _ => Success([])
  }

  // ---------------------------------------------------------------------
  // getAI and the agents

  /** `getAI`'s key: `GEMINI_API_KEY` when non-empty, else `API_KEY`; an
      error when neither is set to something non-empty. */
  function SelectApiKey(env: Env): (r: Result<string, ServiceError>)
    ensures r.Success? <==> Truthy(env.geminiApiKey) || Truthy(env.apiKey)
    ensures r.Success? ==> r.value != ""
    ensures Truthy(env.geminiApiKey) ==> r == Success(env.geminiApiKey.value)
    ensures !Truthy(env.geminiApiKey) && Truthy(env.apiKey) ==> r == Success(env.apiKey.value)
    ensures r.Failure? ==> r.error == ConfigError(ApiKeyMissing)
  {
    if Truthy(env.geminiApiKey) then Success(env.geminiApiKey.value)
    else if Truthy(env.apiKey) then Success(env.apiKey.value)
    else Failure(ConfigError(ApiKeyMissing))
  }

  /** `response.response?.text()`. */
  function ResponseText(g: GenerateResult): Option<string> {
    if g.response.Some? then Some(g.response.value.text) else None
  }

  /** `runFOMCAgent`: the text (or its placeholder) and the citations. A
      missing key, a rejected call or a response whose citations cannot be
      read is rethrown. */
  function RunFomcAgent(env: Env, call: CallOutcome): (r: Result<AgentResponse, ServiceError>)
    ensures SelectApiKey(env).Failure? ==> r == Failure(ConfigError(ApiKeyMissing))
    ensures SelectApiKey(env).Success? && call.Rejected? ==> r == Failure(CallError(call.reason))
    ensures SelectApiKey(env).Success? && call.Resolved? && ExtractSources(call.result).Failure? ==>
              r == Failure(MalformedResponse)
    ensures r.Success? <==> SelectApiKey(env).Success? && call.Resolved? && ExtractSources(call.result).Success?
    ensures r.Success? ==> r.value.rawText != "" && r.value.sources == ExtractSources(call.result).value
    ensures r.Success? && Truthy(ResponseText(call.result)) ==> r.value.rawText == call.result.response.value.text
    ensures r.Success? && !Truthy(ResponseText(call.result)) ==> r.value.rawText == NoAnalysis
  {
    match SelectApiKey(env)
    case Failure(e) => Failure(e)
    case Success(_) =>
      match call
      case Rejected(reason) => Failure(CallError(reason))
      case Resolved(g) =>
        match ExtractSources(g)
        case Failure(e) => Failure(e)
        case Success(sources) => Success(AgentResponse(Or(ResponseText(g), NoAnalysis), sources))
  }

  /** `runTickerAgent`: the same handling as `runFOMCAgent`; the ticker
      only enters the prompt, so it does not change what is returned. */
  function RunTickerAgent(env: Env, ticker: string, call: CallOutcome): (r: Result<AgentResponse, ServiceError>)
    ensures r == RunFomcAgent(env, call)
  {
    match SelectApiKey(env)
    case Failure(e) => Failure(e)
    case Success(_) =>
      match call
      case Rejected(reason) => Failure(CallError(reason))
      case Resolved(g) =>
        match ExtractSources(g)
        case Failure(e) => Failure(e)
        case Success(sources) => Success(AgentResponse(Or(ResponseText(g), NoAnalysis), sources))
  }

  /** `runSynthesisAgent`: the text (or its placeholder), no citations. The
      ticker and the two reports only enter the prompt. */
  function RunSynthesisAgent(env: Env, ticker: string, fomcData: string, tickerData: string, call: CallOutcome)
    : (r: Result<string, ServiceError>)
    ensures SelectApiKey(env).Failure? ==> r == Failure(ConfigError(ApiKeyMissing))
    ensures SelectApiKey(env).Success? && call.Rejected? ==> r == Failure(CallError(call.reason))
    ensures r.Success? <==> SelectApiKey(env).Success? && call.Resolved?
    ensures r.Success? ==> r.value != ""
    ensures r.Success? && Truthy(ResponseText(call.result)) ==> r.value == call.result.response.value.text
    ensures r.Success? && !Truthy(ResponseText(call.result)) ==> r.value == NoSynthesis
  {
    match SelectApiKey(env)
    case Failure(e) => Failure(e)
    case Success(_) =>
      match call
      case Rejected(reason) => Failure(CallError(reason))
      case Resolved(g) => Success(Or(ResponseText(g), NoSynthesis))
  }

  /** `createAdvisorChat`: a session for the key, or the missing-key error. */
  function CreateAdvisorChat(env: Env): (r: Result<ChatSession, ServiceError>)
    ensures r.Success? <==> SelectApiKey(env).Success?
    ensures r.Success? ==> r.value.apiKey == SelectApiKey(env).value
    ensures r.Success? ==> r.value.history == []
    ensures r.Failure? ==> r.error == ConfigError(ApiKeyMissing)
  {
    match SelectApiKey(env)
    case Failure(e) => Failure(e)
    case Success(key) => Success(ChatSession(key, []))
  }

  // ---------------------------------------------------------------------
  // properties of extractSources

  /** A chunk yields a citation exactly when it has a `web` part. */
  function CountWeb(chunks: seq<Chunk>): nat {
    if chunks == [] then 0 else (if chunks[0].Entry? && chunks[0].web.Some? then 1 else 0) + CountWeb(chunks[1..])
  }

  /** The chunk loop distributes over concatenation: citations keep the
      order of their chunks. */
  lemma {:induction false} SourcesOfAppend(a: seq<Chunk>, b: seq<Chunk>)
    requires AllEntries(a) && AllEntries(b)
    ensures AllEntries(a + b) && SourcesOf(a + b) == SourcesOf(a) + SourcesOf(b)
    decreases |a|
  {
    if a == [] {
      assert a + b == b;
    } else {
      assert (a + b)[1..] == a[1..] + b;
      SourcesOfAppend(a[1..], b);
    }
  }

  /** One citation per chunk with a `web` part, no more and no fewer. */
  lemma {:induction false} SourcesOfCount(chunks: seq<Chunk>)
    requires AllEntries(chunks)
    ensures |SourcesOf(chunks)| == CountWeb(chunks)
    decreases |chunks|
  {
    if chunks != [] {
      SourcesOfCount(chunks[1..]);
    }
  }

  /** Every citation comes from some chunk's `web` part, and every chunk's
      `web` part yields its citation. */
  lemma {:induction false} SourcesOfExact(chunks: seq<Chunk>, g: GroundingSource)
    requires AllEntries(chunks)
    ensures g in SourcesOf(chunks) <==>
            exists i :: 0 <= i < |chunks| && chunks[i].Entry? && chunks[i].web.Some? && g == SourceOf(chunks[i].web.value)
    decreases |chunks|
  {
    if chunks != [] {
      SourcesOfExact(chunks[1..], g);
      if g in SourcesOf(chunks) && !(chunks[0].web.Some? && g == SourceOf(chunks[0].web.value)) {
        var i :| 0 <= i < |chunks[1..]| && chunks[1..][i].Entry? && chunks[1..][i].web.Some? && g == SourceOf(chunks[1..][i].web.value);
        assert chunks[i + 1] == chunks[1..][i];
      }
      if exists i :: 0 <= i < |chunks| && chunks[i].Entry? && chunks[i].web.Some? && g == SourceOf(chunks[i].web.value) {
        var i :| 0 <= i < |chunks| && chunks[i].Entry? && chunks[i].web.Some? && g == SourceOf(chunks[i].web.value);
        if i > 0 {
          assert chunks[1..][i - 1] == chunks[i];
        }
      }
    }
  }

  /** Nothing is cited when the response, its candidates, the first
      candidate or its metadata is missing, or when the chosen chunk field
      is not an array. */
  lemma NoSourcesWithoutChunks(g: GenerateResult)
    ensures g.response.None? ==> ExtractSources(g) == Success([])
    ensures g.response.Some? && g.response.value.candidates == Some([]) ==> ExtractSources(g) == Success([])
    ensures FirstMetadata(g).None? ==> ExtractSources(g) == Success([])
    ensures FirstMetadata(g).Some? && !ChosenField(FirstMetadata(g).value).Items? ==> ExtractSources(g) == Success([])
  {
  }

  /** Only the first candidate is read: later candidates never add
      citations. */
  lemma OnlyFirstCandidate(text: string, c: Candidate, rest: seq<Candidate>)
    ensures ExtractSources(GenerateResult(Some(ModelResponse(text, Some([c] + rest)))))
         == ExtractSources(GenerateResult(Some(ModelResponse(text, Some([c])))))
  {
  }

  /** `webSearchQueries` is consulted only when `groundingChunks` is absent;
      an empty `groundingChunks` array is truthy and yields no citations. */
  lemma FallbackOnlyWhenAbsent(m: GroundingMetadata, text: string)
    ensures var g := GenerateResult(Some(ModelResponse(text, Some([Candidate(Some(m))]))));
            && (m.groundingChunks.Absent? && m.webSearchQueries.Items? && AllEntries(m.webSearchQueries.chunks) ==>
                 ExtractSources(g) == Success(SourcesOf(m.webSearchQueries.chunks)))
            && (m.groundingChunks.Absent? && !m.webSearchQueries.Items? ==> ExtractSources(g) == Success([]))
            && (m.groundingChunks.Items? && AllEntries(m.groundingChunks.chunks) ==>
                 ExtractSources(g) == Success(SourcesOf(m.groundingChunks.chunks)))
            && (m.groundingChunks == Items([]) ==> ExtractSources(g) == Success([]))
  {
  }
}
