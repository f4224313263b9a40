/** The records shared by the analysis workflow, the agents and the chat
    (types.ts). */
module Types {
  import opened Wrappers

  /** Progress of one agent slot, as shown on its card. */
  datatype AgentStatus = Idle | Working | Completed | Error

  /** One web citation surfaced by the model provider. Duplicates are allowed. */
  datatype GroundingSource = GroundingSource(title: string, uri: string)

  /** What a research agent returns: its text and the citations behind it. */
  datatype AgentResponse = AgentResponse(rawText: string, sources: seq<GroundingSource>)

  /** The three results of one analysis run; `None` is the source's `null`. */
  datatype AnalysisResult = AnalysisResult(
    fomcData: Option<AgentResponse>,
    tickerData: Option<AgentResponse>,
    synthesis: Option<string>)

  /** Who wrote a chat message. */
  datatype Role = User | Model

  /** One entry of the chat transcript. `sources` is `None` where the source
      leaves the optional field out; `isError` is `false` where it is left
      out, which renders the same. The timestamp is not modelled. */
  datatype ChatMessage = ChatMessage(
    id: string,
    role: Role,
    text: string,
    sources: Option<seq<GroundingSource>>,
    isError: bool)
}
