# Gemini Financial Syndicate — a verified model of its client logic

The Syndicate is a browser client over a hosted language model. Three agents
answer an analysis request: one for Federal Reserve (FOMC) policy, one for a
stock ticker, and a synthesis agent that reads both reports. Next to them
sits an advisor chat. This project models, in Dafny, the pieces of that
client that are plain sequential logic, and proves what they promise:

- **Text** (`text.dfy`): the JavaScript string operations the client
  relies on. These are `trim`, `includes`, `split` with a non-empty
  separator, `join`, and a global `replace` with an empty replacement.
- **Markdown** (`markdown.dfy`): the renderer of
  `components/MarkdownRenderer.tsx`. It splits the text on line feeds and
  classifies each line by the first rule that applies:
  1. a `###` heading;
  2. a `##` heading;
  3. a paragraph with `**` bold runs;
  4. a bullet;
  5. a numbered item;
  6. a spacer;
  7. a plain paragraph.

  Each block keeps exactly the text the page would show.
- **GeminiService** (`gemini_service.dfy`): the service layer. It covers
  how the API key is chosen and how citations are pulled out of the
  provider's optional grounding metadata, with their defaults. It also
  covers the placeholder texts and rethrowing of the three agents, and the
  chat factory.
- **Analysis** (`analysis.dfy`): `handleAnalyze` in `App.tsx` as a
  transition over the page state, which is the busy flag, the three agent
  statuses and the results. The provider calls' outcomes are parameters,
  and the states shown at each `await` are returned in order. The model
  also proves an invariant over any sequence of ticker edits and
  submissions.
- **Chat** (`chat.dfy`): the advisor chat's transcript. It starts with a
  welcome message, and each send is a guarded append of the user's message
  followed by the reply or an error notice. The model also proves the
  transcript's shape over any sequence of typing and sending.
- **Types** and **Wrappers** (`types.dfy`, `wrappers.dfy`): the records of
  `types.ts`, and the `Option`/`Result` types that stand for `null` and for
  a thrown error.

Whitespace is the ASCII set: space, tab, line feed, vertical tab, form feed
and carriage return. `\d` means an ASCII digit.

Heading text is not trimmed: `line.replace(/###/g, '')` (resp. `/##/g`)
removes only non-overlapping runs of `###` (resp. `##`), left to right,
anywhere in the line. So `### **B**` is a level-3 heading with text
` **B**`, and a stray `#` stays in the text.

The chat panel is mounted only while its tab is shown (`App.tsx:241-248`).
Leaving the tab drops the transcript, and coming back mounts a fresh panel
with a new session. The chat lemmas over sequences of events
(`Chat.ReplayAppends`, `Chat.ReplayAlternates`, `Chat.NoSessionNoChange`,
`Chat.MountedPanel`) therefore describe one mount.

## Model

| member | source | states |
|---|---|---|
| `Text.TrimSpec` | components/MarkdownRenderer.tsx:52 | `trim` drops exactly the leading and trailing whitespace: the result is an infix of the line with only whitespace before and after it, empty iff the line is all whitespace, and otherwise starting and ending with a non-space |
| `Text.IncludesSpec` | components/MarkdownRenderer.tsx:20 | `includes` holds iff the pattern occurs at some index |
| `Text.Split` | components/MarkdownRenderer.tsx:21 | `split` with a non-empty separator always gives at least one piece; what the pieces are is stated by the next three rows |
| `Text.SplitJoin` | components/MarkdownRenderer.tsx:21 | joining the pieces of `split(sep)` with `sep` gives the string back |
| `Text.SplitPiecesAvoidSep` | components/MarkdownRenderer.tsx:21 | no piece of `split(sep)` contains `sep` |
| `Text.SplitLeftmost` | components/MarkdownRenderer.tsx:21 | `split` cuts at the leftmost occurrence each time: no occurrence starts inside a piece that is followed by a cut, even one running into that cut |
| `Text.SplitCharCount` | components/MarkdownRenderer.tsx:10 | splitting on one character gives one piece more than the character's occurrences |
| `Text.SplitJoinChar` | components/MarkdownRenderer.tsx:10 | splitting lines joined by a character they do not contain gives the lines back |
| `Text.RemoveAll` | components/MarkdownRenderer.tsx:13 | `replace(/p/g, '')` never lengthens the string, and shortens it by at least the pattern's length when the string starts with it |
| `Text.RemoveAllIsSplitConcat` | components/MarkdownRenderer.tsx:13 | `replace(/p/g, '')` deletes the same non-overlapping, left-to-right occurrences that `split(p)` cuts at |
| `Text.RemoveAllAbsent` | components/MarkdownRenderer.tsx:16 | a global replace changes nothing when the pattern does not occur |
| `Markdown.NumberMarkerSpec` | components/MarkdownRenderer.tsx:45 | `match(/^\d+\./)` succeeds iff the line starts with digits then a dot, and its value is that prefix |
| `Markdown.Classify` | components/MarkdownRenderer.tsx:11-55 | the block for one line, by the first rule that applies; its properties are the rows that follow |
| `Markdown.RulePrecedence` | components/MarkdownRenderer.tsx:12-55 | first match wins: each kind of block arises iff its own test passes and every earlier test fails; a spacer iff the line is all whitespace; a paragraph keeps the line verbatim |
| `Markdown.HeadingText` | components/MarkdownRenderer.tsx:12-16 | heading text is the line with every `###` (resp. `##`) removed left to right, untrimmed |
| `Markdown.Heading3Untrimmed` | components/MarkdownRenderer.tsx:12-13 | `###` followed by text without `#` is a level-3 heading of that text, leading space and `**` included |
| `Markdown.Heading2Untrimmed` | components/MarkdownRenderer.tsx:15-16 | `##` followed by text without `#` is a level-2 heading of that text |
| `Markdown.HeadingBeatsBold` | components/MarkdownRenderer.tsx:12-13 | `### **B**` becomes a level-3 heading with text ` **B**` |
| `Markdown.EmphasisSpans` | components/MarkdownRenderer.tsx:20-28 | a bold paragraph has at least two spans, bold exactly at odd positions, joined with `**` they give the line back, and the markers are taken leftmost first: no span holds `**`, and none before the last ends in a `*` that pairs with the next marker (so `***b***` bolds `*b`) |
| `Markdown.BoldLine` | components/MarkdownRenderer.tsx:20-21 | a line not starting with `##` that holds `**` becomes the spans of its `**` pieces, ahead of the list rules |
| `Markdown.BoldRun` | components/MarkdownRenderer.tsx:20-28 | `**x**` gives an empty plain span, `x` in bold and another empty plain span |
| `Markdown.ListTextIsSuffix` | components/MarkdownRenderer.tsx:32-47 | a list item's text is the line itself, or the line less exactly its leading `-`/`*` and one whitespace character (bullet) or its digits-and-dot marker and one whitespace character (numbered) |
| `Markdown.IndentedItemKeepsLine` | components/MarkdownRenderer.tsx:32-47 | a line that starts with whitespace never loses a marker: as a bullet or numbered item its text is the whole line, and a numbered item has no marker |
| `Markdown.BulletItem` | components/MarkdownRenderer.tsx:32-36 | with non-blank `x` and no `**` on the line, an unindented `- x` or `* x` is a bullet of `x`; an indented one is a bullet that keeps its marker in the text |
| `Markdown.NumberedItem` | components/MarkdownRenderer.tsx:42-47 | on a line without `**`, `12. x` gives marker `12.` and text `x`; `12.x` keeps the whole line; an indented item has no marker and keeps the whole line |
| `Markdown.Render` | components/MarkdownRenderer.tsx:10 | the block count is the number of line feeds plus one |
| `Markdown.RenderLines` | components/MarkdownRenderer.tsx:10 | lines joined by line feeds render to one block per line, in order, each classified on its own |
| `Markdown.RenderAppend` | components/MarkdownRenderer.tsx:10 | rendering `x + "\n" + y` is rendering `x` followed by rendering `y` |
| `Markdown.RenderLine` | components/MarkdownRenderer.tsx:10 | a text without line feeds renders to the block of that one line |
| `Markdown.RenderFour` | components/MarkdownRenderer.tsx:10 | four lines render to their four blocks in order |
| `Markdown.FourLines` | components/MarkdownRenderer.tsx:9-57 | a bullet, a bold line, a blank line and `##` text render to Bullet, Emphasized, Spacer and an untrimmed level-2 heading |
| `GeminiService.SourceOf` | services/geminiService.ts:13-18 | a citation's title and uri are copied when non-empty, else `"Web Source"` and `"#"`, and are never empty |
| `GeminiService.SourcesOf` | services/geminiService.ts:12-19 | the chunk loop yields at most one citation per chunk, each with a non-empty title and uri |
| `GeminiService.SourcesOfAppend` | services/geminiService.ts:12-19 | citations keep the order of their chunks: the loop distributes over concatenation |
| `GeminiService.SourcesOfCount` | services/geminiService.ts:12-19 | exactly one citation per chunk with a `web` part, no deduplication |
| `GeminiService.SourcesOfExact` | services/geminiService.ts:12-19 | a citation appears iff some chunk's `web` part yields it |
| `GeminiService.ExtractSources` | services/geminiService.ts:5-22 | throws exactly when the chosen chunk list is an array holding a `null` entry; otherwise its citations, none with an empty title or uri |
| `GeminiService.NoSourcesWithoutChunks` | services/geminiService.ts:8-11 | no citations, and no error, when the response, candidates, first candidate or metadata is missing, or the chunk value is not an array |
| `GeminiService.OnlyFirstCandidate` | services/geminiService.ts:8 | candidates after the first never change the citations |
| `GeminiService.FallbackOnlyWhenAbsent` | services/geminiService.ts:9 | `webSearchQueries` is read only when `groundingChunks` is absent; an empty `groundingChunks` array gives no citations |
| `GeminiService.SelectApiKey` | services/geminiService.ts:25-29 | the key is `GEMINI_API_KEY` when non-empty, else `API_KEY` when non-empty, else the "API Key missing" error |
| `GeminiService.RunFomcAgent` | services/geminiService.ts:33-64 | a missing key, a rejected call or unreadable citations are rethrown; otherwise the text, or `"No analysis generated."` when empty, so never empty, with the extracted citations |
| `GeminiService.RunTickerAgent` | services/geminiService.ts:68-100 | behaves exactly as the FOMC agent: the ticker only changes the prompt |
| `GeminiService.RunSynthesisAgent` | services/geminiService.ts:104-143 | errors are rethrown; otherwise the text, or `"Unable to synthesize recommendation."` when empty |
| `GeminiService.CreateAdvisorChat` | services/geminiService.ts:147-174 | a session iff a key is configured, opened with that key and an empty history; otherwise the missing-key error |
| `Analysis.OrFallback` | App.tsx:71-74 | a research agent's value when it returned, its fallback when it threw |
| `Analysis.HandleAnalyze` | App.tsx:58-98 | a blank ticker changes nothing and calls nobody; otherwise reset, then both research results stored with fallbacks and marked completed, then synthesis of the untrimmed ticker and the two stored texts, stored and completed on success and left working on failure, and never busy at the end |
| `Analysis.NeverError` | App.tsx:76-94 | no state a run passes through marks an agent as failed |
| `Analysis.MissingKeyRun` | App.tsx:71-97 | without a key both research slots hold their fallbacks and synthesis stays working |
| `Analysis.SuccessfulRun` | App.tsx:71-97 | when every call returns text with readable citations, all three agents complete with their texts stored |
| `Analysis.StepSettled` | App.tsx:58-98 | an edit or a submission keeps the page settled: not busy, no failed status, results present exactly for completed agents |
| `Analysis.ReplaySettled` | App.tsx:58-98 | any sequence of edits and submissions keeps the page settled |
| `Analysis.InitialSettled` | App.tsx:43-56 | the initial page is settled, and so is every page reachable from it |
| `Chat.Mount` | components/ChatInterface.tsx:25-45 | the transcript starts as the welcome message alone, and there is a session iff a key is configured |
| `Chat.ReplyMessage` | components/ChatInterface.tsx:66-87 | the reply is the model text or the apology, with the extracted citations; a failed send, a result without a response, or unreadable citations give the error notice with `isError` and no citations |
| `Chat.HandleSend` | components/ChatInterface.tsx:51-91 | a rejected send changes nothing; an accepted one appends the user's untrimmed input, clears the input and waits, then appends the reply and stops waiting |
| `Chat.SendAppendsTwo` | components/ChatInterface.tsx:55-78 | an accepted send keeps every earlier message and adds exactly two, user then model |
| `Chat.RejectedSend` | components/ChatInterface.tsx:53 | a blank input, a pending reply or a missing session makes a send change nothing |
| `Chat.ReplayAppends` | components/ChatInterface.tsx:62-87 | the transcript is append-only over any sequence of events, and the session never changes |
| `Chat.ReplayAlternates` | components/ChatInterface.tsx:51-91 | between sends the transcript is the welcome message followed by user and model messages alternating |
| `Chat.NoSessionNoChange` | components/ChatInterface.tsx:38-53 | without a session no event changes the transcript |
| `Chat.MountedPanel` | components/ChatInterface.tsx:25-53 | from mounting on the transcript alternates, and without a key it stays the welcome message |

## Left out

- The provider SDK calls (`generateContent`, `startChat`, `sendMessage`) and their promises are not modelled. Each call is a given outcome: it resolves with a result or it rejects. `Promise.all` becomes "both outcomes supplied".
- The session history that `sendMessage` keeps with the provider is not modelled. Only its empty start is stated.
- The prompt templates, the system instruction and the model names are left out. They are fixed strings with no effect on the logic.
- The JSX, CSS and icons are left out, and so are `components/AgentCard.tsx` and `components/SourceList.tsx`. They only present data.
- `SynthesisReport` is not part of this model.
- The timestamps are left out because they come from the clock. The message ids derived from the clock are parameters, and nothing is claimed about their uniqueness.
- `console.error`, `scrollIntoView` and the `useEffect` lifecycle are left out. Mounting is the `Chat.Mount` function.
- `process.env` is left out as ambient state. The two environment values are an explicit parameter.
- The uppercasing of the ticker as it is typed (`App.tsx:168`) is left out. An edit event carries the text already uppercased.
- The disabled inputs and buttons during a run or a pending reply are guards of the page, not of the handlers. `Analysis.Step` and `Chat.Step` ignore typing while busy, matching the disabled fields. `handleAnalyze` itself has no busy check, and none is modelled.
- The model uses the ASCII whitespace set for `trim()` and `\s`, not JavaScript's full Unicode set.
- Only the resolved text of `text()` is modelled. The case where `text()` itself throws is left out.
- The value of `groundingChunks` and `webSearchQueries` is absent, an array, or some other truthy value. A falsy value that is not `undefined`, such as `0` or `""`, is folded into "absent", which is how `||` treats it. Any other truthy non-array value yields no citations.
- A `null` or `undefined` entry in the chunk array is modelled: reading `chunk.web` throws. Entries that are other primitives, such as strings, are modelled as entries without `web`.
- Markdown.Render: its own contract states only the block count. The content of each block is stated by `Markdown.RenderLines`, `Markdown.RenderAppend` and `Markdown.RenderLine`.
