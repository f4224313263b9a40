/** components/ChatInterface.tsx: the advisor chat's transcript. Mounting
    opens a session (or leaves none when no key is configured); each send is
    a guarded append of the user's message and then of the reply or an
    error notice. The provider's answer to a send is a parameter, and the
    ids the page derives from the clock are too. */
module Chat {
  import opened Wrappers
  import opened Text
  import opened Types
  import opened GeminiService

  /** The chat panel's state: the transcript, the input field, the pending
      flag and the session, absent when it could not be created. */
  datatype ChatState = ChatState(messages: seq<ChatMessage>, input: string, isTyping: bool, session: Option<ChatSession>)

  const WelcomeText := "Hello. I am the Syndicate's Senior Advisor. Describe your financial situation, investment goals, and risk tolerance, and I will provide tailored recommendations."
  const ApologyText := "I apologize, but I couldn't generate a response."
  const ConnectionErrorText := "I encountered an error connecting to the market data streams. Please try again."

  /** The one message the transcript starts with. */
  const Welcome := ChatMessage("welcome", Model, WelcomeText, None, false)

  /** The panel after mounting: the welcome message and, when the key is
      configured, a fresh session; a failed creation is swallowed. */
  function Mount(env: Env): (s: ChatState)
    ensures s.messages == [Welcome] && s.input == "" && !s.isTyping
    ensures s.session.Some? <==> SelectApiKey(env).Success?
    ensures s.session.Some? ==> s.session.value.history == []
  {
    ChatState([Welcome], "", false, CreateAdvisorChat(env).ToOption())
  }

  /** How the session's `sendMessage` settles: with a result, or by
      throwing. */
  datatype SendOutcome = Replied(result: GenerateResult) | SendFailed(reason: string)

  /** `handleSend`'s guard: something other than whitespace to send, no
      reply pending, and a session. */
  predicate Accepts(s: ChatState) {
    Trim(s.input) != [] && !s.isTyping && s.session.Some?
  }

  /** The message that ends an accepted send. `result.response.text()` is
      called without a check, so a result without a response throws and
      takes the error branch like a failed send; so does a result whose
      citations cannot be read. */
  function ReplyMessage(id: string, outcome: SendOutcome): (m: ChatMessage)
    ensures m.role == Model && m.id == id && m.text != ""
    ensures m.isError <==>
      || outcome.SendFailed?
      || outcome.result.response.None?
      || ExtractSources(outcome.result).Failure?
    ensures m.isError ==> m.text == ConnectionErrorText && m.sources == None
    ensures !m.isError ==> m.sources == Some(ExtractSources(outcome.result).value)
    ensures !m.isError && outcome.result.response.value.text != "" ==> m.text == outcome.result.response.value.text
    ensures !m.isError && outcome.result.response.value.text == "" ==> m.text == ApologyText
  {
    match outcome
    case Replied(GenerateResult(Some(response))) =>
      (match ExtractSources(outcome.result)
       case Success(sources) => ChatMessage(id, Model, Or(Some(response.text), ApologyText), Some(sources), false)
       case Failure(_) => ChatMessage(id, Model, ConnectionErrorText, None, true))
    case _ =>
      ChatMessage(id, Model, ConnectionErrorText, None, true)
  }

  /** One send: the state while the reply is pending, the state once it has
      settled, and the text handed to the session, if any. */
  datatype Turn = Turn(pending: ChatState, settled: ChatState, sent: Option<string>)

  /** `handleSend`, with the two clock-derived ids as parameters. */
  function HandleSend(s: ChatState, userId: string, replyId: string, outcome: SendOutcome): (t: Turn)
    ensures !Accepts(s) ==> t == Turn(s, s, None)
    ensures Accepts(s) ==>
      && t.sent == Some(s.input)
      && t.pending == s.(messages := s.messages + [ChatMessage(userId, User, s.input, None, false)],
                         input := "", isTyping := true)
      && t.settled == t.pending.(messages := t.pending.messages + [ReplyMessage(replyId, outcome)],
                                 isTyping := false)
  {
    if !Accepts(s) then Turn(s, s, None)
    else
      var userMsg := ChatMessage(userId, User, s.input, None, false);
      var pending := s.(messages := s.messages + [userMsg], input := "", isTyping := true);
      Turn(pending, pending.(messages := pending.messages + [ReplyMessage(replyId, outcome)], isTyping := false),
           Some(userMsg.text))
  }

  /** An accepted send keeps every earlier message and adds exactly two:
      the user's text verbatim, then one model message. */
  lemma SendAppendsTwo(s: ChatState, userId: string, replyId: string, outcome: SendOutcome)
    requires Accepts(s)
    ensures var m := HandleSend(s, userId, replyId, outcome).settled.messages;
            && |m| == |s.messages| + 2
            && m[..|s.messages|] == s.messages
            && m[|s.messages|].role == User && m[|s.messages|].text == s.input
            && m[|s.messages| + 1].role == Model
  {
  }

  /** Nothing is sent and nothing changes when the input is blank, a reply
      is pending, or there is no session. */
  lemma RejectedSend(s: ChatState, userId: string, replyId: string, outcome: SendOutcome)
    requires AllSpace(s.input) || s.isTyping || s.session.None?
    ensures HandleSend(s, userId, replyId, outcome) == Turn(s, s, None)
  {
    TrimEmpty(s.input);
  }

  // ---------------------------------------------------------------------
  // the panel over time

  /** What the user can do once the panel is mounted: type into the field
      (disabled while a reply is pending) or send. */
  datatype Event = Type(text: string) | Send(userId: string, replyId: string, outcome: SendOutcome)

  function Step(s: ChatState, e: Event): ChatState {
    match e
    case Type(text) => if s.isTyping then s else s.(input := text)
    case Send(userId, replyId, outcome) => HandleSend(s, userId, replyId, outcome).settled
  }

  function Replay(s: ChatState, events: seq<Event>): ChatState
    decreases |events|
  {
    if events == [] then s else Replay(Step(s, events[0]), events[1..])
  }

  /** The shape of a settled transcript: the welcome message first, then
      user and model messages alternating, ending with a model message. */
  predicate Alternating(m: seq<ChatMessage>) {
    && |m| % 2 == 1
    && m[0] == Welcome
    && forall i | 0 <= i < |m| :: m[i].role == (if i % 2 == 1 then User else Model)
  }

  /** Events only ever append to the transcript, and the session never
      changes. */
  lemma {:induction false} ReplayAppends(s: ChatState, events: seq<Event>)
    ensures var r := Replay(s, events);
            && |s.messages| <= |r.messages| && r.messages[..|s.messages|] == s.messages
            && r.session == s.session
    decreases |events|
  {
    if events != [] {
      var s1 := Step(s, events[0]);
      ReplayAppends(s1, events[1..]);
      var r := Replay(s, events);
      assert r == Replay(s1, events[1..]);
      assert s1.messages[..|s.messages|] == s.messages;
      assert r.messages[..|s.messages|] == r.messages[..|s1.messages|][..|s.messages|];
    }
  }

  /** Between sends the transcript alternates and no reply is pending. */
  lemma {:induction false} ReplayAlternates(s: ChatState, events: seq<Event>)
    requires Alternating(s.messages) && !s.isTyping
    ensures Alternating(Replay(s, events).messages) && !Replay(s, events).isTyping
    decreases |events|
  {
    if events != [] {
      var s1 := Step(s, events[0]);
      if events[0].Send? && Accepts(s) {
        var m := s1.messages;
        assert |m| == |s.messages| + 2;
        forall i | 0 <= i < |m| ensures m[i].role == (if i % 2 == 1 then User else Model) {
          if i < |s.messages| {
            assert m[i] == s.messages[i];
          }
        }
      }
      ReplayAlternates(s1, events[1..]);
    }
  }

  /** When no session could be created, the transcript stays the welcome
      message whatever the user does. */
  lemma {:induction false} NoSessionNoChange(s: ChatState, events: seq<Event>)
    requires s.session.None?
    ensures Replay(s, events).messages == s.messages
    decreases |events|
  {
    if events != [] {
      NoSessionNoChange(Step(s, events[0]), events[1..]);
    }
  }

  /** From mounting on: the transcript alternates and starts with the
      welcome message, and without a key it never grows. */
  lemma MountedPanel(env: Env, events: seq<Event>)
    ensures Alternating(Replay(Mount(env), events).messages)
    ensures !Replay(Mount(env), events).isTyping
    ensures SelectApiKey(env).Failure? ==> Replay(Mount(env), events).messages == [Welcome]
  {
    ReplayAlternates(Mount(env), events);
    if SelectApiKey(env).Failure? {
      NoSessionNoChange(Mount(env), events);
    }
  }
}
