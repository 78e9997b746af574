/**
 * The conversation held by the `Home` page (src/app/page.tsx): the message
 * log, the input field, the loading flag and the session id, driven by
 * `handleSubmit` against an abstract backend outcome.
 *
 * `handleSubmit` runs in two parts: `BeginSubmit` (guard, stop listening,
 * user message) before the first `await`, and `CompleteSubmit` (reply or
 * fallback) once the exchange is over; both awaits, `fetch` and
 * `response.json()`, lie inside the abstract outcome. `RequestFor` is the
 * request the first part posts. The pure functions are the specification;
 * class `Home` holds the state in fields and its methods are proved to
 * perform them.
 */
module ChatPage {
  import opened Wrappers
  import opened Messages
  import opened JsString
  import SR = SpeechRecognition
  import ML = MessageList

  const Greeting: string := "Hello! Click the microphone to ask a question with your voice."
  const Fallback: string := "Sorry, I'm having trouble connecting to my brain right now. Please try again later."
  const ChartCaption: string := "OK. Here is the 7 day chart data."
  const ChartUtterance: string := "Here is the 7 day chart data especially crafted for you"

  /** The log's first entry: the bot greeting with id '0'. */
  const GreetingMessage: Message := Message("0", Bot, Text(Greeting))

  /** The body of a backend reply: `type: "chart"` with price points, or any other type with text. */
  datatype Reply = ChartReply(points: seq<PricePoint>) | TextReply(text: string)

  /** A parsed backend response; its session id is taken as it comes (None for null or absent). */
  datatype ChatResponse = ChatResponse(sessionId: Option<string>, reply: Reply)

  /** How the exchange ended: a parsed response, or any failure (network error, non-ok status, unparsable body). */
  datatype Outcome = Success(response: ChatResponse) | Failure

  /** The JSON body posted to the backend. */
  datatype ChatRequest = ChatRequest(message: string, sessionId: Option<string>)

  /** Everything the page holds, including the utterances handed to the speech synthesizer and the voice session. */
  datatype PageState = PageState(
    messages: seq<Message>, input: string, isLoading: bool, sessionId: Option<string>,
    spoken: seq<string>, speech: SR.SessionState)

  /**
   * The log starts with the greeting and never holds a "Thinking" node; the
   * voice session is valid and mounted for the page's whole life.
   */
  predicate PageInv(p: PageState)
  {
    p.messages != [] && p.messages[0] == GreetingMessage
    && (forall i :: 0 <= i < |p.messages| ==> !p.messages[i].content.Thinking?)
    && SR.Inv(p.speech) && !p.speech.disposed
  }

  function Initial(hasDevice: bool): (p: PageState)
    ensures PageInv(p)
  {
    PageState([GreetingMessage], "", false, None, [], SR.Init(hasDevice))
  }

  /** `setInput(text)`, as the input field's change handler and clear button call it. */
  function EditInput(p: PageState, text: string): PageState
  {
    p.(input := text)
  }

  /** The effect run when the transcript changes: a non-empty transcript overwrites the input. */
  function SyncTranscript(p: PageState): (q: PageState)
    ensures p.speech.transcript != "" ==> q.input == p.speech.transcript
    ensures p.speech.transcript == "" ==> q.input == p.input
    ensures q.(input := p.input) == p
  {
    if p.speech.transcript != "" then p.(input := p.speech.transcript) else p
  }

  /** The guard of `handleSubmit`: a non-blank input and no exchange outstanding. */
  predicate Accepts(p: PageState)
  {
    Trim(p.input) != "" && !p.isLoading
  }

  function UserMessage(text: string, stamp: string): Message
  {
    Message(stamp, User, Text(text))
  }

  function BotMessage(reply: Reply, stamp: string): Message
  {
    match reply
    case ChartReply(points) => Message(stamp + "bot", Bot, Chart(ChartCaption, points))
    case TextReply(text) => Message(stamp + "bot", Bot, Text(text))
  }

  /** What is spoken for a reply: a fixed phrase for a chart, the reply text otherwise. */
  function Utterance(reply: Reply): string
  {
    match reply
    case ChartReply(_) => ChartUtterance
    case TextReply(text) => text
  }

  function FallbackMessage(stamp: string): Message
  {
    Message(stamp + "error", Bot, Text(Fallback))
  }

  /** The request an accepted submit posts: the input and session id held before the submit. */
  function RequestFor(p: PageState): ChatRequest
  {
    ChatRequest(p.input, p.sessionId)
  }

  /**
   * `handleSubmit` up to its first `await`: when accepted, stop listening if
   * active, append the user message, set loading and clear the input.
   */
  function BeginSubmit(p: PageState, stamp: string): PageState
  {
    if !Accepts(p) then p
    else
      var speech := if p.speech.listening then SR.Step(p.speech, SR.CallStop) else p.speech;
      p.(speech := speech, messages := p.messages + [UserMessage(p.input, stamp)],
         isLoading := true, input := "")
  }

  /**
   * `handleSubmit` once the exchange is over: adopt the response's session id and
   * append the reply (speaking it), or append the fallback text and keep the
   * session id; clear loading either way.
   */
  function CompleteSubmit(p: PageState, outcome: Outcome, stamp: string): (q: PageState)
    ensures PageInv(p) ==> PageInv(q)
  {
    match outcome
    case Success(response) =>
      p.(sessionId := response.sessionId,
         messages := p.messages + [BotMessage(response.reply, stamp)],
         spoken := p.spoken + [Utterance(response.reply)],
         isLoading := false)
    case Failure =>
      p.(messages := p.messages + [FallbackMessage(stamp)], isLoading := false)
  }

  /** The first half of a submit keeps the page invariant. */
  lemma BeginSubmitKeepsInv(p: PageState, stamp: string)
    requires PageInv(p)
    ensures PageInv(BeginSubmit(p, stamp))
  {
  }

  /** A whole submit: rejected, or begun and completed with the given outcome. */
  function Exchange(p: PageState, outcome: Outcome, userStamp: string, replyStamp: string): PageState
  {
    if Accepts(p) then CompleteSubmit(BeginSubmit(p, userStamp), outcome, replyStamp) else p
  }

  /** A blank input (only whitespace, or empty) or a submit while loading changes nothing. */
  lemma RejectedSubmitChangesNothing(p: PageState, stamp: string)
    requires IsBlank(p.input) || p.isLoading
    ensures BeginSubmit(p, stamp) == p
  {
  }

  /**
   * An accepted submit appends exactly the user's pre-submit input, sets
   * loading, clears the input and keeps the session id; the voice session
   * goes idle, with one device stop when it was listening and no other change.
   */
  lemma AcceptedSubmitAppendsUserMessage(p: PageState, stamp: string)
    requires PageInv(p) && !IsBlank(p.input) && !p.isLoading
    ensures var q := BeginSubmit(p, stamp);
      q.messages == p.messages + [UserMessage(p.input, stamp)]
      && q.isLoading && q.input == "" && q.sessionId == p.sessionId
      && q.speech == p.speech.(listening := false,
                               calls := p.speech.calls + (if p.speech.listening then [SR.DeviceStop] else []))
      && q.spoken == p.spoken
  {
    TrimIsEmptyIffBlank(p.input);
  }

  /**
   * A completed exchange appends exactly one bot message, clears loading,
   * changes the session id only on success, to the response's, and leaves
   * the input and the voice session as they were.
   */
  lemma CompletionAppendsOneReply(p: PageState, outcome: Outcome, stamp: string)
    ensures var q := CompleteSubmit(p, outcome, stamp);
      |q.messages| == |p.messages| + 1 && q.messages[..|p.messages|] == p.messages
      && q.messages[|p.messages|].author == Bot
      && !q.isLoading && q.input == p.input && q.speech == p.speech
      && (outcome.Success? ==> q.sessionId == outcome.response.sessionId)
      && (outcome.Failure? ==> q.sessionId == p.sessionId
                               && q.messages[|p.messages|].content == Text(Fallback)
                               && q.spoken == p.spoken)
      && (outcome.Success? && outcome.response.reply.ChartReply? ==>
            q.messages[|p.messages|].content == Chart(ChartCaption, outcome.response.reply.points)
            && q.spoken == p.spoken + [ChartUtterance])
      && (outcome.Success? && outcome.response.reply.TextReply? ==>
            q.messages[|p.messages|].content == Text(outcome.response.reply.text)
            && q.spoken == p.spoken + [outcome.response.reply.text])
  {
  }

  /**
   * Each accepted turn grows the log by exactly two entries, the user's
   * message then the bot's, and leaves every earlier entry as it was.
   */
  lemma AcceptedTurnAppendsTwo(p: PageState, outcome: Outcome, userStamp: string, replyStamp: string)
    requires Accepts(p)
    ensures var q := Exchange(p, outcome, userStamp, replyStamp);
      |q.messages| == |p.messages| + 2 && q.messages[..|p.messages|] == p.messages
      && q.messages[|p.messages|] == UserMessage(p.input, userStamp)
      && q.messages[|p.messages| + 1].author == Bot
      && !q.isLoading && q.input == ""
  {
  }

  // ---------------------------------------------------------------------------
  // A conversation: one typed input and one outcome per turn
  // ---------------------------------------------------------------------------

  datatype Turn = Turn(text: string, outcome: Outcome, userStamp: string, replyStamp: string)

  function RunTurns(p: PageState, turns: seq<Turn>): PageState
    decreases turns
  {
    if turns == [] then p
    else
      var t := turns[0];
      RunTurns(Exchange(EditInput(p, t.text), t.outcome, t.userStamp, t.replyStamp), turns[1..])
  }

  /** The number of turns whose input is not blank. */
  function AcceptedCount(turns: seq<Turn>): nat
  {
    if turns == [] then 0
    else (if IsBlank(turns[0].text) then 0 else 1) + AcceptedCount(turns[1..])
  }

  /**
   * The log is append-only: over any conversation started while not loading,
   * it grows by exactly two entries per non-blank turn, keeps every earlier
   * entry, and ends with loading cleared.
   */
  lemma {:induction false} LogIsAppendOnly(p: PageState, turns: seq<Turn>)
    requires !p.isLoading
    decreases turns
    ensures var q := RunTurns(p, turns);
      |q.messages| == |p.messages| + 2 * AcceptedCount(turns)
      && q.messages[..|p.messages|] == p.messages
      && !q.isLoading
  {
    if turns != [] {
      var t := turns[0];
      var e := EditInput(p, t.text);
      var mid := Exchange(e, t.outcome, t.userStamp, t.replyStamp);
      TrimIsEmptyIffBlank(t.text);
      if Accepts(e) {
        AcceptedTurnAppendsTwo(e, t.outcome, t.userStamp, t.replyStamp);
      }
      LogIsAppendOnly(mid, turns[1..]);
      var q := RunTurns(mid, turns[1..]);
      assert q.messages[..|p.messages|] == q.messages[..|mid.messages|][..|p.messages|];
    }
  }

  /** While the page's state is valid, the list shows the placeholder exactly when loading. */
  lemma PageShowsPlaceholderIffLoading(p: PageState)
    requires PageInv(p)
    ensures ML.Bubble(ML.LoadingPlaceholder) in ML.View(p.messages, p.isLoading) <==> p.isLoading
  {
  }

  /**
   * The first turn: from the initial page, asking "What's the price of BTC?"
   * posts it with no session id; a text reply under session "s1" leaves three
   * messages, loading cleared, session "s1" kept, and the welcome panel gone.
   */
  lemma FirstTurnScenario(userStamp: string, replyStamp: string)
    ensures var p := EditInput(Initial(true), "What's the price of BTC?");
      var q := Exchange(p, Success(ChatResponse(Some("s1"), TextReply("It's $65,000."))), userStamp, replyStamp);
      Accepts(p) && RequestFor(p) == ChatRequest("What's the price of BTC?", None)
      && |q.messages| == 3 && !q.isLoading && q.sessionId == Some("s1")
      && q.messages[2].content == Text("It's $65,000.")
      && ML.WelcomePanel !in ML.View(q.messages, q.isLoading)
  {
    var p := EditInput(Initial(true), "What's the price of BTC?");
    assert !IsTrimmable(p.input[0]);
    TrimIsEmptyIffBlank(p.input);
  }

  // ---------------------------------------------------------------------------
  // The page's state, updated in place
  // ---------------------------------------------------------------------------

  class Home {
    var messages: seq<Message>
    var input: string
    var isLoading: bool
    var sessionId: Option<string>
    var spoken: seq<string>
    const speech: SR.Session

    ghost function State(): PageState
      reads this, speech
    {
      PageState(messages, input, isLoading, sessionId, spoken, speech.State())
    }

    ghost predicate Valid()
      reads this, speech
    {
      PageInv(State())
    }

    /** Mounting `Home`: one greeting, empty input, not loading, no session id; the voice hook mounts too. */
    constructor (deviceAvailable: bool)
      ensures Valid() && fresh(speech) && State() == Initial(deviceAvailable)
      ensures messages == [Message("0", Bot, Text(Greeting))]
      ensures input == "" && !isLoading && sessionId == None
    {
      messages := [GreetingMessage];
      input := "";
      isLoading := false;
      sessionId := None;
      spoken := [];
      speech := new SR.Session(deviceAvailable);
    }

    method SetInput(text: string)
      requires Valid()
      modifies this
      ensures Valid() && State() == EditInput(old(State()), text)
    {
      input := text;
    }

    /** The transcript effect. */
    method OnTranscriptChange()
      requires Valid()
      modifies this
      ensures Valid() && State() == SyncTranscript(old(State()))
      ensures speech.transcript != "" ==> input == speech.transcript
      ensures speech.transcript == "" ==> input == old(input)
    {
      if speech.transcript != "" {
        input := speech.transcript;
      }
    }

    /**
     * `handleSubmit` up to its first `await`; returns the request it posts,
     * or None when the guard rejects the submit.
     */
    method HandleSubmit(stamp: string) returns (request: Option<ChatRequest>)
      requires Valid()
      modifies this, speech
      ensures Valid() && State() == BeginSubmit(old(State()), stamp)
      ensures request == if Accepts(old(State())) then Some(RequestFor(old(State()))) else None
    {
      if Trim(input) == "" || isLoading {
        return None;
      }
      request := Some(ChatRequest(input, sessionId));
      if speech.isListening {
        speech.StopListening();
      }
      messages := messages + [UserMessage(input, stamp)];
      isLoading := true;
      input := "";
    }

    /** `handleSubmit` once the exchange is over, with its outcome. */
    method ReceiveOutcome(outcome: Outcome, stamp: string)
      requires Valid() && isLoading
      modifies this
      ensures Valid() && State() == CompleteSubmit(old(State()), outcome, stamp)
      ensures !isLoading
    {
      match outcome {
        case Success(response) =>
          sessionId := response.sessionId;
          spoken := spoken + [Utterance(response.reply)];
          messages := messages + [BotMessage(response.reply, stamp)];
        case Failure =>
          messages := messages + [FallbackMessage(stamp)];
      }
      isLoading := false;
    }
  }
}
