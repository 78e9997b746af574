# CryptoChat front end: a Dafny model of its conversation logic

CryptoChat is a browser chat client. The user types a question or dictates it into the microphone. The client posts the question to a chat backend and shows the reply as a text bubble or a price chart. It also reads the reply aloud. Three pieces of that client carry logic, and this project models those three and proves properties of them:

- **The voice-capture session** (`useSpeechRecognition`) is a two-state machine, idle or listening, around an optional browser recognizer. `SpeechRecognition.Step` specifies one event: start, stop, result, end, error or unmount. Class `SpeechRecognition.Session` holds the hook's state in fields (`hasDevice`, `isListening`, `transcript`, `disposed` and a ghost log of the start and stop calls made on the device). Each of its methods is proved to perform `Step`. `ResultTranscript` is the pure transcript join done by the `result` handler.
- **The chat turn** (`handleSubmit` in `Home`) works over the message log, the input, the loading flag and the session id. The HTTP exchange becomes an abstract `Outcome`: a parsed response, or a failure. `handleSubmit` has two awaits, `fetch` and `response.json()`, and both lie inside that outcome. The model splits `handleSubmit` into two parts:
  - `BeginSubmit` runs before the first await. It applies the guard, stops listening, appends the user's message, sets loading and clears the input. `RequestFor` gives the request this part posts.
  - `CompleteSubmit` runs once the exchange is over. It either adopts the response's session id and appends the reply, or appends the fallback text.

  Class `ChatPage.Home` holds these fields plus the voice session, and its methods are proved to perform these functions.
- **The message list view** (`MessageList`) is the pure rule that picks the welcome panel, the message bubbles and the "Thinking" placeholder.

Modules: `Wrappers` (Option), `Messages` (the message shape of `src/lib/types.ts`), `JsString` (ECMAScript `trim`), `SpeechRecognition`, `ChatPage`, `MessageList`.

Two behaviours of the code are kept as written:
- The effect's cleanup stops the device unconditionally, even when it is not listening.
- The `result` handler replaces the transcript whether or not the session is listening. A recognizer can deliver a final result after `stop()`.

## Model

| member | source | states |
|---|---|---|
| SpeechRecognition.FirstAlternatives | src/hooks/useSpeechRecognition.ts:77-79 | one entry per result, in result order, each that result's first alternative |
| SpeechRecognition.ResultTranscript | src/hooks/useSpeechRecognition.ts:77-81 | a transcript is published exactly when every result has an alternative (otherwise `result[0].transcript` throws); an empty result list gives "" |
| SpeechRecognition.JoinAppend | src/hooks/useSpeechRecognition.ts:80 | `join('')` of two concatenated lists is the concatenation of their joins |
| SpeechRecognition.JoinKeepsOrder | src/hooks/useSpeechRecognition.ts:80 | each part appears unaltered in the join, right after the join of the parts before it |
| SpeechRecognition.TranscriptKeepsResultOrder | src/hooks/useSpeechRecognition.ts:77-80 | the first alternative of result i sits, unaltered, right after the transcript of results 0..i-1 |
| SpeechRecognition.TranscriptExtends | src/hooks/useSpeechRecognition.ts:77-80 | one more result extends the transcript by exactly its first alternative |
| SpeechRecognition.Step | src/hooks/useSpeechRecognition.ts:52-108 | every event preserves the session invariant: no device means idle, an empty transcript and no device calls; listening while mounted means the last device call was a start |
| SpeechRecognition.Run | src/hooks/useSpeechRecognition.ts:52-108 | any sequence of events preserves the session invariant |
| SpeechRecognition.LastControl | src/hooks/useSpeechRecognition.ts:68-108 | None exactly when no start, stop, end or error event occurs; otherwise such an event that occurs at some position with no such event after it, i.e. the most recent one |
| SpeechRecognition.ListeningIffLastControlIsStart | src/hooks/useSpeechRecognition.ts:68-108 | over any run of a mounted session, listening holds exactly when a device exists and the most recent start, stop, end or error event is a start |
| SpeechRecognition.NoDeviceIsInert | src/hooks/useSpeechRecognition.ts:53-103 | without a recognizer, no sequence of events changes the listening flag, the transcript or the device calls |
| SpeechRecognition.ResultReplacesTranscript | src/hooks/useSpeechRecognition.ts:75-82 | the transcript after a result event does not depend on the transcript before it |
| SpeechRecognition.Session.constructor | src/hooks/useSpeechRecognition.ts:48-64 | mounting starts idle with an empty transcript and no device calls; `hasDevice` records whether a recognizer was found |
| SpeechRecognition.Session.StartListening | src/hooks/useSpeechRecognition.ts:94-101 | from idle with a device: clears the transcript, calls device start once and listens; otherwise (already listening, or no device) nothing changes |
| SpeechRecognition.Session.StopListening | src/hooks/useSpeechRecognition.ts:102-108 | while listening: calls device stop once, goes idle and keeps the transcript; otherwise nothing changes |
| SpeechRecognition.Session.OnResult | src/hooks/useSpeechRecognition.ts:75-82 | sets the transcript to the in-order join of the results' first alternatives, or leaves it when the handler throws; listening and device calls unchanged |
| SpeechRecognition.Session.OnEnd | src/hooks/useSpeechRecognition.ts:84-87 | goes idle; transcript and device calls unchanged |
| SpeechRecognition.Session.OnError | src/hooks/useSpeechRecognition.ts:68-72 | goes idle; transcript and device calls unchanged |
| SpeechRecognition.Session.Cleanup | src/hooks/useSpeechRecognition.ts:89-91 | calls device stop once whatever the listening state; listening flag and transcript unchanged |
| JsString.TrimStart | src/app/page.tsx:36 | the result is a suffix of the input that is empty or starts with a non-whitespace character |
| JsString.TrimEnd | src/app/page.tsx:36 | the result is a prefix of the input that is empty or ends with a non-whitespace character |
| JsString.TrimStartDropsBlank | src/app/page.tsx:36 | everything `TrimStart` drops is whitespace |
| JsString.TrimEndDropsBlank | src/app/page.tsx:36 | everything `TrimEnd` drops is whitespace |
| JsString.TrimIsEmptyIffBlank | src/app/page.tsx:36 | `!input.trim()` holds exactly when every character of the input is whitespace or a line terminator |
| ChatPage.Initial | src/app/page.tsx:13-22 | the initial page state satisfies the page invariant (log starts with the greeting, no placeholder node, voice session valid) |
| ChatPage.SyncTranscript | src/app/page.tsx:28-32 | a non-empty transcript overwrites the input, an empty one leaves it; nothing else changes |
| ChatPage.RejectedSubmitChangesNothing | src/app/page.tsx:36 | a whitespace-only or empty input, or a submit while loading, leaves the whole state unchanged |
| ChatPage.AcceptedSubmitAppendsUserMessage | src/app/page.tsx:36-46 | an accepted submit appends exactly one user message holding the pre-submit input, sets loading, clears the input and keeps the session id and the utterances; the voice session goes idle, its device log gains exactly one stop when it was listening (none otherwise), and nothing else in it changes |
| ChatPage.BeginSubmitKeepsInv | src/app/page.tsx:39-46 | the first half of a submit preserves the page invariant |
| ChatPage.CompletionAppendsOneReply | src/app/page.tsx:55-78 | completion appends one bot message and clears loading; success adopts the response's session id, a chart reply carries the points and speaks the fixed phrase, a text reply carries and speaks its text; failure appends the fixed fallback text, keeps the session id and speaks nothing; the input and the voice session are left unchanged |
| ChatPage.AcceptedTurnAppendsTwo | src/app/page.tsx:34-78 | an accepted turn grows the log by exactly two entries, the user's message and then a bot message, keeps earlier entries and ends not loading with an empty input |
| ChatPage.LogIsAppendOnly | src/app/page.tsx:43-78 | over any conversation, the log grows by two per non-blank turn, never alters earlier entries and ends not loading |
| ChatPage.PageShowsPlaceholderIffLoading | src/app/page.tsx:96 | on any valid page state the list shows the placeholder exactly when loading |
| ChatPage.FirstTurnScenario | src/app/page.tsx:34-78 | from the initial page, the first question is posted with no session id; a text reply under "s1" leaves three messages, loading cleared, session id "s1" and no welcome panel |
| ChatPage.Home.constructor | src/app/page.tsx:12-25 | one bot greeting with id '0', input "", not loading, session id null, voice session mounted |
| ChatPage.Home.SetInput | src/app/page.tsx:20 | replaces the input and nothing else |
| ChatPage.Home.OnTranscriptChange | src/app/page.tsx:28-32 | a non-empty transcript overwrites the input; an empty one leaves it as it was |
| ChatPage.Home.HandleSubmit | src/app/page.tsx:34-53 | performs `BeginSubmit`; returns `RequestFor` of the pre-submit state, the posted request carrying the pre-submit input and the session id held before the submit, or none when rejected |
| ChatPage.Home.ReceiveOutcome | src/app/page.tsx:55-78 | performs `CompleteSubmit` with the exchange's outcome; loading is false afterwards |
| MessageList.Bubbles | src/components/MessageList.tsx:41-43 | one bubble per message, in array order |
| MessageList.View | src/components/MessageList.tsx:27-56 | welcome panel exactly when there is one message; every message in order exactly when there are more than one (none of them with zero); the placeholder last whenever loading; without loading every bubble is a message of the log |
| MessageList.PlaceholderShownIffLoading | src/components/MessageList.tsx:45-56 | for a log without a "Thinking" node, the placeholder (a bot message with id 'loading') is not in the log and is shown exactly when loading |

## Left out

- Fetch, HTTP and JSON parsing are left out. The exchange is an abstract `Outcome`. A non-ok status, a network error and an unparsable body all become `Failure`.
- Only responses of the shape the page reads are modelled: `sessionId`, then `type` with `content`, where `type: "chart"` comes with price points and any other type with a string. Responses of any other shape are not modelled. The session id of a response is taken as it comes, with no validity check.
- Message ids are built from `Date.now()`. In the model they are string parameters (`stamp`, with the `bot` and `error` suffixes the code adds). No uniqueness is claimed.
- Prices and timestamps are integers, not floating point. Nothing in the model does arithmetic on them.
- Speech output (`src/lib/speak.ts`) is only a log of the texts handed to it, `spoken`. Cancel-before-speak and the synthesizer itself are not modelled.
- Console logging is left out.
- The recognizer's `continuous` and `interimResults` settings, which the setup effect sets to true, are left out. So is its unused `abort`.
- `speechSynthesis` availability checks are left out.
- React rendering and effect timing are left out. The transcript effect is the method `OnTranscriptChange`, which the caller invokes after a transcript change.
- Asynchronous state batching is left out.
- Stale closures over `isListening` are left out. The model reads the current state.
- SpeechRecognition.Session.StartListening: assumes that the device's `start()` succeeds. When the device has been stopped but has not yet fired `end`, as after a quick second click on the microphone, the browser's `start()` throws. The source has then already cleared the transcript, and it stays idle. The model instead listens and logs a device start. `Inv` and `ListeningIffLastControlIsStart` hold under this assumption.
- After the hook's cleanup nothing reaches the session. React drops state updates of an unmounted component, and the UI can no longer call the hook. The methods therefore require a mounted session.
- The scroll-to-bottom effect of the message list is left out.
- src/components/PriceChart.tsx, ChatInput.tsx and ChatBubble.tsx are only rendering and styling. The disable predicates of ChatInput restate the loading and listening guards that are already modelled. The input's change handler and its clear button are the `SetInput` method.
- JsString.TrimIsEmptyIffBlank: characters are Unicode scalar values, not UTF-16 code units. Lone surrogates cannot occur in the model, and no surrogate is whitespace.
