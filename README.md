# Streaming chat state of reflex-ai-chat, in Dafny

The chat front end keeps, per browser session, a `ChatState` with three fields: the current
`question`, the busy flag `is_processing`, and `chat_history`, an ordered list of
`{role, content}` turns. Submitting a query strips it and ignores it when blank. Otherwise the
handler:

- stores it as the question and raises the flag;
- appends a user turn and an assistant turn holding the sentinel `"Just a moment..."`;
- asks the language model for a streamed completion of the whole history;
- writes each non-empty streamed delta into that last turn. The delta replaces the sentinel
  while the turn still equals it, and is appended otherwise.

A failure (an `Exception`) overwrites the last turn with `"An error occurred: "` and the
exception's text. The
flag is lowered whatever happens. The other operations clear the history and return it.

The project has three modules:

- `Strings` (`strings.dfy`) models Python's `str.isspace` and `str.strip()`.
- `Chat` (`chat.dfy`) holds the values:
  - roles and turns;
  - the sentinel and the error prefix;
  - the events the completion stream delivers: a chunk (with missing, empty or non-empty
    `choices`) or a failure that ends the stream;
  - how the answer loop treats one event (`Classify`, `Absorb`);
  - the final content of the pending turn (`Consume`);
  - the snapshots the renderer sees at every `yield` (`StreamViews`, `SubmitViews`).
- `State` (`chat_state.dfy`) holds the class `ChatState`. Its fields `question`,
  `isProcessing` and `chatHistory` are updated in place by `HandleQuerySubmission`,
  `ClearChatHistory` and the loop of `AnswerQuery`. A ghost field `Renders` records one
  snapshot per `yield`.

The completion call is an input: `HandleQuerySubmission(inputQuery, stream)` takes the stream
as a finite sequence of events. It returns the message list the completion was asked with.
Opening the stream and failing is a `Fail` as the first event.

Behaviour the model follows as the code has it:

- The handler never checks `is_processing` before it starts. The view's send button is
  disabled while `is_processing` is set (frontend/views/chat.py:138-140), but the handler itself
  does not consult the flag. `HandleQuerySubmission` therefore has no precondition on the flag.
- The message list sent to the model already holds the pending assistant turn with the
  sentinel. `request` says so.
- The pending turn starts as the sentinel text, not as an empty string.
- The sentinel test compares strings. Streamed text that spells out the sentinel is thrown away
  by the next delta (`Chat.MarkerCollision`).
- When no non-empty delta arrives, the sentinel stays as the answer.
- A chunk whose `choices` list is empty raises `IndexError` inside the `try`. It is reported
  like any other failure, with the text `list index out of range`.

## Model

| member | source | states |
|---|---|---|
| Strings.Strip | frontend/state.py:84 | the stripped query neither starts nor ends with whitespace, is the slice of the input that begins where the leading whitespace ends, and only whitespace follows it |
| Strings.StripUnique | frontend/state.py:84 | any text surrounded only by whitespace and not itself starting or ending with whitespace is what stripping returns |
| Strings.StripIdempotent | frontend/state.py:84 | stripping a stripped query changes nothing |
| Strings.StripBlank | frontend/state.py:84-86 | a query is blank after stripping exactly when every character of it is whitespace |
| Chat.RoleName | frontend/state.py:23-31 | each role has a non-empty wire name |
| Chat.RoleNameInjective | frontend/state.py:29-31 | the three role names are pairwise distinct |
| Chat.Classify | frontend/state.py:106-108 | an event yields text exactly when it has choices whose first delta is truthy and carries non-empty content; it is an error exactly when it is a failure or its choices list is empty (IndexError) |
| Chat.ConsumeCases | frontend/state.py:106-117 | the final pending content is the error message of the first failure if there is one, and otherwise the in-order absorption of every non-empty delta |
| Chat.AbsorbAllAppends | frontend/state.py:109-112 | absorbing deltas appends them all, in order, as long as no content along the way equals the marker |
| Chat.StreamConcatenates | frontend/state.py:106-112 | with no failure, at least one non-empty delta and no proper prefix of the streamed text equal to the marker, the answer is the concatenation of all non-empty deltas in order |
| Chat.NoTextKeepsMarker | frontend/state.py:96-108 | with no failure and no non-empty delta the answer is still the marker |
| Chat.FailureOverwrites | frontend/state.py:115-116 | a failure (an `Exception`) anywhere in the stream leaves exactly "An error occurred: " and its text, whatever was streamed before |
| Chat.SkippedChunk | frontend/state.py:106-108 | a chunk with no choices, no delta or no text changes neither the answer, nor the deltas seen, nor the first failure |
| Chat.MarkerCollision | frontend/state.py:109-112 | deltas "Just a ", "moment...", "!" answer "!" because the marker test is on text alone |
| Chat.AnswerIsConcatenation | frontend/state.py:106-112 | deltas "Hi", " there", "!" answer "Hi there!" |
| Chat.PartialAnswerReplacedByError | frontend/state.py:109-116 | "Par" followed by a failure answers only the error message |
| Chat.StreamViewsPending | frontend/state.py:109-117 | every snapshot rendered while streaming shows the flag raised, the question set, all earlier turns and the user turn unchanged, and one assistant turn after them |
| Chat.StreamViewsCount | frontend/state.py:108-117 | one snapshot is rendered per non-empty delta before the first failure, plus one for the failure |
| Chat.StreamViewsLast | frontend/state.py:109-117 | the last snapshot rendered while streaming already shows the final answer |
| Chat.SubmitBusyThroughout | frontend/state.py:87-120 | of a submission's snapshots, the first shows the flag as it was, every later one but the last shows it raised, the last shows it lowered; from the third on, the history is the old one plus the user turn and one assistant turn after it, and the last holds the final answer |
| State.ChatState.constructor | frontend/state.py:50-55 | a new session has an empty question, is idle and has an empty history |
| State.ChatState.GetHistory | frontend/state.py:59-67 | returns the current history as it is |
| State.ChatState.ClearChatHistory | frontend/state.py:69-74 | the history becomes empty and no other field changes, so clearing twice is clearing once |
| State.ChatState.SetLastContent | frontend/state.py:110-116 | only the content of the last turn is replaced; its role and every other turn stay |
| State.ChatState.TakeChunk | frontend/state.py:106-114 | one event: a non-empty delta is absorbed into the pending turn and rendered; an empty choices list or a failure is handed to the handler; anything else changes nothing |
| State.ChatState.AnswerQuery | frontend/state.py:93-117 | appends the user turn and the marker turn, asks with that whole list, and leaves the pending turn as the stream's final answer or error message, earlier turns unchanged, and the streaming snapshots rendered |
| State.ChatState.Submit | frontend/state.py:87-120 | for a non-blank query: the question is set, exactly two turns are appended (user with the query, assistant with the final answer), the request holds the marker turn, the flag ends lowered whatever happened, and the rendered snapshots are those of a submission |
| State.ChatState.HandleQuerySubmission | frontend/state.py:76-120 | a blank query changes no field and renders nothing; otherwise the question is the stripped query, exactly two turns are appended (user with the query, assistant with the final answer), the request holds the marker turn, the flag ends lowered, and the rendered snapshots are those of a submission |
| State.AskOnce | frontend/state.py:76-120 | a fresh session asked once ends idle, empty for a blank query, and otherwise with the user turn and the streamed answer |
| State.IgnoresBlank | frontend/state.py:84-86 | a whitespace-only query leaves a fresh session empty and idle |
| State.ClearsFourTurns | frontend/state.py:69-74 | two answered queries leave four turns, and clearing leaves none |

## Left out

- The form lookup `form_data['input_query']` is not modelled. Its `KeyError` would be raised outside the `try`. The handler takes the query text directly.
- The parameters of the completion call are not modelled: the model name, `temperature=0.01`, `max_tokens=512`, `response_format`, `stream=True` and the `session_id` metadata. They configure a foreign network client. The model keeps only the message list.
- Responses are abstract events. How the provider splits its answer into chunks is not modelled, and neither is how truthy a chunk's `delta` object is. A falsy delta is `None`.
- `str(delta_content)` is not modelled: delta content is already a string.
- The async suspension points are not modelled as concurrency. Each `yield` is a ghost snapshot in `Renders`. Other event handlers that could run between two `yield`s are not modelled, such as clearing the history while an answer streams.
- Aliasing is not modelled. The history is a value: the request is a snapshot taken when the completion is asked, and `GetHistory` returns a copy. In Python the same list object is shared and later mutations show through it.
- Failures other than a stream failure or an empty `choices` list are not modelled. Examples are a malformed choice or a missing `delta` key. Each would write its own exception text in the same way.
- Exceptions that are not `Exception` subclasses are not modelled: `asyncio.CancelledError`, `KeyboardInterrupt` and `GeneratorExit` are `BaseException`s that the `except Exception` clause does not catch. On one of them the source skips the error message, so the last turn keeps the partial answer or the marker; the `finally` block still lowers the flag and yields, and the exception leaves the handler. `Chat.FailureOverwrites`, `Chat.ConsumeCases` and `State.ChatState.HandleQuerySubmission` hold only for streams whose failures are `Exception`s.
- The Unicode whitespace set of `str.isspace` is written out as a fixed list of code points. It does not follow later Unicode versions.
- Not modelled because they hold no chat-state logic: `SettingsState` (colour and font), `load_dotenv`, the `uuid4` session id, the constants `CHAT_TEXT_INPUT` and `CHAT_SCROLL_ELEMENT`, the page components in frontend/views/chat.py and frontend/components/reset.py, and rxconfig.py.
