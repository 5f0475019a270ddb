# Socratic Mind: a Dafny model of the chat front-end's logic

Socratic Mind is a single-page tutoring chat. The user types a topic and their
current perspective. The app sends both, with the earlier turns, to a remote
language model and shows the reply as markdown. This project models the
sequential logic around that round trip and proves properties of it:

- `types.dfy` (module `Types`) holds the data model of `types.ts`. A `Message` has an id,
  one of two roles (`User`, `Model`), a content string, an integer timestamp
  and optional structured input (`topic`, `perspective`). A `ChatSession` is an
  ordered list of messages. `LoadingState` has four values: `Idle`, `Thinking`,
  `Streaming` and `Error`.
- `message_bubble.dfy` (module `MessageBubble`) holds the bubble's choice between the inquiry
  card and markdown. It also holds the header-spacing fix-up: two global regex
  replacements, each written as the left-to-right, non-overlapping scan that
  a global replacement performs.
- `gemini_service.dfy` (module `GeminiService`) builds the request. It holds the missing-key
  check, the mapping of history to API turns, the prompt template and the
  empty-reply fallback. The remote chat call is an argument (`SdkReply`).
- `dual_input_area.dfy` (module `DualInputArea`) models the form: the class `InputForm` with
  its two fields, the trim-based guard, the reset after a submission, the
  Cmd+Enter shortcut and the submit button's `disabled` state.
- `app.dfy` (module `App`) models the controller: the class `Conversation` with the message
  list, the loading state and the error text. `handleSendMessage` is split at
  its `await` into `Send` and `Complete`, and `HandleSendMessage` composes them
  with the service. `SubmitForm` wires the form to the controller.
- `wrappers.dfy` holds `Option` and `Result`.

Facts about the code that the model keeps:

- The fix-up is not idempotent. `"\n###"` becomes `"\n\n###"`, which becomes
  `"\n\n\n###"` when the fix-up is applied a second time. A glued `"x###"` gains three newlines, not
  two. The fix-up runs when a bubble is rendered. The stored model turn holds
  the raw reply text (`App.Conversation.Complete`), so the fix-up is never
  applied twice to the same text.
- The fix-up puts a blank line before every `###` of the text except one at
  the very start or one right after another `#`.
- The history handed to the service is the list as it stood before the new
  user turn was appended (`App.Conversation.Send` returns it).
- `handleSendMessage` itself does not guard anything. The busy and empty
  checks live in the form, and the form gets `isLoading` as
  `loadingState != 'idle'`.
- Only `Idle` and `Thinking` are ever entered. An error is a separate text
  beside `Idle`; it is not the `Error` state.
- After a failed call the user turn stays in the list without a reply. So
  the list alternates user and model turns only when every call succeeds.
- Ids and timestamps are arguments. The code makes them neither unique nor
  increasing, and the model claims neither.

## Model

| member | source | states |
|---|---|---|
| `MessageBubble.SpaceGluedHeaders` | components/MessageBubble.tsx:57 | the first replacement never shortens the text and keeps its first character |
| `MessageBubble.SpaceGluedHeadersUnglues` | components/MessageBubble.tsx:57 | after the first replacement, every `###` not at the start of the text follows a newline or another `#`: no header stays glued to the preceding text |
| `MessageBubble.SpaceGluedHeadersKeepsLeadingMarker` | components/MessageBubble.tsx:57 | if the first replacement's output starts with `###`, its input did too |
| `MessageBubble.DoubleHeaderBreaks` | components/MessageBubble.tsx:58 | the second replacement never shortens the text and keeps its first character |
| `MessageBubble.SpaceGluedHeadersOnlyAddsNewlines` | components/MessageBubble.tsx:57 | the first replacement only inserts newlines: removing all newlines from input and output gives the same text |
| `MessageBubble.SpaceGluedHeadersGrows` | components/MessageBubble.tsx:57 | any non-newline character followed by `###` makes the first replacement strictly lengthen the text |
| `MessageBubble.SpaceGluedHeadersUnchanged` | components/MessageBubble.tsx:57 | the first replacement returns its input unchanged if and only if no non-newline character is followed by `###` |
| `MessageBubble.DoubleHeaderBreaksOnlyAddsNewlines` | components/MessageBubble.tsx:58 | the second replacement only inserts newlines |
| `MessageBubble.DoubleHeaderBreaksGrows` | components/MessageBubble.tsx:58 | any `\n###` makes the second replacement strictly lengthen the text |
| `MessageBubble.DoubleHeaderBreaksUnchanged` | components/MessageBubble.tsx:58 | the second replacement returns its input unchanged if and only if it has no `\n###` |
| `MessageBubble.DoubleHeaderBreaksKeepsLeadingMarker` | components/MessageBubble.tsx:58 | if the second replacement's output starts with `###`, its input did too |
| `MessageBubble.DoubleHeaderBreaksKeepsUnglued` | components/MessageBubble.tsx:58 | the second replacement glues no header: if every `###` of its input follows a newline or `#`, so does every `###` of its output |
| `MessageBubble.DoubleHeaderBreaksDoubles` | components/MessageBubble.tsx:54-58 | in the second replacement's output, every `\n###` is directly preceded by another newline and never starts the text |
| `MessageBubble.ProcessedContentOnlyAddsNewlines` | components/MessageBubble.tsx:56-58 | the fix-up only inserts newline characters |
| `MessageBubble.ProcessedContent` | components/MessageBubble.tsx:56-58 | the fix-up never shortens the text, and nothing is inserted in front: a non-empty input and its output share the first character |
| `MessageBubble.ProcessedContentGrowth` | components/MessageBubble.tsx:56-58 | the output is never shorter than the input; it is strictly longer when the input has a `\n###` or a non-newline character before `###`, and otherwise equals the input |
| `MessageBubble.ProcessedContentWithoutMarker` | components/MessageBubble.tsx:56-58 | a text containing no `###` is returned unchanged |
| `MessageBubble.HeadersSpacedFromParts` | components/MessageBubble.tsx:54-58 | a text with no glued `###` and a second newline before every `\n###` has a blank line before every `###` that is not at its start and not after another `#` |
| `MessageBubble.ProcessedContentDoublesHeaders` | components/MessageBubble.tsx:54-58 | the header comment's promise: in the output no `###` is glued to preceding text, every `\n###` has a newline right before it, and so every `###` that is not at the start of the text and not after another `#` has two newlines right before it |
| `MessageBubble.ProcessedContentExamples` | components/MessageBubble.tsx:56-58 | `"x###"` gives `"x\n\n\n###"`, `"x\n###"` gives `"x\n\n###"`, `"\n\n###"` gives `"\n\n\n###"`, and applying it again to `"\n###"`'s output changes that output (not idempotent) |
| `MessageBubble.Render` | components/MessageBubble.tsx:11-58 | a card exactly for a user message with structured input, showing its topic and perspective; otherwise the fixed-up content as markdown |
| `MessageBubble.RenderCardIgnoresContent` | components/MessageBubble.tsx:13-45 | the card never shows the message's content: replacing the content changes nothing rendered |
| `MessageBubble.RenderMarkdownFaithful` | components/MessageBubble.tsx:54-58 | a markdown bubble shows the content with only newlines added, never shorter, with a newline before every `\n###` and two newlines before every `###` that is not at the start and not after another `#` |
| `GeminiService.HistoryContents` | services/geminiService.ts:46-49 | one API turn per message, same length and order, each with the message's role and a single text part equal to its content |
| `GeminiService.HistoryContentsAppend` | services/geminiService.ts:46-49 | the mapping distributes over concatenation of histories |
| `GeminiService.HistoryContentsDropsMetadata` | services/geminiService.ts:46-49 | id, timestamp and structured input do not reach the API: histories agreeing on role and content map alike |
| `GeminiService.UserPrompt` | services/geminiService.ts:52-57 | the prompt is the topic label, the untrimmed topic, the perspective label, the untrimmed perspective and a final newline, at the stated positions |
| `GeminiService.UserPromptDeterminesFields` | services/geminiService.ts:52-57 | given the topic's length, the prompt determines topic and perspective |
| `GeminiService.ReplyText` | services/geminiService.ts:79 | an absent or empty reply text becomes the fixed apology; any other text is returned unchanged; the result is never empty |
| `GeminiService.ServiceError.ErrorMessage` | services/geminiService.ts:41 | the missing-key error's message is the fixed text; a remote error keeps the remote call's own message |
| `GeminiService.GenerateResponse` | services/geminiService.ts:35-84 | an empty key fails with the missing-key error before any request; otherwise exactly one request of the mapped history and the prompt, whose error is passed on and whose text comes back with the fallback; the missing-key failure carries the fixed message (line 41) and a remote failure the thrown message (line 83) |
| `DualInputArea.TrimStart` | components/DualInputArea.tsx:16 | the start of `trim`: drops a blank prefix and leaves a suffix that is empty or starts with a non-whitespace character |
| `DualInputArea.TrimEnd` | components/DualInputArea.tsx:16 | the end of `trim`: drops a blank suffix and leaves a prefix that is empty or ends with a non-whitespace character |
| `DualInputArea.TrimEmptyIffBlank` | components/DualInputArea.tsx:16 | a trimmed field is empty if and only if every character of the field is whitespace |
| `DualInputArea.Trim` | components/DualInputArea.tsx:16 | `trim` never lengthens the field, and its result neither starts nor ends with whitespace |
| `DualInputArea.TrimIsInnerSlice` | components/DualInputArea.tsx:16 | `trim` returns the piece of the field between a blank prefix and a blank suffix |
| `DualInputArea.CanSubmit` | components/DualInputArea.tsx:16 | the submit guard holds exactly when both fields hold a non-whitespace character and nothing is loading |
| `DualInputArea.InputForm.constructor` | components/DualInputArea.tsx:10-11 | both fields start empty |
| `DualInputArea.InputForm.SetTopic` | components/DualInputArea.tsx:43 | the topic field takes the typed value; the perspective is unchanged |
| `DualInputArea.InputForm.SetPerspective` | components/DualInputArea.tsx:63 | the perspective field takes the typed value; the topic is unchanged |
| `DualInputArea.InputForm.Submit` | components/DualInputArea.tsx:14-21 | sends exactly when the guard holds, sends the untrimmed fields and then clears both; a rejected submit sends nothing and changes no field |
| `DualInputArea.InputForm.KeyDown` | components/DualInputArea.tsx:23-27 | only Enter with the meta key submits, through the same guard; any other key sends nothing and changes nothing |
| `DualInputArea.InputForm.SubmitDisabled` | components/DualInputArea.tsx:79 | the button is enabled exactly when the submit guard would pass |
| `App.UserContent` | App.tsx:28 | the user turn's content is `Topic: `, the topic, a newline and `Perspective: `, then the perspective, verbatim |
| `App.UserMessage` | App.tsx:25-34 | the user turn keeps the given id and timestamp, has the user role, is well formed and renders as the card with the two fields as submitted |
| `App.ModelMessage` | App.tsx:43-48 | the model turn keeps the given id and timestamp, has the model role, stores the reply text unchanged, carries no fields and renders as the fixed-up text in markdown |
| `App.WellFormedRendering` | components/MessageBubble.tsx:11-13 | of the messages the controller creates, exactly the user turns render as the card, with their own fields; model turns render as fixed-up markdown |
| `App.Conversation.constructor` | App.tsx:10-12 | the conversation starts with no messages, idle and no error |
| `App.Conversation.IsLoading` | App.tsx:155 | the form is told it is loading exactly when the state is `Thinking`, the only non-idle state entered |
| `App.Conversation.Send` | App.tsx:23-37 | clears the error, appends exactly one user turn with the labelled content and the verbatim fields, enters `Thinking`, and hands out the list as it was before the append |
| `App.Conversation.Complete` | App.tsx:39-56 | on a reply appends exactly one model turn holding its text and no fields; on a failure appends nothing and sets the fixed error text; idle on both paths |
| `App.Conversation.HandleSendMessage` | App.tsx:23-57 | one send end to end: the request carries the history before the new turn; the list gains the user turn and, on a reply, one non-empty model turn; missing key or remote error leave the fixed error text; always ends idle; messages are only appended |
| `App.SubmitForm` | App.tsx:155 | a submission starts a send exactly when the form's guard holds with `isLoading` as "not idle"; while a reply is awaited nothing is appended and neither form nor controller changes |

## Left out

- The remote chat service (client creation, chat session, `sendMessage`) is not modelled. Its outcome is the `SdkReply` argument, either a reply with optional text or a thrown error.
- The system instruction text, the sampling temperature (a float) and the request's `config` object are not modelled. `ChatRequest` carries only the model name, the history and the prompt.
- Reading `API_KEY` from the environment is not modelled. The key is an argument, and an unset variable reads as `""`.
- `uuidv4()` and `Date.now()` are not modelled. They are arguments of `Send`, `Complete` and `HandleSendMessage`.
- Asynchrony and React's batching of state updates are not modelled. The controller runs sequentially, split at the `await` into `Send` and `Complete`, and the history is still the list captured before the append.
- Error logging (`console.error`) is not modelled. It has no effect on state.
- Scrolling, all JSX layout and styling, the thinking placeholder and the markdown renderer's internals are not modelled. The model stops at the text handed to the renderer.
- The log download (JSON serialisation into a Blob and a click on a temporary link) is not modelled. It is DOM plumbing around the unchanged message list.
- `DualInputArea.IsWhitespace`: this is ECMAScript's whitespace and line-terminator set for `trim`, with the space separators of current Unicode. An engine built on another Unicode version may differ.
- Characters are Unicode scalar values, while JavaScript strings are UTF-16 code units. The regex `[^\n]` can match half of a surrogate pair, and that case is not modelled.
- The `field` argument of `handleKeyDown` is not modelled. The code never uses it.
- `Types.Message`: `timestamp` is an unbounded `int`, where the source's field is a JavaScript `number`. The only value stored there is `Date.now()`, which is always a whole number of milliseconds, so the difference does not matter.
- `MessageBubble.ProcessedContentDoublesHeaders`: a `###` at the very start of the text, or one right after another `#`, gets no blank line in front; the fix-up inserts nothing there, and the contract leaves those positions out.
