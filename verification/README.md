# AIChat conversation state in Dafny

This project models the conversation-state logic of the `AIChat` browser
client in `app.js`. The client talks to a local text-completion server
in one of two modes:

- **Continuation mode** (`续写模式`, the default) sends the trimmed message
  verbatim as the prompt.
- **Chat mode** (`对话模式`) records every exchange as `{role, content}`
  turns. It renders the history into a Chinese dialogue prompt, strips an
  echoed role label from each reply, and keeps the history short.

The model is functional. An immutable `ChatState` holds the three fields
`isGenerating`, `isChatMode` and `conversationHistory`. Three pure
transitions act on it:

- `Toggle` is `toggleMode`.
- `sendMessage` is split into two steps. It suspends twice: at the
  request to the completions endpoint (app.js:125) and at reading the
  response body (app.js:137). Between the two it only checks the response
  status (app.js:133-135) and reads or writes none of the three fields, so
  nothing else can observe a state between them. `Begin` covers everything
  before the request and returns the request body. `Finish` covers
  everything after the body is read and takes the outcome of both as a
  parameter, `Success(text)` or `Failure`.

`Session` drives a new instance through any sequence of mode switches,
sends and outcomes. It states what holds along every such run.

Modules, one per file:

- `Wrappers` (`wrappers.dfy`): `Option`.
- `Text` (`text.dfy`): JavaScript's `trim()` over the exact ECMAScript
  WhiteSpace and LineTerminator set. The same set is the regular-expression
  class `\s`.
- `Reply` (`reply.dfy`): the reply cleanup at app.js:138-144, including the
  label pattern `^(AI|助手|机器人):\s*` with the `i` flag.
- `Conversation` (`conversation.dfy`): turns, `buildChatPrompt` and the
  retention rule (more than 8 turns keeps the last 6).
- `Chat` (`chat.dfy`): the state and its transitions.
- `Session` (`session.dfy`): runs of events and the properties of whole
  sessions.

### Failed requests in chat mode

Two consequences of the code's order of operations:

- The user turn pushed before the request (app.js:107) survives the
  `catch` at app.js:159-162, which rolls nothing back. A failed request
  therefore leaves one more user turn in the history. See
  `Session.FailureKeepsUserTurn`.
- The length limit at app.js:153-156 runs only after a reply is pushed.
  Repeated failures therefore grow the history without bound.
  `Session.HistoryUnboundedUnderFailures` proves that for every `n` there
  is a run whose history holds `n` turns.

The 8-turn bound holds right after each recorded reply (`Chat.Finish`,
`Conversation.RecordReply`).

## Model

| member | source | states |
|---|---|---|
| Chat.Toggle | app.js:55-67 | The mode flips. The generating flag is untouched, so there is no guard against a pending request. Switching into chat mode keeps the history. The result always satisfies "continuation mode has no history". |
| Chat.ToggleTwice | app.js:55-67 | Toggling twice is the identity in continuation mode. In chat mode it forgets the history and changes nothing else. |
| Chat.Begin | app.js:82-123 | The call does nothing, and issues no request, exactly when the trimmed input is empty or a request is pending. Otherwise the state becomes generating and keeps its mode. Chat mode appends the user turn holding the trimmed message. The chat request prompts with the history including that turn, caps the temperature at 0.8 and stops at the six chat stop strings. The continuation request sends the trimmed message verbatim, with the temperature unchanged and the four continuation stop strings. The mode invariant is preserved. |
| Chat.Finish | app.js:133-168 | The state is never generating afterwards, and the mode is the one current when the outcome arrives. A failure shows no reply and changes no history. A success shows the text cleaned for the current mode. In chat mode the cleaned text is recorded by the retention rule; in continuation mode the history is unchanged. The mode invariant is preserved. |
| Chat.Min | app.js:112 | `Math.min` returns one of its arguments, no greater than either. |
| Conversation.Retain | app.js:154-156 | The retained history is a suffix of the history, at most 8 turns long. It is all of a history of up to 8 turns, and exactly the last 6 turns of a longer one. |
| Conversation.RecordReply | app.js:150-156 | After a reply is recorded, the history has 1 to 8 turns and ends with the assistant turn. It is the history plus that turn when the result fits in 8 turns; otherwise it is the last 6 turns of the extended history. |
| Conversation.PromptIsTranscript | app.js:180-194 | A prompt for 2 or more turns is the dialogue header, then the transcript of every turn with the last one rendered as the user's, then the cue `AI: `. When the last turn is the user's, it is the header, the plain transcript and the cue. |
| Conversation.TranscriptAppend | app.js:185-188 | Rendering turn by turn distributes over concatenation of histories. |
| Conversation.BuildChatPrompt | app.js:171-195 | The single-turn prompt is exactly the template head, then the user's message, then the template tail, which ends in `AI:` with no trailing space. Every longer prompt opens with the `请继续以下对话：` header and ends in a blank line followed by `AI: `. The contents of a longer prompt are stated by `PromptIsTranscript`, `DialogueExample` and `PromptExtendsWithReply`. |
| Conversation.FirstPromptExample | app.js:172-178 | A first message `Hello` gives the assistant instruction, a blank line, `用户: Hello` and `AI:`, both indented by the template literal's twelve spaces. |
| Conversation.DialogueExample | app.js:180-194 | A user/assistant/user history renders its first two turns as `用户: ` and `AI: ` blocks, then the last user message and the cue. |
| Conversation.PromptExtendsWithReply | app.js:180-194 | Once a history has at least one turn, recording a reply and a new user message extends the prompt. The new prompt is the previous one followed by the reply, a blank line, the new user block and the cue. |
| Text.TrimStart | app.js:143 | The result is a suffix of the input that does not start with whitespace. |
| Text.TrimStartSplits | app.js:143 | The input is a run of whitespace followed by the result of `TrimStart`, so everything it drops is whitespace. |
| Text.TrimStartSkips | app.js:143 | Leading whitespace before a part that does not start with whitespace is dropped exactly. |
| Text.Trim | app.js:84 | The trimmed string has no whitespace at either end and is no longer than the input. |
| Text.TrimDropsWhitespace | app.js:84 | The trim is an infix of the input, and only whitespace lies on either side of it. |
| Text.TrimKeepsTrimmed | app.js:84 | A string with no whitespace at either end trims to itself. |
| Text.TrimUnique | app.js:84 | Trimming any trimmed core framed by whitespace on both sides yields that core, so the trim is determined by its result. |
| Text.TrimIdempotent | app.js:143 | Trimming twice equals trimming once, so the second trim of a reply with no label changes nothing. |
| Reply.LabelLength | app.js:143 | A measured label length never exceeds the text. |
| Reply.LabelLengthMatchesSpellings | app.js:143 | A label is found exactly when the text starts with one of the six spellings the pattern matches (`AI`, `Ai`, `aI`, `ai`, `助手`, `机器人`, each followed by an ASCII colon). The measured prefix is one of those spellings. |
| Reply.StripLabel | app.js:143 | Removing the label from a trimmed text leaves a trimmed suffix of it, and all of it when no label starts it. |
| Reply.CleanReply | app.js:138-144 | A cleaned reply is always trimmed. Continuation mode only trims. Chat mode never lengthens the trim. |
| Reply.StripLabelCases | app.js:143 | On a trimmed text, label removal keeps the whole text when no label starts it. Otherwise the text is one of the six label spellings, then whitespace only, then the result, and the result does not start with whitespace. |
| Reply.ChatCleanup | app.js:138-144 | For every reply in chat mode: with no label at the start of its trim, the cleaned reply is the trim. Otherwise the trim is a label spelling, then whitespace only, then the cleaned reply, which does not start with whitespace. |
| Reply.StripsOneLabel | app.js:143 | In chat mode, a label, any whitespace and a trimmed body clean to exactly that body. A second label at the start of the body stays, so at most one label is removed. |
| Reply.StripsBareLabel | app.js:143 | In chat mode, a label followed by whitespace only cleans to the empty string. |
| Reply.KeepsUnlabelled | app.js:138-144 | In chat mode, a reply whose trimmed text starts with no label spelling is only trimmed. |
| Reply.FullWidthColonKept | app.js:143 | `AI：` with the full-width colon is not a label, so the reply keeps it. |
| Reply.EchoedLabelExample | app.js:143 | `AI: I'm fine, thanks.` cleans to `I'm fine, thanks.`. |
| Session.Step | app.js:82-168 | An event is impossible only when an outcome arrives while nothing is pending. A send while a request is pending changes nothing. A mode switch flips the mode; an outcome leaves it unchanged. |
| Session.Run | app.js:55-168 | A possible run of events ends in its starting mode exactly when it holds an even number of mode switches, since only a switch changes the mode. |
| Session.RunAppend | app.js:82-168 | Running two event sequences in turn is running their concatenation. |
| Session.RunKeepsModeInvariant | app.js:55-151 | Every run from a state with no continuation-mode history keeps that property. |
| Session.ModeInvariantAlways | app.js:3-151 | From a new instance, after any possible run, continuation mode has an empty history. |
| Session.OneFailedAttempt | app.js:105-164 | A failed chat send leaves exactly its user turn appended and the state idle. |
| Session.FailedAttemptsAccumulate | app.js:107-164 | `n` failed chat sends of one message append `n` copies of its user turn. No retention rule removes them. |
| Session.HistoryUnboundedUnderFailures | app.js:107-156 | From a new instance switched to chat mode, `n` failed sends leave a history of exactly `n` turns, for every `n`. |
| Session.FailureKeepsUserTurn | app.js:105-164 | A failed chat send leaves the history one user turn longer. A failed continuation send restores the state as it was before the send. |
| Session.ReplyAfterToggleBackIsRecordedAlone | app.js:55-151 | A chat send followed by two mode switches loses its user turn. The reply is still recorded, label stripped, as the only turn, because the mode is read when the reply arrives. |
| Session.ContinuationReplyLandsInChat | app.js:55-151 | A continuation send whose reply arrives after a switch to chat mode is cleaned as a chat reply. It becomes the first turn of the history. |
| Session.ChatSendPrompt | app.js:105-114 | A chat send that goes ahead records the trimmed user turn. It requests a completion of the prompt built from the history that includes it. |
| Session.ExchangeRecordsBothTurns | app.js:105-156 | A successful chat exchange that fits in 8 turns appends the user turn and then the cleaned reply. |
| Session.NextPromptExtendsPrevious | app.js:105-194 | Once the history already holds a turn, across two successful chat exchanges with no turn dropped, the second prompt is the first one continued by the cleaned reply and the new user block. |

## Left out

- DOM rendering and event wiring are not modelled: the message bubbles, placeholders, mode label, status line, scrolling and button state (app.js:11-26, 70-80, 89-97, 146-147, 161-167, 197-220). They display state but do not change it.
- The network is not modelled: `checkConnection`, `handleConnectionError`, `fetch`, the status check and `response.json()` (app.js:28-52, 125-137, 222-232). `Finish` receives the result as an `Outcome` instead. Any thrown error is `Failure`, including a response without `choices[0].text`. The reply text is the first choice's text.
- The error message shown on failure and the `console.error` log are left out, because they are display only.
- Reading the settings is not modelled. `Begin` receives `maxTokens` and `temperature` as already-parsed numbers. The page reads them with `parseInt(...) || 150` and `parseFloat(...) || 0.7` (app.js:100-101), so an unparsable field, and also an explicit `0`, becomes the default. JavaScript number parsing is outside this model.
- Temperatures are real numbers, not IEEE doubles. Only `Math.min` is applied to them, so no rounding arises.
- The global `sendMessage`/`toggleMode` wrappers, keyboard shortcuts, the `window.aiChat` bootstrap and the module export are not modelled (app.js:235-269). They only forward calls.
- Strings are sequences of code points. JavaScript strings are UTF-16 code units. Every whitespace character and every label character is in the Basic Multilingual Plane, so trimming and label matching agree on both views.
- The two suspensions of `sendMessage` are modelled as one gap between `Begin` and `Finish`. The page runs on a single thread, so a mode switch or another send can fall between one request's `Begin` and `Finish` only while that request is pending. An event during either suspension sees the same state, because the code between them touches none of it. `Session` allows exactly those interleavings.
- `Finish` is defined on every state, including an idle one. A real outcome arrives only while a request is pending, and `Session.Step` adds that restriction.
