# Study chat relay — a Dafny model

This project models the two pieces of sequential logic in a small study-chat
application.

The **relay server** (`server.js`) handles `POST /api/answer`:

- it checks the question;
- it builds the teacher instructions from subject, grade and style, with defaults;
- it maps the stored history to model roles and appends the question;
- it forwards the provider's streaming events to the browser as
  Server-Sent-Events frames `data: <json>\n\n`, until the provider completes
  or fails, or the browser goes away.

The **browser page** (`script.js`) has two parts:

- `askBackend` is the line decoder for those frames, with the callbacks each
  way of ending a request produces (non-ok status, abort, JSON fallback,
  network error) and the cleanup in its `finally`;
- the in-memory transcript store holds the conversations and the active one,
  and changes on ensure, add, clear, import, streamed deltas, the final
  `done` payload, the error notice, the regenerate lookup and the link
  rewrite of rendered answers.

Modules, one per file:

- `text.dfy` (`Text`): the JavaScript string operations used.
  - `split` on one character, `join`, `startsWith`, `includes`.
  - `trim`, with the WhiteSpace and LineTerminator set of ECMA-262.
  - `length` in UTF-16 code units.
  - `replaceAll`.
- `json.dfy` (`Json`): JSON values without numbers.
  - `JSON.stringify` follows section 25.5.2 of ECMA-262 and `JSON.parse`
    follows RFC 8259.
  - Proved: the round trip `Parse(Stringify(v)) == Some(v)`, that the
    serializer is injective, and that serialized text holds no control
    character (so no newline).
  - JavaScript truthiness and property lookup: the last duplicate key wins.
- `server.dfy` (`Server`): the request handler.
  - Validation, instructions and model input are functions.
  - The listeners are a state machine `Step`/`Run` over provider events.
  - `AnswerResponse` is a class whose fields are the Express response plus the
    handler's `clientClosed` and `total`. Each listener method is proved equal
    to `Step`.
- `client.dfy` (`Client`): `askBackend`.
  - The decoder is specified by functions over the reads of the body.
  - `DecodeLines`/`DecodeStream` are the loops, proved against those functions.
  - `Session` holds `abortCtrl`/`__streaming`.
  - A corrected decoder that buffers the unterminated line (see Findings).
- `store.dfy` (`Store`): the transcript.
  - The store operations are functions on an `AppState` value.
  - `PageState` is the mutable `state` object; each of its methods is proved
    equal to the corresponding function.

Modelling conventions:

- `uid()`, `nowISO()` and `toLocaleString()` are parameters (one value per handler call).
- Provider events, the browser's `close`, the reads of the response body and
  the fetch outcome are inputs.
- Callbacks fired are recorded as a trace of `OnDelta`/`OnDone`/`OnError`.
- The TypeError the page hits when a message or conversation is missing is
  the `None` of an `Option` result.

Where the code does something other than what a reader of the page would expect, the model follows the code:

- **Blank questions.** The server refuses only a missing or empty question, so
  a question of spaces is accepted (`Server.BlankQuestionAccepted`). The page
  trims before sending.
- **Split frames.** The decoder keeps no text between reads, so a frame split
  across two reads fails (`Client.SplitFrameFails`).
- **Error frames.** The decoder ignores `error` frames. A failing provider
  therefore ends with no terminal callback at all, although the page's
  handlers expect exactly one terminal callback per request, `onDone` or
  `onError`, to hide the progress bar (`Client.FailedAnswerDecoded`).
  What is proved for every input is at most one terminal callback, as the
  last one (`Client.AskWellFormed`).
- **Roles.** Any truthy role other than `bot` is passed through unchanged
  (`Server.ModelRole`), not restricted to `user`/`assistant`.
- **Failure to open the stream.** The headers are already flushed then, so
  `res.status(500).json(...)` throws `ERR_HTTP_HEADERS_SENT` out of the `catch`
  block: the handler's promise is rejected, no `500` reply is sent and the
  event stream is left open (`Server.AnswerResponse.OnOpenFailure`).

## Model

| member | source | states |
|---|---|---|
| Text.Split | script.js:318 | `split('\n')` yields at least one piece |
| Text.SplitPieces | script.js:318 | no piece of a split contains the separator |
| Text.SplitJoin | script.js:318 | splitting a join gives back the parts when no part holds the separator |
| Text.JoinSplit | script.js:318 | joining the pieces of a split gives back the text |
| Text.SplitAround | script.js:318 | splitting at one separator splits each side independently |
| Text.SplitConcat | script.js:317-318 | the pieces of `x + y` are the complete pieces of `x`, then the pieces of its unterminated end followed by `y` |
| Text.Trim | script.js:320 | the result neither starts nor ends with a JavaScript space |
| Text.TrimStartCutsSpaces | script.js:320 | only spaces are removed at the front |
| Text.TrimEndCutsSpaces | script.js:320 | only spaces are removed at the back |
| Text.TrimSpaced | script.js:320 | spaces in front of a text without outer spaces are removed and the text is kept |
| Text.Utf16Length | server.js:85 | `delta.length` counts one or two code units per character |
| Text.Utf16LengthAppend | server.js:85 | the length of a concatenation is the sum of the lengths |
| Text.ReplaceAllLength | script.js:170 | `replaceAll` changes the length by the number of occurrences times the length difference |
| Text.ReplaceAllAbsent | script.js:170 | text without the pattern is unchanged |
| Text.ReplaceAll | script.js:170 | `replaceAll` with a non-empty pattern: left to right, without overlap, the inserted text not searched again; its length and identity rows are above |
| Json.Stringify | server.js:26 | serialized text is non-empty, starting and ending with a character JSON text can start and end with |
| Json.StringifyNoControl | server.js:26 | serialized JSON holds no character below U+0020, so a frame's data line has no newline |
| Json.RoundTrip | script.js:322 | `JSON.parse(JSON.stringify(v))` is `v` |
| Json.ValueRoundTrip | script.js:322 | the parser reads back a serialized value and leaves what follows it untouched |
| Json.StringifyInjective | server.js:26 | different values serialize differently |
| Json.EscapeRoundTrip | script.js:322 | a string literal reads back the escaped string and stops at its closing quote |
| Json.LookupLast | script.js:323 | a property read finds the value of the last member with that key, and fails exactly when no member has it |
| Json.Parse | script.js:322 | `JSON.parse` on the values the relay sends: a value with nothing but white space after it; read back by `Json.RoundTrip` |
| Server.OrDefault | server.js:40-42 | `o \|\| d` gives `d` for a missing or empty value, otherwise the value |
| Server.Validate | server.js:34-36 | rejected, with status 400 and `{error: 'Missing "question"'}`, exactly when the question is missing or empty; otherwise accepted with that question |
| Server.BlankQuestionAccepted | server.js:34 | a question of spaces is not refused |
| Server.InstructionSentences | server.js:39-44 | five sentences in order, each falsy setting replaced by its default `Общий`, `7`, `простыми словами` |
| Server.InstructionsLayout | server.js:39-45 | the instruction is the five sentences joined by single spaces |
| Server.InstructionsDefaults | server.js:40-42 | missing or empty settings give the same text as the defaults written out |
| Server.ModelRole | server.js:50 | `bot` becomes `assistant`, another truthy role is kept, a missing or empty role becomes `user` |
| Server.MapHistory | server.js:48-53 | same length; the i-th turn is the i-th entry's mapped role and its content or `''` |
| Server.MapHistoryAppend | server.js:49-52 | the mapping commutes with concatenation, so order is kept |
| Server.NonArrayHistory | server.js:48-53 | a history that is not an array gives no turns |
| Server.ModelInput | server.js:76 | the mapped history followed by exactly one final user turn with the question |
| Server.BuildModelCall | server.js:73-78 | the arguments of `responses.stream`: the model defaults to `gpt-4.1-mini`, the instructions are `Instructions` of the request, streaming is on, and the input is the mapped history followed by the question as the last turn |
| Server.SseFrameLines | server.js:25-27 | a frame splits into exactly one data line and a blank line, and is their join |
| Server.SseFrame | server.js:25-27 | the text `sendSSE` writes; its lines are stated by `Server.SseFrameLines` |
| Server.NothingAfterClose | server.js:63-109 | once the browser has left, no listener sends, counts or ends anything more |
| Server.Step | server.js:63-109 | the effect of one listener: only `close` sets `clientClosed`; after the end nothing more is sent; at most one frame is added and `total` never decreases |
| Server.Run | server.js:63-109 | the listeners over a sequence of events: sent frames only grow, by at most one per event, and nothing is sent after the end |
| Server.TotalCountsOpenDeltas | server.js:80-85 | `total` grows by the UTF-16 length of the deltas accepted before the browser left |
| Server.SentAreRelayPayloads | server.js:89-103 | every frame sent is a chunk, the `done` payload or the fixed error payload |
| Server.DeltasForwarded | server.js:82-90 | while open, each delta becomes one chunk frame, in order, and is counted |
| Server.CompletedRun | server.js:82-97 | deltas then completion: one chunk frame per delta, one `done` frame, the response ended, no late write |
| Server.FailedRun | server.js:99-108 | deltas then a provider error: the chunks, one error frame, the response ended |
| Server.ClosedRun | server.js:63-69 | after the browser leaves, the frames sent so far are all it gets, whatever the provider emits |
| Server.CompletedTwice | server.js:92-108 | a second completion, or a provider error after completion, still writes after `end()`, which raises the uncaught write-after-end error on the response |
| Server.AnswerResponse.SendJson | server.js:35 | `res.status().json()` sets the status, the JSON content type and the body, and ends the reply; once the headers are out it sets the status and throws, with no header added, nothing written and the reply not ended |
| Server.AnswerResponse.OpenStream | server.js:56-61 | the three SSE headers are set and flushed; nothing is sent |
| Server.AnswerResponse.SendSse | server.js:25-27 | one write of the frame: delivered while open; after the end, not delivered and counted as a late write, which raises the write-after-end error |
| Server.AnswerResponse.OnClose | server.js:64-69 | the `close` listener sets `clientClosed` and ends the response |
| Server.AnswerResponse.OnTextDelta | server.js:82-90 | the `text.delta` listener is the relay step for a delta |
| Server.AnswerResponse.OnTextCompleted | server.js:92-97 | the `text.completed` listener is the relay step for completion |
| Server.AnswerResponse.OnStreamError | server.js:99-109 | the `error` listener is the relay step for a provider error |
| Server.AnswerResponse.OnOpenFailure | server.js:110-113 | with the browser present, status 500 is set and `res.json` throws, rejecting the handler with the stream state unchanged and not ended; with the browser gone, nothing |
| Server.HandleAnswer | server.js:30-78 | a falsy question gives 400 with the error body, the JSON content type as the only header (no SSE header), and no stream or provider call; otherwise SSE headers, an open relay state and the provider call with model, instructions and input |
| Client.DeltaText | script.js:323 | `evt.delta \|\| ''`: empty for a falsy delta, the string itself for a string |
| Client.EventAction | script.js:323-324 | emit exactly for `type` `chunk`, finish exactly for `done`, fail exactly for `null`, skip otherwise |
| Client.DecodeData | script.js:321-322 | an empty payload is skipped; one `JSON.parse` refuses is an error |
| Client.DecodeLine | script.js:319-320 | a line without `data:` is skipped; otherwise the trimmed rest after five characters is decoded |
| Client.LinePaddingIgnored | script.js:320 | spaces between `data:` and the payload do not matter |
| Client.DataLineDecoded | script.js:319-322 | the data line of a frame decodes to its payload's action |
| Client.ChunkAction | script.js:323 | a chunk frame emits its delta |
| Client.DoneAction | script.js:324 | the `done` frame finishes with itself |
| Client.ErrorFrameIgnored | script.js:323-324 | the relay's `error` frame is skipped |
| Client.FeedLinesHalted | script.js:324 | after `done` or an exception no further line is looked at |
| Client.FeedReadsHalted | script.js:314-326 | after `done` or an exception no further read is looked at |
| Client.FeedReads | script.js:314-326 | the read loop of the event-stream branch: each read is split into lines and decoded, with nothing carried between reads |
| Client.StreamCallbacks | script.js:310-336 | the callbacks of the event-stream branch, with the last read's outcome |
| Client.UnfinishedNoTerminal | script.js:314-327 | a stream that ends or is aborted before `done` fires no terminal callback |
| Client.FallbackCallbacks | script.js:331-333 | an aborted JSON read fires nothing, a broken one `onError`, an unparsable one `onError` |
| Client.FallbackReply | script.js:331-333 | `onDelta(answer)` exactly when the answer is truthy, then `onDone(json \|\| {})` |
| Client.NonOkStatus | script.js:307 | a non-ok status fires `onError` and nothing else |
| Client.AbortAddsNothing | script.js:335 | an `AbortError` adds no callback, before the reply or while reading |
| Client.AskWellFormed | script.js:297-338 | every request fires deltas and then at most one terminal callback, as the last one |
| Client.AskCallbacks | script.js:297-338 | `askBackend`: the callbacks fired for each fetch outcome; `Client.AskWellFormed` states their shape |
| Client.FeedWire | script.js:318 | splitting whole frames and decoding the lines is decoding the payloads in order |
| Client.ChunksDecoded | script.js:317-323 | chunk frames become `onDelta` calls with the same texts, in order |
| Client.FeedWireReads | script.js:314-326 | reads that end on frame boundaries decode to the sequence of payloads sent |
| Client.CompletedPayloads | script.js:317-324 | a completed relay run decodes to one `onDelta` per delta, then `onDone`, and stops |
| Client.FailedPayloads | script.js:323-324 | a failed relay run decodes to the deltas only; the error frame does not stop decoding |
| Client.CompletedAnswerDecoded | script.js:314-327 | end to end: the server's frames of a completed run give each delta in order, then one `onDone` |
| Client.FailedAnswerDecoded | script.js:314-327 | end to end: a failing provider gives the deltas and no terminal callback |
| Client.UnclosedObject | script.js:322 | the first part of a two-member object does not parse |
| Client.FirstPartFails | script.js:319-322 | a data line cut after the first member is a JSON error |
| Client.FirstPartRead | script.js:317-322 | a read ending after the first member ends the request with `onError`, whatever follows |
| Client.SplitFrameFails | script.js:317-318 | a chunk frame split across two reads gives `onError` instead of the delta |
| Client.WholeFrameDecodes | script.js:317-323 | the same text in one read gives the delta |
| Client.OneFrameRead | script.js:317-323 | a read holding one emitting frame gives one `onDelta` |
| Client.BufferedFeedText | script.js:317-318 | corrected decoder: it sees the complete lines of all text read so far and holds back its unterminated end |
| Client.BufferedReadsIrrelevant | script.js:317-318 | corrected decoder: how the text is cut into reads does not matter |
| Client.BufferedWire | script.js:317-318 | corrected decoder: the relay's frames cut anywhere decode to the payloads sent |
| Client.BufferedCompletedAnswer | script.js:314-327 | corrected decoder: a completed run cut into reads anywhere gives each delta, then `onDone` |
| Client.BufferedOneFrame | script.js:317-323 | corrected decoder: one emitting frame cut anywhere gives its delta |
| Client.BufferedWellFormed | script.js:314-327 | corrected decoder: deltas, then at most one terminal callback, as the last one |
| Client.BufferedSplitFrame | script.js:317-318 | corrected decoder: the split frame the unbuffered decoder rejects gives its delta |
| Client.DecodeLines | script.js:318-325 | the `for` over lines computes the decoder's progress on those lines |
| Client.DecodeStream | script.js:310-327 | the read loop fires exactly the event-stream callbacks |
| Client.DecodeStreamBuffered | script.js:310-327 | the read loop with a carry-over buffer fires exactly the buffered callbacks |
| Client.Session.StopGeneration | script.js:295 | aborts once if a controller is held, then holds none |
| Client.Session.MarkStreaming | script.js:359 | the streaming marker holds the bot message's id; the controller and the abort count are unchanged |
| Client.Session.AskBackend | script.js:297-338 | the callbacks fired are those of the fetch outcome; afterwards no controller and no streaming marker |
| Client.RelaySelectsStream | script.js:310 | the relay's content type selects the event-stream branch |
| Store.ActiveIndex | script.js:52 | the first conversation whose id is `activeId`; none exactly when `activeId` is null or matches no conversation |
| Store.EnsureConversation | script.js:54-62 | afterwards a conversation is active; an active one leaves the state alone, otherwise a new empty dialog is appended and made active |
| Store.EnsureConversationIdempotent | script.js:54-62 | a second call changes nothing when the new id is not empty |
| Store.ClearDialog | script.js:99-105 | after confirmation the active conversation's messages are dropped and nothing else changes |
| Store.ImportError | script.js:126 | refused with `Неверный формат` unless an object with a truthy `id` and an array `messages` |
| Store.ExportedAccepted | script.js:126 | an exported conversation with a non-empty id passes the check |
| Store.ImportRefusals | script.js:126 | `null`, an object without `id` and one without `messages` are refused |
| Store.ImportConversation | script.js:127 | the conversation is appended and its id made active; a duplicate id leaves the earlier copy active |
| Store.AddMessage | script.js:199-205 | `null` and no change without an active conversation; otherwise exactly one message appended to the active one, which is returned, and every other conversation unchanged |
| Store.Locate | script.js:374 | the position of the first message with that id in the active conversation, none exactly when absent |
| Store.ApplyDelta | script.js:373-375 | `t.content += delta` on the located message, failing exactly when it is not found |
| Store.DeltasAccumulate | script.js:371-375 | after the deltas the message's content is its old content followed by their concatenation; nothing else changes |
| Store.BotMessageContent | script.js:357 | the bot message started as `''`, so it ends as exactly the concatenation of the deltas |
| Store.AttachFinal | script.js:392-393 | `quiz` is set exactly when truthy and quiz mode is on, `sources` exactly when truthy; every other field and key is unchanged |
| Store.ApplyDone | script.js:390-393 | `onDone` attaches the final payload to the located message, failing exactly when it is not found |
| Store.DoneAttachesNothing | script.js:392-393 | the relay's `done` payload leaves the message as it was |
| Store.AnswerStored | script.js:361-396 | end to end: after a completed answer the bot message holds the deltas joined in order, and nothing else in the state changed |
| Store.ErrorStored | script.js:398-403 | end to end: after a failure the deltas stay and a new failure message is appended to the active conversation |
| Store.ApplyTrace | script.js:361-404 | the page's `onDelta`, `onDone` and `onError` handlers applied to a callback trace in order; `Store.AnswerStored` and `Store.ErrorStored` state the result |
| Store.LastUser | script.js:244 | the last user message, with no user message after it; none when there is none |
| Store.SliceEnd | script.js:244 | `slice(0, end)` with a negative end counts from the back |
| Store.PrevUserContent | script.js:244 | the content of the nearest user message before the cut |
| Store.RegenerateQuestion | script.js:242-245 | the nearest user message before the bot message; for an unknown id the cut is the last message |
| Store.HistoryEntries | script.js:354 | one `{role, content}` per stored message, in order |
| Store.Submit | script.js:341-369 | a request exactly for a non-blank trimmed input with an active conversation; the same state as the handler as written |
| Store.SubmitAsWritten | script.js:341-369 | the handler as written: a request exactly for a non-blank trimmed input with an active conversation, and no change otherwise |
| Store.SubmitAsWrittenSends | script.js:346-357 | as written, the question and an empty bot message are appended, and the history sent already ends with the question |
| Store.QuestionSentTwice | script.js:347-354 | as written, the model input ends with the question twice |
| Store.QuestionSentOnce | script.js:354 | corrected: the server accepts the request and the model input is the earlier messages followed by the question once |
| Store.RewriteLinks | script.js:170 | the `replaceAll` of `renderMarkdown` that adds `rel` and `target` to link tags; its properties are the three rows below |
| Store.RewriteLinksEffect | script.js:170 | the length grows by the attributes' length once per link tag; text without a link tag is unchanged |
| Store.RewriteOpensLink | script.js:170 | the rewritten text opens with a link tag exactly when the text did |
| Store.RewriteLinksTargets | script.js:170 | every `<a ` of the rewritten text opens `<a rel="noopener noreferrer" target="_blank" ` |
| Store.RewriteLinksUndone | script.js:170 | replacing the attributed tag by `<a ` again gives back the text: the rewrite only inserts the attributes |
| Store.PageState.EnsureActive | script.js:54-62 | the `state` object becomes `EnsureConversation` of its old value |
| Store.PageState.AddMessageToState | script.js:199-205 | the `state` object and the returned message are `AddMessage` of the old state |
| Store.PageState.ClearActive | script.js:99-105 | the `state` object becomes `ClearDialog` of its old value |
| Store.PageState.Import | script.js:127 | the `state` object becomes `ImportConversation` of its old value |
| Store.PageState.OnDelta | script.js:373-375 | succeeds exactly when the message is found, and then the state is `ApplyDelta` of the old one; otherwise nothing changes |
| Store.PageState.OnDone | script.js:390-393 | succeeds exactly when the message is found, and then the state is `ApplyDone` of the old one; otherwise nothing changes |

## Left out

- JSON numbers: the relay sends none. The parser refuses them, and it refuses `\u` escapes of surrogate halves.
- Request field types: only string values of `question`, `subject`, `grade` and `settings.explainLevel` are modelled. A non-string value, and `history` entries of other shapes, are not.
- The id and title of imported conversations are taken as strings; non-string ids are not modelled.
- `...extra` in `addMessageToState` could override the four named fields. The model keeps `extra` as the other keys only, since the page passes only `meta` or nothing.
- Server.AnswerResponse.SendSse: a write after `end()` is recorded as a late write (`WriteAfterEndRaised`). Node then emits ERR_STREAM_WRITE_AFTER_END as an `'error'` event on the response, with no listener attached. What that uncaught event does to the process is not modelled.
- Server.AnswerResponse.OnOpenFailure: the rejected handler promise is returned as `rejected`; what Node then does with an unhandled rejection is not modelled.
- Express, CORS, static files, `/health` and `app.listen`: framework setup outside the handler logic.
- Server.AnswerResponse.SendJson: of the headers Express's `res.json` and `res.send` set, only the JSON `Content-Type` is modelled; `Content-Length`, `ETag` and the like are not.
- The OpenAI SDK: its events are the abstract input sequence `RelayEvent`. `OPENAI_MODEL` is a parameter.
- `console.log` and `console.error` logging.
- `fetch`, `AbortController`, `reader.read()` and `TextDecoder`: a fetch outcome lists the reads as already decoded strings and how the last read ended. Concurrency and timing are not modelled; cancellation is the `Aborted` outcome.
- Callbacks that throw: a TypeError inside `onDelta` would itself reach `onError`. The decoder assumes the page's callbacks return.
- The DOM: bubbles, scrolling, typing indicator, progress bar, textarea growth, the character counter, `prompt`, `confirm` and `alert`.
- `localStorage` save and load, file export and import I/O, and the clipboard.
- The dialog select, new dialog and rename handlers (script.js:78-97): page controls outside the store operations modelled here.
- DOMPurify, marked, highlight.js and KaTeX: foreign libraries. Only the `<a ` rewrite is modelled.
- `uid()`, `nowISO()` and `toLocaleString()` are parameters of the operations that use them (one value per handler call).
- Objects are values: the page's shared references to one conversation object are modelled as updates by position.
- Client.BufferedStreamCallbacks: an unterminated final line, left when the stream ends, is dropped.
- Client.Session.AskBackend runs the decoder as written (`DecodeStream`). The buffered decoder of the first finding is the separate method `DecodeStreamBuffered`, with the same contract shape.

## Findings

| source | as written | input that shows it | evidently intended | confidence | as-written member | corrected member |
|---|---|---|---|---|---|---|
| script.js:317-318 | each read is split on `\n` by itself, with no text carried over to the next read | a `chunk` frame whose text is cut after its first member, delivered as two reads | a frame cut across reads is reassembled, giving its delta | not executed; high (an event-stream parser keeps an incomplete line until the next chunk completes it, as the server-sent events section of the WHATWG HTML standard specifies) | Client.SplitFrameFails | Client.BufferedSplitFrame |
| script.js:347-354 | `history` is read after the user message was pushed, and server.js:76 appends the question again | any non-blank question with an active conversation | the model sees the question once, as the last turn | not executed; medium (a dialog-history design could tolerate the repeat) | Store.QuestionSentTwice | Store.QuestionSentOnce |
