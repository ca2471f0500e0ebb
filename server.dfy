/** The `/api/answer` handler of the relay server (server.js): request
    validation, the instruction text and the model input it builds, the SSE
    frame encoding, and the handlers that forward the provider's streaming
    events to the browser until the provider finishes or the browser leaves. */
module Server {
  import opened Text
  import opened Json

  // ---------------------------------------------------------------------------
  // The request
  // ---------------------------------------------------------------------------

  /** One stored message as the browser sends it; `None` is a missing field. */
  datatype HistoryEntry = HistoryEntry(role: Option<string>, content: Option<string>)

  /** The fields of the JSON body the handler reads. `history` is `None` when
      the body's `history` is not an array (it defaults to `[]` when absent). */
  datatype AnswerRequest = AnswerRequest(
    question: Option<string>,
    subject: Option<string>,
    grade: Option<string>,
    explainLevel: Option<string>,
    history: Option<seq<HistoryEntry>>)

  /** A turn of the model input: `{ role, content }`. */
  datatype Turn = Turn(role: string, content: string)

  /** JavaScript falsiness of an optional string field. */
  predicate Falsy(o: Option<string>) {
    o == None || o == Some("")
  }

  /** `o || d` */
  function OrDefault(o: Option<string>, d: string): (r: string)
    ensures Falsy(o) ==> r == d
    ensures !Falsy(o) ==> Some(r) == o
  {
    if Falsy(o) then d else o.value
  }

  // ---------------------------------------------------------------------------
  // Validation
  // ---------------------------------------------------------------------------

  const MissingQuestion: Json := JObj([Member("error", JStr("Missing \"question\""))])

  datatype Validation = Rejected(status: int, body: Json) | Accepted(question: string)

  /** `if (!question) return res.status(400).json({ error: 'Missing "question"' })` */
  function Validate(req: AnswerRequest): (r: Validation)
    ensures r.Rejected? <==> Falsy(req.question)
    ensures r.Rejected? ==> r.status == 400 && r.body == MissingQuestion
    ensures r.Accepted? ==> req.question == Some(r.question) && r.question != ""
  {
    if Falsy(req.question) then Rejected(400, MissingQuestion) else Accepted(req.question.value)
  }

  /** Only a missing or empty question is refused: a question made of spaces passes. */
  lemma BlankQuestionAccepted(req: AnswerRequest)
    requires req.question == Some(" ")
    ensures Validate(req) == Accepted(" ")
  {
  }

  // ---------------------------------------------------------------------------
  // The instruction text
  // ---------------------------------------------------------------------------

  const DefaultSubject := "Общий"
  const DefaultGrade := "7"
  const DefaultStyle := "простыми словами"
  const FormulaRule := "Если есть формулы — используй KaTeX: $...$, $$...$$ или ```math блоки."
  const StructureRule := "Структура ответа: краткое объяснение → шаги/пример → вывод."

  function SubjectSentence(subject: string): string {
    "Ты — дружелюбный учитель по предмету: " + subject + "."
  }

  function GradeSentence(grade: string): string {
    "Объясняй на уровне класса: " + grade + "."
  }

  function StyleSentence(style: string): string {
    "Стиль объяснений: " + style + "."
  }

  /** The five sentences of the instruction, in order, each falsy setting
      replaced by its default. */
  function InstructionSentences(req: AnswerRequest): (r: seq<string>)
    ensures |r| == 5
    ensures r[0] == SubjectSentence(if Falsy(req.subject) then DefaultSubject else req.subject.value)
    ensures r[1] == GradeSentence(if Falsy(req.grade) then DefaultGrade else req.grade.value)
    ensures r[2] == StyleSentence(if Falsy(req.explainLevel) then DefaultStyle else req.explainLevel.value)
    ensures r[3] == FormulaRule && r[4] == StructureRule
  {
    [ SubjectSentence(OrDefault(req.subject, DefaultSubject)),
      GradeSentence(OrDefault(req.grade, DefaultGrade)),
      StyleSentence(OrDefault(req.explainLevel, DefaultStyle)),
      FormulaRule,
      StructureRule ]
  }

  /** `[...].join(' ')` */
  function Instructions(req: AnswerRequest): string
  {
    JoinWith(InstructionSentences(req), " ")
  }

  /** The instruction is the five sentences separated by single spaces. */
  lemma InstructionsLayout(req: AnswerRequest)
    ensures Instructions(req) ==
      SubjectSentence(OrDefault(req.subject, DefaultSubject)) + " "
      + GradeSentence(OrDefault(req.grade, DefaultGrade)) + " "
      + StyleSentence(OrDefault(req.explainLevel, DefaultStyle)) + " "
      + FormulaRule + " " + StructureRule
  {
    var p := InstructionSentences(req);
    assert JoinWith(p[4..], " ") == p[4];
    assert JoinWith(p[3..], " ") == p[3] + " " + p[4] by {
      assert p[3..][1..] == p[4..];
    }
    assert JoinWith(p[2..], " ") == p[2] + " " + (p[3] + " " + p[4]) by {
      assert p[2..][1..] == p[3..];
    }
    assert JoinWith(p[1..], " ") == p[1] + " " + (p[2] + " " + (p[3] + " " + p[4])) by {
      assert p[1..][1..] == p[2..];
    }
  }

  /** A missing setting and an empty one give the same text as the default
      written out. */
  lemma InstructionsDefaults(req: AnswerRequest)
    requires Falsy(req.subject) && Falsy(req.grade) && Falsy(req.explainLevel)
    ensures Instructions(req) == Instructions(req.(subject := Some(DefaultSubject),
                                                   grade := Some(DefaultGrade),
                                                   explainLevel := Some(DefaultStyle)))
  {
  }

  // ---------------------------------------------------------------------------
  // The model input
  // ---------------------------------------------------------------------------

  /** `m.role === 'bot' ? 'assistant' : m.role || 'user'` */
  function ModelRole(role: Option<string>): (r: string)
    ensures role == Some("bot") ==> r == "assistant"
    ensures role != Some("bot") && !Falsy(role) ==> Some(r) == role
    ensures Falsy(role) ==> r == "user"
  {
    if role == Some("bot") then "assistant" else OrDefault(role, "user")
  }

  function ModelTurn(e: HistoryEntry): Turn {
    Turn(ModelRole(e.role), OrDefault(e.content, ""))
  }

  /** `history.map(m => ({ role: ..., content: m.content || '' }))` */
  function MapHistory(h: seq<HistoryEntry>): (r: seq<Turn>)
    ensures |r| == |h|
    ensures forall i :: 0 <= i < |h| ==> r[i] == ModelTurn(h[i])
  {
    if h == [] then [] else [ModelTurn(h[0])] + MapHistory(h[1..])
  }

  /** `Array.isArray(history) ? history.map(...) : []` */
  function HistoryForModel(history: Option<seq<HistoryEntry>>): seq<Turn>
  {
    if history.Some? then MapHistory(history.value) else []
  }

  /** Mapping commutes with concatenation: order is kept and nothing moves
      across the boundary. */
  lemma {:induction false} MapHistoryAppend(a: seq<HistoryEntry>, b: seq<HistoryEntry>)
    ensures MapHistory(a + b) == MapHistory(a) + MapHistory(b)
  {
    if a == [] {
      assert a + b == b;
    } else {
      assert (a + b)[0] == a[0] && (a + b)[1..] == a[1..] + b;
      MapHistoryAppend(a[1..], b);
    }
  }

  /** A history that is not an array contributes no turns. */
  lemma NonArrayHistory(req: AnswerRequest)
    requires req.history.None?
    ensures HistoryForModel(req.history) == []
  {
  }

  /** `[...historyForModel, { role: 'user', content: question }]` */
  function ModelInput(history: Option<seq<HistoryEntry>>, question: string): (r: seq<Turn>)
    ensures |r| == |HistoryForModel(history)| + 1
    ensures r[|r| - 1] == Turn("user", question)
    ensures r[..|r| - 1] == HistoryForModel(history)
  {
    HistoryForModel(history) + [Turn("user", question)]
  }

  /** The streaming call made to the provider. `modelEnv` is the
      `OPENAI_MODEL` environment variable. */
  datatype ModelCall = ModelCall(model: string, instructions: string, input: seq<Turn>, stream: bool)

  function BuildModelCall(req: AnswerRequest, question: string, modelEnv: Option<string>): (r: ModelCall)
    ensures Falsy(modelEnv) ==> r.model == "gpt-4.1-mini"
    ensures !Falsy(modelEnv) ==> r.model == modelEnv.value
    ensures r.stream && |r.input| == |HistoryForModel(req.history)| + 1
    ensures r.input[|r.input| - 1] == Turn("user", question)
    ensures r.instructions == Instructions(req) && r.input[..|r.input| - 1] == HistoryForModel(req.history)
  {
    ModelCall(OrDefault(modelEnv, "gpt-4.1-mini"), Instructions(req), ModelInput(req.history, question), true)
  }

  // ---------------------------------------------------------------------------
  // SSE frames
  // ---------------------------------------------------------------------------

  /** `sendSSE`: `data: ${JSON.stringify(payload)}\n\n` */
  function SseFrame(payload: Json): string {
    "data: " + Stringify(payload) + "\n\n"
  }

  function ChunkPayload(delta: string): Json {
    JObj([Member("type", JStr("chunk")), Member("delta", JStr(delta))])
  }

  const DonePayload: Json := JObj([Member("type", JStr("done"))])

  const ErrorPayload: Json := JObj([Member("type", JStr("error")), Member("message", JStr("OpenAI error"))])

  /** The lines of a frame: the data line, then the blank line that ends the
      record, then the empty rest after the final newline. */
  function FrameLines(payload: Json): seq<string> {
    ["data: " + Stringify(payload), "", ""]
  }

  /** A frame is exactly one data line followed by one blank line. */
  lemma SseFrameLines(payload: Json)
    ensures Split(SseFrame(payload), '\n') == FrameLines(payload)
    ensures SseFrame(payload) == Join(FrameLines(payload), '\n')
  {
    var ls := FrameLines(payload);
    StringifyNoControl(payload);
    assert '\n' !in ls[0];
    assert Join(ls[2..], '\n') == "";
    assert Join(ls[1..], '\n') == "\n" by {
      assert ls[1..][1..] == ls[2..];
    }
    assert Join(ls, '\n') == SseFrame(payload) by {
      assert Join(ls, '\n') == ls[0] + "\n" + "\n";
      assert "\n" + "\n" == "\n\n";
    }
    SplitJoin(ls, '\n');
    assert Split(Join(ls, '\n'), '\n') == ls;
  }

  // ---------------------------------------------------------------------------
  // Forwarding provider events
  // ---------------------------------------------------------------------------

  /** What reaches the handlers once the stream is open: the provider's
      `text.delta`, `text.completed` and `error` events, and the browser's
      `close` on the request. */
  datatype RelayEvent = TextDelta(delta: string) | TextCompleted | StreamError | ClientClose

  /** The observable state of one streaming response. `sent` are the
      payloads of the SSE frames the browser receives, in order; a
      `res.write` after `res.end()` is not delivered, and is counted in
      `lateWrites` (see `WriteAfterEndRaised`). `total` is the handler's
      running count of forwarded UTF-16 code units. */
  datatype RelayState = RelayState(sent: seq<Json>, ended: bool, clientClosed: bool, total: nat, lateWrites: nat)

  const Opened := RelayState([], false, false, 0, 0)

  /** A `res.write` after `res.end()` makes Node emit ERR_STREAM_WRITE_AFTER_END
      as an `'error'` event on the response, in a later tick. The handler
      attaches no `'error'` listener to `res`, and the `try` around `sendSSE`
      cannot catch an error that is not thrown, so the event goes uncaught. */
  predicate WriteAfterEndRaised(s: RelayState) {
    s.lateWrites > 0
  }

  /** The bytes on the wire for a sequence of sent payloads. */
  function Wire(sent: seq<Json>): string {
    if sent == [] then "" else SseFrame(sent[0]) + Wire(sent[1..])
  }

  /** `sendSSE(res, payload)`: one `res.write` of the frame. */
  function Send(s: RelayState, payload: Json): RelayState {
    if s.ended then s.(lateWrites := s.lateWrites + 1) else s.(sent := s.sent + [payload])
  }

  /** The effect of one listener (the `close`, `text.delta`, `text.completed`
      and `error` listeners of the handler). */
  function Step(s: RelayState, e: RelayEvent): (r: RelayState)
    ensures r.clientClosed == (s.clientClosed || e.ClientClose?)
    ensures s.ended ==> r.ended && r.sent == s.sent
    ensures s.sent <= r.sent && |r.sent| <= |s.sent| + 1
    ensures s.total <= r.total
  {
    match e
    case ClientClose => s.(clientClosed := true, ended := true)
    case TextDelta(d) =>
      if s.clientClosed then s
      else Send(s.(total := s.total + Utf16Length(d)), ChunkPayload(d))
    case TextCompleted =>
      if s.clientClosed then s else Send(s, DonePayload).(ended := true)
    case StreamError =>
      if s.clientClosed then s else Send(s, ErrorPayload).(ended := true)
  }

  function Run(s: RelayState, es: seq<RelayEvent>): (r: RelayState)
    ensures s.clientClosed ==> r.clientClosed
    ensures s.ended ==> r.ended && r.sent == s.sent
    ensures s.sent <= r.sent && |r.sent| <= |s.sent| + |es|
    ensures s.total <= r.total
    decreases |es|
  {
    if es == [] then s else Run(Step(s, es[0]), es[1..])
  }

  lemma {:induction false} RunAppend(s: RelayState, a: seq<RelayEvent>, b: seq<RelayEvent>)
    ensures Run(s, a + b) == Run(Run(s, a), b)
    decreases |a|
  {
    if a == [] {
      assert a + b == b;
    } else {
      assert (a + b)[0] == a[0] && (a + b)[1..] == a[1..] + b;
      RunAppend(Step(s, a[0]), a[1..], b);
    }
  }

  /** Once the browser has gone, no listener sends, counts or ends anything more. */
  lemma {:induction false} NothingAfterClose(s: RelayState, es: seq<RelayEvent>)
    requires s.clientClosed
    ensures Run(s, es) == s.(ended := s.ended || ClientClose in es)
    decreases |es|
  {
    if es != [] {
      var s' := Step(s, es[0]);
      assert s' == s.(ended := s.ended || es[0] == ClientClose);
      NothingAfterClose(s', es[1..]);
      assert ClientClose in es <==> es[0] == ClientClose || ClientClose in es[1..] by {
        assert es == [es[0]] + es[1..];
      }
    }
  }

  /** The deltas the handler accepts: those that arrive before the browser leaves. */
  function OpenDeltas(es: seq<RelayEvent>): seq<string>
  {
    if es == [] || es[0] == ClientClose then []
    else if es[0].TextDelta? then [es[0].delta] + OpenDeltas(es[1..])
    else OpenDeltas(es[1..])
  }

  /** `total` is the JavaScript length of everything accepted while the
      browser was connected. */
  lemma {:induction false} TotalCountsOpenDeltas(s: RelayState, es: seq<RelayEvent>)
    requires !s.clientClosed
    ensures Run(s, es).total == s.total + Utf16Length(Concat(OpenDeltas(es)))
    decreases |es|
  {
    if es != [] {
      var s' := Step(s, es[0]);
      if es[0] == ClientClose {
        NothingAfterClose(s', es[1..]);
      } else if es[0].TextDelta? {
        TotalCountsOpenDeltas(s', es[1..]);
        Utf16LengthAppend(es[0].delta, Concat(OpenDeltas(es[1..])));
      } else {
        TotalCountsOpenDeltas(s', es[1..]);
      }
    }
  }

  /** The three payloads the relay sends: a chunk, `done` or the fixed error. */
  predicate IsRelayPayload(p: Json) {
    || p == DonePayload
    || p == ErrorPayload
    || (p.JObj? && |p.members| == 2 && p.members[1].value.JStr?
        && p == ChunkPayload(p.members[1].value.s))
  }

  /** Every frame the browser receives is one of the three kinds. */
  lemma {:induction false} SentAreRelayPayloads(s: RelayState, es: seq<RelayEvent>)
    requires forall i :: 0 <= i < |s.sent| ==> IsRelayPayload(s.sent[i])
    ensures forall i :: 0 <= i < |Run(s, es).sent| ==> IsRelayPayload(Run(s, es).sent[i])
    decreases |es|
  {
    if es != [] {
      var s' := Step(s, es[0]);
      assert forall i :: 0 <= i < |s'.sent| ==> IsRelayPayload(s'.sent[i]) by {
        if es[0].TextDelta? && !s.clientClosed && !s.ended {
          assert s'.sent == s.sent + [ChunkPayload(es[0].delta)];
        }
      }
      SentAreRelayPayloads(s', es[1..]);
    }
  }

  /** The provider events for a sequence of text deltas. */
  function Deltas(ds: seq<string>): (r: seq<RelayEvent>)
    ensures |r| == |ds|
  {
    if ds == [] then [] else [TextDelta(ds[0])] + Deltas(ds[1..])
  }

  function Chunks(ds: seq<string>): (r: seq<Json>)
    ensures |r| == |ds|
  {
    if ds == [] then [] else [ChunkPayload(ds[0])] + Chunks(ds[1..])
  }

  /** While the response is open, each delta becomes one chunk frame, in order. */
  lemma {:induction false} DeltasForwarded(s: RelayState, ds: seq<string>)
    requires !s.clientClosed && !s.ended
    ensures Run(s, Deltas(ds)) == s.(sent := s.sent + Chunks(ds), total := s.total + Utf16Length(Concat(ds)))
    decreases |ds|
  {
    if ds == [] {
      assert s.sent + [] == s.sent;
    } else {
      var es := Deltas(ds);
      var s' := s.(sent := s.sent + [ChunkPayload(ds[0])], total := s.total + Utf16Length(ds[0]));
      assert Run(s, es) == Run(s', Deltas(ds[1..])) by {
        assert Step(s, es[0]) == s';
        assert es[1..] == Deltas(ds[1..]);
      }
      DeltasForwarded(s', ds[1..]);
      assert s.sent + [ChunkPayload(ds[0])] + Chunks(ds[1..]) == s.sent + Chunks(ds) by {
        assert Chunks(ds) == [ChunkPayload(ds[0])] + Chunks(ds[1..]);
      }
      assert s.total + Utf16Length(ds[0]) + Utf16Length(Concat(ds[1..])) == s.total + Utf16Length(Concat(ds)) by {
        Utf16LengthAppend(ds[0], Concat(ds[1..]));
      }
    }
  }

  /** A provider that sends deltas and completes: one chunk frame per delta,
      one `done` frame, the response ended, nothing written after the end. */
  lemma CompletedRun(ds: seq<string>)
    ensures Run(Opened, Deltas(ds) + [TextCompleted])
         == RelayState(Chunks(ds) + [DonePayload], true, false, Utf16Length(Concat(ds)), 0)
  {
    RunAppend(Opened, Deltas(ds), [TextCompleted]);
    DeltasForwarded(Opened, ds);
    assert [] + Chunks(ds) == Chunks(ds);
  }

  /** A provider that sends deltas and fails: the deltas, then one error frame, ended. */
  lemma FailedRun(ds: seq<string>)
    ensures Run(Opened, Deltas(ds) + [StreamError])
         == RelayState(Chunks(ds) + [ErrorPayload], true, false, Utf16Length(Concat(ds)), 0)
  {
    RunAppend(Opened, Deltas(ds), [StreamError]);
    DeltasForwarded(Opened, ds);
    assert [] + Chunks(ds) == Chunks(ds);
  }

  /** The browser leaving mid-answer: the frames sent so far are all it gets,
      whatever the provider still emits. */
  lemma ClosedRun(ds: seq<string>, later: seq<RelayEvent>)
    ensures Run(Opened, Deltas(ds) + [ClientClose] + later).sent == Chunks(ds)
    ensures Run(Opened, Deltas(ds) + [ClientClose] + later).total == Utf16Length(Concat(ds))
  {
    RunAppend(Opened, Deltas(ds) + [ClientClose], later);
    RunAppend(Opened, Deltas(ds), [ClientClose]);
    DeltasForwarded(Opened, ds);
    assert [] + Chunks(ds) == Chunks(ds);
    var c := Run(Opened, Deltas(ds) + [ClientClose]);
    NothingAfterClose(c, later);
  }

  /** A second `text.completed`, or a provider `error` after completion,
      passes the `clientClosed` guard and writes after `end()`, which raises
      the uncaught write-after-end error on the response. */
  lemma CompletedTwice()
    ensures Run(Opened, [TextCompleted, TextCompleted]).lateWrites == 1
    ensures WriteAfterEndRaised(Run(Opened, [TextCompleted, TextCompleted]))
    ensures WriteAfterEndRaised(Run(Opened, [TextCompleted, StreamError]))
    ensures Run(Opened, [TextCompleted, StreamError]).sent == [DonePayload]
  {
  }

  // ---------------------------------------------------------------------------
  // The response object
  // ---------------------------------------------------------------------------

  const SseHeaders: seq<(string, string)> := [
    ("Content-Type", "text/event-stream; charset=utf-8"),
    ("Cache-Control", "no-cache, no-transform"),
    ("Connection", "keep-alive")]

  /** The header `res.json` sets before `res.send` adds the charset. */
  const JsonContentType: (string, string) := ("Content-Type", "application/json; charset=utf-8")

  const ServerError: Json := JObj([Member("error", JStr("Server error"))])

  /** The Express response of one `/api/answer` request together with the
      handler's `clientClosed` and `total` variables. */
  class AnswerResponse {
    var status: int
    var headers: seq<(string, string)>
    var headersSent: bool
    var jsonBody: Option<Json>
    var sent: seq<Json>
    var ended: bool
    var clientClosed: bool
    var total: nat
    var lateWrites: nat

    function State(): RelayState
      reads this
    {
      RelayState(sent, ended, clientClosed, total, lateWrites)
    }

    constructor ()
      ensures status == 200 && headers == [] && !headersSent && jsonBody == None
      ensures State() == Opened
    {
      status, headers, headersSent, jsonBody := 200, [], false, None;
      sent, ended, clientClosed, total, lateWrites := [], false, false, 0, 0;
    }

    /** `res.status(code).json(body)`: sends a complete JSON reply with the
        JSON content type (the model keeps no other header Express adds, such
        as `Content-Length` or `ETag`). Once the
        headers are out, `res.send` resetting the existing `Content-Type`
        header with its charset throws `ERR_HTTP_HEADERS_SENT` instead
        (`threw`): the status is set, nothing is written and the response is
        not ended. */
    method SendJson(code: int, body: Json) returns (threw: bool)
      modifies this
      ensures threw == old(headersSent)
      ensures threw ==> status == code && jsonBody == old(jsonBody) && headersSent && ended == old(ended)
      ensures !threw ==> status == code && jsonBody == Some(body) && headersSent && ended
      ensures threw ==> headers == old(headers)
      ensures !threw ==> headers == old(headers) + [JsonContentType]
      ensures sent == old(sent) && clientClosed == old(clientClosed)
      ensures total == old(total) && lateWrites == old(lateWrites)
    {
      status := code;
      threw := headersSent;
      if !headersSent {
        headers := headers + [JsonContentType];
        jsonBody := Some(body);
        headersSent := true;
        ended := true;
      }
    }

    /** The three `setHeader` calls and `flushHeaders()`. */
    method OpenStream()
      requires !headersSent && headers == []
      modifies this
      ensures headers == SseHeaders && headersSent
      ensures status == old(status) && jsonBody == old(jsonBody)
      ensures State() == old(State())
    {
      headers := SseHeaders;
      headersSent := true;
    }

    /** `sendSSE(res, payload)`. A write after the end is not delivered; it
        raises the uncaught write-after-end error (`WriteAfterEndRaised`). */
    method SendSse(payload: Json)
      modifies this
      ensures State() == Send(old(State()), payload)
      ensures status == old(status) && headers == old(headers) && headersSent == old(headersSent)
      ensures jsonBody == old(jsonBody)
    {
      if ended {
        lateWrites := lateWrites + 1;
      } else {
        sent := sent + [payload];
      }
    }

    /** The `close` listener on the request. */
    method OnClose()
      modifies this
      ensures State() == Step(old(State()), ClientClose)
      ensures status == old(status) && headers == old(headers) && headersSent == old(headersSent)
      ensures jsonBody == old(jsonBody)
    {
      clientClosed := true;
      ended := true;
    }

    /** The `text.delta` listener. */
    method OnTextDelta(delta: string)
      modifies this
      ensures State() == Step(old(State()), TextDelta(delta))
      ensures status == old(status) && headers == old(headers) && headersSent == old(headersSent)
      ensures jsonBody == old(jsonBody)
    {
      if clientClosed {
        return;
      }
      total := total + Utf16Length(delta);
      SendSse(ChunkPayload(delta));
    }

    /** The `text.completed` listener. */
    method OnTextCompleted()
      modifies this
      ensures State() == Step(old(State()), TextCompleted)
      ensures status == old(status) && headers == old(headers) && headersSent == old(headersSent)
      ensures jsonBody == old(jsonBody)
    {
      if clientClosed {
        return;
      }
      SendSse(DonePayload);
      ended := true;
    }

    /** The `error` listener. */
    method OnStreamError()
      modifies this
      ensures State() == Step(old(State()), StreamError)
      ensures status == old(status) && headers == old(headers) && headersSent == old(headersSent)
      ensures jsonBody == old(jsonBody)
    {
      if !clientClosed {
        SendSse(ErrorPayload);
        ended := true;
      }
    }

    /** The `catch` of the handler, reached when opening the provider stream
        throws: `if (!clientClosed) res.status(500).json(...)`. The SSE headers
        were flushed before, so `res.json` throws out of the `catch` and the
        handler's promise is rejected (`rejected`); nothing catches it, and
        the response is left as it was, not ended unless the browser closed it. */
    method OnOpenFailure() returns (rejected: bool)
      requires headersSent
      modifies this
      ensures rejected <==> !clientClosed
      ensures rejected ==> status == 500
      ensures !rejected ==> status == old(status)
      ensures State() == old(State()) && headers == old(headers) && jsonBody == old(jsonBody)
    {
      rejected := false;
      if !clientClosed {
        rejected := SendJson(500, ServerError);
      }
    }
  }

  /** The synchronous part of the `/api/answer` handler: validation, the
      instruction and input, and opening the event stream. On success it
      returns the provider call to make; the listeners then run on the
      returned response as the provider's events arrive. */
  method HandleAnswer(req: AnswerRequest, modelEnv: Option<string>) returns (res: AnswerResponse, call: Option<ModelCall>)
    ensures fresh(res)
    ensures Falsy(req.question) ==>
      && res.status == 400 && res.jsonBody == Some(MissingQuestion) && res.headers == [JsonContentType]
      && res.sent == [] && res.ended && call == None
    ensures !Falsy(req.question) ==>
      && res.status == 200 && res.headers == SseHeaders && res.headersSent && res.jsonBody == None
      && res.State() == Opened
      && call == Some(BuildModelCall(req, req.question.value, modelEnv))
  {
    res := new AnswerResponse();
    match Validate(req)
    case Rejected(code, body) =>
      var threw := res.SendJson(code, body);
      call := None;
    case Accepted(question) =>
      var instructions := Instructions(req);
      var input := HistoryForModel(req.history) + [Turn("user", question)];
      res.OpenStream();
      call := Some(ModelCall(OrDefault(modelEnv, "gpt-4.1-mini"), instructions, input, true));
  }
}
