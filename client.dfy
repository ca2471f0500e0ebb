/** The browser side of a request (script.js, `askBackend` and
    `stopGeneration`): the line-oriented SSE decoder, the JSON fallback, and
    the callbacks each way of ending a request produces. The callbacks a
    request fires are recorded, in order, as a trace. */
module Client {
  import opened Text
  import opened Json
  import Server

  /** Why `onError` was called: the `Error('HTTP ' + status)` thrown for a
      non-ok reply, the SyntaxError of `JSON.parse`, the TypeError of reading
      `type` from a `null` event, or a failed network transfer. */
  datatype Failure = HttpStatus(status: int) | BadJson | NullEvent | NetworkError

  /** One callback invocation. `OnDelta` holds the text `content += delta`
      appends, that is `String(delta)`. */
  datatype Callback = OnDelta(text: string) | OnDone(final: Json) | OnError(failure: Failure)

  /** How the last `reader.read()` of the body turns out: the stream ends
      (`done: true`), the read rejects with an `AbortError`, or it rejects
      with a network error. */
  datatype StreamEnd = Finished | Aborted | Broken

  /** The outcome of `fetch`: it rejects with an `AbortError`, it rejects for
      another reason, or a response arrives whose body is delivered as the
      given strings, one per `reader.read()` (already UTF-8 decoded). */
  datatype FetchResult =
    | FetchAborted
    | FetchFailed
    | Response(status: int, contentType: Option<string>, body: seq<string>, end: StreamEnd)

  // ---------------------------------------------------------------------------
  // Decoding one line
  // ---------------------------------------------------------------------------

  /** What the body of the `for (const line of ...)` loop does with a line. */
  datatype LineAction = Skip | Emit(text: string) | Finish(event: Json) | Fail(failure: Failure)

  const DataPrefix := "data:"

  /** `evt.delta || ''`, as `content +=` will append it. */
  function DeltaText(delta: Option<Json>): (r: string)
    ensures !Truthy(delta) ==> r == ""
    ensures delta.Some? && delta.value.JStr? ==> r == delta.value.s
  {
    if Truthy(delta) then JsToString(delta.value) else ""
  }

  /** The dispatch on a parsed event: `chunk` emits its delta, `done`
      finishes, anything else (the relay's `error` event included) is
      ignored; `null` has no `type` to read. */
  function EventAction(evt: Json): (r: LineAction)
    ensures r.Emit? <==> Get(evt, "type") == Some(JStr("chunk"))
    ensures r.Emit? ==> r.text == DeltaText(Get(evt, "delta"))
    ensures r.Finish? <==> Get(evt, "type") == Some(JStr("done"))
    ensures r.Finish? ==> r.event == evt
    ensures r.Fail? <==> evt == JNull
    ensures r.Fail? ==> r.failure == NullEvent
  {
    if evt == JNull then Fail(NullEvent)
    else if Get(evt, "type") == Some(JStr("chunk")) then Emit(DeltaText(Get(evt, "delta")))
    else if Get(evt, "type") == Some(JStr("done")) then Finish(evt)
    else Skip
  }

  /** The trimmed payload of a data line: empty payloads are skipped, the
      rest is parsed as JSON. */
  function DecodeData(data: string): (r: LineAction)
    ensures data == "" ==> r == Skip
    ensures data != "" && Parse(data) == None ==> r == Fail(BadJson)
  {
    if data == "" then Skip
    else match Parse(data)
      case None => Fail(BadJson)
      case Some(evt) => EventAction(evt)
  }

  /** One line: lines without the `data:` prefix are skipped; the payload is
      the rest of the line, trimmed. */
  function DecodeLine(line: string): (r: LineAction)
    ensures !StartsWith(line, DataPrefix) ==> r == Skip
    ensures StartsWith(line, DataPrefix) ==> r == DecodeData(Trim(line[5..]))
  {
    if !StartsWith(line, DataPrefix) then Skip else DecodeData(Trim(line[5..]))
  }

  /** A line made of the prefix and some text. */
  lemma PrefixedLine(p: string, rest: string)
    requires p == DataPrefix
    ensures StartsWith(p + rest, DataPrefix) && (p + rest)[5..] == rest
  {
    assert (p + rest)[..5] == p;
  }

  /** Spaces between `data:` and the payload do not matter. */
  lemma LinePaddingIgnored(pad: string, payload: string)
    requires forall k :: 0 <= k < |pad| ==> IsJsSpace(pad[k])
    requires payload != [] && !IsJsSpace(payload[0]) && !IsJsSpace(payload[|payload| - 1])
    ensures DecodeLine(DataPrefix + pad + payload) == DecodeLine(DataPrefix + payload)
  {
    assert DataPrefix + pad + payload == DataPrefix + (pad + payload);
    PrefixedLine(DataPrefix, pad + payload);
    PrefixedLine(DataPrefix, payload);
    TrimSpaced(pad, payload);
    assert [] + payload == payload;
    TrimSpaced([], payload);
  }

  // ---------------------------------------------------------------------------
  // Decoding the stream
  // ---------------------------------------------------------------------------

  /** The callbacks fired so far, and whether decoding has stopped (after
      `done`, or after an exception). */
  datatype Progress = Progress(out: seq<Callback>, halted: bool)

  const Start := Progress([], false)

  /** The effect of a line's action on the decoding so far. */
  function Apply(p: Progress, a: LineAction): Progress {
    if p.halted then p
    else match a
      case Skip => p
      case Emit(t) => Progress(p.out + [OnDelta(t)], false)
      case Finish(evt) => Progress(p.out + [OnDone(evt)], true)
      case Fail(f) => Progress(p.out + [OnError(f)], true)
  }

  function FeedLine(p: Progress, line: string): Progress {
    Apply(p, DecodeLine(line))
  }

  function FeedLines(p: Progress, lines: seq<string>): Progress
    decreases |lines|
  {
    if lines == [] then p else FeedLines(FeedLine(p, lines[0]), lines[1..])
  }

  /** Each read is split on its own: no text carries over to the next read. */
  function FeedReads(p: Progress, body: seq<string>): Progress
    decreases |body|
  {
    if body == [] then p else FeedReads(FeedLines(p, Split(body[0], '\n')), body[1..])
  }

  /** The callbacks of the last read: the `AbortError` is swallowed, a
      network error reaches `onError`. */
  function EndCallbacks(end: StreamEnd): seq<Callback> {
    match end
    case Finished => []
    case Aborted => []
    case Broken => [OnError(NetworkError)]
  }

  /** The callbacks of the event-stream branch of `askBackend`. */
  function StreamCallbacks(body: seq<string>, end: StreamEnd): seq<Callback> {
    var p := FeedReads(Start, body);
    if p.halted then p.out else p.out + EndCallbacks(end)
  }

  /** The JSON fallback: `res.json()`, then `onDelta(json.answer)` when the
      answer is truthy and `onDone(json || {})`. */
  function FallbackCallbacks(body: seq<string>, end: StreamEnd): (r: seq<Callback>)
    ensures end == Aborted ==> r == []
    ensures end == Broken ==> r == [OnError(NetworkError)]
    ensures end == Finished && Parse(Concat(body)) == None ==> r == [OnError(BadJson)]
  {
    match end
    case Aborted => []
    case Broken => [OnError(NetworkError)]
    case Finished =>
      match Parse(Concat(body))
      case None => [OnError(BadJson)]
      case Some(json) =>
        (if Truthy(Get(json, "answer")) then [OnDelta(JsToString(Get(json, "answer").value))] else [])
        + [OnDone(if Truthy(Some(json)) then json else JObj([]))]
  }

  predicate IsOk(status: int) {
    200 <= status <= 299
  }

  /** Every callback `askBackend` fires for one fetch outcome, in order. */
  function AskCallbacks(f: FetchResult): seq<Callback> {
    match f
    case FetchAborted => []
    case FetchFailed => [OnError(NetworkError)]
    case Response(status, ctype, body, end) =>
      if !IsOk(status) then [OnError(HttpStatus(status))]
      else if Includes(if ctype.Some? then ctype.value else "", "text/event-stream") then StreamCallbacks(body, end)
      else FallbackCallbacks(body, end)
  }

  // ---------------------------------------------------------------------------
  // Halting is final
  // ---------------------------------------------------------------------------

  lemma {:induction false} FeedLinesHalted(p: Progress, lines: seq<string>)
    requires p.halted
    ensures FeedLines(p, lines) == p
    decreases |lines|
  {
    if lines != [] {
      FeedLinesHalted(p, lines[1..]);
    }
  }

  lemma {:induction false} FeedReadsHalted(p: Progress, body: seq<string>)
    requires p.halted
    ensures FeedReads(p, body) == p
    decreases |body|
  {
    if body != [] {
      FeedLinesHalted(p, Split(body[0], '\n'));
      FeedReadsHalted(p, body[1..]);
    }
  }

  // ---------------------------------------------------------------------------
  // Shape of a trace
  // ---------------------------------------------------------------------------

  predicate DeltasOnly(t: seq<Callback>) {
    forall i :: 0 <= i < |t| ==> t[i].OnDelta?
  }

  /** At most one terminal callback (`onDone` or `onError`), and nothing after it. */
  predicate WellFormed(t: seq<Callback>) {
    forall i :: 0 <= i < |t| - 1 ==> t[i].OnDelta?
  }

  /** The invariant the decoder keeps: deltas only while running; once halted,
      deltas followed by exactly one terminal callback. */
  predicate ProgressOk(p: Progress) {
    if p.halted then |p.out| >= 1 && DeltasOnly(p.out[..|p.out| - 1]) && !p.out[|p.out| - 1].OnDelta?
    else DeltasOnly(p.out)
  }

  lemma ApplyOk(p: Progress, a: LineAction)
    requires ProgressOk(p)
    ensures ProgressOk(Apply(p, a))
  {
    if !p.halted {
      match a
      case Skip =>
      case Emit(t) =>
        assert Apply(p, a) == Progress(p.out + [OnDelta(t)], false);
        DeltaAppended(p.out, OnDelta(t));
      case Finish(evt) =>
        assert Apply(p, a) == Progress(p.out + [OnDone(evt)], true);
        TerminalAppended(p.out, OnDone(evt));
      case Fail(f) =>
        assert Apply(p, a) == Progress(p.out + [OnError(f)], true);
        TerminalAppended(p.out, OnError(f));
    }
  }

  lemma DeltaAppended(t: seq<Callback>, c: Callback)
    requires DeltasOnly(t) && c.OnDelta?
    ensures DeltasOnly(t + [c])
  {
  }

  lemma TerminalAppended(t: seq<Callback>, c: Callback)
    requires DeltasOnly(t) && !c.OnDelta?
    ensures ProgressOk(Progress(t + [c], true))
  {
    assert (t + [c])[..|t|] == t;
  }

  lemma {:induction false} FeedLinesOk(p: Progress, lines: seq<string>)
    requires ProgressOk(p)
    ensures ProgressOk(FeedLines(p, lines))
    decreases |lines|
  {
    if lines != [] {
      ApplyOk(p, DecodeLine(lines[0]));
      FeedLinesOk(FeedLine(p, lines[0]), lines[1..]);
    }
  }

  lemma {:induction false} FeedReadsOk(p: Progress, body: seq<string>)
    requires ProgressOk(p)
    ensures ProgressOk(FeedReads(p, body))
    decreases |body|
  {
    if body != [] {
      FeedLinesOk(p, Split(body[0], '\n'));
      FeedReadsOk(FeedLines(p, Split(body[0], '\n')), body[1..]);
    }
  }

  /** Whatever the server and the network do, a request fires deltas and then
      at most one `onDone` or `onError`, as its last callback. */
  lemma AskWellFormed(f: FetchResult)
    ensures WellFormed(AskCallbacks(f))
  {
    if f.Response? && IsOk(f.status) && Includes(if f.contentType.Some? then f.contentType.value else "", "text/event-stream") {
      FeedReadsOk(Start, f.body);
      var p := FeedReads(Start, f.body);
      if !p.halted {
        var t := p.out + EndCallbacks(f.end);
        assert forall i :: 0 <= i < |t| - 1 ==> t[i] == p.out[i];
      }
    }
  }

  /** A non-ok reply reaches `onError` and nothing else. */
  lemma NonOkStatus(status: int, ctype: Option<string>, body: seq<string>, end: StreamEnd)
    requires !IsOk(status)
    ensures AskCallbacks(Response(status, ctype, body, end)) == [OnError(HttpStatus(status))]
  {
  }

  /** An abort adds no callback: a request aborted before the reply fires
      nothing, an event stream whose reading is aborted fires what the same
      stream ending normally would, and an aborted JSON reply fires nothing. */
  lemma AbortAddsNothing(body: seq<string>)
    ensures AskCallbacks(FetchAborted) == []
    ensures StreamCallbacks(body, Aborted) == StreamCallbacks(body, Finished)
    ensures FallbackCallbacks(body, Aborted) == []
  {
  }

  /** The JSON fallback: `onDelta(answer)` exactly when the answer is truthy,
      then `onDone` with the reply, or `{}` for a falsy reply. */
  lemma FallbackReply(body: seq<string>, json: Json)
    requires Parse(Concat(body)) == Some(json)
    ensures Truthy(Get(json, "answer")) ==>
      FallbackCallbacks(body, Finished) == [OnDelta(JsToString(Get(json, "answer").value)), OnDone(json)]
    ensures !Truthy(Get(json, "answer")) ==>
      FallbackCallbacks(body, Finished) == [OnDone(if Truthy(Some(json)) then json else JObj([]))]
  {
    if Truthy(Get(json, "answer")) {
      assert json.JObj?;
    }
  }

  // ---------------------------------------------------------------------------
  // The decoder applied to the relay's frames
  // ---------------------------------------------------------------------------

  /** The data line of a frame. */
  function DataLine(payload: Json): string {
    "data: " + Stringify(payload)
  }

  /** The decoder's view of a frame: its data line (the blank line after it
      is skipped). */
  function FeedPayloads(p: Progress, ps: seq<Json>): Progress
    decreases |ps|
  {
    if ps == [] then p else FeedPayloads(FeedLine(p, DataLine(ps[0])), ps[1..])
  }

  /** A data line is decoded by its payload alone. */
  lemma DataLineDecoded(payload: Json)
    ensures DecodeLine(DataLine(payload)) == EventAction(payload)
  {
    var str := Stringify(payload);
    assert DataLine(payload) == DataPrefix + (" " + str);
    TrimSpaced(" ", str);
    RoundTrip(payload);
    ParsedLine(DataLine(payload), " " + str, str, payload);
  }

  lemma ParsedLine(line: string, rest: string, data: string, evt: Json)
    requires line == DataPrefix + rest && Trim(rest) == data
    requires data != "" && Parse(data) == Some(evt)
    ensures DecodeLine(line) == EventAction(evt)
  {
    PrefixedLine(DataPrefix, rest);
  }

  lemma ChunkAction(d: string)
    ensures EventAction(Server.ChunkPayload(d)) == Emit(d)
  {
    var ms := Server.ChunkPayload(d).members;
    assert ms[..1] == [Member("type", JStr("chunk"))];
    assert Lookup(ms, "type") == Lookup(ms[..1], "type") by {
      assert ms[1].key != "type";
    }
  }

  lemma DoneAction()
    ensures EventAction(Server.DonePayload) == Finish(Server.DonePayload)
  {
  }

  /** The relay's `error` frame is ignored by the decoder. */
  lemma ErrorFrameIgnored()
    ensures DecodeLine(DataLine(Server.ErrorPayload)) == Skip
  {
    DataLineDecoded(Server.ErrorPayload);
    ErrorAction();
  }

  lemma ErrorAction()
    ensures EventAction(Server.ErrorPayload) == Skip
  {
    var ms := Server.ErrorPayload.members;
    assert ms[..1] == [Member("type", JStr("error"))];
    assert Lookup(ms, "type") == Lookup(ms[..1], "type") by {
      assert ms[1].key != "type";
    }
  }

  lemma BlankLineSkipped(p: Progress)
    ensures FeedLine(p, "") == p
  {
    assert !StartsWith("", DataPrefix);
  }

  /** Splitting the text of whole frames yields each data line, then a blank
      line, and a final empty piece. */
  lemma WireLines(ps: seq<Json>)
    requires ps != []
    ensures Split(Server.Wire(ps), '\n') == [DataLine(ps[0])] + ([""] + Split(Server.Wire(ps[1..]), '\n'))
  {
    var a := DataLine(ps[0]);
    var w := Server.Wire(ps[1..]);
    assert Server.Wire(ps) == a + ['\n', '\n'] + w;
    StringifyNoControl(ps[0]);
    assert '\n' !in a;
    FrameSplit(a, w, '\n');
  }

  lemma {:induction false} FeedWire(p: Progress, ps: seq<Json>)
    ensures FeedLines(p, Split(Server.Wire(ps), '\n')) == FeedPayloads(p, ps)
    decreases |ps|
  {
    if ps == [] {
      BlankLineSkipped(p);
    } else {
      var a := DataLine(ps[0]);
      var lines := Split(Server.Wire(ps), '\n');
      WireLines(ps);
      assert lines[0] == a && lines[1..][0] == "" && lines[1..][1..] == Split(Server.Wire(ps[1..]), '\n');
      var q := FeedLine(p, a);
      BlankLineSkipped(q);
      FeedWire(q, ps[1..]);
    }
  }

  /** The frames' text ends with a newline: nothing follows the last one. */
  lemma {:induction false} WireLastEmpty(ps: seq<Json>)
    ensures Last(Split(Server.Wire(ps), '\n')) == ""
    decreases |ps|
  {
    if ps != [] {
      WireLines(ps);
      var rest := Split(Server.Wire(ps[1..]), '\n');
      InitLastAppend([DataLine(ps[0])], [""] + rest);
      InitLastAppend([""], rest);
      WireLastEmpty(ps[1..]);
    }
  }

  lemma {:induction false} FeedPayloadsAppend(p: Progress, a: seq<Json>, b: seq<Json>)
    ensures FeedPayloads(p, a + b) == FeedPayloads(FeedPayloads(p, a), b)
    decreases |a|
  {
    if a == [] {
      assert a + b == b;
    } else {
      assert (a + b)[0] == a[0] && (a + b)[1..] == a[1..] + b;
      FeedPayloadsAppend(FeedLine(p, DataLine(a[0])), a[1..], b);
    }
  }

  lemma {:induction false} FeedPayloadsHalted(p: Progress, ps: seq<Json>)
    requires p.halted
    ensures FeedPayloads(p, ps) == p
    decreases |ps|
  {
    if ps != [] {
      FeedPayloadsHalted(p, ps[1..]);
    }
  }

  /** A stream that ends, normally or by abort, before the decoder stopped
      fires no terminal callback. */
  lemma UnfinishedNoTerminal(body: seq<string>, end: StreamEnd)
    requires !FeedReads(Start, body).halted && end != Broken
    ensures DeltasOnly(StreamCallbacks(body, end))
  {
    FeedReadsOk(Start, body);
    assert FeedReads(Start, body).out + [] == FeedReads(Start, body).out;
  }

  function OnDeltas(ds: seq<string>): (r: seq<Callback>)
    ensures |r| == |ds|
  {
    if ds == [] then [] else [OnDelta(ds[0])] + OnDeltas(ds[1..])
  }

  /** Chunk frames become `onDelta` calls with the same texts, in order. */
  lemma {:induction false} ChunksDecoded(out: seq<Callback>, ds: seq<string>)
    ensures FeedPayloads(Progress(out, false), Server.Chunks(ds)) == Progress(out + OnDeltas(ds), false)
    decreases |ds|
  {
    if ds == [] {
      assert out + [] == out;
    } else {
      var cs := Server.Chunks(ds);
      assert cs[0] == Server.ChunkPayload(ds[0]) && cs[1..] == Server.Chunks(ds[1..]);
      DataLineDecoded(cs[0]);
      ChunkAction(ds[0]);
      ChunksDecoded(out + [OnDelta(ds[0])], ds[1..]);
      assert out + [OnDelta(ds[0])] + OnDeltas(ds[1..]) == out + OnDeltas(ds);
    }
  }

  /** Reads that each hold whole frames. */
  function WireReads(groups: seq<seq<Json>>): (r: seq<string>)
    ensures |r| == |groups|
  {
    if groups == [] then [] else [Server.Wire(groups[0])] + WireReads(groups[1..])
  }

  function Flatten(groups: seq<seq<Json>>): seq<Json> {
    if groups == [] then [] else groups[0] + Flatten(groups[1..])
  }

  /** When every read ends on a frame boundary, the decoder sees exactly the
      sequence of payloads sent. */
  lemma {:induction false} FeedWireReads(p: Progress, groups: seq<seq<Json>>)
    ensures FeedReads(p, WireReads(groups)) == FeedPayloads(p, Flatten(groups))
    decreases |groups|
  {
    if groups != [] {
      var rs := WireReads(groups);
      assert rs[0] == Server.Wire(groups[0]) && rs[1..] == WireReads(groups[1..]);
      FeedWire(p, groups[0]);
      FeedWireReads(FeedLines(p, Split(rs[0], '\n')), groups[1..]);
      FeedPayloadsAppend(p, groups[0], Flatten(groups[1..]));
    }
  }

  /** The payloads of a completed relay run, decoded in order: one `onDelta`
      per provider delta, then `onDone`, which stops decoding. */
  lemma CompletedPayloads(ds: seq<string>)
    ensures FeedPayloads(Start, Server.Run(Server.Opened, Server.Deltas(ds) + [Server.TextCompleted]).sent)
         == Progress(OnDeltas(ds) + [OnDone(Server.DonePayload)], true)
  {
    Server.CompletedRun(ds);
    FeedPayloadsAppend(Start, Server.Chunks(ds), [Server.DonePayload]);
    ChunksDecoded([], ds);
    assert [] + OnDeltas(ds) == OnDeltas(ds);
    DataLineDecoded(Server.DonePayload);
  }

  /** The payloads of a failed relay run: the deltas, and the `error` payload
      is passed over without stopping. */
  lemma FailedPayloads(ds: seq<string>)
    ensures FeedPayloads(Start, Server.Run(Server.Opened, Server.Deltas(ds) + [Server.StreamError]).sent)
         == Progress(OnDeltas(ds), false)
  {
    Server.FailedRun(ds);
    FeedPayloadsAppend(Start, Server.Chunks(ds), [Server.ErrorPayload]);
    ChunksDecoded([], ds);
    assert [] + OnDeltas(ds) == OnDeltas(ds);
    ErrorFrameIgnored();
  }

  /** End to end: the frames of a completed relay run, delivered in reads that
      end on frame boundaries, reach the page as one `onDelta` per provider
      delta, in order, then one `onDone`, whatever the stream does next. */
  lemma CompletedAnswerDecoded(ds: seq<string>, groups: seq<seq<Json>>, end: StreamEnd)
    requires Flatten(groups) == Server.Run(Server.Opened, Server.Deltas(ds) + [Server.TextCompleted]).sent
    ensures StreamCallbacks(WireReads(groups), end) == OnDeltas(ds) + [OnDone(Server.DonePayload)]
  {
    FeedWireReads(Start, groups);
    CompletedPayloads(ds);
  }

  /** End to end, failing provider: the deltas arrive, the `error` frame is
      ignored, and when the server ends the stream no terminal callback fires. */
  lemma FailedAnswerDecoded(ds: seq<string>, groups: seq<seq<Json>>)
    requires Flatten(groups) == Server.Run(Server.Opened, Server.Deltas(ds) + [Server.StreamError]).sent
    ensures StreamCallbacks(WireReads(groups), Finished) == OnDeltas(ds)
  {
    FeedWireReads(Start, groups);
    FailedPayloads(ds);
    assert OnDeltas(ds) + [] == OnDeltas(ds);
  }

  /** The frame of a two-member object cut after its first member: the
      first part is the data line up to there. */
  function FirstPart(k1: string, v1: string): string {
    "data: " + ("{" + (Quote(k1) + ":" + Quote(v1)))
  }

  function SecondPart(k2: string, v2: string): string {
    "," + (Quote(k2) + ":" + Quote(v2)) + "}" + "\n\n"
  }

  lemma TwoMembersText(k1: string, v1: string, k2: string, v2: string)
    ensures StringifyMembers([Member(k1, JStr(v1)), Member(k2, JStr(v2))])
         == (Quote(k1) + ":" + Quote(v1)) + ("," + (Quote(k2) + ":" + Quote(v2)))
  {
    var ms := [Member(k1, JStr(v1)), Member(k2, JStr(v2))];
    assert ms[1..] == [Member(k2, JStr(v2))];
    assert StringifyMember(ms[0]) == Quote(k1) + ":" + Quote(v1);
    assert StringifyMembers(ms[1..]) == Quote(k2) + ":" + Quote(v2) by {
      assert StringifyMember(ms[1]) == Quote(k2) + ":" + Quote(v2);
      assert StringifyMember(ms[1]) + "" == StringifyMember(ms[1]);
    }
  }

  lemma Regroup(x: string, o: string, a: string, c: string, b: string, e: string, z: string)
    ensures (x + ((o + (a + (c + b))) + e)) + z == (x + (o + a)) + (((c + b) + e) + z)
  {
  }

  lemma FrameCut(k1: string, v1: string, k2: string, v2: string)
    ensures Server.SseFrame(JObj([Member(k1, JStr(v1)), Member(k2, JStr(v2))]))
         == FirstPart(k1, v1) + SecondPart(k2, v2)
  {
    var ms := [Member(k1, JStr(v1)), Member(k2, JStr(v2))];
    var a := Quote(k1) + ":" + Quote(v1);
    var b := Quote(k2) + ":" + Quote(v2);
    TwoMembersText(k1, v1, k2, v2);
    Regroup("data: ", "{", a, ",", b, "}", "\n\n");
  }

  /** An object that stops after its first member does not parse. */
  lemma UnclosedObject(k: string, v: string)
    ensures Parse("{" + (Quote(k) + ":" + Quote(v))) == None
  {
    var c := ":" + Quote(v);
    var t := Quote(k) + c;
    AppendAssoc(Quote(k), ":", Quote(v));
    KeyRead(k, c);
    ValueAfterColon(v);
    MembersEndEarly(t, k, c, JStr(v));
    ObjectFails("{" + (Quote(k) + ":" + Quote(v)), t);
  }


  lemma KeyRead(k: string, c: string)
    ensures (Quote(k) + c)[0] == '"' && ParseString((Quote(k) + c)[1..]) == Some((k, c))
  {
    assert (Quote(k) + c)[1..] == Escape(k) + "\"" + c;
    EscapeRoundTrip(k, c);
  }

  lemma ValueAfterColon(v: string)
    ensures (":" + Quote(v))[0] == ':' && ParseValue((":" + Quote(v))[1..]) == Some((JStr(v), ""))
  {
    assert (":" + Quote(v))[1..] == Stringify(JStr(v)) + "";
    ValueRoundTrip(JStr(v), "");
  }

  lemma ObjectFails(s: string, t: string)
    requires s == "{" + t && t != [] && t[0] == '"' && ParseMembers(t) == None
    ensures Parse(s) == None
  {
    assert s[0] == '{' && s[1..] == t;
    SkipWsStops(s);
    NotLiteral(s);
    SkipWsStops(t);
    assert ParseObject(t) == None;
    assert ParseValue(s) == ParseObject(t);
  }

  /** A member followed by nothing: the members parser finds neither `,` nor `}`. */
  lemma MembersEndEarly(t: string, key: string, afterKey: string, v: Json)
    requires t != [] && t[0] == '"' && ParseString(t[1..]) == Some((key, afterKey))
    requires afterKey != [] && afterKey[0] == ':' && ParseValue(afterKey[1..]) == Some((v, ""))
    ensures ParseMembers(t) == None
  {
    SkipWsStops(t);
    SkipWsStops(afterKey);
  }

  /** Decoding stops at such a first part: its payload is an unclosed object. */
  lemma FirstPartFails(k: string, v: string)
    ensures DecodeLine(FirstPart(k, v)) == Fail(BadJson)
  {
    var x := "{" + (Quote(k) + ":" + Quote(v));
    var line := FirstPart(k, v);
    assert line[..5] == DataPrefix && line[5..] == " " + x;
    assert x[|x| - 1] == '"';
    TrimSpaced(" ", x);
    UnclosedObject(k, v);
  }

  lemma FailingLine(line: string)
    requires DecodeLine(line).Fail?
    ensures FeedLine(Start, line) == Progress([OnError(DecodeLine(line).failure)], true)
  {
  }

  /** A read without a newline is one line. */
  lemma OneLineRead(p: Progress, line: string)
    requires '\n' !in line
    ensures FeedLines(p, Split(line, '\n')) == FeedLine(p, line)
  {
    SplitSingle(line, '\n');
    assert [line][1..] == [];
  }

  lemma FeedReadsCons(p: Progress, read: string, rest: seq<string>)
    ensures FeedReads(p, [read] + rest) == FeedReads(FeedLines(p, Split(read, '\n')), rest)
  {
    assert ([read] + rest)[0] == read && ([read] + rest)[1..] == rest;
  }

  /** A first read holding one line that fails ends the request with that
      error, whatever follows. */
  lemma FailingFirstRead(line: string, rest: seq<string>, end: StreamEnd)
    requires '\n' !in line && DecodeLine(line).Fail?
    ensures StreamCallbacks([line] + rest, end) == [OnError(DecodeLine(line).failure)]
  {
    var q := Progress([OnError(DecodeLine(line).failure)], true);
    FailingLine(line);
    OneLineRead(Start, line);
    FeedReadsCons(Start, line, rest);
    FeedReadsHalted(q, rest);
  }

  lemma EmittingLine(p: Progress, line: string, text: string)
    requires !p.halted && DecodeLine(line) == Emit(text)
    ensures FeedLine(p, line) == Progress(p.out + [OnDelta(text)], false)
  {
  }

  lemma WireOne(c: Json)
    ensures Server.Wire([c]) == Server.SseFrame(c)
  {
    assert [c][1..] == [];
    assert Server.SseFrame(c) + "" == Server.SseFrame(c);
  }

  lemma FeedPayloadsOne(p: Progress, c: Json)
    ensures FeedPayloads(p, [c]) == FeedLine(p, DataLine(c))
  {
    assert [c][1..] == [];
  }

  /** A read holding exactly one frame whose event emits a delta. */
  lemma OneFrameRead(c: Json, text: string)
    requires EventAction(c) == Emit(text)
    ensures StreamCallbacks([Server.SseFrame(c)], Finished) == [OnDelta(text)]
  {
    var w := Server.SseFrame(c);
    WireOne(c);
    FeedWire(Start, [c]);
    FeedPayloadsOne(Start, c);
    DataLineDecoded(c);
    EmittingLine(Start, DataLine(c), text);
    FeedReadsCons(Start, w, []);
    assert [w] + [] == [w];
  }

  /** A chunk frame split across two reads is not reassembled: the first
      part fails to parse and the request reports an error instead of the
      delta; the second part is never looked at. */
  lemma SplitFrameFails(d: string)
    ensures StreamCallbacks([FirstPart("type", "chunk"), SecondPart("delta", d)], Finished) == [OnError(BadJson)]
  {
    FirstPartRead("type", "chunk", [SecondPart("delta", d)], Finished);
    assert [FirstPart("type", "chunk")] + [SecondPart("delta", d)]
        == [FirstPart("type", "chunk"), SecondPart("delta", d)];
  }

  /** Whatever follows, a read ending after the first member stops the stream. */
  lemma FirstPartRead(k: string, v: string, later: seq<string>, end: StreamEnd)
    ensures StreamCallbacks([FirstPart(k, v)] + later, end) == [OnError(BadJson)]
  {
    FirstPartNoNewline(k, v);
    FirstPartFails(k, v);
    FailingFirstRead(FirstPart(k, v), later, end);
  }

  lemma FirstPartNoNewline(k: string, v: string)
    ensures '\n' !in FirstPart(k, v)
  {
    QuoteNoControl(k);
    QuoteNoControl(v);
    NoControlAppend(Quote(k) + ":", Quote(v));
    NoControlAppend(Quote(k), ":");
    NoControlAppend("{", Quote(k) + ":" + Quote(v));
    NoControlAppend("data: ", "{" + (Quote(k) + ":" + Quote(v)));
  }

  /** The same text in a single read decodes to the delta. */
  lemma WholeFrameDecodes(d: string)
    ensures StreamCallbacks([FirstPart("type", "chunk") + SecondPart("delta", d)], Finished) == [OnDelta(d)]
  {
    FrameCut("type", "chunk", "delta", d);
    ChunkAction(d);
    OneFrameRead(Server.ChunkPayload(d), d);
  }

  // ---------------------------------------------------------------------------
  // A decoder that keeps the unterminated line
  // ---------------------------------------------------------------------------

  /** Reading as the event-stream format intends: the text after the last
      newline of a read is held back and put in front of the next read, so a
      line is decoded only once it is complete. The result is the progress
      and the text held back. */
  function BufferedFeed(p: Progress, pending: string, body: seq<string>): (Progress, string)
    decreases |body|
  {
    if body == [] then (p, pending)
    else
      var pieces := Split(pending + body[0], '\n');
      BufferedFeed(FeedLines(p, Init(pieces)), Last(pieces), body[1..])
  }

  /** The callbacks of the buffered decoder; an unterminated line left when
      the stream ends is dropped. */
  function BufferedStreamCallbacks(body: seq<string>, end: StreamEnd): seq<Callback> {
    var p := BufferedFeed(Start, "", body).0;
    if p.halted then p.out else p.out + EndCallbacks(end)
  }

  lemma {:induction false} FeedLinesAppend(p: Progress, a: seq<string>, b: seq<string>)
    ensures FeedLines(p, a + b) == FeedLines(FeedLines(p, a), b)
    decreases |a|
  {
    if a == [] {
      assert a + b == b;
    } else {
      assert (a + b)[0] == a[0] && (a + b)[1..] == a[1..] + b;
      FeedLinesAppend(FeedLine(p, a[0]), a[1..], b);
    }
  }

  /** The buffered decoder sees the complete lines of the text read so far,
      and holds back exactly its unterminated end. */
  lemma {:induction false} BufferedFeedText(p: Progress, pending: string, body: seq<string>)
    requires '\n' !in pending
    ensures BufferedFeed(p, pending, body)
         == (FeedLines(p, Init(Split(pending + Concat(body), '\n'))), Last(Split(pending + Concat(body), '\n')))
    decreases |body|
  {
    if body == [] {
      assert pending + Concat(body) == pending;
      SplitSingle(pending, '\n');
    } else {
      var pieces := Split(pending + body[0], '\n');
      var next := Last(pieces);
      assert '\n' !in next by {
        SplitPieces(pending + body[0], '\n');
        assert next == pieces[|pieces| - 1];
      }
      assert BufferedFeed(p, pending, body) == BufferedFeed(FeedLines(p, Init(pieces)), next, body[1..]);
      BufferedFeedText(FeedLines(p, Init(pieces)), next, body[1..]);
      ConcatFirst(pending, body);
      SplitConcat(pending + body[0], Concat(body[1..]), '\n');
      BufferedStep(p, pieces, Split(next + Concat(body[1..]), '\n'), Split(pending + Concat(body), '\n'));
    }
  }

  lemma BufferedStep(p: Progress, pieces: seq<string>, tail: seq<string>, whole: seq<string>)
    requires |pieces| >= 1 && |tail| >= 1
    requires whole == Init(pieces) + tail
    ensures FeedLines(FeedLines(p, Init(pieces)), Init(tail)) == FeedLines(p, Init(whole))
    ensures Last(tail) == Last(whole)
  {
    InitLastAppend(Init(pieces), tail);
    FeedLinesAppend(p, Init(pieces), Init(tail));
  }

  lemma {:induction false} BufferedFeedOk(p: Progress, pending: string, body: seq<string>)
    requires ProgressOk(p)
    ensures ProgressOk(BufferedFeed(p, pending, body).0)
    decreases |body|
  {
    if body != [] {
      var pieces := Split(pending + body[0], '\n');
      FeedLinesOk(p, Init(pieces));
      BufferedFeedOk(FeedLines(p, Init(pieces)), Last(pieces), body[1..]);
    }
  }

  /** The buffered decoder also fires deltas and then at most one terminal
      callback, as the last one. */
  lemma BufferedWellFormed(body: seq<string>, end: StreamEnd)
    ensures WellFormed(BufferedStreamCallbacks(body, end))
  {
    BufferedFeedOk(Start, "", body);
    var p := BufferedFeed(Start, "", body).0;
    if !p.halted {
      var t := p.out + EndCallbacks(end);
      assert forall i :: 0 <= i < |t| - 1 ==> t[i] == p.out[i];
    }
  }

  /** With buffering, how the text is cut into reads does not matter. */
  lemma BufferedReadsIrrelevant(a: seq<string>, b: seq<string>, end: StreamEnd)
    requires Concat(a) == Concat(b)
    ensures BufferedStreamCallbacks(a, end) == BufferedStreamCallbacks(b, end)
  {
    BufferedFeedText(Start, "", a);
    BufferedFeedText(Start, "", b);
  }

  /** Buffered decoding of the relay's frames, cut into reads anywhere. */
  lemma BufferedWire(ps: seq<Json>, body: seq<string>)
    requires Concat(body) == Server.Wire(ps)
    ensures BufferedFeed(Start, "", body).0 == FeedPayloads(Start, ps)
  {
    BufferedFeedStart(body);
    WireLastEmpty(ps);
    DropFinalBlank(Start, Split(Server.Wire(ps), '\n'));
    FeedWire(Start, ps);
  }

  /** From the start, the buffered decoder sees the complete lines of the text. */
  lemma BufferedFeedStart(body: seq<string>)
    ensures BufferedFeed(Start, "", body).0 == FeedLines(Start, Init(Split(Concat(body), '\n')))
  {
    BufferedFeedText(Start, "", body);
    assert "" + Concat(body) == Concat(body);
  }

  /** A final empty piece is a blank line, which changes nothing. */
  lemma DropFinalBlank(p: Progress, lines: seq<string>)
    requires |lines| >= 1 && Last(lines) == ""
    ensures FeedLines(p, Init(lines)) == FeedLines(p, lines)
  {
    assert Init(lines) + [""] == lines;
    FeedLinesAppend(p, Init(lines), [""]);
    var q := FeedLines(p, Init(lines));
    assert FeedLines(q, [""]) == FeedLine(q, "") by {
      assert [""][1..] == [];
    }
    BlankLineSkipped(q);
  }

  /** End to end with buffering: a completed relay run, however its text is
      cut into reads, gives each delta and then `onDone`. */
  lemma BufferedCompletedAnswer(ds: seq<string>, body: seq<string>, end: StreamEnd)
    requires Concat(body) == Server.Wire(Server.Run(Server.Opened, Server.Deltas(ds) + [Server.TextCompleted]).sent)
    ensures BufferedStreamCallbacks(body, end) == OnDeltas(ds) + [OnDone(Server.DonePayload)]
  {
    BufferedWire(Server.Run(Server.Opened, Server.Deltas(ds) + [Server.TextCompleted]).sent, body);
    CompletedPayloads(ds);
  }

  lemma ConcatPair(x: string, y: string)
    ensures Concat([x, y]) == x + y
  {
    assert [x, y][0] == x && [x, y][1..] == [y];
    assert [y][0] == y && [y][1..] == [];
    assert Concat([y]) == y + Concat([]) == y;
  }

  /** One frame whose event emits a delta, cut into reads anywhere. */
  lemma BufferedOneFrame(c: Json, text: string, body: seq<string>)
    requires Concat(body) == Server.SseFrame(c) && EventAction(c) == Emit(text)
    ensures BufferedStreamCallbacks(body, Finished) == [OnDelta(text)]
  {
    WireOne(c);
    BufferedWire([c], body);
    FeedPayloadsOne(Start, c);
    DataLineDecoded(c);
    EmittingLine(Start, DataLine(c), text);
    assert [OnDelta(text)] + [] == [OnDelta(text)];
  }

  /** The frame cut in two that the unbuffered decoder rejects gives its delta. */
  lemma BufferedSplitFrame(d: string)
    ensures BufferedStreamCallbacks([FirstPart("type", "chunk"), SecondPart("delta", d)], Finished) == [OnDelta(d)]
  {
    var body := [FirstPart("type", "chunk"), SecondPart("delta", d)];
    FrameCut("type", "chunk", "delta", d);
    ConcatPair(body[0], body[1]);
    ChunkAction(d);
    BufferedOneFrame(Server.ChunkPayload(d), d, body);
  }

  // ---------------------------------------------------------------------------
  // The decoding loop and the request
  // ---------------------------------------------------------------------------

  lemma FeedLinesAt(p: Progress, lines: seq<string>, j: nat)
    requires j < |lines|
    ensures FeedLines(p, lines[j..]) == FeedLines(Apply(p, DecodeLine(lines[j])), lines[j + 1..])
  {
    assert lines[j..][0] == lines[j] && lines[j..][1..] == lines[j + 1..];
  }

  lemma FeedReadsAt(p: Progress, body: seq<string>, k: nat)
    requires k < |body|
    ensures FeedReads(p, body[k..]) == FeedReads(FeedLines(p, Split(body[k], '\n')), body[k + 1..])
  {
    assert body[k..][0] == body[k] && body[k..][1..] == body[k + 1..];
  }

  /** The `for` over the lines of one read: stops at `done` or at the first
      failure. */
  method DecodeLines(before: seq<Callback>, lines: seq<string>) returns (out: seq<Callback>, halted: bool)
    ensures Progress(out, halted) == FeedLines(Progress(before, false), lines)
  {
    out := before;
    var j := 0;
    while j < |lines|
      invariant 0 <= j <= |lines|
      invariant FeedLines(Progress(out, false), lines[j..]) == FeedLines(Progress(before, false), lines)
    {
      var action := DecodeLine(lines[j]);
      FeedLinesAt(Progress(out, false), lines, j);
      j := j + 1;
      match action
      case Skip =>
      case Emit(t) =>
        out := out + [OnDelta(t)];
      case Finish(evt) =>
        out := out + [OnDone(evt)];
        FeedLinesHalted(Progress(out, true), lines[j..]);
        return out, true;
      case Fail(f) =>
        // `JSON.parse` or the `type` lookup throws: `onError`, then return.
        out := out + [OnError(f)];
        FeedLinesHalted(Progress(out, true), lines[j..]);
        return out, true;
    }
    assert lines[j..] == [];
    halted := false;
  }

  /** The `while (!done)` read loop: each read is split on its own. */
  method DecodeStream(body: seq<string>, end: StreamEnd) returns (out: seq<Callback>)
    ensures out == StreamCallbacks(body, end)
  {
    out := [];
    var k := 0;
    while k < |body|
      invariant 0 <= k <= |body|
      invariant FeedReads(Progress(out, false), body[k..]) == FeedReads(Start, body)
    {
      FeedReadsAt(Progress(out, false), body, k);
      var halted;
      out, halted := DecodeLines(out, Split(body[k], '\n'));
      k := k + 1;
      if halted {
        FeedReadsHalted(Progress(out, true), body[k..]);
        return;
      }
    }
    // `reader.read()` resolves with `done: true` or rejects.
    assert body[k..] == [];
    out := out + EndCallbacks(end);
  }

  lemma {:induction false} BufferedFeedHalted(p: Progress, pending: string, body: seq<string>)
    requires p.halted
    ensures BufferedFeed(p, pending, body).0 == p
    decreases |body|
  {
    if body != [] {
      var pieces := Split(pending + body[0], '\n');
      FeedLinesHalted(p, Init(pieces));
      BufferedFeedHalted(p, Last(pieces), body[1..]);
    }
  }

  lemma BufferedFeedAt(p: Progress, pending: string, body: seq<string>, k: nat)
    requires k < |body|
    ensures BufferedFeed(p, pending, body[k..])
         == BufferedFeed(FeedLines(p, Init(Split(pending + body[k], '\n'))), Last(Split(pending + body[k], '\n')), body[k + 1..])
  {
    assert body[k..][0] == body[k] && body[k..][1..] == body[k + 1..];
  }

  /** The read loop with a carry-over buffer: each read is appended to the
      held-back text, the complete lines are decoded, and the rest is kept. */
  method DecodeStreamBuffered(body: seq<string>, end: StreamEnd) returns (out: seq<Callback>)
    ensures out == BufferedStreamCallbacks(body, end)
  {
    out := [];
    var pending := "";
    var k := 0;
    while k < |body|
      invariant 0 <= k <= |body|
      invariant BufferedFeed(Progress(out, false), pending, body[k..]).0 == BufferedFeed(Start, "", body).0
    {
      var pieces := Split(pending + body[k], '\n');
      BufferedFeedAt(Progress(out, false), pending, body, k);
      var halted;
      out, halted := DecodeLines(out, Init(pieces));
      pending := Last(pieces);
      k := k + 1;
      if halted {
        BufferedFeedHalted(Progress(out, true), pending, body[k..]);
        return;
      }
    }
    assert body[k..] == [];
    out := out + EndCallbacks(end);
  }

  /** The page-wide request state: whether `abortCtrl` holds a controller,
      the number of `abort()` calls made, and `window.__streaming`'s message id. */
  class Session {
    var abortCtrl: bool
    var aborts: nat
    var streaming: Option<string>

    constructor ()
      ensures !abortCtrl && aborts == 0 && streaming == None
    {
      abortCtrl, aborts, streaming := false, 0, None;
    }

    /** `stopGeneration`: abort the request in flight, if any, and forget it. */
    method StopGeneration()
      modifies this
      ensures !abortCtrl
      ensures aborts == old(aborts) + (if old(abortCtrl) then 1 else 0)
      ensures streaming == old(streaming)
    {
      if abortCtrl {
        aborts := aborts + 1;
        abortCtrl := false;
      }
    }

    /** `window.__streaming = { msgId: botMsg.id }` of the submit handler,
        before it calls `askBackend`. */
    method MarkStreaming(msgId: string)
      modifies this
      ensures streaming == Some(msgId)
      ensures abortCtrl == old(abortCtrl) && aborts == old(aborts)
    {
      streaming := Some(msgId);
    }

    /** `askBackend` for one fetch outcome: fires the callbacks and, in its
        `finally`, clears the controller and the streaming marker. */
    method AskBackend(f: FetchResult) returns (trace: seq<Callback>)
      modifies this
      ensures trace == AskCallbacks(f)
      ensures !abortCtrl && streaming == None && aborts == old(aborts)
    {
      abortCtrl := true;
      match f {
        case FetchAborted =>
          trace := [];
        case FetchFailed =>
          trace := [OnError(NetworkError)];
        case Response(status, ctype, body, end) =>
          if !IsOk(status) {
            trace := [OnError(HttpStatus(status))];
          } else {
            var contentType := if ctype.Some? then ctype.value else "";
            if Includes(contentType, "text/event-stream") {
              trace := DecodeStream(body, end);
            } else {
              trace := FallbackCallbacks(body, end);
            }
          }
      }
      abortCtrl := false;
      streaming := None;
    }
  }

  /** The content type the relay sends selects the event-stream branch. */
  lemma RelaySelectsStream()
    ensures Includes(Server.SseHeaders[0].1, "text/event-stream")
  {
    assert StartsWith(Server.SseHeaders[0].1, "text/event-stream");
  }
}
