/** The page's in-memory transcript (script.js): the conversations, the
    active one, and the updates the page makes to them when a message is
    sent, when the answer streams in, and when a dialog is cleared or
    imported; with the regenerate lookup and the link rewrite of rendered
    answers. */
module Store {
  import opened Text
  import opened Json
  import Server
  import Client

  // ---------------------------------------------------------------------------
  // The state
  // ---------------------------------------------------------------------------

  /** A stored message. `extra` holds the fields spread in or attached later:
      the user message's `meta`, the bot message's `quiz` and `sources`. */
  datatype Message = Message(id: string, role: string, content: string, createdAt: string, extra: map<string, Json>)

  datatype Conversation = Conversation(id: string, title: string, createdAt: string, messages: seq<Message>)

  /** The fields of the page's `state` object the store reads and writes. */
  datatype AppState = AppState(
    conversations: seq<Conversation>,
    activeId: Option<string>,
    subject: string,
    grade: string,
    explainLevel: string,
    autoQuiz: bool)

  /** `keys.findIndex(k => k === key)`, with `None` for -1. */
  function Position(keys: seq<string>, key: string): (r: Option<nat>)
    ensures r.Some? ==> r.value < |keys| && keys[r.value] == key && key !in keys[..r.value]
    ensures r.None? ==> key !in keys
  {
    if keys == [] then None
    else if keys[0] == key then Some(0)
    else match Position(keys[1..], key)
      case None => None
      case Some(i) =>
        assert keys[..i + 1] == [keys[0]] + keys[1..][..i];
        Some(i + 1)
  }

  function ConversationIds(cs: seq<Conversation>): (r: seq<string>)
    ensures |r| == |cs| && forall i :: 0 <= i < |cs| ==> r[i] == cs[i].id
  {
    seq(|cs|, i requires 0 <= i < |cs| => cs[i].id)
  }

  /** The same projection as `ConversationIds`, over the messages of one
      conversation: Dafny has no common field over the two record types. */
  function MessageIds(ms: seq<Message>): (r: seq<string>)
    ensures |r| == |ms| && forall i :: 0 <= i < |ms| ==> r[i] == ms[i].id
  {
    seq(|ms|, i requires 0 <= i < |ms| => ms[i].id)
  }

  /** `activeConversation()`: the position of the first conversation whose id
      is `activeId`, or `None` for `null`. */
  function ActiveIndex(s: AppState): (r: Option<nat>)
    ensures r.Some? ==> r.value < |s.conversations| && s.activeId == Some(s.conversations[r.value].id)
    ensures r.Some? ==> s.activeId.value !in ConversationIds(s.conversations)[..r.value]
    ensures r.None? <==> s.activeId.None? || s.activeId.value !in ConversationIds(s.conversations)
  {
    if s.activeId.None? then None else Position(ConversationIds(s.conversations), s.activeId.value)
  }

  /** `conversations[i] = c` for a conversation with the same id: which one is
      active does not change. */
  function WithConversation(s: AppState, i: nat, c: Conversation): (r: AppState)
    requires i < |s.conversations| && c.id == s.conversations[i].id
    ensures |r.conversations| == |s.conversations| && r.conversations[i] == c
    ensures forall j :: 0 <= j < |s.conversations| && j != i ==> r.conversations[j] == s.conversations[j]
    ensures r.(conversations := s.conversations) == s
    ensures ActiveIndex(r) == ActiveIndex(s)
  {
    var r := s.(conversations := s.conversations[i := c]);
    assert ConversationIds(r.conversations) == ConversationIds(s.conversations);
    r
  }

  // ---------------------------------------------------------------------------
  // Conversations
  // ---------------------------------------------------------------------------

  /** `'Диалог ' + new Date().toLocaleString()`; the clock reading is a parameter. */
  function DialogTitle(localTime: string): string {
    "Диалог " + localTime
  }

  /** `state.activeId && activeConversation()` is truthy. */
  predicate HasActive(s: AppState) {
    s.activeId.Some? && s.activeId.value != "" && ActiveIndex(s).Some?
  }

  /** `ensureConversation()`: unless a conversation is active, a new empty one
      is appended and made active. `id`, the local time and the ISO time stand
      for `uid()`, `toLocaleString()` and `nowISO()`. */
  function EnsureConversation(s: AppState, id: string, localTime: string, createdAt: string): (r: AppState)
    ensures ActiveIndex(r).Some?
    ensures HasActive(s) ==> r == s
    ensures !HasActive(s) ==> r == s.(conversations := s.conversations + [Conversation(id, DialogTitle(localTime), createdAt, [])],
                                      activeId := Some(id))
  {
    if HasActive(s) then s
    else
      var r := s.(conversations := s.conversations + [Conversation(id, DialogTitle(localTime), createdAt, [])],
                  activeId := Some(id));
      assert ConversationIds(r.conversations)[|s.conversations|] == id;
      r
  }

  /** A second call changes nothing, provided the first id was not empty (an
      empty `activeId` is falsy and makes the page create another dialog). */
  lemma EnsureConversationIdempotent(s: AppState, id: string, t: string, c: string, id2: string, t2: string, c2: string)
    requires id != ""
    ensures EnsureConversation(EnsureConversation(s, id, t, c), id2, t2, c2) == EnsureConversation(s, id, t, c)
  {
  }

  /** `clearDialog`: after the confirmation, the active conversation's
      messages are dropped; nothing else changes. */
  function ClearDialog(s: AppState, confirmed: bool): (r: AppState)
    ensures ActiveIndex(s).None? || !confirmed ==> r == s
    ensures ActiveIndex(s).Some? && confirmed ==>
      var i := ActiveIndex(s).value;
      r == WithConversation(s, i, s.conversations[i].(messages := []))
  {
    match ActiveIndex(s)
    case None => s
    case Some(i) => if confirmed then WithConversation(s, i, s.conversations[i].(messages := [])) else s
  }

  /** The import check `!conv?.id || !Array.isArray(conv?.messages)`, with the
      error message thrown when it fails. */
  function ImportError(conv: Json): (r: Option<string>)
    ensures r.None? <==> conv.JObj? && Truthy(Lookup(conv.members, "id"))
                         && Lookup(conv.members, "messages").Some? && Lookup(conv.members, "messages").value.JArr?
    ensures r.Some? ==> r.value == "Неверный формат"
  {
    if !Truthy(Get(conv, "id")) then Some("Неверный формат")
    else match Get(conv, "messages")
      case Some(JArr(_)) => None
      case _ => Some("Неверный формат")
  }

  /** The shape `JSON.stringify(conv)` gives a conversation. */
  function ConversationJson(c: Conversation, messages: seq<Json>): Json {
    JObj([Member("id", JStr(c.id)), Member("title", JStr(c.title)), Member("createdAt", JStr(c.createdAt)),
          Member("messages", JArr(messages))])
  }

  /** An exported conversation passes the import check when its id is not empty. */
  lemma ExportedAccepted(c: Conversation, messages: seq<Json>)
    requires c.id != ""
    ensures ImportError(ConversationJson(c, messages)) == None
  {
    var ms := ConversationJson(c, messages).members;
    assert Lookup(ms, "messages") == Some(JArr(messages));
    assert ms[..3][..2] == ms[..2] && ms[..2][..1] == ms[..1] && ms[..1][..0] == [];
    assert Lookup(ms[..1], "id") == Some(JStr(c.id));
    assert Lookup(ms[..2], "id") == Lookup(ms[..1], "id");
    assert Lookup(ms[..3], "id") == Lookup(ms[..2], "id");
    assert Lookup(ms, "id") == Lookup(ms[..3], "id");
  }

  /** An object without an id, or without a messages array, is refused. */
  lemma ImportRefusals(messages: seq<Json>)
    ensures ImportError(JNull) == Some("Неверный формат")
    ensures ImportError(JObj([Member("messages", JArr(messages))])) == Some("Неверный формат")
    ensures ImportError(JObj([Member("id", JStr("x"))])) == Some("Неверный формат")
  {
    var a := [Member("messages", JArr(messages))];
    assert a[..0] == [];
    assert Lookup(a, "id") == None;
    var b := [Member("id", JStr("x"))];
    assert b[..0] == [];
    assert Lookup(b, "messages") == None;
  }

  /** After a conversation passed the check: `push(conv)`, `activeId = conv.id`.
      An imported id already present keeps the earlier conversation active. */
  function ImportConversation(s: AppState, c: Conversation): (r: AppState)
    ensures r.conversations == s.conversations + [c] && r.activeId == Some(c.id)
    ensures c.id !in ConversationIds(s.conversations) ==> ActiveIndex(r) == Some(|s.conversations|)
    ensures c.id in ConversationIds(s.conversations) ==> ActiveIndex(r) == Position(ConversationIds(s.conversations), c.id)
  {
    var r := s.(conversations := s.conversations + [c], activeId := Some(c.id));
    assert ConversationIds(r.conversations) == ConversationIds(s.conversations) + [c.id];
    PositionAppend(ConversationIds(s.conversations), c.id);
    r
  }

  lemma {:induction false} PositionAppend(keys: seq<string>, key: string)
    ensures key !in keys ==> Position(keys + [key], key) == Some(|keys|)
    ensures key in keys ==> Position(keys + [key], key) == Position(keys, key)
  {
    if keys != [] {
      assert (keys + [key])[1..] == keys[1..] + [key];
      PositionAppend(keys[1..], key);
    }
  }

  // ---------------------------------------------------------------------------
  // Messages
  // ---------------------------------------------------------------------------

  /** `addMessageToState(role, content, extra)`: the message is appended to the
      active conversation and returned; with no active conversation nothing
      changes and `null` is returned. `id` and `createdAt` stand for `uid()`
      and `nowISO()`; `extra` holds keys other than the four named fields. */
  function AddMessage(s: AppState, role: string, content: string, extra: map<string, Json>, id: string, createdAt: string)
    : (r: (AppState, Option<Message>))
    ensures ActiveIndex(s).None? ==> r == (s, None)
    ensures ActiveIndex(s).Some? ==>
      var i := ActiveIndex(s).value;
      var m := Message(id, role, content, createdAt, extra);
      && r.1 == Some(m)
      && |r.0.conversations| == |s.conversations|
      && r.0.conversations[i].messages == s.conversations[i].messages + [m]
      && r.0.conversations[i] == s.conversations[i].(messages := r.0.conversations[i].messages)
      && (forall j :: 0 <= j < |s.conversations| && j != i ==> r.0.conversations[j] == s.conversations[j])
      && r.0.(conversations := s.conversations) == s
      && ActiveIndex(r.0) == ActiveIndex(s)
  {
    match ActiveIndex(s)
    case None => (s, None)
    case Some(i) =>
      var c := s.conversations[i];
      var m := Message(id, role, content, createdAt, extra);
      (WithConversation(s, i, c.(messages := c.messages + [m])), Some(m))
  }

  /** The first message `conv2.messages.find(m => m.id === msgId)` of the
      active conversation, as positions; `None` where the handler reads a property of
      `null` or `undefined`. */
  function Locate(s: AppState, msgId: string): (r: Option<(nat, nat)>)
    ensures r.Some? ==> ActiveIndex(s) == Some(r.value.0) && r.value.1 < |s.conversations[r.value.0].messages|
                        && s.conversations[r.value.0].messages[r.value.1].id == msgId
    ensures r.Some? ==> forall l :: 0 <= l < r.value.1 ==> s.conversations[r.value.0].messages[l].id != msgId
    ensures r.None? <==> ActiveIndex(s).None? || msgId !in MessageIds(s.conversations[ActiveIndex(s).value].messages)
  {
    match ActiveIndex(s)
    case None => None
    case Some(i) =>
      match Position(MessageIds(s.conversations[i].messages), msgId)
      case None => None
      case Some(k) => Some((i, k))
  }

  /** Replacing one message by one with the same id: every other message and
      every other field stays, and the message is found at the same place. */
  function WithMessage(s: AppState, i: nat, k: nat, m: Message): (r: AppState)
    requires i < |s.conversations| && k < |s.conversations[i].messages|
    requires m.id == s.conversations[i].messages[k].id
    ensures |r.conversations| == |s.conversations|
    ensures |r.conversations[i].messages| == |s.conversations[i].messages| && r.conversations[i].messages[k] == m
    ensures forall l :: 0 <= l < |s.conversations[i].messages| && l != k ==>
              r.conversations[i].messages[l] == s.conversations[i].messages[l]
    ensures r.conversations[i] == s.conversations[i].(messages := r.conversations[i].messages)
    ensures forall j :: 0 <= j < |s.conversations| && j != i ==> r.conversations[j] == s.conversations[j]
    ensures r.(conversations := s.conversations) == s
    ensures ActiveIndex(r) == ActiveIndex(s)
  {
    var c := s.conversations[i];
    WithConversation(s, i, c.(messages := c.messages[k := m]))
  }

  /** Every message is still found where it was. */
  lemma WithMessageKeepsPlaces(s: AppState, i: nat, k: nat, m: Message, id: string)
    requires i < |s.conversations| && k < |s.conversations[i].messages|
    requires m.id == s.conversations[i].messages[k].id
    ensures Locate(WithMessage(s, i, k, m), id) == Locate(s, id)
  {
    var r := WithMessage(s, i, k, m);
    assert MessageIds(r.conversations[i].messages) == MessageIds(s.conversations[i].messages);
  }

  lemma WithMessageTwice(s: AppState, i: nat, k: nat, m1: Message, m2: Message)
    requires i < |s.conversations| && k < |s.conversations[i].messages|
    requires m1.id == s.conversations[i].messages[k].id && m2.id == m1.id
    ensures WithMessage(WithMessage(s, i, k, m1), i, k, m2) == WithMessage(s, i, k, m2)
  {
    var a := WithMessage(WithMessage(s, i, k, m1), i, k, m2);
    var b := WithMessage(s, i, k, m2);
    assert a.conversations[i].messages == b.conversations[i].messages;
    assert a.conversations == b.conversations;
  }

  /** `onDelta`: `t.content += delta` on the bot message; `None` where the
      message cannot be found and the handler throws. */
  function ApplyDelta(s: AppState, msgId: string, delta: string): (r: Option<AppState>)
    ensures r.None? <==> Locate(s, msgId).None?
    ensures r.Some? ==>
      var (i, k) := Locate(s, msgId).value;
      var m := s.conversations[i].messages[k];
      r.value == WithMessage(s, i, k, m.(content := m.content + delta))
  {
    match Locate(s, msgId)
    case None => None
    case Some((i, k)) =>
      var m := s.conversations[i].messages[k];
      Some(WithMessage(s, i, k, m.(content := m.content + delta)))
  }

  /** `onDelta` for each delta in turn. */
  function ApplyDeltas(s: AppState, msgId: string, ds: seq<string>): Option<AppState>
    decreases |ds|
  {
    if ds == [] then Some(s)
    else match ApplyDelta(s, msgId, ds[0])
      case None => None
      case Some(s') => ApplyDeltas(s', msgId, ds[1..])
  }

  /** The bot message's content grows by the concatenation of the deltas, in
      order; nothing else in the state changes. */
  lemma {:induction false} DeltasAccumulate(s: AppState, msgId: string, ds: seq<string>, i: nat, k: nat)
    requires Locate(s, msgId) == Some((i, k))
    ensures
      var m := s.conversations[i].messages[k];
      ApplyDeltas(s, msgId, ds) == Some(WithMessage(s, i, k, m.(content := m.content + Concat(ds))))
    decreases |ds|
  {
    var m := s.conversations[i].messages[k];
    if ds == [] {
      assert m.(content := m.content + Concat(ds)) == m;
      WithSameMessage(s, i, k);
    } else {
      var m1 := m.(content := m.content + ds[0]);
      var s1 := DeltaStep(s, msgId, ds, i, k);
      DeltasAccumulate(s1, msgId, ds[1..], i, k);
      var m2 := m1.(content := m1.content + Concat(ds[1..]));
      WithMessageTwice(s, i, k, m1, m2);
      ConcatFirst(m.content, ds);
    }
  }

  lemma WithSameMessage(s: AppState, i: nat, k: nat)
    requires i < |s.conversations| && k < |s.conversations[i].messages|
    ensures WithMessage(s, i, k, s.conversations[i].messages[k]) == s
  {
    var r := WithMessage(s, i, k, s.conversations[i].messages[k]);
    assert r.conversations[i].messages == s.conversations[i].messages;
    assert r.conversations == s.conversations;
  }

  /** The first delta applied: the state it gives, where the message stays. */
  lemma DeltaStep(s: AppState, msgId: string, ds: seq<string>, i: nat, k: nat) returns (s1: AppState)
    requires Locate(s, msgId) == Some((i, k)) && ds != []
    ensures
      var m := s.conversations[i].messages[k];
      && s1 == WithMessage(s, i, k, m.(content := m.content + ds[0]))
      && Locate(s1, msgId) == Some((i, k))
      && s1.conversations[i].messages[k] == m.(content := m.content + ds[0])
      && ApplyDeltas(s, msgId, ds) == ApplyDeltas(s1, msgId, ds[1..])
  {
    var m := s.conversations[i].messages[k];
    s1 := WithMessage(s, i, k, m.(content := m.content + ds[0]));
    WithMessageKeepsPlaces(s, i, k, m.(content := m.content + ds[0]), msgId);
  }

  /** The bot message starts empty (`addMessageToState('bot', '')`), so after
      the deltas its content is exactly their concatenation. */
  lemma BotMessageContent(s: AppState, msgId: string, ds: seq<string>)
    requires Locate(s, msgId).Some?
    requires s.conversations[Locate(s, msgId).value.0].messages[Locate(s, msgId).value.1].content == ""
    ensures
      var (i, k) := Locate(s, msgId).value;
      var m := s.conversations[i].messages[k];
      ApplyDeltas(s, msgId, ds) == Some(WithMessage(s, i, k, m.(content := Concat(ds))))
  {
    DeltasAccumulate(s, msgId, ds, Locate(s, msgId).value.0, Locate(s, msgId).value.1);
    assert "" + Concat(ds) == Concat(ds);
  }

  /** `onDone(final)`: `quiz` is attached when `final.quiz` is truthy and quiz
      mode is on, `sources` when `final.sources` is truthy; the message is
      otherwise left as it was. */
  function AttachFinal(m: Message, final: Json, autoQuiz: bool): (r: Message)
    ensures r.id == m.id && r.role == m.role && r.content == m.content && r.createdAt == m.createdAt
    ensures "quiz" in r.extra <==> "quiz" in m.extra || (Truthy(Get(final, "quiz")) && autoQuiz)
    ensures Truthy(Get(final, "quiz")) && autoQuiz ==> r.extra["quiz"] == Get(final, "quiz").value
    ensures !(Truthy(Get(final, "quiz")) && autoQuiz) && "quiz" in m.extra ==> r.extra["quiz"] == m.extra["quiz"]
    ensures "sources" in r.extra <==> "sources" in m.extra || Truthy(Get(final, "sources"))
    ensures Truthy(Get(final, "sources")) ==> r.extra["sources"] == Get(final, "sources").value
    ensures !Truthy(Get(final, "sources")) && "sources" in m.extra ==> r.extra["sources"] == m.extra["sources"]
    ensures forall key :: key in m.extra && key != "quiz" && key != "sources" ==> key in r.extra && r.extra[key] == m.extra[key]
    ensures forall key :: key in r.extra ==> key in m.extra || key == "quiz" || key == "sources"
  {
    var q := Get(final, "quiz");
    var src := Get(final, "sources");
    var e1 := if Truthy(q) && autoQuiz then m.extra["quiz" := q.value] else m.extra;
    var e2 := if Truthy(src) then e1["sources" := src.value] else e1;
    m.(extra := e2)
  }

  /** `onDone` applied to the bot message; `None` where it cannot be found. */
  function ApplyDone(s: AppState, msgId: string, final: Json): (r: Option<AppState>)
    ensures r.None? <==> Locate(s, msgId).None?
    ensures r.Some? ==>
      var (i, k) := Locate(s, msgId).value;
      r.value == WithMessage(s, i, k, AttachFinal(s.conversations[i].messages[k], final, s.autoQuiz))
  {
    match Locate(s, msgId)
    case None => None
    case Some((i, k)) => Some(WithMessage(s, i, k, AttachFinal(s.conversations[i].messages[k], final, s.autoQuiz)))
  }

  /** The relay's `done` payload attaches nothing. */
  lemma DoneAttachesNothing(m: Message, autoQuiz: bool)
    ensures AttachFinal(m, Server.DonePayload, autoQuiz) == m
  {
    var r := AttachFinal(m, Server.DonePayload, autoQuiz);
    assert r.extra == m.extra;
  }

  /** The text `onError` stores as a new bot message. */
  const FailureText := "Упс! Не удалось получить ответ от сервера. Попробуйте ещё раз."

  /** The store update of one callback of `askBackend` for the bot message
      `msgId`; `failId` and `now` stand for `uid()` and `nowISO()` of the
      failure message. */
  function ApplyCallback(s: AppState, msgId: string, cb: Client.Callback, failId: string, now: string): Option<AppState> {
    match cb
    case OnDelta(text) => ApplyDelta(s, msgId, text)
    case OnDone(final) => ApplyDone(s, msgId, final)
    case OnError(_) => Some(AddMessage(s, "bot", FailureText, map[], failId, now).0)
  }

  function ApplyTrace(s: AppState, msgId: string, trace: seq<Client.Callback>, failId: string, now: string): Option<AppState>
    decreases |trace|
  {
    if trace == [] then Some(s)
    else match ApplyCallback(s, msgId, trace[0], failId, now)
      case None => None
      case Some(s') => ApplyTrace(s', msgId, trace[1..], failId, now)
  }

  lemma {:induction false} TraceOfDeltas(s: AppState, msgId: string, ds: seq<string>, failId: string, now: string)
    ensures ApplyTrace(s, msgId, Client.OnDeltas(ds), failId, now) == ApplyDeltas(s, msgId, ds)
    decreases |ds|
  {
    if ds != [] {
      var t := Client.OnDeltas(ds);
      assert t[0] == Client.OnDelta(ds[0]) && t[1..] == Client.OnDeltas(ds[1..]);
      match ApplyDelta(s, msgId, ds[0])
      case None =>
      case Some(s1) => TraceOfDeltas(s1, msgId, ds[1..], failId, now);
    }
  }

  lemma {:induction false} ApplyTraceAppend(s: AppState, msgId: string, a: seq<Client.Callback>, b: seq<Client.Callback>, failId: string, now: string)
    ensures ApplyTrace(s, msgId, a + b, failId, now)
         == (match ApplyTrace(s, msgId, a, failId, now) case None => None case Some(s1) => ApplyTrace(s1, msgId, b, failId, now))
    decreases |a|
  {
    if a == [] {
      assert a + b == b;
    } else {
      assert (a + b)[0] == a[0] && (a + b)[1..] == a[1..] + b;
      match ApplyCallback(s, msgId, a[0], failId, now)
      case None =>
      case Some(s1) => ApplyTraceAppend(s1, msgId, a[1..], b, failId, now);
    }
  }

  /** End to end: when the callbacks of a completed answer reach the page, the
      bot message, which started empty, holds the provider's deltas joined in
      order, and nothing else in the state has changed. */
  lemma AnswerStored(s: AppState, msgId: string, ds: seq<string>, failId: string, now: string, i: nat, k: nat)
    requires Locate(s, msgId) == Some((i, k)) && s.conversations[i].messages[k].content == ""
    ensures
      var m := s.conversations[i].messages[k];
      ApplyTrace(s, msgId, Client.OnDeltas(ds) + [Client.OnDone(Server.DonePayload)], failId, now)
        == Some(WithMessage(s, i, k, m.(content := Concat(ds))))
  {
    var m := s.conversations[i].messages[k];
    var m1 := m.(content := Concat(ds));
    ApplyTraceAppend(s, msgId, Client.OnDeltas(ds), [Client.OnDone(Server.DonePayload)], failId, now);
    TraceOfDeltas(s, msgId, ds, failId, now);
    BotMessageContent(s, msgId, ds);
    var s1 := WithMessage(s, i, k, m1);
    WithMessageKeepsPlaces(s, i, k, m1, msgId);
    DoneAttachesNothing(m1, s1.autoQuiz);
    assert ApplyDone(s1, msgId, Server.DonePayload) == Some(WithMessage(s1, i, k, m1));
    WithMessageTwice(s, i, k, m1, m1);
    assert [Client.OnDone(Server.DonePayload)][1..] == [];
  }

  /** End to end, failing request: the deltas that arrived stay in the bot
      message, and `onError` appends the failure text as a new bot message at
      the end of the active conversation. */
  lemma ErrorStored(s: AppState, msgId: string, ds: seq<string>, f: Client.Failure, failId: string, now: string, i: nat, k: nat)
    requires Locate(s, msgId) == Some((i, k))
    ensures
      var m := s.conversations[i].messages[k];
      var s1 := WithMessage(s, i, k, m.(content := m.content + Concat(ds)));
      ApplyTrace(s, msgId, Client.OnDeltas(ds) + [Client.OnError(f)], failId, now)
        == Some(AddMessage(s1, "bot", FailureText, map[], failId, now).0)
  {
    ApplyTraceAppend(s, msgId, Client.OnDeltas(ds), [Client.OnError(f)], failId, now);
    TraceOfDeltas(s, msgId, ds, failId, now);
    DeltasAccumulate(s, msgId, ds, i, k);
    assert [Client.OnError(f)][1..] == [];
  }

  // ---------------------------------------------------------------------------
  // Regenerating an answer
  // ---------------------------------------------------------------------------

  /** `[...ms].reverse().find(m => m.role === 'user')`: the last user message. */
  function LastUser(ms: seq<Message>): (r: Option<nat>)
    ensures r.Some? ==> r.value < |ms| && ms[r.value].role == "user"
                        && forall j :: r.value < j < |ms| ==> ms[j].role != "user"
    ensures r.None? ==> forall j :: 0 <= j < |ms| ==> ms[j].role != "user"
  {
    if ms == [] then None
    else if ms[|ms| - 1].role == "user" then Some(|ms| - 1)
    else LastUser(ms[..|ms| - 1])
  }

  /** `slice(0, end)` reads a negative end from the back of the array. */
  function SliceEnd(n: nat, end: int): (r: nat)
    ensures r <= n
    ensures 0 <= end <= n ==> r == end
    ensures end < 0 && n + end >= 0 ==> r == n + end
  {
    if end >= 0 then (if end <= n then end else n)
    else if n + end >= 0 then n + end else 0
  }

  /** The content of the last user message before position `cut`. */
  function PrevUserContent(ms: seq<Message>, cut: nat): (r: Option<string>)
    requires cut <= |ms|
    ensures r.Some? ==> exists j :: 0 <= j < cut && ms[j].role == "user" && ms[j].content == r.value
                                      && forall l :: j < l < cut ==> ms[l].role != "user"
    ensures r.None? ==> forall j :: 0 <= j < cut ==> ms[j].role != "user"
  {
    match LastUser(ms[..cut])
    case None => None
    case Some(j) => Some(ms[j].content)
  }

  /** The regenerate button of message `msgId`: the text resubmitted, taken
      from the nearest earlier user message; `None` when nothing is sent. */
  function RegenerateQuestion(s: AppState, msgId: string): (r: Option<string>)
    ensures ActiveIndex(s).None? ==> r == None
    ensures Locate(s, msgId).Some? ==>
      var (i, k) := Locate(s, msgId).value;
      r == PrevUserContent(s.conversations[i].messages, k)
    ensures ActiveIndex(s).Some? && Locate(s, msgId).None? ==>
      var ms := s.conversations[ActiveIndex(s).value].messages;
      r == PrevUserContent(ms, if |ms| == 0 then 0 else |ms| - 1)
  {
    match ActiveIndex(s)
    case None => None
    case Some(i) =>
      var ms := s.conversations[i].messages;
      var idx := match Position(MessageIds(ms), msgId) case None => -1 case Some(k) => k;
      PrevUserContent(ms, SliceEnd(|ms|, idx))
  }

  // ---------------------------------------------------------------------------
  // Sending a question
  // ---------------------------------------------------------------------------

  /** The `meta` spread into the user message. */
  function Meta(s: AppState): map<string, Json> {
    map["meta" := JObj([Member("subject", JStr(s.subject)), Member("grade", JStr(s.grade)),
                        Member("explainLevel", JStr(s.explainLevel))])]
  }

  /** `messages.map(({ role, content }) => ({ role, content }))` */
  function HistoryEntries(ms: seq<Message>): (r: seq<Server.HistoryEntry>)
    ensures |r| == |ms|
    ensures forall j :: 0 <= j < |ms| ==> r[j] == Server.HistoryEntry(Some(ms[j].role), Some(ms[j].content))
  {
    seq(|ms|, j requires 0 <= j < |ms| => Server.HistoryEntry(Some(ms[j].role), Some(ms[j].content)))
  }

  /** The fields of the request body the server reads (`settings.explainLevel`
      is the style). */
  function Request(s: AppState, text: string, history: seq<Server.HistoryEntry>): Server.AnswerRequest {
    Server.AnswerRequest(Some(text), Some(s.subject), Some(s.grade), Some(s.explainLevel), Some(history))
  }

  /** The submit handler as written: `history` is read from `conv` after the
      user message was pushed into it, so it already ends with the question.
      With no active conversation the handler throws before sending. */
  function SubmitAsWritten(s: AppState, input: string, userId: string, botId: string, now: string)
    : (r: (AppState, Option<Server.AnswerRequest>))
    ensures r.1.Some? <==> Trim(input) != "" && ActiveIndex(s).Some?
    ensures r.1.None? ==> r.0 == s
  {
    var text := Trim(input);
    if text == "" then (s, None)
    else match ActiveIndex(s)
      case None => (s, None)
      case Some(i) =>
        var s1 := AddMessage(s, "user", text, Meta(s), userId, now).0;
        var history := HistoryEntries(s1.conversations[i].messages);
        (AddMessage(s1, "bot", "", map[], botId, now).0, Some(Request(s, text, history)))
  }

  /** As written, the active conversation gains the question and an empty bot
      message, and the history sent already ends with the question. */
  lemma SubmitAsWrittenSends(s: AppState, input: string, userId: string, botId: string, now: string)
    requires Trim(input) != "" && ActiveIndex(s).Some?
    ensures
      var r := SubmitAsWritten(s, input, userId, botId, now);
      var i := ActiveIndex(s).value;
      var question := Message(userId, "user", Trim(input), now, Meta(s));
      && r.1.Some? && |r.0.conversations| == |s.conversations|
      && r.0.conversations[i].messages == s.conversations[i].messages + [question, Message(botId, "bot", "", now, map[])]
      && r.1.value == Request(s, Trim(input), HistoryEntries(s.conversations[i].messages + [question]))
  {
    var i := ActiveIndex(s).value;
    var question := Message(userId, "user", Trim(input), now, Meta(s));
    var s1 := AddMessage(s, "user", Trim(input), Meta(s), userId, now).0;
    assert ActiveIndex(s1) == Some(i) && |s1.conversations| == |s.conversations|;
    assert s1.conversations[i].messages == s.conversations[i].messages + [question];
    var s2 := AddMessage(s1, "bot", "", map[], botId, now).0;
    assert s2.conversations[i].messages == s1.conversations[i].messages + [Message(botId, "bot", "", now, map[])];
    assert SubmitAsWritten(s, input, userId, botId, now) == (s2, Some(Request(s, Trim(input), HistoryEntries(s1.conversations[i].messages))));
  }

  /** The submit handler with `history` read before the user message is
      added: the earlier messages only. */
  function Submit(s: AppState, input: string, userId: string, botId: string, now: string)
    : (r: (AppState, Option<Server.AnswerRequest>))
    ensures r.1.Some? <==> Trim(input) != "" && ActiveIndex(s).Some?
    ensures r.0 == SubmitAsWritten(s, input, userId, botId, now).0
  {
    var text := Trim(input);
    if text == "" then (s, None)
    else match ActiveIndex(s)
      case None => (s, None)
      case Some(i) =>
        var history := HistoryEntries(s.conversations[i].messages);
        var s1 := AddMessage(s, "user", text, Meta(s), userId, now).0;
        (AddMessage(s1, "bot", "", map[], botId, now).0, Some(Request(s, text, history)))
  }

  /** As written, the model receives the question twice in a row: once as the
      last stored message and once more appended by the server. */
  lemma QuestionSentTwice(s: AppState, input: string, userId: string, botId: string, now: string)
    requires Trim(input) != "" && ActiveIndex(s).Some?
    ensures SubmitAsWritten(s, input, userId, botId, now).1.Some?
    ensures
      var req := SubmitAsWritten(s, input, userId, botId, now).1.value;
      var turns := Server.ModelInput(req.history, Trim(input));
      |turns| >= 2 && turns[|turns| - 2] == turns[|turns| - 1] == Server.Turn("user", Trim(input))
  {
    var text := Trim(input);
    var i := ActiveIndex(s).value;
    var s1 := AddMessage(s, "user", text, Meta(s), userId, now).0;
    var ms := s1.conversations[i].messages;
    var h := HistoryEntries(ms);
    assert ms[|ms| - 1] == Message(userId, "user", text, now, Meta(s));
    assert h[|h| - 1] == Server.HistoryEntry(Some("user"), Some(text));
    var turns := Server.ModelInput(Some(h), text);
    assert turns[..|turns| - 1] == Server.MapHistory(h);
    assert turns[|turns| - 2] == Server.MapHistory(h)[|h| - 1];
  }

  /** Corrected: the model input is the earlier messages, mapped, followed by
      the question exactly once; the server accepts the request. */
  lemma QuestionSentOnce(s: AppState, input: string, userId: string, botId: string, now: string)
    requires Trim(input) != "" && ActiveIndex(s).Some?
    ensures Submit(s, input, userId, botId, now).1.Some?
    ensures
      var req := Submit(s, input, userId, botId, now).1.value;
      && Server.Validate(req) == Server.Accepted(Trim(input))
      && Server.ModelInput(req.history, Trim(input))
         == Server.MapHistory(HistoryEntries(s.conversations[ActiveIndex(s).value].messages))
            + [Server.Turn("user", Trim(input))]
  {
    var text := Trim(input);
    var h := HistoryEntries(s.conversations[ActiveIndex(s).value].messages);
    SubmitSends(s, input, userId, botId, now);
    RequestAccepted(s, text, h);
  }

  lemma SubmitSends(s: AppState, input: string, userId: string, botId: string, now: string)
    requires Trim(input) != "" && ActiveIndex(s).Some?
    ensures Submit(s, input, userId, botId, now).1
            == Some(Request(s, Trim(input), HistoryEntries(s.conversations[ActiveIndex(s).value].messages)))
  {
  }

  lemma RequestAccepted(s: AppState, text: string, h: seq<Server.HistoryEntry>)
    requires text != ""
    ensures Server.Validate(Request(s, text, h)) == Server.Accepted(text)
    ensures Server.ModelInput(Request(s, text, h).history, text) == Server.MapHistory(h) + [Server.Turn("user", text)]
  {
  }

  // ---------------------------------------------------------------------------
  // Rendering
  // ---------------------------------------------------------------------------

  const LinkTag := "<a "
  const LinkAttributes := "rel=\"noopener noreferrer\" target=\"_blank\" "
  const LinkTagWithTargets := LinkTag + LinkAttributes

  /** `raw.replaceAll('<a ', '<a rel="noopener noreferrer" target="_blank" ')` */
  function RewriteLinks(raw: string): string {
    ReplaceAll(raw, LinkTag, LinkTagWithTargets)
  }

  /** The length grows by the two attributes once per link opening tag;
      text without a link tag is returned as it was. */
  lemma RewriteLinksEffect(raw: string)
    ensures |RewriteLinks(raw)| == |raw| + Occurrences(raw, LinkTag) * (|LinkTagWithTargets| - |LinkTag|)
    ensures (forall i :: 0 <= i < |raw| ==> !StartsWith(raw[i..], LinkTag)) ==> RewriteLinks(raw) == raw
  {
    ReplaceAllLength(raw, LinkTag, LinkTagWithTargets);
    if forall i :: 0 <= i < |raw| ==> !StartsWith(raw[i..], LinkTag) {
      ReplaceAllAbsent(raw, LinkTag, LinkTagWithTargets);
    }
  }

  /** After its `<`, the replacement holds no `<`: no link tag starts inside it. */
  lemma TargetsHoldNoTag()
    ensures LinkTagWithTargets[..3] == LinkTag
    ensures forall j :: 1 <= j < |LinkTagWithTargets| ==> LinkTagWithTargets[j] != '<'
  {
    assert LinkTagWithTargets[1] == 'a' && LinkTagWithTargets[2] == ' ';
    forall j | 3 <= j < |LinkTagWithTargets| ensures LinkTagWithTargets[j] != '<' {
      assert LinkTagWithTargets[j] == LinkAttributes[j - 3];
    }
  }

  /** The rewrite keeps the first character, since the replacement begins
      with the `<` of the tag it replaces. */
  lemma RewriteFirst(x: string)
    requires x != []
    ensures RewriteLinks(x) != [] && RewriteLinks(x)[0] == x[0]
  {
    if StartsWith(x, LinkTag) {
      assert x[0] == x[..3][0] == LinkTag[0] == '<';
      assert LinkTagWithTargets[0] == '<';
    }
  }

  /** The rewritten text opens with a link tag exactly when the text did. */
  lemma RewriteOpensLink(s: string)
    ensures StartsWith(RewriteLinks(s), LinkTag) <==> StartsWith(s, LinkTag)
  {
    var r := RewriteLinks(s);
    if StartsWith(s, LinkTag) {
      assert r == LinkTagWithTargets + RewriteLinks(s[3..]);
      assert r[..3] == LinkTagWithTargets[..3];
    } else if s != [] {
      var s1 := s[1..];
      assert r == [s[0]] + RewriteLinks(s1);
      if s1 != [] {
        RewriteFirst(s1);
        assert LinkTag[1] == 'a' && LinkTag[2] == ' ';
        if |r| >= 3 {
          assert r[..3][1] == s1[0];
        }
        if s1[0] == 'a' {
          var s2 := s1[1..];
          assert RewriteLinks(s1) == [s1[0]] + RewriteLinks(s2);
          if s2 != [] {
            RewriteFirst(s2);
            assert s[..3] == [s[0], s1[0], s2[0]];
            assert r[..3] == [s[0], s1[0], s2[0]];
          }
        }
      }
    }
  }

  /** Every link opening tag of the rewritten text carries
      `rel="noopener noreferrer" target="_blank"`. */
  lemma {:induction false} RewriteLinksTargets(raw: string)
    ensures forall i :: 0 <= i <= |RewriteLinks(raw)| ==>
              (StartsWith(RewriteLinks(raw)[i..], LinkTag) ==> StartsWith(RewriteLinks(raw)[i..], LinkTagWithTargets))
    decreases |raw|
  {
    var r := RewriteLinks(raw);
    var n := |LinkTagWithTargets|;
    if raw != [] {
      if StartsWith(raw, LinkTag) {
        var tail := RewriteLinks(raw[3..]);
        RewriteLinksTargets(raw[3..]);
        TargetsHoldNoTag();
        assert r == LinkTagWithTargets + tail;
        forall i | 0 <= i <= |r|
          ensures StartsWith(r[i..], LinkTag) ==> StartsWith(r[i..], LinkTagWithTargets)
        {
          if i == 0 {
            assert r[..n] == LinkTagWithTargets;
          } else if i < n {
            assert r[i] == LinkTagWithTargets[i];
            assert |r[i..]| >= 3 ==> r[i..][..3][0] == r[i];
          } else {
            assert r[i..] == tail[i - n..];
          }
        }
      } else {
        var tail := RewriteLinks(raw[1..]);
        RewriteLinksTargets(raw[1..]);
        RewriteOpensLink(raw);
        assert r == [raw[0]] + tail;
        forall i | 0 <= i <= |r|
          ensures StartsWith(r[i..], LinkTag) ==> StartsWith(r[i..], LinkTagWithTargets)
        {
          if i > 0 {
            assert r[i..] == tail[i - 1..];
          } else {
            assert r[i..] == r;
          }
        }
      }
    }
  }

  /** Removing the two attributes again gives back the original text. */
  lemma {:induction false} RewriteLinksUndone(raw: string)
    ensures ReplaceAll(RewriteLinks(raw), LinkTagWithTargets, LinkTag) == raw
    decreases |raw|
  {
    if raw != [] {
      var r := RewriteLinks(raw);
      var n := |LinkTagWithTargets|;
      if StartsWith(raw, LinkTag) {
        var tail := RewriteLinks(raw[3..]);
        RewriteLinksUndone(raw[3..]);
        assert r == LinkTagWithTargets + tail;
        assert r[..n] == LinkTagWithTargets && r[n..] == tail;
        assert raw == LinkTag + raw[3..];
      } else {
        var tail := RewriteLinks(raw[1..]);
        RewriteLinksUndone(raw[1..]);
        RewriteOpensLink(raw);
        assert r == [raw[0]] + tail;
        if |r| >= n {
          TargetsHoldNoTag();
          assert r[..n][..3] == r[..3];
        }
        assert r[1..] == tail;
        assert raw == [raw[0]] + raw[1..];
      }
    }
  }

  // ---------------------------------------------------------------------------
  // The page's state object
  // ---------------------------------------------------------------------------

  /** The mutable `state` object; each handler updates it in place. */
  class PageState {
    var conversations: seq<Conversation>
    var activeId: Option<string>
    var subject: string
    var grade: string
    var explainLevel: string
    var autoQuiz: bool

    function State(): AppState
      reads this
    {
      AppState(conversations, activeId, subject, grade, explainLevel, autoQuiz)
    }

    /** The initial `state`, before anything is loaded. */
    constructor (subject0: string, grade0: string, explainLevel0: string)
      ensures State() == AppState([], None, subject0, grade0, explainLevel0, true)
    {
      conversations, activeId := [], None;
      subject, grade, explainLevel, autoQuiz := subject0, grade0, explainLevel0, true;
    }

    method EnsureActive(id: string, localTime: string, createdAt: string)
      modifies this
      ensures State() == EnsureConversation(old(State()), id, localTime, createdAt)
    {
      if !HasActive(State()) {
        conversations := conversations + [Conversation(id, DialogTitle(localTime), createdAt, [])];
        activeId := Some(id);
      }
    }

    method AddMessageToState(role: string, content: string, extra: map<string, Json>, id: string, createdAt: string)
      returns (msg: Option<Message>)
      modifies this
      ensures (State(), msg) == AddMessage(old(State()), role, content, extra, id, createdAt)
    {
      var i := ActiveIndex(State());
      if i.None? {
        return None;
      }
      var c := conversations[i.value];
      var m := Message(id, role, content, createdAt, extra);
      conversations := conversations[i.value := c.(messages := c.messages + [m])];
      msg := Some(m);
    }

    method ClearActive(confirmed: bool)
      modifies this
      ensures State() == ClearDialog(old(State()), confirmed)
    {
      var i := ActiveIndex(State());
      if i.Some? && confirmed {
        conversations := conversations[i.value := conversations[i.value].(messages := [])];
      }
    }

    method Import(c: Conversation)
      modifies this
      ensures State() == ImportConversation(old(State()), c)
    {
      conversations := conversations + [c];
      activeId := Some(c.id);
    }

    /** The `onDelta` handler's store update; `false` where it would throw. */
    method OnDelta(msgId: string, delta: string) returns (ok: bool)
      modifies this
      ensures ok == ApplyDelta(old(State()), msgId, delta).Some?
      ensures ok ==> State() == ApplyDelta(old(State()), msgId, delta).value
      ensures !ok ==> State() == old(State())
    {
      var loc := Locate(State(), msgId);
      if loc.None? {
        return false;
      }
      var (i, k) := loc.value;
      var c := conversations[i];
      var t := c.messages[k];
      conversations := conversations[i := c.(messages := c.messages[k := t.(content := t.content + delta)])];
      ok := true;
    }

    /** The `onDone` handler's store update; `false` where it would throw. */
    method OnDone(msgId: string, final: Json) returns (ok: bool)
      modifies this
      ensures ok == ApplyDone(old(State()), msgId, final).Some?
      ensures ok ==> State() == ApplyDone(old(State()), msgId, final).value
      ensures !ok ==> State() == old(State())
    {
      var loc := Locate(State(), msgId);
      if loc.None? {
        return false;
      }
      var (i, k) := loc.value;
      var c := conversations[i];
      conversations := conversations[i := c.(messages := c.messages[k := AttachFinal(c.messages[k], final, autoQuiz)])];
      ok := true;
    }
  }
}
