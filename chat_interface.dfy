/** The full-page chat of react-chat-app/src/ChatInterface.js, which talks to the
    chat-memory webhook: it loads the stored history on mount, sends messages, and
    clears the server-side memory under a fresh conversation id. */
module ChatInterface {
  import opened Optional
  import opened Json
  import opened Slices
  import opened Strings
  import ChatMemory

  const LOCAL_N8N_URL := "http://localhost:5678"
  const MEMORY_PATH := "/webhook/chat-memory"
  const WELCOME_TEXT := "Hello! How can I help you with our software development services?"
  const FALLBACK_TEXT := "I received your message but couldn't generate a response."
  /** The error text as the file spells it: the UTF-8 bytes of a cross mark read back
      in another encoding, then a space and the apology. */
  const ERROR_TEXT := "\U{201A}\U{00F9}\U{00E5} Sorry, I encountered an error. Please try again."
  /** At most this many sources are listed under an answer. */
  const SHOWN_SOURCES: nat := 3

  /** `WEBHOOK_URL`, from REACT_APP_N8N_BASE_URL ("" when unset). */
  function WebhookUrl(envBase: string): (r: string)
    ensures envBase != "" ==> r == envBase + MEMORY_PATH
    ensures envBase == "" ==> r == LOCAL_N8N_URL + MEMORY_PATH
  {
    (if envBase != "" then envBase else LOCAL_N8N_URL) + MEMORY_PATH
  }

  /** The conversation id at mount: the one passed in, else the one in localStorage,
      else `conv_` and the current time ("" stands for absent). */
  function InitialConversationId(initial: string, stored: string, nowMs: nat): (r: string)
    ensures r != ""
    ensures initial != "" ==> r == initial
    ensures initial == "" && stored != "" ==> r == stored
    ensures initial == "" && stored == "" ==> r == ChatMemory.GeneratedId(nowMs)
  {
    if initial != "" then initial else if stored != "" then stored else ChatMemory.GeneratedId(nowMs)
  }

  datatype Kind = UserKind | BotKind

  /** A message as this page keeps it. `timestamp` is what was handed to `new Date`
      (Num(ms) for the current time); `metadata` is None when the message has none. */
  datatype UiMessage = UiMessage(
    id: int, kind: Kind, text: Value, timestamp: Value, metadata: Option<map<string, Value>>, isError: bool)

  function Welcome(nowMs: nat): (m: UiMessage)
    ensures m.kind == BotKind && !m.isError && m.text == Str(WELCOME_TEXT)
  {
    UiMessage(1, BotKind, Str(WELCOME_TEXT), Num(nowMs), Some(map["historyCount" := Num(0)]), false)
  }

  /** One stored record as a message: role 'user' is the user, any other role the bot. */
  function FromRecord(item: Value, index: nat, nowMs: nat, historyCount: Value): (m: UiMessage)
    ensures m.id == nowMs - index && !m.isError
    ensures m.kind == UserKind <==> Prop(item, "role") == Str("user")
    ensures m.text == Prop(item, "content") && m.timestamp == Prop(item, "timestamp")
    ensures m.metadata == Some(map["historyCount" := historyCount])
  {
    UiMessage(nowMs - index,
              if Prop(item, "role") == Str("user") then UserKind else BotKind,
              Prop(item, "content"),
              Prop(item, "timestamp"),
              Some(map["historyCount" := historyCount]),
              false)
  }

  /** The `data.history.map(...)` of `loadHistory`: one message per record, in order. */
  function ConvertHistory(items: seq<Value>, nowMs: nat, historyCount: Value): (r: seq<UiMessage>)
    ensures |r| == |items|
    ensures forall i :: 0 <= i < |items| ==>
              && r[i].id == nowMs - i
              && (r[i].kind == UserKind <==> Prop(items[i], "role") == Str("user"))
              && r[i].text == Prop(items[i], "content")
              && r[i].timestamp == Prop(items[i], "timestamp")
              && r[i].metadata == Some(map["historyCount" := historyCount])
              && !r[i].isError
  {
    if items == [] then []
    else
      var n := |items| - 1;
      ConvertHistory(items[..n], nowMs, historyCount) + [FromRecord(items[n], n, nowMs, historyCount)]
  }

  /** `x.length > 0` for the values `length` can be read from without a method call:
      a numeric or boolean length is compared as a number. */
  predicate Positive(v: Value) {
    (v.Num? && v.n > 0) || (v.Bool? && v.b)
  }

  /** What `loadHistory` makes of `data.history`. */
  datatype HistoryShape = Records(items: seq<Value>) | NoRecords | Fails

  /** `data.history && data.history.length > 0`, then `.map` on it: a non-empty array is
      converted; a falsy or empty history is no history; a non-empty string or an object
      with a positive length has no `map` method, and a null record has no `role`, so
      those throw. A null body throws at `data.history`. */
  function ShapeOf(data: Value): (r: HistoryShape)
    ensures r.Records? ==> |r.items| > 0 && forall i :: 0 <= i < |r.items| ==> !Nullish(r.items[i])
    ensures Nullish(data) ==> r == Fails
    ensures r.Records? ==> Prop(data, "history") == Arr(r.items)
    ensures !Nullish(data) && Prop(data, "history").Arr? && |Prop(data, "history").items| > 0 &&
            (forall i :: 0 <= i < |Prop(data, "history").items| ==> !Nullish(Prop(data, "history").items[i])) ==>
              r == Records(Prop(data, "history").items)
  {
    if Nullish(data) then Fails
    else
      var h := Prop(data, "history");
      match h
      case Arr(items) =>
        if |items| == 0 then NoRecords
        else if exists i :: 0 <= i < |items| && Nullish(items[i]) then Fails
        else Records(items)
      case Str(s) => if |s| > 0 then Fails else NoRecords
      case Obj(_) => if Positive(Prop(h, "length")) then Fails else NoRecords
      case _ => NoRecords
  }

  /** How the POST that loads the history ended: thrown, a non-ok status, or a parsed body. */
  datatype LoadOutcome = LoadThrew | LoadNotOk | LoadOk(data: Value)

  /** The message list after `loadHistory`: the converted records when there are some;
      nothing for a non-ok status; otherwise the welcome message, but only into an empty
      list. */
  function AfterLoad(current: seq<UiMessage>, outcome: LoadOutcome, nowMs: nat): (r: seq<UiMessage>)
    ensures outcome.LoadNotOk? ==> r == current
    ensures outcome.LoadOk? && ShapeOf(outcome.data).Records? ==>
              r == ConvertHistory(ShapeOf(outcome.data).items, nowMs, Prop(outcome.data, "historyCount"))
    ensures !(outcome.LoadOk? && ShapeOf(outcome.data).Records?) && !outcome.LoadNotOk? ==>
              r == if current == [] then [Welcome(nowMs)] else current
  {
    match outcome
    case LoadNotOk => current
    case LoadThrew => if current == [] then [Welcome(nowMs)] else current
    case LoadOk(data) =>
      match ShapeOf(data)
      case Records(items) => ConvertHistory(items, nowMs, Prop(data, "historyCount"))
      case _ => if current == [] then [Welcome(nowMs)] else current
  }

  /** The welcome message appears only in a list that was empty, and then alone. */
  lemma WelcomeOnlyIntoEmpty(current: seq<UiMessage>, outcome: LoadOutcome, nowMs: nat)
    ensures current != [] && AfterLoad(current, outcome, nowMs) != current ==>
              outcome.LoadOk? && ShapeOf(outcome.data).Records?
    ensures current == [] && !outcome.LoadNotOk? ==> AfterLoad(current, outcome, nowMs) != []
  {
  }

  /** The number of messages shown as the user's. */
  function UserMessages(ms: seq<UiMessage>): (n: nat)
    ensures n <= |ms|
  {
    if ms == [] then 0 else (if ms[0].kind == UserKind then 1 else 0) + UserMessages(ms[1..])
  }

  /** A stored record as the chat-memory handler serialises it. */
  function RecordValue(e: ChatMemory.Entry): Value {
    Obj(map["role" := Str(e.role), "content" := Str(e.content), "timestamp" := Str(e.timestamp)])
  }

  function RecordValues(h: seq<ChatMemory.Entry>): (r: seq<Value>)
    ensures |r| == |h| && forall i :: 0 <= i < |h| ==> r[i] == RecordValue(h[i])
  {
    if h == [] then [] else [RecordValue(h[0])] + RecordValues(h[1..])
  }

  lemma {:induction false} KindsMatchRoles(ms: seq<UiMessage>, h: seq<ChatMemory.Entry>)
    requires |ms| == |h|
    requires forall i :: 0 <= i < |h| ==> (ms[i].kind == UserKind <==> h[i].role == ChatMemory.USER)
    ensures UserMessages(ms) == ChatMemory.UserCount(h)
  {
    if h != [] {
      KindsMatchRoles(ms[1..], h[1..]);
    }
  }

  /** Loading a history the chat-memory store returned shows as many user messages as
      the `historyCount` the store computed for it, and one message per record. */
  lemma LoadedUserMessagesMatchCount(h: seq<ChatMemory.Entry>, nowMs: nat, historyCount: Value)
    ensures var ms := ConvertHistory(RecordValues(h), nowMs, historyCount);
            |ms| == |h| && UserMessages(ms) == ChatMemory.UserCount(h)
  {
    var items := RecordValues(h);
    var ms := ConvertHistory(items, nowMs, historyCount);
    forall i | 0 <= i < |h|
      ensures ms[i].kind == UserKind <==> h[i].role == ChatMemory.USER
    {
      assert Prop(items[i], "role") == Str(h[i].role);
    }
    KindsMatchRoles(ms, h);
  }

  /** How the POST that sends a message ended. */
  datatype SendReply = SendThrew | SendNotOk(status: nat) | SendOk(data: Value)

  /** The bot message `sendMessage` appends for a reply: the reply's message (or the
      fixed apology when it is falsy) with its history count (or 0), or the error
      message when the request failed or the body is null. */
  function ReplyMessage(reply: SendReply, receivedMs: nat): (m: UiMessage)
    ensures m.kind == BotKind && m.id == receivedMs + 1 && Truthy(m.text)
    ensures m.isError <==> !reply.SendOk? || Nullish(reply.data)
    ensures m.isError ==> m.text == Str(ERROR_TEXT) && m.metadata == None && m.timestamp == Num(receivedMs)
    ensures !m.isError ==>
              && (Truthy(Prop(reply.data, "message")) ==> m.text == Prop(reply.data, "message"))
              && (!Truthy(Prop(reply.data, "message")) ==> m.text == Str(FALLBACK_TEXT))
              && (Truthy(Prop(reply.data, "timestamp")) ==> m.timestamp == Prop(reply.data, "timestamp"))
              && (!Truthy(Prop(reply.data, "timestamp")) ==> m.timestamp == Num(receivedMs))
              && m.metadata.Some?
              && m.metadata.value.Keys == {"historyCount", "conversationId", "messageNumber"}
              && (Truthy(Prop(reply.data, "historyCount")) ==>
                    m.metadata.value["historyCount"] == Prop(reply.data, "historyCount"))
              && (!Truthy(Prop(reply.data, "historyCount")) ==> m.metadata.value["historyCount"] == Num(0))
              && m.metadata.value["conversationId"] == Prop(reply.data, "conversationId")
              && m.metadata.value["messageNumber"] == Prop(reply.data, "historyCount")
  {
    match reply
    case SendOk(data) =>
      if Nullish(data) then UiMessage(receivedMs + 1, BotKind, Str(ERROR_TEXT), Num(receivedMs), None, true)
      else
        UiMessage(receivedMs + 1, BotKind,
                  Or(Prop(data, "message"), Str(FALLBACK_TEXT)),
                  Or(Prop(data, "timestamp"), Num(receivedMs)),
                  Some(map["historyCount" := Or(Prop(data, "historyCount"), Num(0)),
                           "conversationId" := Prop(data, "conversationId"),
                           "messageNumber" := Prop(data, "historyCount")]),
                  false)
    case _ => UiMessage(receivedMs + 1, BotKind, Str(ERROR_TEXT), Num(receivedMs), None, true)
  }

  /** A reply from the chat-memory handler shows the handler's own message and count. */
  lemma ChattedReplyShown(conversationId: string, message: string, count: nat, time: string, receivedMs: nat)
    requires message != "" && count > 0
    ensures var data := Obj(map["conversationId" := Str(conversationId), "message" := Str(message),
                                 "historyCount" := Num(count), "timestamp" := Str(time)]);
            var m := ReplyMessage(SendOk(data), receivedMs);
            !m.isError && m.text == Str(message) && m.metadata.value["historyCount"] == Num(count)
  {
  }

  /** The user's own message: sent now, no metadata, never an error. */
  function UserMessage(text: string, sentMs: nat): (m: UiMessage)
    ensures m.kind == UserKind && m.text == Str(text) && !m.isError
    ensures m.id == sentMs && m.timestamp == Num(sentMs) && m.metadata.None?
  {
    UiMessage(sentMs, UserKind, Str(text), Num(sentMs), None, false)
  }

  /** `metadata.sources.slice(0, 3)`. */
  function ShownSources(sources: seq<Value>): (r: seq<Value>)
    ensures |r| <= SHOWN_SOURCES && |r| <= |sources| && r == sources[..|r|]
    ensures |sources| <= SHOWN_SOURCES ==> r == sources
    ensures |sources| >= SHOWN_SOURCES ==> |r| == SHOWN_SOURCES
  {
    FirstN(sources, SHOWN_SOURCES)
  }

  /** `messages.find(m => m.id === messageId)`. */
  function FindById(ms: seq<UiMessage>, id: int): (r: Option<UiMessage>)
    ensures r.Some? ==> exists i :: 0 <= i < |ms| && ms[i] == r.value && ms[i].id == id &&
                                    forall j :: 0 <= j < i ==> ms[j].id != id
    ensures r.None? <==> forall i :: 0 <= i < |ms| ==> ms[i].id != id
  {
    if ms == [] then None
    else if ms[0].id == id then Some(ms[0])
    else
      var rest := FindById(ms[1..], id);
      assert forall i :: 1 <= i < |ms| ==> ms[i] == ms[1..][i - 1];
      rest
  }

  /** `handleFeedbackClick`: the message and sentiment handed to `onFeedback`, if the
      message is found and a handler was given. */
  function FeedbackCall(ms: seq<UiMessage>, id: int, isPositive: bool, hasHandler: bool): (r: Option<(UiMessage, string)>)
    ensures r.Some? <==> hasHandler && FindById(ms, id).Some?
    ensures r.Some? ==> r.value.0 == FindById(ms, id).value && r.value.0.id == id
    ensures r.Some? ==> r.value.1 == (if isPositive then "positive" else "negative")
  {
    match FindById(ms, id)
    case Some(m) => if hasHandler then Some((m, if isPositive then "positive" else "negative")) else None
    case None => None
  }

  /** How the POST that clears the memory ended. */
  datatype ClearOutcome = ClearOk | ClearNotOk | ClearThrew

  /** The page state, with the conversation id mirrored into localStorage. */
  class ChatWindow {
    var conversationId: string
    var storedConversationId: string
    var messages: seq<UiMessage>
    var input: string
    var isLoading: bool

    /** Mount. */
    constructor (initialId: string, storedId: string, nowMs: nat)
      ensures conversationId == InitialConversationId(initialId, storedId, nowMs)
      ensures storedConversationId == conversationId
      ensures messages == [] && input == "" && !isLoading
    {
      conversationId := InitialConversationId(initialId, storedId, nowMs);
      storedConversationId := InitialConversationId(initialId, storedId, nowMs);
      messages := [];
      input := "";
      isLoading := false;
    }

    /** Typing into the input. */
    method SetInput(text: string)
      modifies this`input
      ensures input == text
    {
      input := text;
    }

    /** `loadHistory`, run on mount and whenever the conversation id changes. */
    method LoadHistory(outcome: LoadOutcome, nowMs: nat)
      modifies this`messages
      ensures messages == AfterLoad(old(messages), outcome, nowMs)
    {
      match outcome {
        case LoadOk(data) =>
          var shape := ShapeOf(data);
          if shape.Records? {
            messages := ConvertHistory(shape.items, nowMs, Prop(data, "historyCount"));
          } else if messages == [] {
            messages := [Welcome(nowMs)];
          }
        case LoadNotOk =>
        case LoadThrew =>
          if messages == [] {
            messages := [Welcome(nowMs)];
          }
      }
    }

    /** `clearHistory`: on success the list is the welcome message alone and a new id is
        taken and stored; on failure nothing changes and an alert is shown. */
    method ClearHistory(outcome: ClearOutcome, nowMs: nat) returns (alerted: bool)
      modifies this`messages, this`conversationId, this`storedConversationId
      ensures alerted <==> outcome != ClearOk
      ensures outcome == ClearOk ==>
                && messages == [Welcome(nowMs)]
                && conversationId == ChatMemory.GeneratedId(nowMs)
                && storedConversationId == conversationId
      ensures outcome != ClearOk ==>
                && messages == old(messages)
                && conversationId == old(conversationId)
                && storedConversationId == old(storedConversationId)
    {
      if outcome != ClearOk {
        return true;
      }
      messages := [Welcome(nowMs)];
      var newId := ChatMemory.GeneratedId(nowMs);
      conversationId := newId;
      storedConversationId := newId;
      alerted := false;
    }

    /** `sendMessage`: blank input changes nothing; otherwise the user message, then
        exactly one bot message (the reply or the error), and the input is emptied. */
    method SendMessage(reply: SendReply, sentMs: nat, receivedMs: nat)
      modifies this`messages, this`input, this`isLoading
      ensures IsBlank(old(input)) ==>
                messages == old(messages) && input == old(input) && isLoading == old(isLoading)
      ensures !IsBlank(old(input)) ==>
                && messages == old(messages) + [UserMessage(old(input), sentMs), ReplyMessage(reply, receivedMs)]
                && input == "" && !isLoading
    {
      // `!input.trim()`, stated as IsBlank (Strings.TrimEmptyIffBlank).
      if IsBlank(input) {
        return;
      }
      messages := messages + [UserMessage(input, sentMs)];
      input := "";
      isLoading := true;
      messages := messages + [ReplyMessage(reply, receivedMs)];
      isLoading := false;
    }
  }

  /** Clearing and then loading the fresh conversation from a store that holds nothing
      for it leaves the welcome message alone. */
  method ClearThenReload(w: ChatWindow, nowMs: nat, data: Value)
    requires ShapeOf(data) == NoRecords
    modifies w
    ensures w.messages == [Welcome(nowMs)]
    ensures w.conversationId == ChatMemory.GeneratedId(nowMs)
  {
    var alerted := w.ClearHistory(ClearOk, nowMs);
    w.LoadHistory(LoadOk(data), nowMs);
  }
}
