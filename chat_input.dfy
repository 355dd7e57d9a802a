/** The chat panel of react-chat-app/src/ChatInput.js (its component is named
    ChatInterface there): a message list, an input line and a loading flag, and the
    function that digs the reply text out of whatever JSON the n8n webhook returns. */
module ChatInput {
  import opened Optional
  import opened Json
  import opened Strings
  import ChatMemory

  const NO_RESPONSE := "No response received from n8n"
  const UNEXTRACTABLE := "Received response but could not extract message."
  const RESPONSE_PREFIX := "Response: "
  const ERROR_TEXT := "Sorry, there was an error processing your message."
  /** A serialised reply shorter than this, in UTF-16 code units, is shown verbatim. */
  const SHOW_LIMIT: nat := 200

  /** What `extractMessage` does: return a value, or throw (which the caller's catch
      turns into the error message). */
  datatype Extraction = Returned(value: Value) | Threw

  /** The last resort: show the serialised reply when it is short. */
  function Fallback(serialised: string): (r: Extraction)
    ensures r.Returned? && Truthy(r.value)
    ensures Utf16Length(serialised) < SHOW_LIMIT ==> r == Returned(Str(RESPONSE_PREFIX + serialised))
    ensures Utf16Length(serialised) >= SHOW_LIMIT ==> r == Returned(Str(UNEXTRACTABLE))
  {
    if Utf16Length(serialised) < SHOW_LIMIT then Returned(Str(RESPONSE_PREFIX + serialised))
    else Returned(Str(UNEXTRACTABLE))
  }

  /** The array case of `extractMessage`, on the first item; None when nothing there matches. */
  function FromFirstItem(first: Value): (r: Option<Extraction>)
    ensures r == Some(Threw) <==> Nullish(first)
    ensures r.Some? && r.value.Returned? ==> Truthy(r.value.value)
  {
    if Nullish(first) then Some(Threw)  // `firstItem.json` on null throws
    else
      var json := Prop(first, "json");
      if Truthy(json) && Truthy(Prop(json, "response_message")) then Some(Returned(Prop(json, "response_message")))
      else if Truthy(json) && Truthy(Prop(json, "message")) then Some(Returned(Prop(json, "message")))
      else if Truthy(json) && Truthy(Prop(json, "text")) then Some(Returned(Prop(json, "text")))
      else if Truthy(Prop(first, "response_message")) then Some(Returned(Prop(first, "response_message")))
      else if Truthy(Prop(first, "message")) then Some(Returned(Prop(first, "message")))
      else None
  }

  /** `extractMessage(data)`; `serialised` is `JSON.stringify(data, null, 2)`. */
  function ExtractMessage(data: Value, serialised: string): (r: Extraction)
    ensures !Truthy(data) ==> r == Returned(Str(NO_RESPONSE))
    ensures r.Returned? ==> Truthy(r.value)
    ensures r == Threw <==> data.Arr? && |data.items| > 0 && Nullish(data.items[0])
  {
    if !Truthy(data) then Returned(Str(NO_RESPONSE))
    else if IsText(Prop(data, "message")) then Returned(Prop(data, "message"))
    else if IsText(Prop(data, "response_message")) then Returned(Prop(data, "response_message"))
    else if Truthy(Prop(data, "json")) && IsText(Prop(Prop(data, "json"), "response_message")) then
      Returned(Prop(Prop(data, "json"), "response_message"))
    else if Truthy(Prop(data, "json")) && IsText(Prop(Prop(data, "json"), "message")) then
      Returned(Prop(Prop(data, "json"), "message"))
    else if IsText(Prop(data, "text")) then Returned(Prop(data, "text"))
    else if data.Arr? && |data.items| > 0 && FromFirstItem(data.items[0]).Some? then
      FromFirstItem(data.items[0]).value
    else if Prop(data, "type") == Str("direct_response") && Truthy(Prop(data, "message")) then
      Returned(Prop(data, "message"))
    else if Prop(data, "type") == Str("direct_response") && Truthy(Prop(data, "text")) then
      Returned(Prop(data, "text"))
    else Fallback(serialised)
  }

  /** The test a candidate must pass: a non-empty string when `textOnly`, any truthy
      value otherwise. */
  predicate Passes(v: Value, textOnly: bool) {
    if textOnly then IsText(v) else Truthy(v)
  }

  /** The first candidate that passes the test. */
  function FirstMatch(candidates: seq<Value>, textOnly: bool): (r: Option<Value>)
    ensures r.Some? ==> exists i :: 0 <= i < |candidates| && candidates[i] == r.value && Passes(r.value, textOnly)
                          && forall j :: 0 <= j < i ==> !Passes(candidates[j], textOnly)
    ensures r.None? ==> forall j :: 0 <= j < |candidates| ==> !Passes(candidates[j], textOnly)
  {
    if candidates == [] then None
    else if Passes(candidates[0], textOnly) then Some(candidates[0])
    else
      var rest := FirstMatch(candidates[1..], textOnly);
      assert forall j :: 1 <= j < |candidates| ==> candidates[j] == candidates[1..][j - 1];
      rest
  }

  /** FirstMatch over five candidates, unrolled. */
  lemma FirstMatchOfFive(a: Value, b: Value, c: Value, d: Value, e: Value, t: bool)
    ensures FirstMatch([a, b, c, d, e], t) ==
              if Passes(a, t) then Some(a) else if Passes(b, t) then Some(b)
              else if Passes(c, t) then Some(c) else if Passes(d, t) then Some(d)
              else if Passes(e, t) then Some(e) else None
  {
    var s := [a, b, c, d, e];
    assert s[1..] == [b, c, d, e];
    assert s[1..][1..] == [c, d, e];
    assert s[1..][1..][1..] == [d, e];
    assert s[1..][1..][1..][1..] == [e];
    assert s[1..][1..][1..][1..][1..] == [];
    FirstMatchStep(s, t);
    FirstMatchStep(s[1..], t);
    FirstMatchStep(s[1..][1..], t);
    FirstMatchStep(s[1..][1..][1..], t);
    FirstMatchStep(s[1..][1..][1..][1..], t);
  }

  lemma FirstMatchStep(s: seq<Value>, t: bool)
    requires s != []
    ensures FirstMatch(s, t) == if Passes(s[0], t) then Some(s[0]) else FirstMatch(s[1..], t)
  {
  }

  /** The places a reply object is searched for its text, in priority order. */
  function ObjectCandidates(data: Value): seq<Value> {
    var json := Prop(data, "json");
    [Prop(data, "message"), Prop(data, "response_message"), Prop(json, "response_message"), Prop(json, "message"), Prop(data, "text")]
  }

  /** The places the first item of a reply array is searched, in priority order. */
  function ItemCandidates(first: Value): seq<Value> {
    var json := Prop(first, "json");
    [Prop(json, "response_message"), Prop(json, "message"), Prop(json, "text"), Prop(first, "response_message"), Prop(first, "message")]
  }

  /** For a reply object, the text is the first non-empty string among `message`,
      `response_message`, `json.response_message`, `json.message` and `text`; failing
      that, a `direct_response` object yields its truthy `message` or `text`, and
      anything else is shown serialised. */
  lemma ObjectPriority(data: Value, serialised: string)
    requires data.Obj?
    ensures var direct := Prop(data, "type") == Str("direct_response");
            ExtractMessage(data, serialised) ==
              match FirstMatch(ObjectCandidates(data), true)
              case Some(v) => Returned(v)
              case None =>
                if direct && Truthy(Prop(data, "message")) then Returned(Prop(data, "message"))
                else if direct && Truthy(Prop(data, "text")) then Returned(Prop(data, "text"))
                else Fallback(serialised)
  {
    var json := Prop(data, "json");
    if !Truthy(json) {
      assert Prop(json, "response_message") == Undefined && Prop(json, "message") == Undefined;
    }
    FirstMatchOfFive(Prop(data, "message"), Prop(data, "response_message"), Prop(json, "response_message"),
                     Prop(json, "message"), Prop(data, "text"), true);
  }

  /** For a reply array whose first item is not null, the text is the first truthy
      value among the item's `json.response_message`, `json.message`, `json.text`,
      `response_message` and `message`; failing that the reply is shown serialised. */
  lemma ArrayPriority(data: Value, serialised: string)
    requires data.Arr? && |data.items| > 0 && !Nullish(data.items[0])
    ensures ExtractMessage(data, serialised) ==
              match FirstMatch(ItemCandidates(data.items[0]), false)
              case Some(v) => Returned(v)
              case None => Fallback(serialised)
  {
    var first := data.items[0];
    var json := Prop(first, "json");
    if !Truthy(json) {
      assert Prop(json, "response_message") == Undefined && Prop(json, "message") == Undefined;
      assert Prop(json, "text") == Undefined;
    }
    FirstMatchOfFive(Prop(json, "response_message"), Prop(json, "message"), Prop(json, "text"),
                     Prop(first, "response_message"), Prop(first, "message"), false);
    assert Prop(data, "message") == Undefined && Prop(data, "type") == Undefined;
  }

  /** One entry of the message list. `extra` holds the spread-in metadata. */
  datatype Message = Message(id: nat, text: Value, sender: string, timestamp: string, extra: map<string, Value>)

  /** A reading of the clock: `Date.now()` and the formatted time of day. */
  datatype Clock = Clock(ms: nat, time: string)

  /** What the POST to the webhook came to: a thrown fetch or body parse, a non-ok
      status, or a parsed body with its serialisation. */
  datatype Reply = NetworkError | HttpError(status: nat) | Received(data: Value, serialised: string)

  /** `addMessage(userMessage, 'user')`: the typed text, stamped with the clock, no metadata. */
  function UserMessage(text: string, at: Clock): (m: Message)
    ensures m.sender == "user" && m.text == Str(text) && m.extra == map[]
    ensures m.id == at.ms && m.timestamp == at.time
  {
    Message(at.ms, Str(text), "user", at.time, map[])
  }

  /** The catch branch's message: a bot message marked with `type: 'error'`. */
  function ErrorMessage(at: Clock): (m: Message)
    ensures m.sender == "bot" && Truthy(m.text) && m.extra == map["type" := Str("error")]
    ensures m.id == at.ms && m.timestamp == at.time
  {
    Message(at.ms, Str(ERROR_TEXT), "bot", at.time, map["type" := Str("error")])
  }

  /** The bot message `handleSubmit` appends for a reply. Reading `data.intent`
      throws when the body is null, so that case also ends in the error message. */
  function BotMessage(reply: Reply, at: Clock): (m: Message)
    ensures m.sender == "bot" && Truthy(m.text)
    ensures m == ErrorMessage(at) <==>
              !reply.Received? || Nullish(reply.data) || ExtractMessage(reply.data, reply.serialised).Threw?
    ensures m.id == at.ms && m.timestamp == at.time
    ensures reply.Received? && m != ErrorMessage(at) ==>
              var json := Prop(reply.data, "json");
              && m.text == ExtractMessage(reply.data, reply.serialised).value
              && m.extra == map["intent" := Or(Prop(reply.data, "intent"), Prop(json, "intent")),
                                "confidence" := Or(Prop(reply.data, "confidence"), Prop(json, "confidence"))]
  {
    match reply
    case Received(data, serialised) =>
      var extracted := ExtractMessage(data, serialised);
      if extracted.Threw? || Nullish(data) then ErrorMessage(at)
      else
        var json := Prop(data, "json");
        var m := Message(at.ms, extracted.value, "bot", at.time,
                         map["intent" := Or(Prop(data, "intent"), Prop(json, "intent")),
                             "confidence" := Or(Prop(data, "confidence"), Prop(json, "confidence"))]);
        assert "intent" in m.extra && "intent" !in ErrorMessage(at).extra;
        m
    case _ => ErrorMessage(at)
  }

  /** The panel's two localStorage entries, 'n8n_chat_messages' (None when absent) and
      'n8n_chat_conversation_id' ("" when absent). */
  datatype Storage = Storage(messages: Option<seq<Message>>, conversationId: string)

  /** One `localStorage.setItem`. */
  datatype Write = SetMessages(ms: seq<Message>) | SetId(id: string)

  function Apply(s: Storage, w: Write): Storage {
    match w
    case SetMessages(ms) => s.(messages := Some(ms))
    case SetId(id) => s.(conversationId := id)
  }

  /** The writes, in order. */
  function ApplyAll(s: Storage, ws: seq<Write>): Storage
    decreases |ws|
  {
    if ws == [] then s else ApplyAll(Apply(s, ws[0]), ws[1..])
  }

  /** Two writes apply one after the other. */
  lemma ApplyPair(a: Write, b: Write)
    ensures forall s :: ApplyAll(s, [a, b]) == Apply(Apply(s, a), b)
  {
    forall s
      ensures ApplyAll(s, [a, b]) == Apply(Apply(s, a), b)
    {
      assert [a, b][1..] == [b];
      assert ApplyAll(Apply(s, a), [b]) == ApplyAll(Apply(Apply(s, a), b), [b][1..]);
      assert [b][1..] == [];
    }
  }

  /** A write in front applies first. */
  lemma ApplyFirst(a: Write, ws: seq<Write>)
    ensures forall s :: ApplyAll(s, [a] + ws) == ApplyAll(Apply(s, a), ws)
  {
    forall s
      ensures ApplyAll(s, [a] + ws) == ApplyAll(Apply(s, a), ws)
    {
      assert ([a] + ws)[1..] == ws;
    }
  }

  /** The effect on `[messages, conversationId]`: whatever localStorage held, both
      entries then hold the state. */
  function PersistWrites(messages: seq<Message>, conversationId: string): (ws: seq<Write>)
    ensures forall s :: ApplyAll(s, ws) == Storage(Some(messages), conversationId)
  {
    ApplyPair(SetMessages(messages), SetId(conversationId));
    [SetMessages(messages), SetId(conversationId)]
  }

  /** What a mount reads back: the saved list, and the saved id or a fresh one. */
  datatype Mounted = Mounted(messages: seq<Message>, conversationId: string)

  function Remount(s: Storage, nowMs: nat): (r: Mounted)
    ensures r.conversationId != ""
    ensures s.conversationId != "" ==> r.conversationId == s.conversationId
    ensures s.conversationId == "" ==> r.conversationId == ChatMemory.GeneratedId(nowMs)
    ensures r.messages == s.messages.GetOr([])
  {
    Mounted(s.messages.GetOr([]), if s.conversationId != "" then s.conversationId else ChatMemory.GeneratedId(nowMs))
  }

  /** `clearChat` as written: the new id is stored, but `setMessages([])` re-renders and
      the effect then stores the empty list and the id the state still holds, before the
      reload unloads the page. */
  function ClearWritesAsWritten(stateId: string, nowMs: nat): (ws: seq<Write>)
    ensures forall s :: ApplyAll(s, ws) == Storage(Some([]), stateId)
  {
    ApplyFirst(SetId(ChatMemory.GeneratedId(nowMs)), PersistWrites([], stateId));
    [SetId(ChatMemory.GeneratedId(nowMs))] + PersistWrites([], stateId)
  }

  /** `clearChat` with the new id also put into state, so that the effect stores it. */
  function ClearWrites(nowMs: nat): (ws: seq<Write>)
    ensures forall s :: ApplyAll(s, ws) == Storage(Some([]), ChatMemory.GeneratedId(nowMs))
  {
    var id := ChatMemory.GeneratedId(nowMs);
    ApplyFirst(SetId(id), PersistWrites([], id));
    [SetId(id)] + PersistWrites([], id)
  }

  /** As written, the reloaded panel is empty but keeps the old id: any id other than
      the new one survives the clear. */
  lemma ClearKeepsOldId(s: Storage, stateId: string, nowMs: nat, laterMs: nat)
    requires stateId != ""
    ensures Remount(ApplyAll(s, ClearWritesAsWritten(stateId, nowMs)), laterMs) == Mounted([], stateId)
    ensures stateId != ChatMemory.GeneratedId(nowMs) ==>
              Remount(ApplyAll(s, ClearWritesAsWritten(stateId, nowMs)), laterMs).conversationId
                != ChatMemory.GeneratedId(nowMs)
  {
  }

  /** With the id in state, the reloaded panel is empty under the new id, whatever
      was stored before. */
  lemma ClearUsesNewId(s: Storage, nowMs: nat, laterMs: nat)
    ensures ApplyAll(s, ClearWrites(nowMs)) == Storage(Some([]), ChatMemory.GeneratedId(nowMs))
    ensures Remount(ApplyAll(s, ClearWrites(nowMs)), laterMs) == Mounted([], ChatMemory.GeneratedId(nowMs))
  {
  }

  /** After the effect's writes, localStorage holds the list and the id in state, and a
      remount reads them back unchanged. */
  lemma PersistThenRemount(s: Storage, messages: seq<Message>, conversationId: string, nowMs: nat)
    requires conversationId != ""
    ensures ApplyAll(s, PersistWrites(messages, conversationId)) == Storage(Some(messages), conversationId)
    ensures Remount(ApplyAll(s, PersistWrites(messages, conversationId)), nowMs) == Mounted(messages, conversationId)
  {
  }

  /** The panel's state. */
  class Widget {
    var messages: seq<Message>
    var input: string
    var loading: bool
    var conversationId: string
    /** localStorage as the effect on `[messages, conversationId]` leaves it. */
    var storage: Storage

    /** localStorage mirrors the state, so a reload would restore it. */
    predicate Saved()
      reads this
    {
      storage == Storage(Some(messages), conversationId) && conversationId != ""
    }

    /** Mount: messages and conversation id come back from localStorage when saved; the
        effect then writes both back. */
    constructor (saved: Option<seq<Message>>, savedId: string, nowMs: nat)
      ensures messages == saved.GetOr([]) && input == "" && !loading
      ensures conversationId == if savedId != "" then savedId else ChatMemory.GeneratedId(nowMs)
      ensures storage == ApplyAll(Storage(saved, savedId), PersistWrites(messages, conversationId))
      ensures Saved()
    {
      var mounted := Remount(Storage(saved, savedId), nowMs);
      messages := mounted.messages;
      input := "";
      loading := false;
      conversationId := mounted.conversationId;
      storage := ApplyAll(Storage(saved, savedId), PersistWrites(mounted.messages, mounted.conversationId));
      PersistThenRemount(Storage(saved, savedId), mounted.messages, mounted.conversationId, nowMs);
    }

    /** `addMessage`: exactly one message at the end, the rest untouched; the effect then
        writes the list and the id to localStorage. */
    method AddMessage(text: Value, sender: string, extra: map<string, Value>, at: Clock)
      requires conversationId != ""
      modifies this`messages, this`storage
      ensures messages == old(messages) + [Message(at.ms, text, sender, at.time, extra)]
      ensures storage == ApplyAll(old(storage), PersistWrites(messages, conversationId))
      ensures Saved()
    {
      var newMessage := Message(at.ms, text, sender, at.time, extra);
      messages := messages + [newMessage];
      storage := ApplyAll(storage, PersistWrites(messages, conversationId));
      PersistThenRemount(old(storage), messages, conversationId, 0);
    }

    /** `handleSubmit`: a blank input changes nothing; otherwise the user message and
        then exactly one bot message (the reply or the error) are appended. */
    method HandleSubmit(reply: Reply, sent: Clock, received: Clock)
      requires Saved()
      modifies this
      ensures conversationId == old(conversationId) && Saved()
      ensures IsBlank(old(input)) ==>
                messages == old(messages) && input == old(input) && loading == old(loading)
                && storage == old(storage)
      ensures !IsBlank(old(input)) ==>
                && messages == old(messages) + [UserMessage(old(input), sent), BotMessage(reply, received)]
                && input == "" && !loading
    {
      // `!input.trim()`, stated as IsBlank (Strings.TrimEmptyIffBlank).
      if IsBlank(input) {
        return;
      }
      var userMessage := input;
      AddMessage(Str(userMessage), "user", map[], sent);
      input := "";
      loading := true;
      AddReply(reply, received);
      loading := false;
    }

    /** The `try`/`catch` of `handleSubmit`: the extracted reply, or the error message
        when the request, the extraction or the read of `data.intent` throws. */
    method AddReply(reply: Reply, received: Clock)
      requires conversationId != ""
      modifies this`messages, this`storage
      ensures messages == old(messages) + [BotMessage(reply, received)]
      ensures Saved()
    {
      ghost var expected := BotMessage(reply, received);
      match reply {
        case Received(data, serialised) =>
          var botMessage := ExtractMessage(data, serialised);
          if botMessage.Threw? || Nullish(data) {
            assert expected == ErrorMessage(received);
            AddMessage(Str(ERROR_TEXT), "bot", map["type" := Str("error")], received);
          } else {
            var json := Prop(data, "json");
            var extra := map["intent" := Or(Prop(data, "intent"), Prop(json, "intent")),
                             "confidence" := Or(Prop(data, "confidence"), Prop(json, "confidence"))];
            assert expected == Message(received.ms, botMessage.value, "bot", received.time, extra);
            AddMessage(botMessage.value, "bot", extra, received);
          }
        case _ =>
          assert expected == ErrorMessage(received);
          AddMessage(Str(ERROR_TEXT), "bot", map["type" := Str("error")], received);
      }
    }

    /** `clearChat`: with messages present and the dialog confirmed, the list is emptied
        and the page reloads under a fresh conversation id; otherwise nothing changes.
        This is the intended clear (ClearWrites); ClearKeepsOldId shows what the file's
        own writes lead to. */
    method ClearChat(confirmed: bool, nowMs: nat)
      modifies this
      ensures old(messages) == [] || !confirmed ==>
                messages == old(messages) && conversationId == old(conversationId)
                && input == old(input) && loading == old(loading) && storage == old(storage)
      ensures old(messages) != [] && confirmed ==>
                messages == [] && conversationId == ChatMemory.GeneratedId(nowMs) && input == "" && !loading
                && storage == ApplyAll(old(storage), ClearWrites(nowMs)) && Saved()
    {
      if |messages| > 0 {
        if confirmed {
          var stored := ApplyAll(storage, ClearWrites(nowMs));
          // The reload remounts the panel from what localStorage now holds.
          var mounted := Remount(stored, nowMs);
          ClearUsesNewId(storage, nowMs, nowMs);
          messages := mounted.messages;
          conversationId := mounted.conversationId;
          input := "";
          loading := false;
          storage := stored;
        }
      }
    }
  }
}
