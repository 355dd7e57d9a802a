/** The conversation-memory endpoint of the serverless API (api/chat-memory.js).
    Redis is a map from `"chat:" + conversationId` to a stored JSON text that holds
    the conversation as a list of {role, content, timestamp} entries. A POST request
    names an action: `chat` appends a user entry and a generated assistant entry and
    keeps the last 20, `get` reads the history back, `clear` deletes the key. */
module ChatMemory {
  import opened Optional
  import opened Strings
  import opened Slices

  /** Entries kept per conversation: the last 20, that is 10 user/assistant turns. */
  const MAX_ENTRIES: nat := 20
  /** Seconds until Redis expires a conversation: 24 hours. */
  const TTL_SECONDS: nat := 86400
  const KEY_PREFIX := "chat:"
  const USER := "user"
  const ASSISTANT := "assistant"

  /** One stored message. */
  datatype Entry = Entry(role: string, content: string, timestamp: string)

  /** What a Redis key holds, as the handlers read it: the empty string (which they
      treat like a missing key), text that JSON.parse rejects, or a serialised history. */
  datatype Stored = Blank | Garbled | Serialized(entries: seq<Entry>)

  /** The Redis database, restricted to the commands the handlers use. */
  class Redis {
    var data: map<string, Stored>
    /** The expiry, in seconds, last set on each key. */
    var ttl: map<string, nat>

    constructor ()
      ensures data == map[] && ttl == map[]
    {
      data := map[];
      ttl := map[];
    }

    /** `GET key`. */
    function Get(key: string): (r: Option<Stored>)
      reads this
      ensures r.Some? <==> key in data
      ensures r.Some? ==> r.value == data[key]
    {
      if key in data then Some(data[key]) else None
    }

    /** `SETEX key seconds value`. */
    method SetEx(key: string, seconds: nat, value: Stored)
      modifies this
      ensures data == old(data)[key := value]
      ensures ttl == old(ttl)[key := seconds]
    {
      data := data[key := value];
      ttl := ttl[key := seconds];
    }

    /** `DEL key`. */
    method Del(key: string)
      modifies this
      ensures data == old(data) - {key}
      ensures ttl == old(ttl) - {key}
    {
      data := data - {key};
      ttl := ttl - {key};
    }
  }

  /** The JSON body of a request. A field that is absent or falsy is "". */
  datatype Body = Body(conversationId: string, message: string, action: string)

  /** An HTTP request: its method (`verb`) and body; `body` is None when the request carries none. */
  datatype Request = Request(verb: string, body: Option<Body>)

  /** What the handler takes from outside: the clock (milliseconds and ISO text),
      the index `Math.floor(Math.random() * 3)` picks, and whether the Redis write
      (SETEX or DEL) rejects. */
  datatype Ambient = Ambient(nowMs: nat, isoTime: string, responsePick: nat, writeFails: bool)

  datatype Payload =
    | NoBody
    | Failure(error: string)
    | Chatted(conversationId: string, message: string, historyCount: nat, timestamp: string)
    | Retrieved(conversationId: string, message: string, history: seq<Entry>, historyCount: nat, timestamp: string)
    | Cleared(conversationId: string, message: string, outcome: string, timestamp: string)

  datatype Response = Response(status: nat, payload: Payload)

  /** `conv_${Date.now()}`: the id given to a conversation that has none. */
  function GeneratedId(nowMs: nat): (r: string)
    ensures |r| > 5 && r[..5] == "conv_"
    ensures r[5..] == Decimal(nowMs)
  {
    "conv_" + Decimal(nowMs)
  }

  /** `body.conversationId || conv_<now>`. */
  function ConversationIdOf(b: Body, nowMs: nat): (r: string)
    ensures r != ""
    ensures b.conversationId != "" ==> r == b.conversationId
    ensures b.conversationId == "" ==> r == GeneratedId(nowMs)
  {
    if b.conversationId != "" then b.conversationId else GeneratedId(nowMs)
  }

  /** The Redis key of a conversation. */
  function KeyOf(conversationId: string): (r: string)
    ensures |r| == |KEY_PREFIX| + |conversationId|
    ensures r[..|KEY_PREFIX|] == KEY_PREFIX && r[|KEY_PREFIX|..] == conversationId
  {
    KEY_PREFIX + conversationId
  }

  /** Every key starts with "chat:" and different conversations get different keys. */
  lemma KeyOfInjective(a: string, b: string)
    ensures KeyOf(a)[..|KEY_PREFIX|] == KEY_PREFIX
    ensures KeyOf(a) == KeyOf(b) <==> a == b
  {
    assert KeyOf(a)[|KEY_PREFIX|..] == a;
    assert KeyOf(b)[|KEY_PREFIX|..] == b;
  }

  /** `body.action || 'chat'`. */
  function ActionOf(b: Body): (r: string)
    ensures r != ""
    ensures b.action == "" ==> r == "chat"
    ensures b.action != "" ==> r == b.action
  {
    if b.action == "" then "chat" else b.action
  }

  /** The history `handleChat` starts from: a missing, empty or unparsable value is []. */
  function HistoryOf(stored: Option<Stored>): (r: seq<Entry>)
    ensures stored.Some? && stored.value.Serialized? ==> r == stored.value.entries
    ensures !(stored.Some? && stored.value.Serialized?) ==> r == []
  {
    match stored
    case Some(Serialized(entries)) => entries
    case _ => []
  }

  /** `history.filter(msg => msg.role === 'user').length`. */
  function UserCount(h: seq<Entry>): (n: nat)
    ensures n <= |h|
    ensures n == 0 <==> forall i :: 0 <= i < |h| ==> h[i].role != USER
  {
    if h == [] then 0 else (if h[0].role == USER then 1 else 0) + UserCount(h[1..])
  }

  lemma {:induction false} UserCountAppend(a: seq<Entry>, b: seq<Entry>)
    ensures UserCount(a + b) == UserCount(a) + UserCount(b)
    decreases |a|
  {
    if a == [] {
      assert a + b == b;
    } else {
      assert (a + b)[0] == a[0];
      assert (a + b)[1..] == a[1..] + b;
      UserCountAppend(a[1..], b);
    }
  }

  /** The template ends with the user's message in double quotes. */
  predicate Quotes(t: string, userMessage: string) {
    |t| >= |userMessage| + 2 && t[|t| - |userMessage| - 2..] == "\"" + userMessage + "\""
  }

  /** The three canned replies of `generateBotResponse`, one of which it picks at random. */
  function Templates(userMessage: string): (r: seq<string>)
    ensures |r| == 3 && r[0] != r[1] && r[1] != r[2] && r[0] != r[2]
    ensures forall i :: 0 <= i < |r| ==> Quotes(r[i], userMessage)
  {
    [ "I understand you said: \"" + userMessage + "\"",
      "That's interesting about: \"" + userMessage + "\"",
      "I received your message: \"" + userMessage + "\"" ]
  }

  /** The closing sentence that numbers a reply. */
  function NumberSentence(n: nat): string {
    ". This is message #" + Decimal(n) + " in our conversation."
  }

  /** `generateBotResponse`: a canned reply, numbered by the user entries already stored plus one. */
  function BotReply(userMessage: string, history: seq<Entry>, pick: nat): (r: string)
    requires pick < 3
    ensures var t, n := Templates(userMessage)[pick], NumberSentence(UserCount(history) + 1);
            |r| == |t| + |n| && r[..|t|] == t && r[|t|..] == n
  {
    Templates(userMessage)[pick] + NumberSentence(UserCount(history) + 1)
  }

  /** The number in the closing sentence identifies the number it was printed from. */
  lemma NumberSentenceInjective(a: nat, b: nat)
    requires NumberSentence(a) == NumberSentence(b)
    ensures a == b
  {
    var pre := ". This is message #";
    var post := " in our conversation.";
    var da, db := Decimal(a), Decimal(b);
    assert |da| == |db|;
    assert da == NumberSentence(a)[|pre|..|pre| + |da|];
    assert db == NumberSentence(b)[|pre|..|pre| + |db|];
    DecimalInjective(a, b);
  }

  /** Two replies to the same message with the same pick are equal exactly when the
      stored histories held the same number of user entries. */
  lemma {:induction false} ReplyRevealsUserCount(m: string, h1: seq<Entry>, h2: seq<Entry>, pick: nat)
    requires pick < 3
    ensures BotReply(m, h1, pick) == BotReply(m, h2, pick) <==> UserCount(h1) == UserCount(h2)
  {
    if BotReply(m, h1, pick) == BotReply(m, h2, pick) {
      var t := Templates(m)[pick];
      var s1, s2 := NumberSentence(UserCount(h1) + 1), NumberSentence(UserCount(h2) + 1);
      assert s1 == (t + s1)[|t|..];
      assert s2 == (t + s2)[|t|..];
      NumberSentenceInjective(UserCount(h1) + 1, UserCount(h2) + 1);
    }
  }

  /** The history `handleChat` stores: the old one, then the user entry, then the
      assistant entry, cut to the last 20. */
  function NextHistory(existing: seq<Entry>, userMessage: string, pick: nat, isoTime: string): (r: seq<Entry>)
    requires pick < 3
    ensures 2 <= |r| <= MAX_ENTRIES
  {
    LastN(existing + [Entry(USER, userMessage, isoTime), Entry(ASSISTANT, BotReply(userMessage, existing, pick), isoTime)], MAX_ENTRIES)
  }

  /** The stored history is a suffix of old ++ [user, assistant] of at most 20 entries
      that ends with the new pair; nothing is dropped while there is room. */
  lemma NextHistoryWindow(existing: seq<Entry>, m: string, pick: nat, iso: string)
    requires pick < 3
    ensures var u, b := Entry(USER, m, iso), Entry(ASSISTANT, BotReply(m, existing, pick), iso);
            var all := existing + [u, b];
            var r := NextHistory(existing, m, pick, iso);
            && 2 <= |r| <= MAX_ENTRIES
            && r == all[|all| - |r|..]
            && r[|r| - 2] == u && r[|r| - 1] == b
            && (|existing| <= MAX_ENTRIES - 2 ==> r == all)
            && (|existing| >= MAX_ENTRIES - 2 ==> |r| == MAX_ENTRIES)
  {
  }

  /** The stored history is the extended one when it fits, and its last 20 entries otherwise. */
  lemma NextHistoryIsTruncation(existing: seq<Entry>, m: string, pick: nat, iso: string)
    requires pick < 3
    ensures var all := existing + [Entry(USER, m, iso)] + [Entry(ASSISTANT, BotReply(m, existing, pick), iso)];
            NextHistory(existing, m, pick, iso) == if |all| > MAX_ENTRIES then all[|all| - MAX_ENTRIES..] else all
  {
    var all := existing + [Entry(USER, m, iso)] + [Entry(ASSISTANT, BotReply(m, existing, pick), iso)];
    assert all == existing + [Entry(USER, m, iso), Entry(ASSISTANT, BotReply(m, existing, pick), iso)];
  }

  /** A history of whole turns: user, assistant, user, assistant, ... */
  predicate Paired(h: seq<Entry>) {
    |h| % 2 == 0 && forall i :: 0 <= i < |h| ==> h[i].role == (if i % 2 == 0 then USER else ASSISTANT)
  }

  /** In a history of whole turns half the entries are user entries. */
  lemma {:induction false} PairedUserCount(h: seq<Entry>)
    requires Paired(h)
    ensures UserCount(h) * 2 == |h|
    decreases |h|
  {
    if h != [] {
      assert h[0].role == USER && h[1].role == ASSISTANT;
      assert h[1..][0] == h[1];
      assert h[1..][1..] == h[2..];
      forall i | 0 <= i < |h[2..]|
        ensures h[2..][i].role == (if i % 2 == 0 then USER else ASSISTANT)
      {
        assert h[2..][i] == h[i + 2];
      }
      PairedUserCount(h[2..]);
    }
  }

  /** Dropping an even number of leading entries keeps whole turns. */
  lemma PairedDropEven(h: seq<Entry>, d: nat)
    requires Paired(h) && d <= |h| && d % 2 == 0
    ensures Paired(h[d..])
  {
    forall i | 0 <= i < |h[d..]|
      ensures h[d..][i].role == (if i % 2 == 0 then USER else ASSISTANT)
    {
      assert h[d..][i] == h[i + d];
    }
  }

  /** Appending a user entry and then an assistant entry keeps whole turns. */
  lemma PairedAppendTurn(h: seq<Entry>, u: Entry, b: Entry)
    requires Paired(h) && u.role == USER && b.role == ASSISTANT
    ensures Paired(h + [u, b])
  {
    var all := h + [u, b];
    forall i | 0 <= i < |all|
      ensures all[i].role == (if i % 2 == 0 then USER else ASSISTANT)
    {
      if i < |h| {
        assert all[i] == h[i];
      }
    }
  }

  /** If the stored history was whole turns, `chat` keeps it so, and so never stores
      more than 10 user entries. */
  lemma ChatKeepsTurns(existing: seq<Entry>, m: string, pick: nat, iso: string)
    requires pick < 3
    requires Paired(existing)
    ensures Paired(NextHistory(existing, m, pick, iso))
    ensures UserCount(NextHistory(existing, m, pick, iso)) * 2 == |NextHistory(existing, m, pick, iso)|
    ensures UserCount(NextHistory(existing, m, pick, iso)) <= MAX_ENTRIES / 2
  {
    var u, b := Entry(USER, m, iso), Entry(ASSISTANT, BotReply(m, existing, pick), iso);
    var all := existing + [u, b];
    PairedAppendTurn(existing, u, b);
    var r := NextHistory(existing, m, pick, iso);
    NextHistoryWindow(existing, m, pick, iso);
    PairedDropEven(all, |all| - |r|);
    PairedUserCount(r);
  }

  /** Appending one user entry and one assistant entry adds one user entry. */
  lemma CountAfterTurn(existing: seq<Entry>, u: Entry, b: Entry)
    requires u.role == USER && b.role == ASSISTANT
    ensures UserCount(existing + [u, b]) == UserCount(existing) + 1
  {
    UserCountAppend(existing, [u, b]);
    assert [u, b][1..] == [b];
    assert [b][1..] == [];
  }

  /** While the window has room, the count `chat` returns equals the number its reply announces. */
  lemma CountMatchesAnnouncedNumber(existing: seq<Entry>, m: string, pick: nat, iso: string)
    requires pick < 3
    requires |existing| <= MAX_ENTRIES - 2
    ensures UserCount(NextHistory(existing, m, pick, iso)) == UserCount(existing) + 1
  {
    var u, b := Entry(USER, m, iso), Entry(ASSISTANT, BotReply(m, existing, pick), iso);
    NextHistoryWindow(existing, m, pick, iso);
    CountAfterTurn(existing, u, b);
  }

  /** Once 10 whole turns are stored, every later reply announces message #11 and the
      history stays at 10 turns: the number stops growing. */
  lemma AnnouncedNumberSaturates(existing: seq<Entry>, m: string, pick: nat, iso: string)
    requires pick < 3
    requires Paired(existing) && |existing| == MAX_ENTRIES
    ensures UserCount(existing) + 1 == 11
    ensures var next := NextHistory(existing, m, pick, iso);
            Paired(next) && |next| == MAX_ENTRIES && UserCount(next) + 1 == 11
  {
    PairedUserCount(existing);
    NextHistoryWindow(existing, m, pick, iso);
    ChatKeepsTurns(existing, m, pick, iso);
  }

  /** Every stored history is whole turns of at most 20 entries. */
  ghost predicate WellFormed(data: map<string, Stored>) {
    forall k :: k in data ==> WellFormedValue(data[k])
  }

  ghost predicate WellFormedValue(v: Stored) {
    v.Serialized? ==> Paired(v.entries) && |v.entries| <= MAX_ENTRIES
  }

  /** Writing a history of whole turns keeps the store well formed. */
  lemma WellFormedAfterWrite(data: map<string, Stored>, key: string, h: seq<Entry>)
    requires WellFormed(data) && Paired(h) && |h| <= MAX_ENTRIES
    ensures WellFormed(data[key := Serialized(h)])
  {
  }

  /** Deleting a key keeps the store well formed. */
  lemma WellFormedAfterDelete(data: map<string, Stored>, key: string)
    requires WellFormed(data)
    ensures WellFormed(data - {key})
  {
  }

  /** `handleChat`. */
  method HandleChat(redis: Redis, key: string, conversationId: string, userMessage: string, amb: Ambient)
    returns (res: Response)
    requires amb.responsePick < 3
    modifies redis
    ensures var next := NextHistory(HistoryOf(old(redis.Get(key))), userMessage, amb.responsePick, amb.isoTime);
            if amb.writeFails then
              res == Response(500, Failure("Internal server error"))
              && redis.data == old(redis.data) && redis.ttl == old(redis.ttl)
            else
              && redis.data == old(redis.data)[key := Serialized(next)]
              && redis.ttl == old(redis.ttl)[key := TTL_SECONDS]
              && res == Response(200, Chatted(conversationId,
                   BotReply(userMessage, HistoryOf(old(redis.Get(key))), amb.responsePick), UserCount(next), amb.isoTime))
    ensures WellFormed(old(redis.data)) ==> WellFormed(redis.data)
  {
    var existingHistory := HistoryOf(redis.Get(key));
    var newUserMessage := Entry(USER, userMessage, amb.isoTime);
    var newHistory := existingHistory + [newUserMessage];
    var botResponse := Entry(ASSISTANT, BotReply(userMessage, existingHistory, amb.responsePick), amb.isoTime);
    newHistory := newHistory + [botResponse];
    var finalHistory := newHistory;
    if |newHistory| > MAX_ENTRIES {
      finalHistory := newHistory[|newHistory| - MAX_ENTRIES..];
    }
    assert finalHistory == NextHistory(existingHistory, userMessage, amb.responsePick, amb.isoTime) by {
      NextHistoryIsTruncation(existingHistory, userMessage, amb.responsePick, amb.isoTime);
    }
    if amb.writeFails {
      // SETEX rejects; the outer catch of the handler answers 500.
      return Response(500, Failure("Internal server error"));
    }
    assert WellFormed(redis.data) ==> WellFormed(redis.data[key := Serialized(finalHistory)]) by {
      if WellFormed(redis.data) {
        ChatKeepsTurns(existingHistory, userMessage, amb.responsePick, amb.isoTime);
        NextHistoryWindow(existingHistory, userMessage, amb.responsePick, amb.isoTime);
        WellFormedAfterWrite(redis.data, key, finalHistory);
      }
    }
    redis.SetEx(key, TTL_SECONDS, Serialized(finalHistory));
    res := Response(200, Chatted(conversationId, botResponse.content, UserCount(finalHistory), amb.isoTime));
  }

  /** `handleGet`: reads the history and counts its user entries; the store is not touched. */
  method HandleGet(redis: Redis, key: string, conversationId: string, isoTime: string) returns (res: Response)
    ensures res.status == 200 && res.payload.Retrieved? && res.payload.conversationId == conversationId
    ensures res.payload.history == HistoryOf(redis.Get(key))
    ensures res.payload.historyCount == UserCount(res.payload.history)
    ensures key !in redis.data ==> res.payload.history == [] && res.payload.historyCount == 0
    ensures redis.Get(key) in {None, Some(Blank)} ==> res.payload.message == "No history found"
    ensures redis.Get(key) == Some(Garbled) ==> res.payload.message == "Error retrieving history"
    ensures redis.Get(key).Some? && redis.Get(key).value.Serialized? ==>
              res.payload.message == "Retrieved " + Decimal(UserCount(res.payload.history)) + " conversation turns"
  {
    var history: seq<Entry> := [];
    var message := "No history found";
    var stored := redis.Get(key);
    match stored {
      case Some(Garbled) =>
        message := "Error retrieving history";
      case Some(Serialized(entries)) =>
        history := entries;
        message := "Retrieved " + Decimal(UserCount(history)) + " conversation turns";
      case _ =>
    }
    res := Response(200, Retrieved(conversationId, message, history, UserCount(history), isoTime));
  }

  /** `handleClear`. */
  method HandleClear(redis: Redis, key: string, conversationId: string, amb: Ambient) returns (res: Response)
    modifies redis
    ensures amb.writeFails ==>
              && redis.data == old(redis.data) && redis.ttl == old(redis.ttl)
              && res == Response(500, Cleared(conversationId, "Error clearing chat history", "error", amb.isoTime))
    ensures !amb.writeFails ==>
              && redis.data == old(redis.data) - {key} && redis.ttl == old(redis.ttl) - {key}
              && res == Response(200, Cleared(conversationId, "Chat history cleared successfully", "success", amb.isoTime))
    ensures WellFormed(old(redis.data)) ==> WellFormed(redis.data)
  {
    if amb.writeFails {
      return Response(500, Cleared(conversationId, "Error clearing chat history", "error", amb.isoTime));
    }
    if WellFormed(redis.data) {
      WellFormedAfterDelete(redis.data, key);
    }
    redis.Del(key);
    res := Response(200, Cleared(conversationId, "Chat history cleared successfully", "success", amb.isoTime));
  }

  /** `handler`: CORS preflight, method check, defaults, then dispatch on the action. */
  method Handle(redis: Redis, req: Request, amb: Ambient) returns (res: Response)
    requires amb.responsePick < 3
    modifies redis
    ensures req.verb == "OPTIONS" ==> res == Response(200, NoBody) && redis.data == old(redis.data) && redis.ttl == old(redis.ttl)
    ensures req.verb != "OPTIONS" && req.verb != "POST" ==>
              res == Response(405, Failure("Method not allowed"))
              && redis.data == old(redis.data) && redis.ttl == old(redis.ttl)
    ensures req.verb == "POST" && req.body.None? ==>
              res == Response(500, Failure("Internal server error"))
              && redis.data == old(redis.data) && redis.ttl == old(redis.ttl)
    ensures req.verb == "POST" && req.body.Some? ==>
              var b := req.body.value;
              var key := KeyOf(ConversationIdOf(b, amb.nowMs));
              var action := ActionOf(b);
              var next := NextHistory(HistoryOf(old(redis.Get(key))), b.message, amb.responsePick, amb.isoTime);
              && (action !in {"chat", "get", "clear"} ==>
                    res == Response(400, Failure("Invalid action"))
                    && redis.data == old(redis.data) && redis.ttl == old(redis.ttl))
              && (action == "get" ==>
                    && redis.data == old(redis.data) && redis.ttl == old(redis.ttl)
                    && res.status == 200 && res.payload.Retrieved?
                    && res.payload.history == HistoryOf(old(redis.Get(key)))
                    && res.payload.historyCount == UserCount(res.payload.history))
              && (action == "chat" && !amb.writeFails ==>
                    && redis.data == old(redis.data)[key := Serialized(next)]
                    && redis.ttl == old(redis.ttl)[key := TTL_SECONDS]
                    && res.status == 200 && res.payload.Chatted?
                    && res.payload.conversationId == ConversationIdOf(b, amb.nowMs)
                    && res.payload.historyCount == UserCount(next))
              && (action == "clear" && !amb.writeFails ==>
                    redis.data == old(redis.data) - {key} && redis.ttl == old(redis.ttl) - {key}
                    && res.status == 200)
              && (action in {"chat", "clear"} && amb.writeFails ==>
                    res.status == 500 && redis.data == old(redis.data) && redis.ttl == old(redis.ttl))
    ensures WellFormed(old(redis.data)) ==> WellFormed(redis.data)
  {
    if req.verb == "OPTIONS" {
      return Response(200, NoBody);
    }
    if req.verb != "POST" {
      return Response(405, Failure("Method not allowed"));
    }
    if req.body.None? {
      // Reading a field of the missing body throws; the catch answers 500.
      return Response(500, Failure("Internal server error"));
    }
    var body := req.body.value;
    var conversationId := ConversationIdOf(body, amb.nowMs);
    var action := ActionOf(body);
    var redisKey := KeyOf(conversationId);
    if action == "chat" {
      res := HandleChat(redis, redisKey, conversationId, body.message, amb);
    } else if action == "get" {
      res := HandleGet(redis, redisKey, conversationId, amb.isoTime);
    } else if action == "clear" {
      res := HandleClear(redis, redisKey, conversationId, amb);
    } else {
      res := Response(400, Failure("Invalid action"));
    }
  }

  /** A `clear` followed by a `get` on the same conversation finds no history. */
  method ClearThenGet(redis: Redis, conversationId: string, amb: Ambient) returns (cleared: Response, got: Response)
    requires amb.responsePick < 3 && !amb.writeFails && conversationId != ""
    modifies redis
    ensures cleared.status == 200 && got.status == 200
    ensures got.payload.Retrieved? && got.payload.history == [] && got.payload.historyCount == 0
    ensures KeyOf(conversationId) !in redis.data
  {
    cleared := Handle(redis, Request("POST", Some(Body(conversationId, "", "clear"))), amb);
    got := Handle(redis, Request("POST", Some(Body(conversationId, "", "get"))), amb);
  }
}
