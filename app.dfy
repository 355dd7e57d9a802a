/** The top-level page of react-chat-app/src/App.js: the shared message list, the
    conversation id kept for the browser session, the session copy of the last
    MAX_HISTORY messages, and the feedback and clear handlers the drawer calls. */
module App {
  import opened Optional
  import opened Json
  import opened Slices
  import opened Strings

  /** How many messages the session copy keeps. */
  const MAX_HISTORY: nat := 20
  const ID_PREFIX := "conv_"
  const FEEDBACK_NOTICE := "Your response has been received. Thank you for your feedback!"

  /** One message of the list; `feedback` is None until the user rates it. */
  datatype ChatMessage = ChatMessage(
    text: string, sender: string, timestamp: nat, metadata: map<string, Value>, feedback: Option<string>)

  /** What the effect writes to sessionStorage: the last MAX_HISTORY messages. */
  function Persisted(ms: seq<ChatMessage>): (r: seq<ChatMessage>)
    ensures |r| <= MAX_HISTORY && |r| <= |ms|
    ensures r == ms[|ms| - |r|..]
    ensures |r| == if |ms| <= MAX_HISTORY then |ms| else MAX_HISTORY
  {
    LastN(ms, MAX_HISTORY)
  }

  /** The session copy can be kept up to date from itself: the window of a longer list
      is the window of the old window plus the new message. */
  lemma PersistedAppend(ms: seq<ChatMessage>, m: ChatMessage)
    ensures Persisted(ms + [m]) == Persisted(Persisted(ms) + [m])
  {
    var w := Persisted(ms);
    var a := Persisted(ms + [m]);
    var b := Persisted(w + [m]);
    assert |a| == |b|;
    forall i | 0 <= i < |a|
      ensures a[i] == b[i]
    {
      if i < |a| - 1 {
        assert a[i] == ms[|ms| + 1 - |a| + i];
        assert b[i] == w[|w| + 1 - |b| + i];
      }
    }
  }

  /** Writing the window again changes nothing. */
  lemma PersistedIdempotent(ms: seq<ChatMessage>)
    ensures Persisted(Persisted(ms)) == Persisted(ms)
  {
  }

  /** `msg.timestamp === ts ? { ...msg, feedback: sentiment } : msg`. */
  function Rate(m: ChatMessage, ts: nat, sentiment: string): (r: ChatMessage)
    ensures r.text == m.text && r.sender == m.sender && r.timestamp == m.timestamp && r.metadata == m.metadata
    ensures r.feedback == if m.timestamp == ts then Some(sentiment) else m.feedback
  {
    if m.timestamp == ts then m.(feedback := Some(sentiment)) else m
  }

  /** The `prev.map(...)` of `handleFeedback`: the same messages in the same order, the
      feedback set on exactly those whose timestamp is the target's. */
  function WithFeedback(ms: seq<ChatMessage>, ts: nat, sentiment: string): (r: seq<ChatMessage>)
    ensures |r| == |ms|
    ensures forall i :: 0 <= i < |ms| && ms[i].timestamp == ts ==> r[i] == ms[i].(feedback := Some(sentiment))
    ensures forall i :: 0 <= i < |ms| && ms[i].timestamp != ts ==> r[i] == ms[i]
  {
    if ms == [] then [] else [Rate(ms[0], ts, sentiment)] + WithFeedback(ms[1..], ts, sentiment)
  }

  /** Rating the same message twice with the same sentiment is rating it once. */
  lemma {:induction false} FeedbackIdempotent(ms: seq<ChatMessage>, ts: nat, sentiment: string)
    ensures WithFeedback(WithFeedback(ms, ts, sentiment), ts, sentiment) == WithFeedback(ms, ts, sentiment)
  {
    var once := WithFeedback(ms, ts, sentiment);
    var twice := WithFeedback(once, ts, sentiment);
    forall i | 0 <= i < |ms|
      ensures twice[i] == once[i]
    {
      assert once[i].timestamp == ms[i].timestamp;
    }
  }

  /** A second rating of the same message replaces the first. */
  lemma {:induction false} FeedbackLastWins(ms: seq<ChatMessage>, ts: nat, first: string, second: string)
    ensures WithFeedback(WithFeedback(ms, ts, first), ts, second) == WithFeedback(ms, ts, second)
  {
    var once := WithFeedback(ms, ts, first);
    var twice := WithFeedback(once, ts, second);
    var direct := WithFeedback(ms, ts, second);
    forall i | 0 <= i < |ms|
      ensures twice[i] == direct[i]
    {
      assert once[i].timestamp == ms[i].timestamp;
    }
  }

  /** Rating and then persisting gives the same session copy as rating the copy. */
  lemma {:induction false} FeedbackCommutesWithPersisted(ms: seq<ChatMessage>, ts: nat, sentiment: string)
    ensures Persisted(WithFeedback(ms, ts, sentiment)) == WithFeedback(Persisted(ms), ts, sentiment)
  {
    var rated := WithFeedback(ms, ts, sentiment);
    var w := Persisted(ms);
    var a := Persisted(rated);
    var b := WithFeedback(w, ts, sentiment);
    assert |a| == |b|;
    forall i | 0 <= i < |a|
      ensures a[i] == b[i]
    {
      var j := |ms| - |a| + i;
      assert a[i] == rated[j];
      assert w[i] == ms[j];
    }
  }

  /** `'conv_' + Date.now() + '_' + random`, with the random base-36 part as an input. */
  function NewConversationId(nowMs: nat, randomPart: string): (r: string)
    ensures |r| > |ID_PREFIX| && r[..|ID_PREFIX|] == ID_PREFIX
  {
    ID_PREFIX + Decimal(nowMs) + "_" + randomPart
  }

  /** A run of digits ends at the first `_`, so such a split is unique. */
  lemma SplitAtUnderscore(d1: string, x: string, d2: string, y: string)
    requires forall i :: 0 <= i < |d1| ==> IsDigit(d1[i])
    requires forall i :: 0 <= i < |d2| ==> IsDigit(d2[i])
    requires d1 + "_" + x == d2 + "_" + y
    ensures d1 == d2 && x == y
  {
    var s := d1 + "_" + x;
    var k := if |d1| < |d2| then |d1| else |d2|;
    assert s[k] == '_' ==> |d1| == |d2|;
    assert d1 == s[..|d1|] && d2 == s[..|d2|];
    assert x == s[|d1| + 1..] && y == s[|d2| + 1..];
  }

  /** Two ids generated at different milliseconds differ, whatever their random parts. */
  lemma NewConversationIdInjective(t1: nat, r1: string, t2: nat, r2: string)
    ensures NewConversationId(t1, r1) == NewConversationId(t2, r2) ==> t1 == t2 && r1 == r2
  {
    var d1, d2 := Decimal(t1), Decimal(t2);
    var s1, s2 := NewConversationId(t1, r1), NewConversationId(t2, r2);
    if s1 == s2 {
      assert s1 == ID_PREFIX + (d1 + "_" + r1) && s2 == ID_PREFIX + (d2 + "_" + r2);
      assert d1 + "_" + r1 == s1[|ID_PREFIX|..] == d2 + "_" + r2;
      SplitAtUnderscore(d1, r1, d2, r2);
      DecimalInjective(t1, t2);
    }
  }

  /** The `useMemo` of the conversation id: the id stored for this session when there is
      one, otherwise a freshly generated one. */
  function SessionConversationId(stored: string, nowMs: nat, randomPart: string): (r: string)
    ensures stored != "" ==> r == stored
    ensures stored == "" ==> r == NewConversationId(nowMs, randomPart)
    ensures r != ""
  {
    if stored != "" then stored else NewConversationId(nowMs, randomPart)
  }

  /** The page state, together with the two sessionStorage entries it owns. */
  class AppState {
    var messages: seq<ChatMessage>
    var isLoading: bool
    var notification: Option<string>
    var conversationId: string
    /** sessionStorage 'conversationId' ("" when absent). */
    var storedConversationId: string
    /** sessionStorage 'chatHistory' (None when absent). */
    var storedHistory: Option<seq<ChatMessage>>

    /** After every render the effect has written the window of the current list. */
    predicate Valid()
      reads this
    {
      storedHistory == Some(Persisted(messages)) && storedConversationId == conversationId
    }

    /** Mount: the id and the list come back from the session when present; the effect
        then writes the window. */
    constructor (savedId: string, savedHistory: Option<seq<ChatMessage>>, nowMs: nat, randomPart: string)
      ensures Valid()
      ensures conversationId == SessionConversationId(savedId, nowMs, randomPart)
      ensures messages == savedHistory.GetOr([])
      ensures !isLoading && notification == None
    {
      conversationId := SessionConversationId(savedId, nowMs, randomPart);
      storedConversationId := SessionConversationId(savedId, nowMs, randomPart);
      messages := savedHistory.GetOr([]);
      isLoading := false;
      notification := None;
      storedHistory := Some(Persisted(savedHistory.GetOr([])));
    }

    /** The effect on `messages`: write the last MAX_HISTORY of them. */
    method PersistHistory()
      modifies this`storedHistory
      ensures storedHistory == Some(Persisted(messages))
    {
      storedHistory := Some(Persisted(messages));
    }

    /** `handleSendMessage`: one message at the end carrying what was given. */
    method HandleSendMessage(text: string, sender: string, metadata: map<string, Value>, nowMs: nat)
      requires Valid()
      modifies this`messages, this`storedHistory
      ensures Valid()
      ensures messages == old(messages) + [ChatMessage(text, sender, nowMs, metadata, None)]
    {
      var newMessage := ChatMessage(text, sender, nowMs, metadata, None);
      messages := messages + [newMessage];
      PersistHistory();
    }

    /** `handleFeedback`: rate the messages sharing the target's timestamp and show the
        notice, whatever becomes of the POST to the feedback webhook. */
    method HandleFeedback(message: ChatMessage, sentiment: string)
      requires Valid()
      modifies this`messages, this`storedHistory, this`notification
      ensures Valid()
      ensures messages == WithFeedback(old(messages), message.timestamp, sentiment)
      ensures notification == Some(FEEDBACK_NOTICE)
    {
      messages := WithFeedback(messages, message.timestamp, sentiment);
      notification := Some(FEEDBACK_NOTICE);
      PersistHistory();
    }

    /** `handleClearChat`: with the dialog confirmed the list is emptied (and the effect
        writes the empty window back); otherwise nothing changes. */
    method HandleClearChat(confirmed: bool)
      requires Valid()
      modifies this`messages, this`storedHistory
      ensures Valid()
      ensures confirmed ==> messages == [] && storedHistory == Some([])
      ensures !confirmed ==> messages == old(messages) && storedHistory == old(storedHistory)
      ensures conversationId == old(conversationId)
    {
      if confirmed {
        messages := [];
        storedHistory := None;  // removeItem('chatHistory')
        PersistHistory();
      }
    }

    /** The `setLoading` the drawer receives. */
    method SetLoading(value: bool)
      modifies this`isLoading
      ensures isLoading == value
      ensures messages == old(messages) && storedHistory == old(storedHistory)
      ensures conversationId == old(conversationId)
      ensures old(Valid()) ==> Valid()
    {
      isLoading := value;
    }

    /** Closing the notification. */
    method DismissNotification()
      modifies this`notification
      ensures notification == None
      ensures messages == old(messages) && storedHistory == old(storedHistory)
      ensures conversationId == old(conversationId)
      ensures old(Valid()) ==> Valid()
    {
      notification := None;
    }
  }
}
