/** The side drawer of react-chat-app/src/ChatDrawer.js: where the chat and status
    endpoints come from, the header buttons and when they are enabled, the escalation
    option dispatcher and the clear-chat flow, all acting on the page state of App. */
module ChatDrawer {
  import opened Optional
  import opened Json
  import opened Strings
  import App

  const LOCAL_N8N_URL := "http://localhost:5678"
  const CHAT_PATH := "/webhook-test/answer"
  const ANSWER_HOOK := "/webhook/answer"
  const MEMORY_HOOK := "/webhook/chat-memory"
  const API_SUFFIX := "/api"
  const DEFAULT_API_BASE := "/api"
  const CALENDLY_LINK := "https://calendly.com/your-link"
  const BOOKING_TEXT := "Opening booking calendar..."
  const DISMISS_TEXT := "Thanks! I'm here if you need anything else."
  const SUMMARY_PLACEHOLDER := "Summarization feature is not yet available in this version."
  const CASE_STUDIES_PLACEHOLDER := "Case studies feature is not yet available in this version."
  /** The id sent with the clear request when the page has none. */
  const DEFAULT_CONVERSATION := "default"

  /** The build-time environment; "" stands for a variable that is unset (both are falsy). */
  datatype Env = Env(
    reactN8nBaseUrl: string,
    nextPublicN8nBaseUrl: string,
    reactN8nWebhookUrl: string,
    reactApiBaseUrl: string,
    nextPublicApiBaseUrl: string)

  /** The webhook URL with the first `/webhook/answer` and then the first
      `/webhook/chat-memory` taken out. */
  function StripHooks(url: string): string {
    ReplaceFirst(ReplaceFirst(url, ANSWER_HOOK, ""), MEMORY_HOOK, "")
  }

  /** `N8N_BASE_URL`: the first of the four sources that yields a non-empty string
      ("" when none does). */
  function N8nBaseUrl(env: Env): (r: string)
    ensures env.reactN8nBaseUrl != "" ==> r == env.reactN8nBaseUrl
    ensures env.reactN8nBaseUrl == "" && env.nextPublicN8nBaseUrl != "" ==> r == env.nextPublicN8nBaseUrl
    ensures env.reactN8nBaseUrl == "" && env.nextPublicN8nBaseUrl == "" && StripHooks(env.reactN8nWebhookUrl) != "" ==>
              r == StripHooks(env.reactN8nWebhookUrl)
    ensures env.reactN8nBaseUrl == "" && env.nextPublicN8nBaseUrl == "" && StripHooks(env.reactN8nWebhookUrl) == "" ==>
              r == ReplaceFirst(env.reactApiBaseUrl, API_SUFFIX, "")
  {
    if env.reactN8nBaseUrl != "" then env.reactN8nBaseUrl
    else if env.nextPublicN8nBaseUrl != "" then env.nextPublicN8nBaseUrl
    else if StripHooks(env.reactN8nWebhookUrl) != "" then StripHooks(env.reactN8nWebhookUrl)
    else ReplaceFirst(env.reactApiBaseUrl, API_SUFFIX, "")
  }

  /** `chatEndpoint`: the three branches (remote base, local base, no base) come down to
      "the base when there is one, the local n8n otherwise" followed by the test path. */
  function ChatEndpoint(base: string): (r: string)
    ensures base != "" ==> r == base + CHAT_PATH
    ensures base == "" ==> r == LOCAL_N8N_URL + CHAT_PATH
  {
    if base != "" && !Contains(base, "localhost") then base + CHAT_PATH
    else if base != "" && Contains(base, "localhost") then base + CHAT_PATH
    else LOCAL_N8N_URL + CHAT_PATH
  }

  /** `API_BASE_URL`. */
  function ApiBaseUrl(env: Env): (r: string)
    ensures r != ""
    ensures env.reactApiBaseUrl != "" ==> r == env.reactApiBaseUrl
    ensures env.reactApiBaseUrl == "" && env.nextPublicApiBaseUrl != "" ==> r == env.nextPublicApiBaseUrl
    ensures env.reactApiBaseUrl == "" && env.nextPublicApiBaseUrl == "" ==> r == DEFAULT_API_BASE
  {
    if env.reactApiBaseUrl != "" then env.reactApiBaseUrl
    else if env.nextPublicApiBaseUrl != "" then env.nextPublicApiBaseUrl
    else DEFAULT_API_BASE
  }

  /** `API_ENDPOINTS.status`. */
  function StatusEndpoint(env: Env): (r: string)
    ensures |r| > |"/status"| && r[|r| - |"/status"|..] == "/status"
    ensures r[..|r| - |"/status"|] == ApiBaseUrl(env)
  {
    ApiBaseUrl(env) + "/status"
  }

  /** Appending `pat` to a string without it and then replacing the first `pat` gives the
      string back, provided no occurrence straddles the join. */
  lemma ReplaceAppended(base: string, pat: string)
    requires !Contains(base, pat)
    requires forall i :: 0 <= i < |base| < i + |pat| ==> !OccursAt(base + pat, pat, i)
    ensures ReplaceFirst(base + pat, pat, "") == base
  {
    var s := base + pat;
    assert OccursAt(s, pat, |base|) by {
      assert s[|base|..|base| + |pat|] == pat;
    }
    forall i | 0 <= i < |base| && i + |pat| <= |base|
      ensures !OccursAt(s, pat, i)
    {
      assert !OccursAt(base, pat, i);
      assert s[i..i + |pat|] == base[i..i + |pat|];
    }
    assert IndexOf(s, pat) == Some(|base|);
    assert s[..|base|] == base;
  }

  /** No occurrence of `/webhook/answer` straddles the end of a string: its only other
      `/` is at index 8, and a copy shifted there disagrees with it further on. */
  lemma AnswerHookNoStraddle(base: string)
    ensures forall i :: 0 <= i < |base| < i + |ANSWER_HOOK| ==> !OccursAt(base + ANSWER_HOOK, ANSWER_HOOK, i)
  {
    var s := base + ANSWER_HOOK;
    forall i | 0 <= i < |base| < i + |ANSWER_HOOK|
      ensures !OccursAt(s, ANSWER_HOOK, i)
    {
      assert s[|base|] == '/' && s[|base| + 6] == 'o';
    }
  }

  /** A webhook URL built as base + `/webhook/answer` gives `N8N_BASE_URL` == base when
      it is the first source set and base mentions neither hook. */
  lemma WebhookUrlYieldsBase(env: Env, base: string)
    requires env.reactN8nBaseUrl == "" && env.nextPublicN8nBaseUrl == ""
    requires env.reactN8nWebhookUrl == base + ANSWER_HOOK
    requires base != "" && !Contains(base, ANSWER_HOOK) && !Contains(base, MEMORY_HOOK)
    ensures N8nBaseUrl(env) == base
    ensures ChatEndpoint(N8nBaseUrl(env)) == base + CHAT_PATH
  {
    AnswerHookNoStraddle(base);
    ReplaceAppended(base, ANSWER_HOOK);
  }

  /** `formatTimestamp`: null for a falsy timestamp, otherwise the locale rendering
      (given, None when the conversion throws). */
  function FormatTimestamp(timestamp: Value, rendered: Option<string>): (r: Option<string>)
    ensures !Truthy(timestamp) ==> r == None
    ensures Truthy(timestamp) ==> r == rendered
  {
    if !Truthy(timestamp) then None else rendered
  }

  /** The Summarize button: `disabled={messages.length < 3 || isLoading}`. */
  function SummarizeEnabled(messageCount: nat, isLoading: bool): (r: bool)
    ensures r <==> messageCount >= 3 && !isLoading
  {
    !(messageCount < 3 || isLoading)
  }

  /** The Case Studies button: `disabled={isLoading}`. */
  function CaseStudiesEnabled(isLoading: bool): (r: bool)
    ensures r <==> !isLoading
  {
    !isLoading
  }

  /** The Clear button: `disabled={messages.length === 0 || isLoading}`. */
  function ClearEnabled(messageCount: nat, isLoading: bool): (r: bool)
    ensures r <==> messageCount > 0 && !isLoading
  {
    !(messageCount == 0 || isLoading)
  }

  /** Whenever Summarize can be pressed, so can Clear and Case Studies. */
  lemma SummarizeImpliesOthers(messageCount: nat, isLoading: bool)
    ensures SummarizeEnabled(messageCount, isLoading) ==>
              ClearEnabled(messageCount, isLoading) && CaseStudiesEnabled(isLoading)
  {
  }

  /** An escalation option attached to a bot message. */
  datatype Choice = Choice(action: string, destination: string)

  /** A message the drawer passes to `onSendMessage`. */
  datatype Outgoing = Outgoing(text: string, metadata: map<string, Value>)

  /** What an option does to the browser window. */
  datatype WindowAction = OpenTab(url: string) | Navigate(url: string)

  function InfoMetadata(): map<string, Value> {
    map["type" := Str("info")]
  }

  /** The message `handleOptionClick` sends, if any: booking, the navigation
      placeholder, or the thanks for a dismissal; mailto and unknown actions send none. */
  function OptionReply(choice: Choice): (r: Option<Outgoing>)
    ensures r.Some? <==> choice.action == "navigate" || choice.action == "dismiss"
    ensures choice.action == "navigate" && choice.destination == "book" ==>
              r == Some(Outgoing(BOOKING_TEXT, map[]))
    ensures choice.action == "dismiss" ==> r == Some(Outgoing(DISMISS_TEXT, map[]))
    ensures choice.action == "navigate" && choice.destination != "book" ==>
              r.value.metadata == InfoMetadata() && r.value.text != BOOKING_TEXT
    ensures choice.action == "navigate" && choice.destination != "book" ==>
              r == Some(Outgoing("Navigation to " + choice.destination + " is not yet available in this version.", InfoMetadata()))
  {
    if choice.action == "navigate" then
      if choice.destination == "book" then Some(Outgoing(BOOKING_TEXT, map[]))
      else
        var text := "Navigation to " + choice.destination + " is not yet available in this version.";
        assert text[0] != BOOKING_TEXT[0];
        Some(Outgoing(text, InfoMetadata()))
    else if choice.action == "dismiss" then Some(Outgoing(DISMISS_TEXT, map[]))
    else None
  }

  /** What `handleOptionClick` does to the window: the booking page in a new tab, or a
      mailto navigation. */
  function OptionWindowAction(choice: Choice): (r: Option<WindowAction>)
    ensures r.Some? <==> (choice.action == "navigate" && choice.destination == "book") || choice.action == "mailto"
    ensures r.Some? && r.value.OpenTab? ==> r.value.url == CALENDLY_LINK
    ensures choice.action == "navigate" && choice.destination == "book" ==> r == Some(OpenTab(CALENDLY_LINK))
    ensures choice.action == "mailto" ==> r == Some(Navigate("mailto:" + choice.destination))
  {
    if choice.action == "navigate" && choice.destination == "book" then Some(OpenTab(CALENDLY_LINK))
    else if choice.action == "mailto" then Some(Navigate("mailto:" + choice.destination))
    else None
  }

  /** Every option either sends a message or acts on the window, except an unknown one;
      only the booking option does both. */
  lemma OptionEffects(choice: Choice)
    ensures OptionReply(choice).Some? && OptionWindowAction(choice).Some? <==>
              choice.action == "navigate" && choice.destination == "book"
    ensures OptionReply(choice).None? && OptionWindowAction(choice).None? <==>
              choice.action != "navigate" && choice.action != "dismiss" && choice.action != "mailto"
  {
  }

  /** `handleOptionClick` on the page state: at most one bot message is appended. */
  method HandleOptionClick(app: App.AppState, choice: Choice, nowMs: nat) returns (window: Option<WindowAction>)
    requires app.Valid()
    modifies app`messages, app`isLoading, app`storedHistory
    ensures app.Valid()
    ensures window == OptionWindowAction(choice)
    ensures OptionReply(choice).None? ==> app.messages == old(app.messages)
    ensures OptionReply(choice).Some? ==>
              var o := OptionReply(choice).value;
              app.messages == old(app.messages) + [App.ChatMessage(o.text, "bot", nowMs, o.metadata, None)]
    ensures app.isLoading == old(app.isLoading) && app.conversationId == old(app.conversationId)
  {
    window := OptionWindowAction(choice);
    var reply := OptionReply(choice);
    if reply.Some? {
      app.HandleSendMessage(reply.value.text, "bot", reply.value.metadata, nowMs);
    }
  }

  /** `handleSummarize` and `handleCaseStudies`: loading on, one placeholder message,
      loading off. */
  method SendPlaceholder(app: App.AppState, text: string, nowMs: nat)
    requires app.Valid()
    modifies app`messages, app`isLoading, app`storedHistory
    ensures app.Valid()
    ensures app.messages == old(app.messages) + [App.ChatMessage(text, "bot", nowMs, InfoMetadata(), None)]
    ensures !app.isLoading && app.conversationId == old(app.conversationId)
  {
    app.SetLoading(true);
    app.HandleSendMessage(text, "bot", InfoMetadata(), nowMs);
    app.SetLoading(false);
  }

  method HandleSummarize(app: App.AppState, nowMs: nat)
    requires app.Valid()
    modifies app`messages, app`isLoading, app`storedHistory
    ensures app.Valid()
    ensures app.messages == old(app.messages) + [App.ChatMessage(SUMMARY_PLACEHOLDER, "bot", nowMs, InfoMetadata(), None)]
    ensures !app.isLoading
  {
    SendPlaceholder(app, SUMMARY_PLACEHOLDER, nowMs);
  }

  method HandleCaseStudies(app: App.AppState, nowMs: nat)
    requires app.Valid()
    modifies app`messages, app`isLoading, app`storedHistory
    ensures app.Valid()
    ensures app.messages == old(app.messages) + [App.ChatMessage(CASE_STUDIES_PLACEHOLDER, "bot", nowMs, InfoMetadata(), None)]
    ensures !app.isLoading
  {
    SendPlaceholder(app, CASE_STUDIES_PLACEHOLDER, nowMs);
  }

  /** How the POST that clears the server-side history ended. */
  datatype ServerOutcome = Ok | NotOk | Threw

  /** The id the clear request carries: `conversationId || 'default'`. */
  function ClearRequestId(conversationId: string): (r: string)
    ensures r != ""
    ensures conversationId != "" ==> r == conversationId
    ensures conversationId == "" ==> r == DEFAULT_CONVERSATION
  {
    if conversationId != "" then conversationId else DEFAULT_CONVERSATION
  }

  /** The confirmed part of `handleClearChat`: loading on, the POST, `onClearChat`
      (App's handler, with a confirm of its own) whatever the POST came to, loading off. */
  method ClearConfirmed(app: App.AppState, outcome: ServerOutcome, appConfirmed: bool) returns (sentId: string)
    requires app.Valid()
    modifies app`messages, app`isLoading, app`storedHistory
    ensures app.Valid()
    ensures sentId == ClearRequestId(app.conversationId)
    ensures appConfirmed ==> app.messages == []
    ensures !appConfirmed ==> app.messages == old(app.messages)
    ensures !app.isLoading && app.conversationId == old(app.conversationId)
  {
    app.SetLoading(true);
    sentId := ClearRequestId(app.conversationId);
    // The success path and the `!response.ok`/`catch` path both call `onClearChat`
    // (a failed server call still clears locally), so every outcome ends the same.
    app.HandleClearChat(appConfirmed);
    app.SetLoading(false);
  }

  /** The Clear button: the button's own confirm, then `handleClearChat`'s confirm, then
      the rest as above. Returns the id the request carried, None when none was sent. */
  method HandleClearChat(app: App.AppState, buttonConfirmed: bool, drawerConfirmed: bool,
                         outcome: ServerOutcome, appConfirmed: bool) returns (sentId: Option<string>)
    requires app.Valid()
    modifies app`messages, app`isLoading, app`storedHistory
    ensures app.Valid()
    ensures sentId.Some? <==> buttonConfirmed && drawerConfirmed
    ensures sentId.Some? ==> sentId.value == ClearRequestId(app.conversationId)
    ensures buttonConfirmed && drawerConfirmed && appConfirmed ==> app.messages == []
    ensures !(buttonConfirmed && drawerConfirmed && appConfirmed) ==> app.messages == old(app.messages)
    ensures !(buttonConfirmed && drawerConfirmed) ==> app.isLoading == old(app.isLoading)
    ensures buttonConfirmed && drawerConfirmed ==> !app.isLoading
    ensures app.conversationId == old(app.conversationId)
  {
    if buttonConfirmed && drawerConfirmed {
      var id := ClearConfirmed(app, outcome, appConfirmed);
      sentId := Some(id);
    } else {
      sentId := None;
    }
  }
}
