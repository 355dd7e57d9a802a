# hexaa-chatbot core in Dafny

This project models the logic of the hexaa-chatbot support widget and proves
properties of it. The system has two halves:

- **The chat-memory endpoint** (`api/chat-memory.js`) is a serverless handler that
  keeps each conversation in Redis under `chat:<conversationId>`.
  - `chat` appends a user entry and a canned, numbered assistant reply, keeps the
    last 20 entries and sets a 24-hour expiry.
  - `get` returns the history and the number of user entries in it.
  - `clear` deletes the key.
- **The React client** (`react-chat-app/src`) holds the message lists and their
  rules:
  - `ChatInput.js` digs the reply text out of whatever JSON the n8n webhook returns.
  - `App.js` keeps the page's message list, rates messages and stores the last 20
    in the session.
  - `ChatInterface.js` loads, sends and clears against the chat-memory webhook.
  - `ChatDrawer.js` derives the endpoints, enables the header buttons, and
    dispatches escalation options and the clear-chat flow.
  - `MetricsDashboard.js` folds the analytics rows into four counters.

Stateful parts are classes whose methods change fields:
- the Redis store, `ChatMemory.Redis`;
- the chat panel, `ChatInput.Widget`;
- the page, `App.AppState`;
- the chat page, `ChatInterface.ChatWindow`.

Each method is specified against pure functions of the old state. The properties
are proved about those functions as lemmas.

Supporting modules:
- `Json` is a JavaScript value with `undefined`, truthiness, `?.` and `||`.
- `Strings` holds the decimal rendering of `Date.now()`, `trim`, `indexOf` and
  `replace` with a string pattern.
- `Slices` holds `slice(0, n)` and `slice(-n)`.
- `Optional` is the usual Option type.

## Model

| member | source | states |
|---|---|---|
| ChatMemory.Redis.Get | api/chat-memory.js:88 | `GET` yields the stored value exactly when the key is present |
| ChatMemory.Redis.SetEx | api/chat-memory.js:121 | `SETEX` replaces the key's value and expiry and leaves every other key as it was |
| ChatMemory.Redis.Del | api/chat-memory.js:158 | `DEL` removes the key and leaves every other key as it was |
| ChatMemory.GeneratedId | api/chat-memory.js:58 | the generated id is `conv_` followed by the decimal digits of the current time |
| ChatMemory.ConversationIdOf | api/chat-memory.js:58 | a non-empty request id is kept; a missing one is replaced by the generated id; the result is never empty |
| ChatMemory.KeyOfInjective | api/chat-memory.js:63 | every key starts with `chat:`, and two conversations share a key only if their ids are equal |
| ChatMemory.KeyOf | api/chat-memory.js:63 | the key is `chat:` followed by the conversation id, and nothing else |
| ChatMemory.ActionOf | api/chat-memory.js:60 | a missing action means `chat`; a present action is kept |
| ChatMemory.HistoryOf | api/chat-memory.js:86-94 | a missing, empty or unparsable stored value is the empty history; a parsed one is its entries |
| ChatMemory.UserCount | api/chat-memory.js:126 | the count of `user` entries is at most the length, and is 0 exactly when no entry is a user entry |
| ChatMemory.UserCountAppend | api/chat-memory.js:126 | the user count of a concatenation is the sum of the counts |
| ChatMemory.Templates | api/chat-memory.js:30-34 | there are three different canned replies, each ending with the user's message in double quotes |
| ChatMemory.BotReply | api/chat-memory.js:28-40 | the reply is the picked template followed by the sentence numbering it with the prior user count plus one |
| ChatMemory.NextHistory | api/chat-memory.js:97-118 | the stored history holds between 2 and 20 entries (what they are is stated by NextHistoryWindow) |
| ChatMemory.NumberSentenceInjective | api/chat-memory.js:39 | the printed message number determines the number printed |
| ChatMemory.ReplyRevealsUserCount | api/chat-memory.js:36-39 | for the same message and pick, two replies are equal exactly when the prior user counts are equal |
| ChatMemory.NextHistoryIsTruncation | api/chat-memory.js:114-118 | the stored history is the extended one when it has at most 20 entries, and its last 20 otherwise |
| ChatMemory.NextHistoryWindow | api/chat-memory.js:103-118 | the stored history is a suffix of old ++ [user, assistant] of 2 to 20 entries that ends with that pair; nothing is dropped while there is room, and the window is full otherwise |
| ChatMemory.PairedUserCount | api/chat-memory.js:114 | in a history of whole user/assistant turns exactly half the entries are user entries |
| ChatMemory.PairedDropEven | api/chat-memory.js:117 | dropping an even number of leading entries keeps whole turns |
| ChatMemory.PairedAppendTurn | api/chat-memory.js:97-112 | appending a user entry and then an assistant entry keeps whole turns |
| ChatMemory.ChatKeepsTurns | api/chat-memory.js:114-121 | if the stored history was whole turns, the new one is too, so it holds at most 10 user entries |
| ChatMemory.CountAfterTurn | api/chat-memory.js:97-112 | one turn adds exactly one user entry |
| ChatMemory.CountMatchesAnnouncedNumber | api/chat-memory.js:37-39 | while the window has room, the returned `historyCount` equals the number the reply announces |
| ChatMemory.AnnouncedNumberSaturates | api/chat-memory.js:114-118 | once 10 whole turns are stored, every later reply announces message #11 and the history stays at 10 turns |
| ChatMemory.WellFormedAfterWrite | api/chat-memory.js:121 | writing a whole-turn history of at most 20 entries keeps every stored history well formed |
| ChatMemory.WellFormedAfterDelete | api/chat-memory.js:158 | deleting a key keeps every stored history well formed |
| ChatMemory.HandleChat | api/chat-memory.js:84-129 | stores exactly NextHistory of the old history with a 86400-second expiry, and answers 200 with the reply and the user count of what it stored; a rejected write answers 500 and changes nothing; well-formedness is preserved |
| ChatMemory.HandleGet | api/chat-memory.js:131-154 | answers 200 with the stored history (or [] if absent or unparsable) and its user count, and the message for each case; the store is not touched |
| ChatMemory.HandleClear | api/chat-memory.js:156-175 | deletes the key and answers 200 with `success`, or answers 500 with `error` and changes nothing when the delete rejects |
| ChatMemory.Handle | api/chat-memory.js:42-82 | OPTIONS gives 200 with no body; any other non-POST method gives 405; a POST without a body gives 500. An unknown action gives 400; none of these paths, nor `get` or a rejected write, changes any value or expiry in the store; `chat` and `clear` change only the value and expiry of `chat:<id>`, as above; well-formedness is preserved |
| ChatMemory.ClearThenGet | api/chat-memory.js:131-165 | after a successful `clear`, a `get` on the same id returns an empty history with `historyCount` 0 |
| Strings.Decimal | api/chat-memory.js:58 | the decimal rendering of a number is non-empty, all digits, and has no leading zero |
| Strings.DecimalRoundTrip | api/chat-memory.js:58 | reading the digits back gives the number |
| Strings.Trim | react-chat-app/src/ChatInput.js:111 | `trim()` is a contiguous part of the string, starting where the leading white space ends, with no white space at either end |
| Strings.TrimDropsSpace | react-chat-app/src/ChatInput.js:111 | everything `trim()` drops, before and after what it keeps, is white space |
| Strings.TrimEmptyIffBlank | react-chat-app/src/ChatInput.js:111 | `trim()` yields "" exactly for the strings made only of white space |
| Strings.Utf16Length | react-chat-app/src/ChatInput.js:101 | `length` counts UTF-16 code units: at least one and at most two per character |
| Strings.Utf16LengthIsSize | react-chat-app/src/ChatInput.js:101 | `length` equals the number of characters exactly when none lies outside the Basic Multilingual Plane |
| Strings.IndexOf | react-chat-app/src/ChatDrawer.js:17-18 | `indexOf` finds the first occurrence, and finds none only when there is none |
| Strings.ReplaceFirst | react-chat-app/src/ChatDrawer.js:17-18 | `replace` with a string pattern changes only the first occurrence, and nothing when the pattern is absent |
| Json.Prop | react-chat-app/src/ChatInput.js:149 | `v?.key` is defined exactly when v is an object holding the key, and then it is that field |
| Json.Or | react-chat-app/src/ChatInput.js:149 | `a \|\| b` is truthy exactly when either is; it is a when a is truthy and b otherwise |
| Slices.FirstN | react-chat-app/src/MetricsDashboard.js:101 | `slice(0, n)` is the prefix of length min(n, length) |
| Slices.LastN | api/chat-memory.js:117 | `slice(-n)` is the suffix of length min(n, length) |
| ChatInput.Fallback | react-chat-app/src/ChatInput.js:100-105 | a serialisation whose `length` (UTF-16 code units) is under 200 is shown as `Response: ` followed by it; a longer one gives the fixed "could not extract" text; never falsy |
| ChatInput.FromFirstItem | react-chat-app/src/ChatInput.js:83-92 | the array case throws exactly when the first item is null or undefined; whatever it returns is truthy |
| ChatInput.ExtractMessage | react-chat-app/src/ChatInput.js:58-106 | a falsy reply gives the no-response text; every returned value is truthy; it throws exactly for a non-empty array whose first item is null |
| ChatInput.FirstMatch | react-chat-app/src/ChatInput.js:62-92 | the first candidate passing the test is chosen, and none is chosen only when none passes |
| ChatInput.ObjectPriority | react-chat-app/src/ChatInput.js:62-81 | for an object reply, `message`, `response_message`, `json.response_message`, `json.message`, `text` are tried in that order as non-empty strings; then the `direct_response` fields; then the fallback |
| ChatInput.ArrayPriority | react-chat-app/src/ChatInput.js:83-92 | for an array reply, the first item's `json.response_message`, `json.message`, `json.text`, `response_message`, `message` are tried in that order as truthy values, then the fallback |
| ChatInput.UserMessage | react-chat-app/src/ChatInput.js:116 | the user message carries the typed text, the clock's id and time, and no metadata |
| ChatInput.ErrorMessage | react-chat-app/src/ChatInput.js:155 | the error message is a truthy bot message marked with `type: 'error'` |
| ChatInput.BotMessage | react-chat-app/src/ChatInput.js:142-155 | the bot message is the extracted text with `intent` and `confidence` each taken from the body or else from its `json`, or the error message exactly when the request failed, the body is null or extraction threw; its text is always truthy |
| ChatInput.Widget.constructor | react-chat-app/src/ChatInput.js:6-16 | messages and conversation id come back from localStorage when saved; otherwise the list is empty and a `conv_` id is generated; the effect then writes both back, so localStorage mirrors the state |
| ChatInput.Widget.AddMessage | react-chat-app/src/ChatInput.js:45-55 | exactly one message is appended at the end; earlier ones are unchanged; the effect at lines 27-30 then writes the list and id, so localStorage mirrors the state |
| ChatInput.Widget.HandleSubmit | react-chat-app/src/ChatInput.js:109-159 | blank input changes nothing, localStorage included; otherwise the user message and then exactly one bot message are appended, the input is emptied, loading ends false and localStorage mirrors the new list |
| ChatInput.Widget.AddReply | react-chat-app/src/ChatInput.js:122-158 | exactly the bot message for the reply is appended, and localStorage mirrors the new list |
| ChatInput.Remount | react-chat-app/src/ChatInput.js:6-16 | a mount reads back the saved list, or none, and the saved id; without a saved id it is `conv_` + the mount time; the id is never empty |
| ChatInput.ClearKeepsOldId | react-chat-app/src/ChatInput.js:27-30 | with the file's own writes, the reloaded panel is empty under the id it had before, not under the new one |
| ChatInput.ClearUsesNewId | react-chat-app/src/ChatInput.js:162-172 | when the effect stores the new id, the reloaded panel is empty under the new `conv_` id, whatever was stored before |
| ChatInput.Widget.ClearChat | react-chat-app/src/ChatInput.js:162-172 | nothing changes unless there are messages and the dialog is confirmed; then localStorage holds an empty list and the new `conv_` id, and the panel remounts from it (the intended clear; see Findings) |
| ChatInput.PersistWrites | react-chat-app/src/ChatInput.js:27-30 | whatever localStorage held, after the effect's two writes it holds the list and the id in state |
| ChatInput.PersistThenRemount | react-chat-app/src/ChatInput.js:27-30 | after the effect's writes, a remount reads back exactly the list and id that were in state |
| ChatInput.ClearWritesAsWritten | react-chat-app/src/ChatInput.js:162-172 | `clearChat`'s write of the new id followed by the effect's writes leave an empty list under the id still in state |
| ChatInput.ClearWrites | react-chat-app/src/ChatInput.js:162-172 | with the new id in state, the writes leave an empty list under the new `conv_` id, whatever was stored before |
| App.Persisted | react-chat-app/src/App.js:28-30 | the session copy is a suffix of the list, of length min(20, length) |
| App.PersistedAppend | react-chat-app/src/App.js:28-30 | the window after a send is the window of (old window + new message) |
| App.PersistedIdempotent | react-chat-app/src/App.js:28-30 | the window of the window is the window |
| App.Rate | react-chat-app/src/App.js:45-47 | rating changes only the feedback field, and only of a message with the target timestamp |
| App.WithFeedback | react-chat-app/src/App.js:44-48 | same length and order; the feedback is set on exactly the messages whose timestamp is the target's; the others are unchanged |
| App.FeedbackIdempotent | react-chat-app/src/App.js:44-48 | the same feedback twice gives the same list as once |
| App.FeedbackLastWins | react-chat-app/src/App.js:44-48 | a second rating of the same timestamp replaces the first |
| App.FeedbackCommutesWithPersisted | react-chat-app/src/App.js:28-48 | rating then persisting gives the same session copy as rating the persisted copy |
| App.NewConversationId | react-chat-app/src/App.js:18 | a new id starts with `conv_` |
| App.NewConversationIdInjective | react-chat-app/src/App.js:18 | two new ids are equal only if both the time and the random part are equal |
| App.SessionConversationId | react-chat-app/src/App.js:14-21 | a stored id is returned unchanged; a new id is generated only when none is stored |
| App.AppState.constructor | react-chat-app/src/App.js:14-30 | the id and list come back from the session; the stored id and the window are written |
| App.AppState.HandleSendMessage | react-chat-app/src/App.js:32-40 | one message with the given text, sender, metadata and time is appended; the prefix is unchanged; the session window follows |
| App.AppState.PersistHistory | react-chat-app/src/App.js:28-30 | session storage then holds the last 20 messages of the list (App.Persisted) |
| App.AppState.HandleFeedback | react-chat-app/src/App.js:42-68 | the list becomes WithFeedback of the old one, the notice is shown, and the session window follows |
| App.AppState.HandleClearChat | react-chat-app/src/App.js:70-75 | the list and its session copy are emptied only when confirmed; otherwise nothing changes |
| App.AppState.SetLoading | react-chat-app/src/App.js:151 | only the loading flag changes |
| App.AppState.DismissNotification | react-chat-app/src/App.js:157 | the notification is removed and the list is untouched |
| MetricsDashboard.FoldFrom | react-chat-app/src/MetricsDashboard.js:32-41 | each row adds one to `total` and at most one to the escalated count and to the sentiment counts together |
| MetricsDashboard.TotalsOf | react-chat-app/src/MetricsDashboard.js:32-41 | `total` is the row count; each counter is at most `total`; positive + negative is at most `total`; no rows give all zeros |
| MetricsDashboard.Count | react-chat-app/src/MetricsDashboard.js:35-37 | a count of matching rows is at most the number of rows |
| MetricsDashboard.FoldFromCounts | react-chat-app/src/MetricsDashboard.js:32-41 | the fold adds to its accumulator the row count and the number of escalated, positive and negative rows |
| MetricsDashboard.TotalsMatchCounts | react-chat-app/src/MetricsDashboard.js:32-41 | each counter equals the number of rows that count for it |
| MetricsDashboard.CountConcat | react-chat-app/src/MetricsDashboard.js:32-41 | counts of a concatenation add up |
| MetricsDashboard.TotalsConcat | react-chat-app/src/MetricsDashboard.js:32-41 | the totals of two batches of rows are the sum of their totals |
| MetricsDashboard.Displayed | react-chat-app/src/MetricsDashboard.js:101 | the table shows the first min(50, n) rows, in order |
| MetricsDashboard.TableShorterThanTotals | react-chat-app/src/MetricsDashboard.js:32-101 | the table never shows more rows than the total counts, and shows fewer past 50 rows |
| ChatInterface.WebhookUrl | react-chat-app/src/ChatInterface.js:15-16 | the memory webhook is the configured base, or the local n8n, followed by `/webhook/chat-memory` |
| ChatInterface.InitialConversationId | react-chat-app/src/ChatInterface.js:6-8 | the given id, else the stored one, else `conv_` and the time; never empty |
| ChatInterface.Welcome | react-chat-app/src/ChatInterface.js:62-70 | the welcome message is a non-error bot message with the greeting |
| ChatInterface.ConvertHistory | react-chat-app/src/ChatInterface.js:50-58 | one message per record in order: role `user` becomes a user message and any other role a bot message; `content` becomes the text; `timestamp`, the id `now - index` and metadata `{ historyCount: data.historyCount }` are carried |
| ChatInterface.FromRecord | react-chat-app/src/ChatInterface.js:50-58 | one record as a message: the id `now - index`, user kind iff role `user`, content and timestamp carried, metadata holding the reply's `historyCount`, not an error |
| ChatInterface.ShapeOf | react-chat-app/src/ChatInterface.js:44-58 | a non-null body's `history` is converted exactly when it is a non-empty array of non-null records; a null body always throws |
| ChatInterface.AfterLoad | react-chat-app/src/ChatInterface.js:33-91 | loaded records replace the list; a non-ok status changes nothing; otherwise, including when the fetch fails, the welcome message is installed only into an empty list |
| ChatInterface.WelcomeOnlyIntoEmpty | react-chat-app/src/ChatInterface.js:60-86 | a non-empty list changes only when records were loaded; an empty list gets a message unless the status was not ok |
| ChatInterface.UserMessages | react-chat-app/src/ChatInterface.js:52 | the number of user messages is at most the list length |
| ChatInterface.RecordValues | api/chat-memory.js:146-153 | the `history` array the `get` response carries is one JSON record per stored entry |
| ChatInterface.KindsMatchRoles | react-chat-app/src/ChatInterface.js:52 | lists matching position by position in user-ness have equal user counts |
| ChatInterface.LoadedUserMessagesMatchCount | react-chat-app/src/ChatInterface.js:50-58 | loading a stored history shows one message per entry and exactly as many user messages as the store's `historyCount` |
| ChatInterface.ReplyMessage | react-chat-app/src/ChatInterface.js:166-195 | the bot message carries the reply's message, or the fixed apology when it is falsy; the reply's timestamp, or the time of receipt; metadata with the history count, or 0, the conversation id and the raw count as message number; a failed request or null body gives the error message, stamped with the time of receipt, instead; the text is always truthy |
| ChatInterface.ChattedReplyShown | react-chat-app/src/ChatInterface.js:170-180 | a successful `chat` response from the memory endpoint is shown with the endpoint's own message and count |
| ChatInterface.ShownSources | react-chat-app/src/ChatInterface.js:296 | the first sources in order: all of them when there are at most 3, otherwise exactly 3 |
| ChatInterface.UserMessage | react-chat-app/src/ChatInterface.js:134-139 | the user message has the typed text, the send time as id and timestamp, no metadata, and is not an error |
| ChatInterface.FindById | react-chat-app/src/ChatInterface.js:210 | `find` returns the first message with the id, and nothing only when no message has it |
| ChatInterface.FeedbackCall | react-chat-app/src/ChatInterface.js:208-214 | `onFeedback` is called exactly when the message exists and a handler was given, with the first message bearing the id and `positive`/`negative` |
| ChatInterface.ChatWindow.constructor | react-chat-app/src/ChatInterface.js:6-12 | the id is InitialConversationId and is written to localStorage; the list and input start empty |
| ChatInterface.ChatWindow.SetInput | react-chat-app/src/ChatInterface.js:11 | typing sets the input |
| ChatInterface.ChatWindow.LoadHistory | react-chat-app/src/ChatInterface.js:33-91 | the list becomes AfterLoad of the old list |
| ChatInterface.ChatWindow.ClearHistory | react-chat-app/src/ChatInterface.js:93-129 | on success the list is the welcome message alone under a new stored `conv_` id; on failure an alert is shown and nothing changes |
| ChatInterface.ChatWindow.SendMessage | react-chat-app/src/ChatInterface.js:131-199 | blank input changes nothing; otherwise the user message and then exactly one of the reply or error message are appended, the input is emptied and loading ends false |
| ChatInterface.ClearThenReload | react-chat-app/src/ChatInterface.js:91-129 | a successful clear followed by the reload of an empty conversation leaves the welcome message alone under the new id |
| ChatDrawer.N8nBaseUrl | react-chat-app/src/ChatDrawer.js:15-18 | the first non-empty source in order: the two base variables, the webhook URL with the first `/webhook/answer` and then the first `/webhook/chat-memory` removed, and the API base with the first `/api` removed |
| ChatDrawer.ChatEndpoint | react-chat-app/src/ChatDrawer.js:24-33 | the endpoint is always base + `/webhook-test/answer`, with the local n8n as base when none is set; the remote and localhost branches agree |
| ChatDrawer.ApiBaseUrl | react-chat-app/src/ChatDrawer.js:20 | REACT_APP_API_BASE_URL when set, else NEXT_PUBLIC_API_BASE_URL when set, else `/api`; never empty |
| ChatDrawer.StatusEndpoint | react-chat-app/src/ChatDrawer.js:35-38 | the status endpoint is the API base followed by `/status` |
| ChatDrawer.ReplaceAppended | react-chat-app/src/ChatDrawer.js:17 | removing the first occurrence of a pattern appended to a string without it gives the string back |
| ChatDrawer.AnswerHookNoStraddle | react-chat-app/src/ChatDrawer.js:17 | `/webhook/answer` cannot occur across the end of the base it was appended to |
| ChatDrawer.WebhookUrlYieldsBase | react-chat-app/src/ChatDrawer.js:15-33 | a webhook URL of the form base + `/webhook/answer` yields base, and the chat endpoint is base + `/webhook-test/answer` |
| ChatDrawer.FormatTimestamp | react-chat-app/src/ChatDrawer.js:72-87 | a falsy timestamp gives null; otherwise the rendering |
| ChatDrawer.SummarizeEnabled | react-chat-app/src/ChatDrawer.js:217 | Summarize is enabled exactly when there are at least 3 messages and nothing is loading |
| ChatDrawer.CaseStudiesEnabled | react-chat-app/src/ChatDrawer.js:235 | Case Studies is enabled exactly when nothing is loading |
| ChatDrawer.ClearEnabled | react-chat-app/src/ChatDrawer.js:257 | Clear is enabled exactly when there are messages and nothing is loading |
| ChatDrawer.SummarizeImpliesOthers | react-chat-app/src/ChatDrawer.js:217-257 | whenever Summarize is enabled, so are Clear and Case Studies |
| ChatDrawer.OptionReply | react-chat-app/src/ChatDrawer.js:115-131 | navigate and dismiss send one message and nothing else does: booking text for `book`; for any other destination, "Navigation to " + destination + " is not yet available in this version." with info type; thanks for dismiss |
| ChatDrawer.OptionWindowAction | react-chat-app/src/ChatDrawer.js:115-131 | the `book` destination opens the Calendly link in a new tab, mailto navigates to `mailto:` + destination, and nothing else acts on the window |
| ChatDrawer.OptionEffects | react-chat-app/src/ChatDrawer.js:115-131 | only booking both sends a message and acts on the window; only an unknown action does neither |
| ChatDrawer.HandleOptionClick | react-chat-app/src/ChatDrawer.js:115-131 | the page list gains exactly the option's message, if any, and the window action is returned; only the list and its session copy change |
| ChatDrawer.SendPlaceholder | react-chat-app/src/ChatDrawer.js:89-113 | one bot info message is appended and loading ends false; only the list, its session copy and the loading flag change |
| ChatDrawer.HandleSummarize | react-chat-app/src/ChatDrawer.js:89-100 | exactly the summary placeholder is appended and loading ends false; only the list, its session copy and the loading flag change |
| ChatDrawer.HandleCaseStudies | react-chat-app/src/ChatDrawer.js:102-113 | exactly the case-studies placeholder is appended and loading ends false; only the list, its session copy and the loading flag change |
| ChatDrawer.ClearRequestId | react-chat-app/src/ChatDrawer.js:141 | the clear request carries the conversation id, or `default` when it is empty |
| ChatDrawer.ClearConfirmed | react-chat-app/src/ChatDrawer.js:134-158 | whether the server reply is ok, not ok or throws, App's clear handler runs and loading ends false; only the list, its session copy and the loading flag change |
| ChatDrawer.HandleClearChat | react-chat-app/src/ChatDrawer.js:133-159 | a request is sent exactly when both drawer confirms are given (the button's at lines 252-256 and the handler's); the list is emptied exactly when App's confirm is also given; the outcome of the request makes no difference; only the list, its session copy and the loading flag change |

## Findings

| source | as written | input that shows it | evidently intended | confidence | as-written member | corrected member |
|---|---|---|---|---|---|---|
| react-chat-app/src/ChatInput.js:162-172 | `clearChat` stores the new id and reloads, but `setMessages([])` first fires the effect at lines 27-30, which stores the id still held in state, so the remount at lines 13-16 reads the old id back | a panel with messages under `conv_1`, cleared and confirmed at time 2 | the panel comes back empty under `conv_2`, as the comment on the reload says | medium, not executed; it assumes the effect runs before the reload unloads the page | ChatInput.ClearKeepsOldId | ChatInput.ClearUsesNewId |

## Left out

- Rendering is not modelled: JSX, styles, scrolling, focus, and the Message, MessageList, Notification, TypingIndicator and FloatingActionButton components.
- `fetch`, n8n and `api/status.js` are not modelled. Server replies are method inputs: thrown, not ok, or a parsed JSON value. The status handler only returns constants and the clock.
- The response headers are not modelled: `api/chat-memory.js` sets the same three CORS headers on every response (lines 44-46) before any branch.
- Console logging is not modelled: the `console.error` in the handler's catch (line 79) and the `console.log` for a missing history (line 93) have no effect on the store or the response.
- The ioredis client setup is not modelled. Expiry is recorded as the TTL value written, never enforced.
- A Redis read that rejects is not modelled separately. In `get` it gives the same answer as unparsable data; in `chat` it gives an empty history like a missing key.
- A stored value that parses but is not an array is not modelled. Redis only ever receives the arrays `chat` writes.
- Randomness is an input: the reply pick `Math.floor(Math.random() * 3)`, the base-36 suffix of App's id, and `generateEmbedding`, which nothing calls.
- ChatMemory.HandleChat: one ISO time (`isoTime`) stands for the three `new Date().toISOString()` readings, which are separated by an `await` and may differ by milliseconds.
- Clocks are inputs. `Date.now()` is a natural and ISO or locale times are opaque strings. Within one `map`, every record sees the same clock.
- `JSON.stringify` is abstract: `extractMessage` receives the serialised text as an input.
- `JSON.parse` of a client-side stored list is not modelled; the constructors receive the parsed list.
- Floating-point formatting is not modelled: confidence and score percentages (`* 100`, `toFixed`, `parseFloat`).
- JSON numbers are modelled as integers. The code only tests them for truthiness and equality.
- Storage and window calls are not modelled beyond values: `localStorage`/`sessionStorage` entries are plain fields, and confirms are boolean inputs. `window.open` and `mailto` navigation are returned as a value, `alert` is a returned flag. A page reload is modelled as the remount it causes, reading back what localStorage holds (ChatInput.Remount).
- React's asynchronous state updates are not modelled: each handler is one atomic step, and `loadHistory`'s stale closure over `messages` is read as the current list.
- Three storage effects are folded into the handlers that change what they depend on:
  - App's `sessionStorage` write (App.js:28-30) is `App.AppState.PersistHistory`.
  - The chat panel's `localStorage` write (ChatInput.js:27-30) runs in `ChatInput.Widget.AddMessage`, the constructor and `ClearChat`.
  - ChatInterface's id write (ChatInterface.js:27-29) is the `storedConversationId` field, which the constructor and `ClearHistory` set.
- ChatInterface.ChatWindow.ClearHistory: the `loadHistory` effect that its id change triggers (ChatInterface.js:32-91) is not part of the method. It is `ChatWindow.LoadHistory`, and `ChatInterface.ClearThenReload` composes the two.
- The scroll and focus effects (ChatInput.js:33-42, ChatInterface.js:22-24) are rendering and are not modelled.
- AdminPanel.js and MetricsDashboard's `loadMetrics` fetch are not modelled.
- The knowledge-base status fetch in ChatDrawer.js (lines 44-69) is not modelled: it is a network call whose only effect is a display timestamp.
- ChatDrawer.OptionReply: a non-string `option.destination`, which the template literal would print as `undefined` or similar, is not modelled.
- ChatDrawer.SendPlaceholder: the `catch` branches of `handleSummarize`/`handleCaseStudies` are not modelled, because `onSendMessage` never throws.
- ChatInterface.ShapeOf: a history whose `length` is a numeric string is not modelled. Only numeric or boolean lengths are compared with 0.
- ChatInput.Widget.HandleSubmit and ChatInterface.ChatWindow.SendMessage: the blank test is stated as "only white space" (`Strings.IsBlank`). `Strings.TrimEmptyIffBlank` proves this equals `!input.trim()`.
- ChatInterface.ERROR_TEXT keeps the three characters the file actually holds before the apology (U+201A U+00F9 U+00E5). That is a cross mark emoji whose UTF-8 bytes were decoded in another encoding; the model follows the code.
