# Harmoni.ai — the real-time and chat core, in Dafny

Harmoni.ai is a wellbeing web app with a React front end and a Django back end. This
project models its messaging core and proves properties of the model:

- **`SocketServiceModel`** (`src/pages/socketService.ts`) — the reconnecting WebSocket
  manager. It keeps one current socket and an ordered listener list, fans messages out to
  the listeners, retries after a close with linear backoff (3 s, 6 s, … 15 s) and stops
  after 5 retries. An open resets the counter.
- **`Resolve`** (`src/pages/Resolve.tsx`) — the conflict-resolution room page. It joins a
  room over a WebSocket, keeps a connected flag and an append-only log from socket events,
  sends chat text and mediation requests, and labels and places each message.
- **`RoomAddress`** — the room address the page builds (`{endpoint}{room}/{user}/{name}`)
  and how its parts are read back.
- **`Chat`** (`src/pages/Chat.tsx`) — the resolution chat page. It keeps one current socket:
  opening a resolution closes the previous socket before it opens a new one. It also keeps an
  append-only log, and sends without checking the socket's state.
- **`Meditation`** (`src/pages/Meditation.tsx`) — the meditation chat. It keeps a log
  capped at 50 entries and sends the earlier log as history. A reply or an apology is
  appended, and errors are surfaced.
- **`MeditationViews`** (`backend/meditation/views.py`) — `get_ai_response` (format the
  history, pick the last assistant reply, fall back on failure) and the `add_message`
  action.
- **`Needs`** (`src/pages/needs.tsx`) — `getData`, the selector between the two configured
  backend addresses.
- **`Text`**, **`Transport`**, **`Options`** — support modules:
  - `Text` models JavaScript's `trim` as used in the blank-input guards.
  - `Transport` models a browser WebSocket's ready states, with what `send` and `close` do
    in each.
  - `Options` holds `Option`.

State that the source mutates in place is a Dafny `class`. The page components' React state
and refs become fields, and so do the service's private fields. Handlers and event callbacks
are methods whose `ensures` give the whole new state.

The browser's sockets are a sequence `conns`: every socket the page or service created, with
its state. The current-socket ref is an index into that sequence. This lets the model say
what happens to an old socket that the code overwrote without closing. Events are methods
too: open, message, close and a firing retry timer. Each one's `requires` states the ready
state in which the browser can deliver that event.

Network results are parameters:
- the outcome of a `fetch` or a `requests.post`;
- whether `new WebSocket(url)` throws;
- the message a socket delivers;
- which socket-service listener, if any, throws when it is called.

### Where the code keeps more than one connection alive

The model follows the code, which in two places does not give one connection at a time:

- `connect` does not close the socket it replaces (`socketService.ts:22`). Two sockets can
  be OPEN at once, and both keep delivering to the listeners.
  - `SocketServiceModel.ConnectLeavesOldSocketOpen` exhibits this.
- `disconnect` does not stop the retry. The close event it causes runs `reconnect` like any
  other close (`socketService.ts:38-41`).
  - `SocketServiceModel.DisconnectStillRetries` exhibits a retry to the same address 3
    seconds later.

The backoff is linear. The delay uses the counter after its increment, so
the first retry waits 3000 ms. `SocketServiceModel.BackoffSchedule` gives the whole
schedule. `SocketServiceModel.RetriesRunOut` exhibits the cap, and `SocketServiceModel.OpenResetsRetries`
the reset by an open after it.

### Other behaviour the proofs make explicit

- **Room addresses.** The room id is put into the address unencoded
  (`Resolve.tsx:30`). A room id that holds a `/` gives the same address as a different
  (room, user, name) triple (`RoomAddress.SlashInRoomIdIsAmbiguous`).
- **The backend request URL.** `NGROK_URL` already ends in `/`, so the backend posts to
  `…app//chat/` (`MeditationViews.RequestPathHasDoubleSlash`).
- **The Chat page's send.** `handleSendMessage` checks only that a socket exists
  (`Chat.tsx:77`).
  - While that socket is still connecting, `send` throws and the input is kept.
  - After it was closed, the message is silently dropped and the input is cleared.
  - `Chat.ChatPage.HandleSendMessage` states both cases.

## Model

| member | source | states |
|---|---|---|
| Needs.GetData | src/pages/needs.tsx:7-9 | the meditation API address exactly for the argument "api", the conflict WebSocket address exactly for every other argument |
| Needs.ConflictUrlShape | src/pages/needs.tsx:2-5 | the WebSocket address ends in `/ws/conflict/` |
| Text.TrimStart | src/pages/Resolve.tsx:23 | the result is a suffix of the input that does not start with whitespace, and everything dropped is whitespace |
| Text.TrimEnd | src/pages/Resolve.tsx:23 | the result is a prefix of the input that does not end with whitespace, and everything dropped is whitespace |
| Text.IsBlank | src/pages/Resolve.tsx:23 | the guard's notion of blank; `Text.BlankIffTrimEmpty` ties it to `trim()` returning the empty string |
| Text.Trim | src/pages/Resolve.tsx:23 | the trimmed string is the contiguous piece of the input left after dropping its leading and trailing whitespace (all of which is whitespace), and it neither starts nor ends with whitespace |
| Text.BlankIffTrimEmpty | src/pages/Resolve.tsx:23 | `s.trim()` is empty (the guard `!s.trim()` fires) exactly when every character of `s` is whitespace |
| Transport.SendResult | src/pages/Chat.tsx:86 | `send` transmits exactly when the socket is OPEN and throws exactly when it is CONNECTING; otherwise it drops the data |
| Transport.AfterClose | src/pages/socketService.ts:69-74 | after `close()` a socket is neither OPEN nor CONNECTING, and it is CLOSED only if it already was |
| SocketServiceModel.Backoff | src/pages/socketService.ts:45-51 | the k-th retry since the last open waits 3000·k ms |
| SocketServiceModel.BackoffSchedule | src/pages/socketService.ts:45-51 | the five allowed retries wait 3, 6, 9, 12 and 15 seconds |
| SocketServiceModel.Without | src/pages/socketService.ts:64-66 | the unsubscribe filter removes the listener and keeps every other registered listener, adding none |
| SocketServiceModel.WithoutConcat | src/pages/socketService.ts:65 | filtering a concatenation concatenates the filtered parts, so order is kept |
| SocketServiceModel.WithoutCounts | src/pages/socketService.ts:65 | every other listener keeps its number of registrations; the removed one keeps none |
| SocketServiceModel.WithoutAbsent | src/pages/socketService.ts:65 | filtering out a listener that is not registered changes nothing |
| SocketServiceModel.UnsubscribeUndoesAdd | src/pages/socketService.ts:62-67 | the closure from `addListener` restores the list from before the add, when the listener was not already registered |
| SocketServiceModel.Fanout | src/pages/socketService.ts:30-32 | when no listener throws, a message reaches each listener once per registration, in list order, and nobody else |
| SocketServiceModel.FanoutPrefix | src/pages/socketService.ts:31 | the calls made before a throwing listener ends the `forEach` are the start of the full fan-out |
| SocketServiceModel.UnsubscribedGetsNothing | src/pages/socketService.ts:30-32 | after unsubscribing, a listener receives no message |
| SocketServiceModel.Settle | src/pages/socketService.ts:27 | resolving a pending promise settles it; resolving a settled one has no effect |
| SocketServiceModel.SocketService.constructor | src/pages/socketService.ts:2-10 | no socket, no listeners, empty address, counter 0 |
| SocketServiceModel.SocketService.Connect | src/pages/socketService.ts:19-43 | stores the address; adds a CONNECTING socket, makes it current and returns its pending promise; the old socket is not closed; if the constructor throws, the promise is rejected and the current socket is kept |
| SocketServiceModel.SocketService.OnOpen | src/pages/socketService.ts:24-28 | the counter returns to 0 and that socket's promise resolves to true |
| SocketServiceModel.SocketService.OnMessage | src/pages/socketService.ts:30-32 | with no throwing listener, the deliveries are exactly one per registration, in list order; when the listener at position t throws, only the first t+1 are called; nothing else changes |
| SocketServiceModel.SocketService.Reconnect | src/pages/socketService.ts:45-51 | below 5, increments the counter and schedules one retry 3000·counter ms out; at 5, does nothing |
| SocketServiceModel.SocketService.OnClose | src/pages/socketService.ts:38-41 | any close marks the socket CLOSED and runs `reconnect`; the current socket is not cleared |
| SocketServiceModel.SocketService.OnRetryTimer | src/pages/socketService.ts:49 | a scheduled retry connects to the address stored when it fires; one more promise is created, rejected if the constructor throws and pending otherwise |
| SocketServiceModel.SocketService.Send | src/pages/socketService.ts:53-60 | transmits and returns true exactly when a current socket exists and is OPEN |
| SocketServiceModel.SocketService.AddListener | src/pages/socketService.ts:62-67 | appends the listener and returns the closure that unsubscribes it |
| SocketServiceModel.SocketService.CallUnsubscribe | src/pages/socketService.ts:64-66 | removes every registration of that listener and keeps the rest in order |
| SocketServiceModel.SocketService.Disconnect | src/pages/socketService.ts:69-74 | closes the current socket and clears the handle; listeners, address, counter and pending retries stay |
| RoomAddress.RoomUrl | src/pages/Resolve.tsx:30 | the address starts with the endpoint and adds exactly the three parts and two slashes; `RoomAddress.RoomUrlRoundTrip` reads the parts back |
| RoomAddress.RoomUrlRoundTrip | src/pages/Resolve.tsx:29-30 | when room id and user id contain no `/`, the three parts can be read back from the address |
| RoomAddress.SlashInRoomIdIsAmbiguous | src/pages/Resolve.tsx:30 | an unencoded room id with `/` makes two different triples give one address |
| RoomAddress.RoomUrlUnderConflictPath | src/pages/Resolve.tsx:29-30 | every room address starts with the conflict WebSocket address |
| Resolve.SenderLabel | src/pages/Resolve.tsx:176-178 | the label is never empty; it is the non-empty `user_name` when there is one, otherwise Mediator exactly for the mediator's id, else System exactly for `'system'` and Unknown for every other id |
| Resolve.Alignment | src/pages/Resolve.tsx:163-165 | right exactly for the page's own id, centre exactly for the mediator's id when that is not the page's own, left otherwise |
| Resolve.NoticeRendering | src/pages/Resolve.tsx:15-57 | the page's own notices show as System, on the left, since the user id starts with `user_` |
| Resolve.ResolvePage.constructor | src/pages/Resolve.tsx:11-19 | given a user id with the `user_` prefix the page generates, empty inputs and log, not connected, no error, no socket |
| Resolve.ResolvePage.SetRoomId | src/pages/Resolve.tsx:119 | the room-id field takes the typed value |
| Resolve.ResolvePage.SetUserName | src/pages/Resolve.tsx:129 | the name field takes the typed value |
| Resolve.ResolvePage.SetInputMessage | src/pages/Resolve.tsx:193 | the message field takes the typed value |
| Resolve.ResolvePage.ConnectToRoom | src/pages/Resolve.tsx:22-69 | blank room id or name: the missing-fields error, nothing opened; else the error is cleared and a socket for the room address becomes current, the old one not closed; a constructor throw sets the connect error and keeps the ref |
| Resolve.ResolvePage.OnOpen | src/pages/Resolve.tsx:35-43 | connected, plus one notice naming the room the socket was opened for |
| Resolve.ResolvePage.OnMessage | src/pages/Resolve.tsx:45-48 | the message is appended to the log |
| Resolve.ResolvePage.OnClose | src/pages/Resolve.tsx:50-58 | not connected, plus one disconnect notice, whichever socket closed |
| Resolve.ResolvePage.OnError | src/pages/Resolve.tsx:60-63 | only the error text changes |
| Resolve.ResolvePage.SendMessage | src/pages/Resolve.tsx:72-80 | sends the untrimmed input and clears it exactly when the input is non-blank and the current socket is OPEN; otherwise nothing changes |
| Resolve.ResolvePage.RequestMediation | src/pages/Resolve.tsx:83-88 | sends a mediation request exactly when the current socket is OPEN |
| Resolve.ResolvePage.Disconnect | src/pages/Resolve.tsx:91-104 | closes the current socket and keeps the ref pointing at it |
| Chat.IsRightAligned | src/pages/Chat.tsx:152 | the alignment test; `Chat.OwnMessagesRightAligned` states what it decides |
| Chat.OwnMessagesRightAligned | src/pages/Chat.tsx:152-157 | a message is on the right exactly when its sender's id is the current user's, whatever the name |
| Chat.ChatPage.constructor | src/pages/Chat.tsx:24-31 | default user, list view, empty log and input, no resolution, no socket |
| Chat.ChatPage.OpenChat | src/pages/Chat.tsx:51-57 | closes the current socket if any, then opens `ws://localhost:8000/ws/{id}` and makes it current; view unchanged; if the constructor throws, the old socket stays closed and current and no socket is added |
| Chat.ChatPage.OnOpen | src/pages/Chat.tsx:59-63 | shows the chat of the resolution that socket was opened for |
| Chat.ChatPage.OnMessage | src/pages/Chat.tsx:65-68 | the message is appended to the log, whichever socket it came from |
| Chat.ChatPage.OnClose | src/pages/Chat.tsx:70-72 | only the socket's state changes |
| Chat.ChatPage.SetNewMessage | src/pages/Chat.tsx:175 | the input takes the typed value |
| Chat.ChatPage.HandleSendMessage | src/pages/Chat.tsx:75-88 | with a non-blank input and any socket: transmitted when OPEN, thrown while CONNECTING (input kept), dropped when closing or closed; the input is cleared unless it threw; not added to the local log |
| Chat.ChatPage.BackToList | src/pages/Chat.tsx:141 | shows the list; socket and log are kept |
| Chat.ChatPage.Unmount | src/pages/Chat.tsx:96-100 | closes the current socket if any |
| Meditation.LastEntries | src/pages/Meditation.tsx:37 | `slice(-50)` keeps a log of 50 or fewer unchanged and otherwise keeps exactly its last 50 entries |
| Meditation.Append | src/pages/Meditation.tsx:37 | the appended entry is last, the length is one more up to 50, and only the oldest entries are dropped |
| Meditation.AppendKeepsLastEntries | src/pages/Meditation.tsx:71 | capping after every append equals keeping the last 50 of everything appended |
| Meditation.ToHistory | src/pages/Meditation.tsx:43-46 | the history has one item per log entry, in order, CHATBOT exactly for AI entries |
| Meditation.ErrorText | src/pages/Meditation.tsx:61-62 | the error is `detail` when that is non-empty and "API request failed" when it is absent or empty |
| Meditation.Reply | src/pages/Meditation.tsx:65-82 | the appended entry is the AI's; its text is the response on success and the apology on any failure |
| Meditation.Displayed | src/pages/Meditation.tsx:113 | the newest entry's text, or the welcome line when the log is empty |
| Meditation.DisplaysReply | src/pages/Meditation.tsx:113 | after an exchange the page shows the reply or the apology |
| Meditation.MeditationPage.constructor | src/pages/Meditation.tsx:11-21 | a single greeting from the AI, nothing loading, no error |
| Meditation.MeditationPage.SetInputMessage | src/pages/Meditation.tsx:123 | the input takes the typed value |
| Meditation.MeditationPage.ToggleChatLog | src/pages/Meditation.tsx:93 | the chat log panel's visibility flips |
| Meditation.MeditationPage.Submit | src/pages/Meditation.tsx:23-58 | blank input: nothing; else the error is cleared, the input emptied, the message appended (capped), loading set, and the request carries the message and the history of the log before the append |
| Meditation.MeditationPage.Complete | src/pages/Meditation.tsx:60-85 | appends the reply or the apology, sets the error on failure (detail, fallback or thrown message), and always ends loading |
| MeditationViews.FormatHistory | backend/meditation/views.py:17-20 | one formatted item per stored message, at the same position |
| MeditationViews.FormatRoles | backend/meditation/views.py:18 | role is `assistant` exactly for AI messages and `user` exactly for the rest; content unchanged |
| MeditationViews.AssistantContents | backend/meditation/views.py:29 | `ai_messages`; `MeditationViews.AssistantContentsEmpty` and `MeditationViews.ReplyIsLastAssistant` state what it selects |
| MeditationViews.AssistantContentsConcat | backend/meditation/views.py:29 | selecting assistant contents works piecewise over a concatenation |
| MeditationViews.AssistantContentsEmpty | backend/meditation/views.py:29-30 | `ai_messages` is empty exactly when no answer item has role `assistant` |
| MeditationViews.RequestFor | backend/meditation/views.py:22-26 | the request goes to `{NGROK_URL}/chat/` and carries the user input and the whole stored history, each message formatted at its own position |
| MeditationViews.RequestPathHasDoubleSlash | backend/meditation/views.py:11-23 | the request address ends in `//chat/` |
| MeditationViews.GetAiResponse | backend/meditation/views.py:15-33 | non-ok status: "AI is unavailable."; request exception: "AI is unreachable at the moment."; success without assistant items: "No response from AI." |
| MeditationViews.ReplyIsLastAssistant | backend/meditation/views.py:29-30 | on success the reply is the content of the last item whose role is `assistant` |
| MeditationViews.NoAssistantReply | backend/meditation/views.py:29-30 | on success with no assistant item, the reply is the fallback text |
| MeditationViews.SessionMessages.constructor | backend/meditation/views.py:44-45 | a new session has no messages |
| MeditationViews.SessionMessages.AddMessage | backend/meditation/views.py:47-65 | stores the message (empty when absent) as a user message, asks the AI with a history that includes it, stores the reply as an AI message, and returns both |
| MeditationViews.HistoryEndsWithNewMessage | backend/meditation/views.py:52-57 | the history sent in `add_message` ends with the new message, as a `user` item |

## Left out

- Console logging, the `onerror` handler of `SocketService` (it only logs), CSS classes, colours and scrolling: these have no effect on state.
- `SocketService.getInstance`: it is a singleton accessor. The model works on one `SocketService` object, which stands for the instance.
- JSON serialisation and parsing are left out, for two reasons:
  - messages are modelled as already-parsed values;
  - `SocketService.send` is given the serialised text.
  - A socket message that is not valid JSON throws inside the handler and is not modelled.
- `encodeURIComponent` is a parameter of the Resolve page (`encode`). The random user id is a constructor parameter.
- Timestamps (`new Date()`, `Date.now()`) are not modelled, because they are clock reads. The Chat message id is a parameter of `HandleSendMessage`.
- The Chat page's hard-coded sample resolution list and the unused new-resolution view are not modelled: they are display data with no behaviour.
- Home, About, Navbar, the users app and the Django model and serializer definitions are not part of this model. `add_message` is modelled over a session's message sequence in creation order; authentication and `get_object` are out of scope.
- `MeditationViews.GetAiResponse` has three limits:
  - A successful answer without `chat_history`, or with an assistant item that has no `content`, raises a KeyError that escapes the view. This is not modelled: the answer is given as parsed entries.
  - A body that is not JSON is covered by `RequestError`. This assumes `requests` 2.27 or later, where the JSON error is a `RequestException`; with older versions a `ValueError` escapes the view.
  - The ensures does not restate the success-with-reply case; `ReplyIsLastAssistant` states it.
- `MeditationViews.AssistantContents`: its own contract is empty. What it selects is stated by `AssistantContentsEmpty` and `ReplyIsLastAssistant`, because a length bound in its ensures makes the concatenation lemma too costly for the solver.
- `Meditation.MeditationPage.Submit`: requires that no request is in flight. While loading, the input and the send button are disabled (`Meditation.tsx:126,131`), so a second submit cannot start.
- `Meditation.MeditationPage.Complete`: has three limits:
  - an ok response whose body has no `response` field would append `undefined`; this is not modelled;
  - neither is a thrown value that is not an `Error` ("Request failed"), which `fetch` does not produce;
  - React's batching of state updates is not modelled: each handler's updates are applied in order.
- The WebSocket protocol itself is modelled by ready state alone: handshakes, close codes, buffering and the timing of events are not modelled.
- `setTimeout` is modelled as a count of pending retries plus the last delay; the wall clock is not modelled.
