# CloakTalk realtime session client, modelled in Dafny

CloakTalk pairs students of the same college for anonymous chats, and only during a daily
access window. Its web client keeps the session state in a set of React context providers. Each
provider is a small event-driven state machine:

- server messages arrive on a WebSocket and are dispatched on their `type`;
- user actions go out on the socket, but only while it is open;
- timers drive the heartbeat, the reconnect and the typing auto-stop.

This project models those providers and the decision logic around them, and proves properties
of the model.

| module (file) | models |
|---|---|
| `Wrappers` (wrappers.dfy) | `Option` |
| `JsText` (jstext.dfy) | `String.prototype.trim`, decimal rendering of numbers, `split` / `join` |
| `Protocol` (protocol.dfy) | shared records: chat, message, queue status, tokens; the socket handle; the outbound log; the window notifications |
| `MainSocket` (main_socket.dfy) | `src/contexts/SocketContext.tsx`, the single multiplexed `/ws/main/` socket |
| `ChatSocket` (chat_socket.dfy) | `src/contexts/ChatWebSocketContext.tsx`, the per-chat socket |
| `QueueSocket` (queue_socket.dfy) | `src/contexts/QueueWebSocketContext.tsx`, the queue socket |
| `TwoSocket` (two_socket.dfy) | `src/contexts/WebSocketContext.tsx`, the two-socket provider |
| `TwoSocketLegacy` (two_socket_legacy.dfy) | `src/contexts/WebSocketContext-old.tsx`, the older two-socket provider |
| `Auth` (auth.dfy) | `src/contexts/AuthContext.tsx`: token validation and refresh, the route guard, login and logout |
| `ApiClient` (api_client.dfy) | `src/lib/useAxios.ts`: error normalisation and the single 401 refresh-and-retry |
| `AccessControl` (access_control.dfy) | `src/contexts/AccessControlContext.tsx`: the access check and the fast re-check |
| `Countdown` (countdown.dfy) | `src/app/page.tsx`: `isOpen` and the "next session in" countdown |
| `ChatView` (chat_view.dfy) | `src/components/ChatMain.tsx`: time dividers, grouping and relative-time buckets |

## How the model is built

Each provider is a Dafny `class`.

- **Fields:** one per `useState` / `useRef` cell of the provider.
- **Methods:**
  - one per inbound message kind, socket callback and public operation;
  - a timer firing is a `Fire…` method, called explicitly.
- **Frames:** every method names the exact fields it may change (`modifies this`field`). The contract therefore also says that nothing else changes.

The environment is modelled as data:

- **A socket** is `NoSocket` or `Live(url, state)`, where the state is `Connecting`, `Open` or `Closing`.
- **What the client sends** becomes entries of an outbound log: `Send(action)` or `Close(code)`. `Emit` appends a send only when the socket is open, which is how `readyState === WebSocket.OPEN` is modelled.
- **Timers** are armed flags. Where the source never keeps the timer id, a counter of pending firings replaces the flag (the two-socket reconnect and the active-chat re-check).
- **Window events** (`chatMatched`, `chatEnded`) are entries in a notification log.
- **Router navigations** are entries in a `redirects` or `navigations` log.
- **HTTP, `fetch` and `localStorage`** become parameters such as `ChatFetch`, `UserReply`, `RefreshReply`, `ServerReply` and `Fetched`, or fields such as `stored` and `storage`.
- **Values captured by stale closures** are passed as method parameters:
  - the auth state seen by an old `onclose`;
  - the `currentChat` captured by the older `connectToChat`;
  - the `stopTyping` captured by the chat context's typing timer.

Requirements on the browser callbacks:

- `OnOpen` requires a socket that is still connecting;
- message handlers require an open socket, because a WebSocket delivers messages only while it is open;
- `OnClose` and `OnError` require nothing, because the same closure runs for sockets that are no longer current.

The main provider's reducer also exists as a pure function, `MainSocket.Handle`.
`HandleMessage` is proved to change the class state exactly as `Handle` does. Lemmas about
`HandleAll`, which folds `Handle` over a sequence of events, give closed forms for whole event
traces:

- the transcript: the last chat-setting event, plus the messages pushed after it;
- the typing flag and the queue flag: the last event that touches each one wins;
- the notification log.

Points where the providers behave differently from each other, or from their own comments, and which the model keeps as written:

- **Sender filter on typing:** unlike `ChatWebSocketContext.tsx`, which ignores typing events from the local user, `SocketContext.tsx` sets and clears `otherUserTyping` on every `typing_start` / `typing_stop` without checking the sender.
- **`chat_left` notification:** in `SocketContext.tsx`, `chat_left` raises no notification. Only `chat_ended` raises `chatEnded`.
- **Message sending:** `SocketContext.tsx`'s `sendMessage` and `endChat` do not check for an active chat. They only need an open socket.
- **Closing:** `SocketContext.tsx`'s `onclose` keeps `access`, `activity`, the queue flag and the chat. Only `disconnect` resets them. `disconnect` does not clear the local typing flag.
- **Suppressed error:** the one error text the main provider does not log is exactly `"Not in a chat."`.
- **Typing auto-stop:** the comment at `ChatWebSocketContext.tsx:311` promises an auto-stop after 3 seconds of inactivity, but the timer it arms sends nothing (see Findings).
- **Effect re-runs:** `SocketContext.tsx`'s authentication effect disconnects in its cleanup, so every change of the access token or the user id drops the socket and the session state before reconnecting.

## Model

| member | source | states |
|---|---|---|
| JsText.Trim | src/contexts/SocketContext.tsx:343-352 | the trimmed text is empty exactly when the input is all JavaScript white space; otherwise it starts and ends with non-white-space and is a slice of the input with only white space cut off either side |
| JsText.TrimIdempotent | src/contexts/ChatWebSocketContext.tsx:323-329 | trimming the text that is sent again changes nothing, so the content on the wire is already trimmed |
| JsText.NatToString | src/app/page.tsx:51-53 | the decimal rendering is a non-empty digit string with no leading zero |
| JsText.IntToString | src/contexts/ChatWebSocketContext.tsx:196 | `toString()` of an id, which starts with `-` exactly for negative ids |
| JsText.ParseNatToString | src/app/page.tsx:51-53 | reading the decimal rendering back gives the number again |
| JsText.NatToStringInjective | src/app/page.tsx:51-53 | distinct numbers have distinct renderings |
| JsText.Split | src/app/page.tsx:34-35 | `split` always yields at least one piece |
| JsText.SplitJoin | src/app/page.tsx:55 | splitting a join on the separator gives back the parts, when no part contains the separator |
| Protocol.AppendMessage | src/contexts/SocketContext.tsx:247-254 | with no chat the result is no chat; otherwise the same chat header, one more message, earlier messages unchanged, and the new message last |
| MainSocket.Handle | src/contexts/SocketContext.tsx:206-296 | per event kind: `initial_state` replaces the four snapshots; `chat_matched` installs the chat and leaves the queue; `chat_joined` replaces only the chat; `message` appends; `chat_left` and `chat_ended` clear the chat and the typing flag; typing events set or clear the flag with no sender check; `error`, `pong` and unknown kinds change nothing else; only the error text `"Not in a chat."` is not logged; exactly the event's notification is raised; fields an event does not touch keep their value |
| MainSocket.MainUrl | src/contexts/SocketContext.tsx:120-126 | the URL starts with the base and ends with the access token |
| MainSocket.MainUrlQueryMark | src/contexts/SocketContext.tsx:120-126 | when neither base nor token holds a `?`, the URL has exactly one `?` |
| MainSocket.LastIndex | src/contexts/SocketContext.tsx:206-296 | the index of the last event satisfying a predicate, with no later event satisfying it, or none when no event does |
| MainSocket.TranscriptAfter | src/contexts/SocketContext.tsx:210-260 | after any event trace, the chat is the one set by the last chat-setting event (or the starting chat if there is none), extended by exactly the messages pushed after that event, in order |
| MainSocket.TypingAfter | src/contexts/SocketContext.tsx:242-268 | after any trace, `otherUserTyping` is decided by the last typing, `chat_left` or `chat_ended` event: true iff it was `typing_start` |
| MainSocket.QueueMembershipAfter | src/contexts/SocketContext.tsx:210-234 | after any trace, the queue flag is the one set by the last `initial_state`, `queue_joined`, `queue_left` or `chat_matched` event, else unchanged |
| MainSocket.NotificationsAfter | src/contexts/SocketContext.tsx:227-260 | after any trace, the notifications raised are exactly one `chatMatched` per `chat_matched`, with its chat id, and one `chatEnded` per `chat_ended`, in order |
| MainSocket.MainSocketClient.constructor | src/contexts/SocketContext.tsx:102-118 | all state is at its empty default, with no socket, no timers and empty logs |
| MainSocket.MainSocketClient.SendAction | src/contexts/SocketContext.tsx:315-319 | the action is sent only on an open socket |
| MainSocket.MainSocketClient.Connect | src/contexts/SocketContext.tsx:152-161 | no effect when a socket exists, a connect is in flight, the user is signed out or there is no token; otherwise a socket to `/ws/main/?token=…` is connecting and the in-flight flag is set |
| MainSocket.MainSocketClient.OnOpen | src/contexts/SocketContext.tsx:163-170 | connected, no longer connecting, with the heartbeat armed |
| MainSocket.MainSocketClient.OnError | src/contexts/SocketContext.tsx:181-184 | the in-flight flag is cleared |
| MainSocket.MainSocketClient.OnClose | src/contexts/SocketContext.tsx:186-200 | disconnected, with no socket and the timers cancelled; a reconnect is armed iff the close code is not 1000 and the user is signed in with a token |
| MainSocket.MainSocketClient.HandleMessage | src/contexts/SocketContext.tsx:172-179 | the session state after a message is exactly `Handle` of the state before |
| MainSocket.MainSocketClient.ClearTimers | src/contexts/SocketContext.tsx:129-142 | heartbeat, reconnect and typing timers are all cancelled |
| MainSocket.MainSocketClient.Disconnect | src/contexts/SocketContext.tsx:299-312 | all timers are cancelled and the socket is closed with code 1000 if it existed; access, activity, queue flag, chat, typing flag and both connection flags are reset; the local typing flag and the logs are kept |
| MainSocket.MainSocketClient.SyncWithAuth | src/contexts/SocketContext.tsx:412-423 | from the second run on, the previous run's `disconnect` cleanup comes first, so a changed token or user closes the old socket with 1000 and resets access, activity, queue flag, chat, typing flag, connection flags and timers; signed out, the same reset happens and no socket remains; signed in, a new socket to `/ws/main/?token=<new token>` is connecting unless the `isConnecting` its `connect` saw was set (then no socket remains after a cleanup); on the first run while signed in nothing but the connect changes |
| MainSocket.MainSocketClient.FireHeartbeat | src/contexts/SocketContext.tsx:145-149 | a heartbeat goes out only on an open socket |
| MainSocket.MainSocketClient.FireReconnect | src/contexts/SocketContext.tsx:196-198 | the timer is spent; a new socket for the current token is connecting exactly when `connect`'s guard lets it, and otherwise socket and `isConnecting` are unchanged |
| MainSocket.MainSocketClient.JoinQueue | src/contexts/SocketContext.tsx:323-325 | `join_queue` goes out only on an open socket, with no local update |
| MainSocket.MainSocketClient.LeaveQueue | src/contexts/SocketContext.tsx:327-331 | the queue flag is false even when the socket is not open; `leave_queue` goes out only on an open socket |
| MainSocket.MainSocketClient.JoinChat | src/contexts/SocketContext.tsx:335-337 | `join_chat` with the chat id goes out only on an open socket |
| MainSocket.MainSocketClient.LeaveChat | src/contexts/SocketContext.tsx:339-341 | `leave_chat` goes out only on an open socket |
| MainSocket.MainSocketClient.EndChat | src/contexts/SocketContext.tsx:354-356 | `end_chat` goes out only on an open socket, with no check for a chat |
| MainSocket.MainSocketClient.Refresh | src/contexts/SocketContext.tsx:405-407 | `refresh` goes out only on an open socket |
| MainSocket.MainSocketClient.SendMessage | src/contexts/SocketContext.tsx:343-352 | text that is empty after trimming sends nothing; otherwise the trimmed text is sent, followed by `typing_stop` iff the typing flag was set, and the flag ends cleared |
| MainSocket.MainSocketClient.StartTyping | src/contexts/SocketContext.tsx:360-379 | with no chat nothing happens; otherwise `typing_start` is sent only on the false-to-true edge of the flag, and every call re-arms the timeout |
| MainSocket.MainSocketClient.StopTyping | src/contexts/SocketContext.tsx:381-401 | the flag and the timer end cleared; `typing_stop` is sent iff there is a chat and the flag was set |
| MainSocket.MainSocketClient.FireTypingTimeout | src/contexts/SocketContext.tsx:373-378 | the auto-stop clears the flag and sends `typing_stop` iff the flag was still set |
| ChatSocket.ConnectOutcome | src/contexts/ChatWebSocketContext.tsx:106-133 | no tokens, or a connect already under way, fails; otherwise 404 gives not-found and 403 forbidden, exactly; success exactly for a 2xx answer with a parsable chat; everything else fails |
| ChatSocket.ChatUrl | src/contexts/ChatWebSocketContext.tsx:73-84 | `/ws/chat/<id>/`, with `?token=…` appended exactly when a non-empty token exists |
| ChatSocket.ChatUrlQueryMark | src/contexts/ChatWebSocketContext.tsx:73-84 | when base, chat id and token hold no `?`, the URL has exactly one `?` if a token was appended and none otherwise |
| ChatSocket.IndexOf | src/contexts/ChatWebSocketContext.tsx:211 | `findIndex`: the first position holding the id, or none when no entry holds it |
| ChatSocket.PresenceUpdate | src/contexts/ChatWebSocketContext.tsx:207-227 | the length grows by one exactly when the id was absent; entries for other ids are untouched and every id stays in place; an entry with the new presence exists; unique ids stay unique, and then every entry for the id carries the new presence |
| ChatSocket.ChatSocketClient.constructor | src/contexts/ChatWebSocketContext.tsx:59-69 | all state is at its empty default |
| ChatSocket.ChatSocketClient.ClearTimers | src/contexts/ChatWebSocketContext.tsx:87-96 | typing and heartbeat timers are cancelled |
| ChatSocket.ChatSocketClient.ConnectToChat | src/contexts/ChatWebSocketContext.tsx:106-270 | the result is `error` without a token or while connecting, then `not_found` for 404, `forbidden` for 403, `error` for any other failure or unparsable body, else `connected`; on success any existing socket is closed with 1000 and a new connecting one holds the fetched chat for `onopen`; every other result leaves socket, outbound log, `isConnecting` and the chat held for `onopen` as they were |
| ChatSocket.ChatSocketClient.OnOpen | src/contexts/ChatWebSocketContext.tsx:148-156 | connected, no longer connecting, the fetched chat installed and the heartbeat armed |
| ChatSocket.ChatSocketClient.OnChatMessage | src/contexts/ChatWebSocketContext.tsx:163-168 | the message is appended to the current chat; no chat stays no chat |
| ChatSocket.ChatSocketClient.OnChatEnded | src/contexts/ChatWebSocketContext.tsx:170-186 | the chat is cleared, the socket is closed with 1000 and dropped, disconnected with timers cleared, and `chatEnded` is raised with reason `ended_by_other` |
| ChatSocket.ChatSocketClient.OnParticipantStatus | src/contexts/ChatWebSocketContext.tsx:188-193 | the list is replaced only when `participants` is present |
| ChatSocket.ChatSocketClient.OnTypingStart | src/contexts/ChatWebSocketContext.tsx:195-199 | the peer-typing flag is set only when the sender differs from the local user's id string |
| ChatSocket.ChatSocketClient.OnTypingStop | src/contexts/ChatWebSocketContext.tsx:201-205 | the peer-typing flag is cleared only when the sender differs from the local user's id string |
| ChatSocket.ChatSocketClient.FindParticipant | src/contexts/ChatWebSocketContext.tsx:211 | the loop returns -1 exactly when no participant has the id, else the first index holding it |
| ChatSocket.ChatSocketClient.OnUserPresence | src/contexts/ChatWebSocketContext.tsx:207-227 | the participant list after an update is exactly `PresenceUpdate` of the list before |
| ChatSocket.ChatSocketClient.OnError | src/contexts/ChatWebSocketContext.tsx:242-246 | neither connected nor connecting |
| ChatSocket.ChatSocketClient.OnClose | src/contexts/ChatWebSocketContext.tsx:248-260 | disconnected with no socket and timers cleared; a close other than 1000 clears the chat and the participants, and a 1000 close keeps them |
| ChatSocket.ChatSocketClient.Disconnect | src/contexts/ChatWebSocketContext.tsx:278-292 | timers cleared, the socket closed with 1000 if it existed, the chat, the participants and both typing flags reset |
| ChatSocket.ChatSocketClient.SyncWithAuth | src/contexts/ChatWebSocketContext.tsx:360-364 | without a user or a token: timers cleared, the socket closed with 1000 if it existed and dropped, disconnected, chat, participants and both typing flags reset; with both, no field changes |
| ChatSocket.ChatSocketClient.OnChatMatched | src/contexts/ChatWebSocketContext.tsx:374-385 | a `chatMatched` event without a chat id changes nothing; with one, the state changes exactly as `connectToChat` of that id does |
| ChatSocket.ChatSocketClient.FireHeartbeat | src/contexts/ChatWebSocketContext.tsx:99-103 | a heartbeat goes out only on an open socket |
| ChatSocket.ChatSocketClient.StopTyping | src/contexts/ChatWebSocketContext.tsx:295-305 | `typing_stop` is sent and the flag and timer cleared only on an open socket while typing; otherwise nothing changes |
| ChatSocket.ChatSocketClient.StartTyping | src/contexts/ChatWebSocketContext.tsx:307-320 | `typing_start` is sent and the 3 s timer armed only on an open socket while not typing; otherwise nothing changes |
| ChatSocket.ChatSocketClient.FireTypingTimeout | src/contexts/ChatWebSocketContext.tsx:316-318 | as written, the timer runs a `stopTyping` that saw `isTyping` false, so only the timer itself is spent |
| ChatSocket.ChatSocketClient.FireTypingTimeoutIntended | src/contexts/ChatWebSocketContext.tsx:312-318 | the intended auto-stop: `typing_stop` is sent and the flag cleared iff the socket is open and the user is still typing |
| ChatSocket.ChatSocketClient.SendMessage | src/contexts/ChatWebSocketContext.tsx:323-336 | on an open socket with non-blank text, the trimmed text is sent, followed by `typing_stop` iff typing, typing ends cleared and the typing timer stays armed only if it was armed while not typing (`stopTyping` cancels it); otherwise nothing changes |
| ChatSocket.ChatSocketClient.EndChat | src/contexts/ChatWebSocketContext.tsx:338-357 | on an open socket, `end_chat` is sent before the 1000 close, the chat is cleared, timers cancelled and `chatEnded` raised with `ended_by_user`; on any other socket nothing changes |
| QueueSocket.QueueUrl | src/contexts/QueueWebSocketContext.tsx:59-70 | `/ws/queue/`, with `?token=…` appended exactly when a non-empty token exists |
| QueueSocket.QueueUrlQueryMark | src/contexts/QueueWebSocketContext.tsx:59-70 | when base and token hold no `?`, the URL has exactly one `?` if a token was appended and none otherwise |
| QueueSocket.QueueSocketClient.constructor | src/contexts/QueueWebSocketContext.tsx:47-55 | all state is at its empty default |
| QueueSocket.QueueSocketClient.ClearTimers | src/contexts/QueueWebSocketContext.tsx:73-82 | reconnect and heartbeat timers are cancelled |
| QueueSocket.QueueSocketClient.Connect | src/contexts/QueueWebSocketContext.tsx:92-97 | no effect without a user or a token, or when a socket exists; otherwise a queue socket is connecting |
| QueueSocket.QueueSocketClient.OnOpen | src/contexts/QueueWebSocketContext.tsx:99-108 | connected, with `check_status` sent and the heartbeat armed |
| QueueSocket.QueueSocketClient.OnQueueStatus | src/contexts/QueueWebSocketContext.tsx:114-120 | the status is replaced; the queue flag changes only when `is_in_queue` is a boolean |
| QueueSocket.QueueSocketClient.OnPresenceUpdate | src/contexts/QueueWebSocketContext.tsx:122-127 | the online users are replaced only when `users` is present |
| QueueSocket.QueueSocketClient.OnChatMatched | src/contexts/QueueWebSocketContext.tsx:129-137 | out of the queue, with exactly one `chatMatched` notification carrying the event's chat id |
| QueueSocket.QueueSocketClient.OnUserJoinedQueue | src/contexts/QueueWebSocketContext.tsx:139-148 | only `waiting_count` changes, and only when it is given and a status exists; a missing status stays missing |
| QueueSocket.QueueSocketClient.OnUserLeftQueue | src/contexts/QueueWebSocketContext.tsx:150-162 | out of the queue always; with a count and an existing status, the count is updated and `is_in_queue` becomes false |
| QueueSocket.QueueSocketClient.OnServerError | src/contexts/QueueWebSocketContext.tsx:164-177 | `Already in queue` sets the queue flag and sends `check_status`; `Not in queue` clears it; any other text changes nothing |
| QueueSocket.QueueSocketClient.OnError | src/contexts/QueueWebSocketContext.tsx:188-191 | no longer connected |
| QueueSocket.QueueSocketClient.OnClose | src/contexts/QueueWebSocketContext.tsx:193-208 | disconnected with no status, no online users and no socket, the queue flag kept; a reconnect is armed iff there is a user and a token and the code is not 1000 |
| QueueSocket.QueueSocketClient.Disconnect | src/contexts/QueueWebSocketContext.tsx:219-232 | timers cancelled, including a pending reconnect; the socket closed with 1000 if it existed; connection flag, status, queue flag and online users reset |
| QueueSocket.QueueSocketClient.FireReconnect | src/contexts/QueueWebSocketContext.tsx:204-206 | the timer is spent; with a user, tokens and no socket, a new socket to `QueueUrl` of the current token is connecting; otherwise the socket is unchanged |
| QueueSocket.QueueSocketClient.FireHeartbeat | src/contexts/QueueWebSocketContext.tsx:85-89 | a heartbeat goes out only on an open socket |
| QueueSocket.QueueSocketClient.JoinQueue | src/contexts/QueueWebSocketContext.tsx:235-240 | `join_queue` goes out only on an open socket, with no local update |
| QueueSocket.QueueSocketClient.LeaveQueue | src/contexts/QueueWebSocketContext.tsx:242-249 | on an open socket the queue flag is cleared and `leave_queue` sent; otherwise nothing changes |
| QueueSocket.QueueSocketClient.RefreshStatus | src/contexts/QueueWebSocketContext.tsx:251-256 | `check_status` goes out only on an open socket |
| QueueSocket.QueueSocketClient.OnWindowFocus | src/contexts/QueueWebSocketContext.tsx:273-282 | a window focus asks for the status exactly while connected |
| QueueSocket.QueueSocketClient.OnAuthChange | src/contexts/QueueWebSocketContext.tsx:259-270 | the previous run's cleanup disconnects: timers cancelled, the socket closed with 1000 if it existed, status, queue flag, online users and connection flag reset; then a user with a token gets a fresh connecting queue socket, and anyone else is left with none |
| TwoSocket.GetWsUrl | src/contexts/WebSocketContext.tsx:70-82 | base plus path without a token; with one, `token=…` is appended after `?` if the path has no `?`, else after `&` |
| TwoSocket.TokenedUrlHasOneQueryMark | src/contexts/WebSocketContext.tsx:76-78 | when neither base, path nor token contains `?`, the tokened URL holds exactly one `?` |
| TwoSocket.TokenJoinsExistingQuery | src/contexts/WebSocketContext.tsx:76-78 | for a path that has a query, the token adds no second `?` |
| TwoSocket.TwoSocketClient.constructor | src/contexts/WebSocketContext.tsx:58-66 | all state is at its empty default |
| TwoSocket.TwoSocketClient.CheckActiveChat | src/contexts/WebSocketContext.tsx:85-164 | only with a token, an active chat and its details is the chat installed and a chat socket connecting (the old reference is overwritten without a close); otherwise nothing changes |
| TwoSocket.TwoSocketClient.RunPendingActiveCheck | src/contexts/WebSocketContext.tsx:215 | one pending 500 ms re-check is spent; with tokens, an active chat and its details, the chat is installed and a new chat socket to `/ws/chat/<id>/` with the token is connecting; otherwise chat and chat socket are unchanged |
| TwoSocket.TwoSocketClient.OnChatOpen | src/contexts/WebSocketContext.tsx:115-118 | the chat socket counts as connected |
| TwoSocket.TwoSocketClient.OnChatMessage | src/contexts/WebSocketContext.tsx:124-129 | the message is appended to the current chat; no chat stays no chat |
| TwoSocket.TwoSocketClient.OnChatEnded | src/contexts/WebSocketContext.tsx:131-139 | the chat is cleared, the chat socket closed and dropped, and the chat connection flag cleared |
| TwoSocket.TwoSocketClient.OnChatError | src/contexts/WebSocketContext.tsx:146-149 | the chat connection flag is cleared |
| TwoSocket.TwoSocketClient.OnChatClose | src/contexts/WebSocketContext.tsx:151-155 | the chat connection flag is cleared and the reference dropped |
| TwoSocket.TwoSocketClient.ConnectToQueue | src/contexts/WebSocketContext.tsx:188-190 | an unguarded new queue socket to the tokened `/ws/queue/` URL |
| TwoSocket.TwoSocketClient.OnQueueOpen | src/contexts/WebSocketContext.tsx:192-198 | connected, with `check_status` sent |
| TwoSocket.TwoSocketClient.OnQueueStatus | src/contexts/WebSocketContext.tsx:204-206 | the status is replaced |
| TwoSocket.TwoSocketClient.OnQueueChatMatched | src/contexts/WebSocketContext.tsx:208-217 | the chat is cleared and the queue left; an active-chat re-check is scheduled exactly when `chat_id` is present |
| TwoSocket.TwoSocketClient.OnQueueError | src/contexts/WebSocketContext.tsx:228-231 | the queue connection flag is cleared |
| TwoSocket.TwoSocketClient.OnQueueClose | src/contexts/WebSocketContext.tsx:233-242 | the queue socket is dropped; a reconnect is scheduled iff a user and a token are present, whatever the close code |
| TwoSocket.TwoSocketClient.FireReconnect | src/contexts/WebSocketContext.tsx:240 | one pending reconnect is spent and a new queue socket is connecting |
| TwoSocket.TwoSocketClient.QueueEffect | src/contexts/WebSocketContext.tsx:167-248 | without a user or a token, both sockets are closed and dropped and status, chat, queue flag and both connection flags reset; with both and an existing queue socket, no field changes; with both and no queue socket, only a connecting queue socket and one more due active-chat check are added |
| TwoSocket.TwoSocketClient.QueueEffectCleanup | src/contexts/WebSocketContext.tsx:251-260 | both sockets are closed if they exist and dropped |
| TwoSocket.TwoSocketClient.JoinQueue | src/contexts/WebSocketContext.tsx:264-269 | on an open queue socket `join_queue` is sent and then the flag set; otherwise nothing changes |
| TwoSocket.TwoSocketClient.LeaveQueue | src/contexts/WebSocketContext.tsx:271-276 | on an open queue socket `leave_queue` is sent and then the flag cleared; otherwise nothing changes |
| TwoSocket.TwoSocketClient.SendMessage | src/contexts/WebSocketContext.tsx:279-286 | the content is sent untrimmed, only on an open chat socket |
| TwoSocket.TwoSocketClient.EndChat | src/contexts/WebSocketContext.tsx:288-292 | `end_chat` goes out only on an open chat socket |
| TwoSocketLegacy.GetWsUrl | src/contexts/WebSocketContext-old.tsx:70-73 | the URL is the base followed by the path, nothing more |
| TwoSocketLegacy.LegacyUrlIsTokenless | src/contexts/WebSocketContext-old.tsx:70-73 | the older URL is the newer one without a token, and differs from it whenever a token is present |
| TwoSocketLegacy.LegacyClient.constructor | src/contexts/WebSocketContext-old.tsx:58-67 | all state is at its empty default |
| TwoSocketLegacy.LegacyClient.ConnectToQueue | src/contexts/WebSocketContext-old.tsx:76-80 | no effect without a user or a token, or when a queue socket exists; otherwise a queue socket to the tokenless URL is connecting |
| TwoSocketLegacy.LegacyClient.OnQueueOpen | src/contexts/WebSocketContext-old.tsx:82-88 | connected, with `check_status` sent |
| TwoSocketLegacy.LegacyClient.OnQueueStatus | src/contexts/WebSocketContext-old.tsx:94-96 | the status is replaced |
| TwoSocketLegacy.LegacyClient.OnQueueChatMatched | src/contexts/WebSocketContext-old.tsx:98-107 | the chat is cleared and the queue left; the chat details are fetched exactly when `chat_id` is present |
| TwoSocketLegacy.LegacyClient.OnQueueError | src/contexts/WebSocketContext-old.tsx:118-121 | the queue connection flag is cleared |
| TwoSocketLegacy.LegacyClient.OnQueueClose | src/contexts/WebSocketContext-old.tsx:123-132 | the queue socket is dropped; a reconnect is scheduled iff a user and a token are present |
| TwoSocketLegacy.LegacyClient.FireReconnect | src/contexts/WebSocketContext-old.tsx:130 | one pending reconnect is spent; with the captured user and tokens and no queue socket, a new tokenless `/ws/queue/` socket is connecting; otherwise the queue socket is unchanged |
| TwoSocketLegacy.LegacyClient.ConnectToChat | src/contexts/WebSocketContext-old.tsx:235-286 | no effect without a user or a token, or when a chat socket exists; otherwise a chat socket is connecting, and its message handler keeps the `currentChat` seen at connect time |
| TwoSocketLegacy.LegacyClient.FetchChatDetails | src/contexts/WebSocketContext-old.tsx:138-155 | only an ok reply sets the chat and then connects; a failed fetch changes nothing |
| TwoSocketLegacy.LegacyClient.CheckActiveChat | src/contexts/WebSocketContext-old.tsx:289-309 | with a token and an active chat, that chat's details are fetched; otherwise nothing happens |
| TwoSocketLegacy.LegacyClient.RunPendingActiveCheck | src/contexts/WebSocketContext-old.tsx:346 | one pending active-chat check is spent and runs `checkActiveChat` |
| TwoSocketLegacy.LegacyClient.OnChatOpen | src/contexts/WebSocketContext-old.tsx:241-244 | the chat socket counts as connected |
| TwoSocketLegacy.LegacyClient.OnChatMessage | src/contexts/WebSocketContext-old.tsx:250-256 | the message is appended only when the chat captured by the handler was non-null; otherwise the chat is unchanged |
| TwoSocketLegacy.LegacyClient.DisconnectFromChat | src/contexts/WebSocketContext-old.tsx:226-232 | acts only when a chat socket exists: closes it, drops it and clears the flag |
| TwoSocketLegacy.LegacyClient.OnChatEnded | src/contexts/WebSocketContext-old.tsx:259-263 | the chat is cleared and the chat socket disconnected |
| TwoSocketLegacy.LegacyClient.OnChatError | src/contexts/WebSocketContext-old.tsx:274-277 | the chat connection flag is cleared |
| TwoSocketLegacy.LegacyClient.OnChatClose | src/contexts/WebSocketContext-old.tsx:279-283 | the chat connection flag is cleared and the reference dropped |
| TwoSocketLegacy.LegacyClient.AuthEffect | src/contexts/WebSocketContext-old.tsx:343-358 | signed in, the queue connects if it has no socket and one active-chat check is due, with nothing else changing; signed out, both sockets start closing but their references stay, and status, chat and queue flag are reset |
| TwoSocketLegacy.LegacyClient.CloseBoth | src/contexts/WebSocketContext-old.tsx:361-368 | both sockets start closing if they exist; their references stay |
| TwoSocketLegacy.LegacyClient.JoinQueue | src/contexts/WebSocketContext-old.tsx:312-317 | on an open queue socket `join_queue` is sent and then the flag set; otherwise nothing changes |
| TwoSocketLegacy.LegacyClient.LeaveQueue | src/contexts/WebSocketContext-old.tsx:319-324 | on an open queue socket `leave_queue` is sent and then the flag cleared; otherwise nothing changes |
| TwoSocketLegacy.LegacyClient.SendMessage | src/contexts/WebSocketContext-old.tsx:327-334 | the content is sent untrimmed, only on an open chat socket |
| TwoSocketLegacy.LegacyClient.EndChat | src/contexts/WebSocketContext-old.tsx:336-340 | `end_chat` goes out only on an open chat socket |
| Auth.Validate | src/contexts/AuthContext.tsx:61-87 | `validateAndFetchUser`: a run that sets a user always returns `true` (proved through the mutual recursion with `Refresh`) |
| Auth.Refresh | src/contexts/AuthContext.tsx:91-127 | `refreshTokenAndFetchUser`: a run that sets a user always returns `true`, even when the nested validation returned `null` |
| Auth.ValidateKeepsRefreshToken | src/contexts/AuthContext.tsx:103-106 | whatever the replies, any token pair that validation stores carries the original refresh token |
| Auth.RefreshKeepsRefreshToken | src/contexts/AuthContext.tsx:103-106 | whatever the replies, any token pair that a refresh stores carries the original refresh token |
| Auth.UnknownSetsNothing | src/contexts/AuthContext.tsx:79-86 | a `null` verdict (network error or other status) sets neither user nor tokens |
| Auth.ValidSetsSomething | src/contexts/AuthContext.tsx:71-74 | a `true` verdict comes with a user or new tokens, and a `true` refresh always stores tokens |
| Auth.InvalidOnlyFromRefresh401 | src/contexts/AuthContext.tsx:116-119 | a `false` verdict happens only if some refresh reply was a 401, and never with a user set |
| Auth.Redirect | src/contexts/AuthContext.tsx:130-144 | nothing while loading; without a token, `/welcome` exactly for non-public paths; with a token, `/` exactly for `/login`; no other target |
| Auth.RedirectSettles | src/contexts/AuthContext.tsx:139-143 | the page a redirect leads to redirects no further |
| Auth.AuthProvider.constructor | src/contexts/AuthContext.tsx:15-17 | no user, no tokens, loading |
| Auth.AuthProvider.ApplyRun | src/contexts/AuthContext.tsx:73-110 | the user and the tokens a validation run produced are stored; absent ones keep the old value |
| Auth.AuthProvider.Logout | src/contexts/AuthContext.tsx:201-211 | the stored token and both state cells are cleared, so the user is no longer authenticated, and the router goes to `/welcome` |
| Auth.AuthProvider.Initialize | src/contexts/AuthContext.tsx:22-57 | loading ends; no stored token changes nothing; a corrupt one is cleared; a `false` verdict clears storage, tokens and user; otherwise the user is the one the run set (else the old one), the tokens are the ones the run stored (else the stored ones, set optimistically), the refresh token is kept and storage holds the tokens |
| Auth.AuthProvider.ValidateCurrent | src/contexts/AuthContext.tsx:150-158 | `false` logs out and goes to `/welcome`; otherwise the user, tokens and storage are those the run set, else unchanged, with the refresh token kept and no navigation; `null` changes nothing |
| Auth.AuthProvider.PeriodicValidation | src/contexts/AuthContext.tsx:147-164 | the five-minute check logs out only on `false`, never on `null`; a `true` verdict leaves the user and tokens the run set, else the old ones |
| Auth.AuthProvider.RefreshUser | src/contexts/AuthContext.tsx:214-226 | a no-op without a token; otherwise it logs out only on `false`, and on `true` or `null` leaves the user and tokens the run set, else the old ones |
| Auth.AuthProvider.Login | src/contexts/AuthContext.tsx:167-198 | loading ends; with data, tokens and user are set and stored and the router goes to `/`; without data, it throws the response error, or `Login failed`, and changes nothing |
| Auth.AuthProvider.GuardRoute | src/contexts/AuthContext.tsx:130-144 | the route effect navigates exactly where `Redirect` says |
| ApiClient.Binding | src/lib/useAxios.ts:120-124 | a member lookup finds a value exactly when some member has the key, and the value is that of the last member with the key |
| ApiClient.FirstTruthy | src/lib/useAxios.ts:122-126 | the `\|\|` chain yields the first truthy candidate, or the last value when none is truthy |
| ApiClient.ErrorMessage | src/lib/useAxios.ts:103-130 | without a `response` key, the default text; with an object body, the first truthy of `detail`, `message`, `error`, the axios message and the default; otherwise the axios message or the default; always truthy |
| ApiClient.Normalise | src/lib/useAxios.ts:92-142 | success gives data and status with no error; failure gives no data, a truthy error message, the response status or 500 (never 0), and echoes the error data or `null` |
| ApiClient.DispatchOutcome | src/lib/useAxios.ts:33-76 | a resolved outcome always has a 2xx status; without stored tokens, or for any first reply but a 401, the reply settles as it is; a 401 ends resolved only after tokens were stored and the refresh succeeded |
| ApiClient.HttpClient.constructor | src/lib/useAxios.ts:84-86 | the client starts idle, with no error, no refresh calls and the given storage |
| ApiClient.HttpClient.Dispatch | src/lib/useAxios.ts:16-76 | at most one refresh per request, and only for a first 401 with tokens stored; a first pass settles exactly to `DispatchOutcome`: any other reply settles as it is with storage untouched, a successful refresh stores the new access with the old refresh token and settles to the retry's reply, a failed one clears storage and the user key, navigates to `/welcome` and rejects with the refresh error |
| ApiClient.HttpClient.Request | src/lib/useAxios.ts:89-142 | the result is the normalised first-pass outcome for the given replies (so a 2xx gives its body and status, and a failure its status or 500 and a truthy message); at most one refresh; loading ends false; the stored error equals the returned one |
| AccessControl.TimeRemaining | src/contexts/AccessControlContext.tsx:134 | the remaining time is read only from a parsed answer or an error body, never from a synthesised one; for a parsed answer it is present exactly when the answer carries it, and is a number |
| AccessControl.AccessAfter | src/contexts/AccessControlContext.tsx:54-80 | access is granted only by a parsed answer whose `can_access` is true; a throw always synthesises the data; an error body is kept only when no data was returned |
| AccessControl.StatusAfter | src/contexts/AccessControlContext.tsx:100-106 | the status is either kept or replaced by what the call returned; a throw keeps it; a status once known is never cleared by a signed-in refresh |
| AccessControl.FastPollPeriod | src/contexts/AccessControlContext.tsx:133-144 | the five-second re-check is armed exactly when the remaining time is a non-zero number below 120 |
| AccessControl.AccessControlProvider.constructor | src/contexts/AccessControlContext.tsx:29-32 | access denied, no data, no college status, not loading |
| AccessControl.AccessControlProvider.CheckAccess | src/contexts/AccessControlContext.tsx:36-84 | signed out: denied, no data, no request; signed in, one request, loading ends false, and the data is `AccessAfter` of the outcome: with data, `canAccess` is `can_access` and the data is kept; with an object error body, denied and the body kept; otherwise denied with reason `unknown_error` and the error or `Access denied`; a throw gives `network_error`; access is only ever granted by an answer that grants it |
| AccessControl.AccessControlProvider.RefreshStatus | src/contexts/AccessControlContext.tsx:87-107 | signed out clears the college status; otherwise only returned data overwrites it |
| AccessControl.AccessControlProvider.OnAuthChange | src/contexts/AccessControlContext.tsx:110-119 | signed in, one access check and one status refresh: access data, `canAccess` and college status are exactly what `checkAccess` and `refreshStatus` leave; signed out, access, data and status are all cleared and no request is made |
| Countdown.Breakdown | src/app/page.tsx:47-50 | `totalSeconds = hrs*3600 + mins*60 + secs`, with minutes and seconds below 60 |
| Countdown.FormatDuration | src/app/page.tsx:51-56 | the text always ends with the seconds part's `s` |
| Countdown.DurationRoundTrip | src/app/page.tsx:51-56 | reading the countdown text back gives the breakdown and the total seconds again, so the hours part appears iff hours are non-zero, the minutes part iff hours or minutes are, and the seconds part always comes last |
| Countdown.DurationInjective | src/app/page.tsx:51-56 | distinct waits give distinct texts |
| Countdown.NumberOf | src/app/page.tsx:34-35 | a non-empty digit string reads as its decimal value, and a blank string as 0 |
| Countdown.ClockOf | src/app/page.tsx:34-35 | a time without `:` has no minutes (NaN), and its hour is the whole string read as a number |
| Countdown.ClockRoundTrip | src/app/page.tsx:34-35 | a clock time written as `<hours>:<minutes>` reads back as those hours and minutes |
| Countdown.PastEnd | src/app/page.tsx:38 | an unreadable end hour never counts as ended; with an unreadable end minute, only an hour past the end hour does |
| Countdown.UntilStart | src/app/page.tsx:37-44 | the delay is NaN exactly when the start hour or minute is unreadable; once today's window has ended, the next start lies in the future; the start instant is always on a whole minute, as `setHours(h, m, 0, 0)` makes it |
| Countdown.FallbackUntil | src/app/page.tsx:63-69 | the fallback start falls at 20:00 of some day, less than a day ahead and less than an hour behind |
| Countdown.WindowOf | src/app/page.tsx:33 | the backend window is used only when both of its times are non-empty |
| Countdown.DelayText | src/app/page.tsx:44-56 | `Starting now` exactly when the delay is not in the future; a positive delay shows its whole seconds; an invalid date shows only `NaNs` |
| Countdown.CountdownText | src/app/page.tsx:29-82 | open gives `Starting now`; otherwise the backend window decides when both times are given, else the 20:00 fallback |
| Countdown.PastEndIsAfterEnd | src/app/page.tsx:38 | the hour/minute comparison with the end time is the same as the current instant being at or after the end instant |
| Countdown.StartingNowInsideWindow | src/app/page.tsx:34-45 | for a window within one day, the start is tomorrow iff the window has ended; the page says `Starting now` exactly while the current instant lies inside the window; otherwise the wait is at most one day |
| Countdown.FallbackIsEightToNine | src/app/page.tsx:60-68 | the fallback is the backend rule for a 20:00-21:00 window: tomorrow iff the hour is 21 or later |
| Countdown.FallbackStartingNow | src/app/page.tsx:60-71 | the fallback says `Starting now` exactly from 20:00 until 21:00 |
| ChatView.ShowsTimestamp | src/components/ChatMain.tsx:32-38 | the first message always shows a divider; a message not later than the one before it never does |
| ChatView.IsGrouped | src/components/ChatMain.tsx:40-46 | a grouped message is never the first, is on the same side as the one before it, and follows it by under two minutes |
| ChatView.LabelInjective | src/components/ChatMain.tsx:22-29 | apart from the locale date, distinct relative-time buckets give distinct labels (`just now`, `<n>m ago`, `<n>h ago`) |
| ChatView.GroupedHasNoDivider | src/components/ChatMain.tsx:32-46 | a grouped message never also shows a time divider |
| ChatView.GroupSharesSide | src/components/ChatMain.tsx:40-46 | a run of grouped messages is all on the side of the message that opens it, and spans at most two minutes per step |
| ChatView.Bucket | src/components/ChatMain.tsx:22-29 | `just now` under 60 s; `<n>m ago` up to an hour, with n the whole minutes elapsed (1 to 59); `<n>h ago` up to a day, with n the whole hours (1 to 23); a locale date from a day on |
| ChatView.BucketMonotone | src/components/ChatMain.tsx:22-29 | as more time passes, the bucket never gets finer and the count within a bucket never decreases |

## Left out

- Transport and I/O: WebSocket, `fetch`, axios, `localStorage` and JSON parse/stringify are not part of this model. Their results are parameters, and the sockets are handles with an outbound log.
- Real time: timer delays (30 s heartbeat, 3 s typing and reconnect timers, 500 ms re-check, 30 s and 5 s access polls, 1 s page tick) are not modelled. A timer is a flag or a counter, and its firing is a method call.
- Interleaving across `await`: each asynchronous operation is taken to run to completion with the replies given. A socket event arriving between a `fetch` and its continuation is not modelled.
- Callbacks of sockets that are no longer current: a handler runs for the socket held in the field. One case is not captured: an old socket's `onclose` clearing the field after a new socket replaced it (the chat context switching chats, the older two-socket context's logout, the main context's effect re-run through `SyncWithAuth` after a token change, the queue context's `OnAuthChange` re-run, and the two-socket context's `QueueEffectCleanup` followed by `QueueEffect`, where the stale close also schedules a reconnect with the old token).
- The chat context's heartbeat interval is overwritten, never cleared, when a second `connectToChat` opens a new socket. The model keeps one heartbeat flag, so it does not show the leaked interval.
- The chat context's `connectToChatRef` indirection: `OnChatMatched` calls the current `connectToChat`.
- ChatSocket.ChatSocketClient.ConnectToChat: a 2xx reply whose body cannot be parsed is folded into the `Failed` result, as the `catch` does.
- React rendering, `useCallback` capture and state batching: setters take effect at once. Captured values are passed in explicitly only where the behaviour depends on them.
- Window `CustomEvent`s and router navigation are only log entries. `AccessControlWrapper`, `WebSocketManagerContext`, `ChatContext` and the page and UI components are not part of this model.
- Auth.Validate: the unbounded validate/refresh recursion in `AuthContext.tsx` is modelled over finite reply sequences. When a sequence runs out, the verdict is `null` (network error), so the model does not show non-termination.
- ApiClient.HttpClient.Dispatch: a refresh reply without an `access` string, and a stored `tokenData` that is not valid JSON, are not modelled.
- AccessControl.FastPollPeriod: a `time_remaining_seconds` in an error body that is a string or a boolean is taken as not arming the fast poll. JavaScript's `<` would convert `"50"` or `true` to a number.
- AccessControl.AccessControlProvider.CheckAccess: the `catch` branch is modelled, but `request` never throws, so in the composed program `network_error` cannot arise.
- Countdown.ClockOf: `Number` is modelled only for digit strings, blank strings (0) and everything else as NaN. Signs, decimals, exponents and hex forms are not modelled.
- Countdown.WindowOf: a truthy non-string window field in an error body makes the page throw on `split`; the model takes the 20:00 fallback instead.
- Countdown.CountdownText: the time of day is milliseconds since local midnight, and every day has 24 hours. Time zones, DST and `Date` overflow beyond `setHours` arithmetic are not modelled, and an invalid window time gives `NaNs`.
- ChatView.Bucket: the locale date text itself is not modelled; `toLocaleDateString` and `toLocaleTimeString` belong to the platform.
- SyncWithAuth (MainSocket): each call stands for one run of the effect. React runs it only when `isAuthenticated`, the access token or the user id changed, and the model does not check that they did.
- Participant `user_id` is taken to be a string. The chat context compares it with `===` against `user.id.toString()`.

## Findings

| source | as written | input that shows it | evidently intended | confidence | as-written member | corrected member |
|---|---|---|---|---|---|---|
| src/contexts/ChatWebSocketContext.tsx:307-320 | the 3 s auto-stop timer calls the `stopTyping` of the render in which `startTyping` ran, when `isTyping` was still false, so the timer sends nothing. Later `startTyping` calls see `isTyping` true and neither send nor re-arm | open chat socket: `startTyping()`, then the timer fires. No `typing_stop` is sent, `isTyping` stays true, and a later `startTyping()` sends nothing (`ChatSocket.StaleTypingTimerScenario`) | the timer stops typing while the user is still typing: `typing_stop` is sent and the flag cleared (`ChatSocket.IntendedTypingTimerScenario`) | not executed | ChatSocket.ChatSocketClient.FireTypingTimeout | ChatSocket.ChatSocketClient.FireTypingTimeoutIntended |
