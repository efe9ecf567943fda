/**
 * Records and wire vocabulary shared by the realtime providers: the chat
 * transcript, the socket handle kept in a `useRef`, the outbound intents the
 * client writes to a socket, and the window notifications it raises.
 */
module Protocol {
  import opened Wrappers
  import opened JsText

  /** WebSocket close code for a normal closure. */
  const NormalClosure: int := 1000

  datatype MessageKind = Text | System

  datatype ChatMessage = ChatMessage(
    id: string,
    content: string,
    senderId: Option<string>,
    kind: MessageKind,
    timestamp: string,
    isOwn: bool)

  datatype Chat = Chat(
    chatId: string,
    college: string,
    createdAt: string,
    isActive: bool,
    messages: seq<ChatMessage>)

  /** Queue snapshot pushed by the server (`queue_status` carries the optional fields). */
  datatype QueueStatus = QueueStatus(
    waitingCount: int,
    college: string,
    collegeId: int,
    isInQueue: Option<bool>,
    activeChatsCount: Option<int>)

  datatype TokenData = TokenData(access: string, refresh: string)

  /** JavaScript truthiness of an optional string: present and non-empty. */
  predicate Truthy(s: Option<string>) {
    s.Some? && s.value != ""
  }

  /** The token the socket URLs carry: `tokenData?.access` when truthy. */
  function AccessToken(tokens: Option<TokenData>): Option<string> {
    if tokens.Some? && tokens.value.access != "" then Some(tokens.value.access) else None
  }

  /** `process.env.NEXT_PUBLIC_WS_BASE_URL || 'ws://localhost:8000'`. */
  function WsBase(env: Option<string>): (r: string)
    ensures Truthy(env) ==> r == env.value
    ensures !Truthy(env) ==> r == "ws://localhost:8000"
  {
    if Truthy(env) then env.value else "ws://localhost:8000"
  }

  /** The `readyState` values the model distinguishes. */
  datatype ReadyState = Connecting | Open | Closing

  /** What a `wsRef`-style cell holds: no socket, or a socket with its URL and state. */
  datatype Socket = NoSocket | Live(url: string, state: ReadyState)

  predicate IsOpen(s: Socket) {
    s.Live? && s.state == Open
  }

  /** Outbound intents (`{ action: ... }` envelopes). */
  datatype Action =
    | Heartbeat
    | JoinQueue
    | LeaveQueue
    | JoinChat(chatId: string)
    | LeaveChat
    | SendMessage(content: string)
    | EndChat
    | TypingStart
    | TypingStop
    | Refresh
    | CheckStatus

  /** One entry of a socket's outbound log: a frame sent, or a `close(code)` call. */
  datatype Outbound = Send(action: Action) | Close(code: Option<int>)

  /** `window.dispatchEvent` of the `chatMatched` / `chatEnded` custom events. */
  datatype Notification = ChatMatchedNotice(chatId: Option<string>) | ChatEndedNotice(reason: string)

  /** The outbound log after sending `a` when the socket is OPEN; unchanged otherwise. */
  function Emit(socket: Socket, out: seq<Outbound>, a: Action): (r: seq<Outbound>)
    ensures IsOpen(socket) ==> r == out + [Send(a)]
    ensures !IsOpen(socket) ==> r == out
  {
    if IsOpen(socket) then out + [Send(a)] else out
  }

  /** The outbound log after `close(code)` on the socket, if there is one. */
  function CloseIfLive(socket: Socket, out: seq<Outbound>, code: Option<int>): (r: seq<Outbound>)
    ensures socket.Live? ==> r == out + [Close(code)]
    ensures socket.NoSocket? ==> r == out
  {
    if socket.Live? then out + [Close(code)] else out
  }

  /** Both chats agree on everything but their messages. */
  predicate SameChatHeader(a: Chat, b: Chat) {
    a.chatId == b.chatId && a.college == b.college && a.createdAt == b.createdAt
    && a.isActive == b.isActive
  }

  /**
   * `prev ? { ...prev, messages: [...prev.messages, msg] } : null`: the pushed
   * message goes at the end of the transcript; with no chat there is still none.
   */
  function AppendMessage(chat: Option<Chat>, msg: ChatMessage): (r: Option<Chat>)
    ensures r.None? <==> chat.None?
    ensures r.Some? ==> SameChatHeader(r.value, chat.value)
    ensures r.Some? ==> |r.value.messages| == |chat.value.messages| + 1
    ensures r.Some? ==> r.value.messages[..|chat.value.messages|] == chat.value.messages
    ensures r.Some? ==> r.value.messages[|chat.value.messages|] == msg
  {
    match chat
    case None => None
    case Some(c) => Some(c.(messages := c.messages + [msg]))
  }
}
