/**
 * The multiplexed `/ws/main/` session client (src/contexts/SocketContext.tsx).
 *
 * The inbound reducer is the pure function `Handle` over the server-driven
 * part of the provider's state; `MainSocketClient` holds every `useState` and
 * `useRef` cell and applies `Handle` in `HandleMessage`, next to the
 * connection lifecycle, the timers and the outbound actions.
 */
module MainSocket {
  import opened Wrappers
  import opened JsText
  import opened Protocol

  datatype AccessData = AccessData(
    canAccess: bool,
    reason: Option<string>,
    message: Option<string>,
    collegeName: Option<string>,
    windowStart: Option<string>,
    windowEnd: Option<string>,
    timeRemainingSeconds: Option<int>,
    isServiceAccount: Option<bool>)

  datatype ActivityData = ActivityData(
    college: string,
    collegeId: Option<int>,
    activeChats: int,
    waitingCount: int,
    registeredStudents: int)

  /** Inbound messages, one variant per `type` the switch names, plus the default branch. */
  datatype ServerEvent =
    | InitialState(access: AccessData, activity: ActivityData, inQueue: bool, snapshot: Option<Chat>)
    | QueueJoined
    | QueueLeft
    | ChatMatched(chat: Chat)
    | ChatJoined(chat: Chat)
    | ChatLeft
    | Message(msg: ChatMessage)
    | ChatEnded
    | TypingStarted(userId: Option<string>)
    | TypingStopped(userId: Option<string>)
    | ActivityUpdate(activity: ActivityData)
    | AccessUpdate(access: AccessData)
    | ServerError(message: Option<string>)
    | Pong
    | Unrecognised(kind: string)

  /** The one server error text that is not reported with `console.error`. */
  const SuppressedError: string := "Not in a chat."

  /** The state the inbound reducer reads and writes, with the logs it appends to. */
  datatype Session = Session(
    access: Option<AccessData>,
    activity: Option<ActivityData>,
    isInQueue: bool,
    currentChat: Option<Chat>,
    otherUserTyping: bool,
    notifications: seq<Notification>,
    errorLog: seq<Option<string>>)

  /** Which events write which field. */
  predicate TouchesChat(ev: ServerEvent) {
    ev.InitialState? || ev.ChatMatched? || ev.ChatJoined? || ev.ChatLeft? || ev.ChatEnded?
  }

  predicate TouchesTyping(ev: ServerEvent) {
    ev.TypingStarted? || ev.TypingStopped? || ev.ChatLeft? || ev.ChatEnded?
  }

  predicate TouchesQueue(ev: ServerEvent) {
    ev.InitialState? || ev.QueueJoined? || ev.QueueLeft? || ev.ChatMatched?
  }

  /** The notification an event raises, if any. */
  function Notice(ev: ServerEvent): seq<Notification> {
    match ev
    case ChatMatched(c) => [ChatMatchedNotice(Some(c.chatId))]
    case ChatEnded => [ChatEndedNotice("ended")]
    case _ => []
  }

  /** `handleMessage`: the effect of one inbound message. */
  function Handle(s: Session, ev: ServerEvent): (r: Session)
    // initial_state replaces the four snapshots wholesale
    ensures ev.InitialState? ==>
      r.access == Some(ev.access) && r.activity == Some(ev.activity)
      && r.isInQueue == ev.inQueue && r.currentChat == ev.snapshot
    // chat_matched: chat from the event, out of the queue
    ensures ev.ChatMatched? ==> r.currentChat == Some(ev.chat) && !r.isInQueue
    // chat_joined replaces the chat only
    ensures ev.ChatJoined? ==> r == s.(currentChat := Some(ev.chat))
    // message: appended at the end, nothing else changes
    ensures ev.Message? ==> r == s.(currentChat := AppendMessage(s.currentChat, ev.msg))
    // chat_left / chat_ended: no chat, peer not typing
    ensures ev.ChatLeft? || ev.ChatEnded? ==> r.currentChat.None? && !r.otherUserTyping
    // typing signals are not checked against the sender
    ensures ev.TypingStarted? ==> r == s.(otherUserTyping := true)
    ensures ev.TypingStopped? ==> r == s.(otherUserTyping := false)
    ensures ev.QueueJoined? ==> r == s.(isInQueue := true)
    ensures ev.QueueLeft? ==> r == s.(isInQueue := false)
    ensures ev.ActivityUpdate? ==> r == s.(activity := Some(ev.activity))
    ensures ev.AccessUpdate? ==> r == s.(access := Some(ev.access))
    // error, pong and unknown kinds change no state; only the error log may grow
    ensures ev.ServerError? || ev.Pong? || ev.Unrecognised? ==> r.(errorLog := s.errorLog) == s
    ensures r.errorLog == s.errorLog + (if ev.ServerError? && ev.message != Some(SuppressedError) then [ev.message] else [])
    // exactly the notification of the event is raised
    ensures r.notifications == s.notifications + Notice(ev)
    // fields an event does not touch keep their value
    ensures !TouchesChat(ev) && !ev.Message? ==> r.currentChat == s.currentChat
    ensures !TouchesTyping(ev) ==> r.otherUserTyping == s.otherUserTyping
    ensures !TouchesQueue(ev) ==> r.isInQueue == s.isInQueue
  {
    match ev
    case InitialState(acc, act, q, chat) =>
      s.(access := Some(acc), activity := Some(act), isInQueue := q, currentChat := chat)
    case QueueJoined => s.(isInQueue := true)
    case QueueLeft => s.(isInQueue := false)
    case ChatMatched(chat) =>
      s.(currentChat := Some(chat), isInQueue := false,
         notifications := s.notifications + [ChatMatchedNotice(Some(chat.chatId))])
    case ChatJoined(chat) => s.(currentChat := Some(chat))
    case ChatLeft => s.(currentChat := None, otherUserTyping := false)
    case Message(msg) => s.(currentChat := AppendMessage(s.currentChat, msg))
    case ChatEnded =>
      s.(currentChat := None, otherUserTyping := false,
         notifications := s.notifications + [ChatEndedNotice("ended")])
    case TypingStarted(_) => s.(otherUserTyping := true)
    case TypingStopped(_) => s.(otherUserTyping := false)
    case ActivityUpdate(act) => s.(activity := Some(act))
    case AccessUpdate(acc) => s.(access := Some(acc))
    case ServerError(m) =>
      if m != Some(SuppressedError) then s.(errorLog := s.errorLog + [m]) else s
    case Pong => s
    case Unrecognised(_) => s
  }

  /** A run of inbound messages, applied in arrival order. */
  function HandleAll(s: Session, evs: seq<ServerEvent>): Session
    decreases |evs|
  {
    if evs == [] then s else HandleAll(Handle(s, evs[0]), evs[1..])
  }

  lemma {:induction false} HandleAllSnoc(s: Session, evs: seq<ServerEvent>, ev: ServerEvent)
    ensures HandleAll(s, evs + [ev]) == Handle(HandleAll(s, evs), ev)
    decreases |evs|
  {
    if evs == [] {
      assert [ev][1..] == [];
    } else {
      assert (evs + [ev])[1..] == evs[1..] + [ev];
      HandleAllSnoc(Handle(s, evs[0]), evs[1..], ev);
    }
  }

  /** The index of the last event satisfying `p`, if there is one. */
  function LastIndex(evs: seq<ServerEvent>, p: ServerEvent -> bool): (r: Option<nat>)
    ensures r.Some? ==> r.value < |evs| && p(evs[r.value])
    ensures r.Some? ==> forall j :: r.value < j < |evs| ==> !p(evs[j])
    ensures r.None? ==> forall j :: 0 <= j < |evs| ==> !p(evs[j])
    decreases |evs|
  {
    if evs == [] then None
    else if p(evs[|evs| - 1]) then Some(|evs| - 1)
    else LastIndex(evs[..|evs| - 1], p)
  }

  /** The messages pushed by `message` events, in order. */
  function Pushed(evs: seq<ServerEvent>): seq<ChatMessage>
    decreases |evs|
  {
    if evs == [] then []
    else
      var last := evs[|evs| - 1];
      Pushed(evs[..|evs| - 1]) + (if last.Message? then [last.msg] else [])
  }

  /** The chat `ev` installs (`None` for events that clear it). */
  function ChatSetBy(ev: ServerEvent): Option<Chat>
    requires TouchesChat(ev)
  {
    match ev
    case InitialState(_, _, _, chat) => chat
    case ChatMatched(chat) => Some(chat)
    case ChatJoined(chat) => Some(chat)
    case _ => None
  }

  function WithMessages(chat: Option<Chat>, ms: seq<ChatMessage>): Option<Chat> {
    match chat
    case None => None
    case Some(c) => Some(c.(messages := c.messages + ms))
  }

  lemma AppendAfterWithMessages(chat: Option<Chat>, ms: seq<ChatMessage>, m: ChatMessage)
    ensures AppendMessage(WithMessages(chat, ms), m) == WithMessages(chat, ms + [m])
  {
    if chat.Some? {
      assert chat.value.messages + ms + [m] == chat.value.messages + (ms + [m]);
    }
  }

  /**
   * The transcript a run of server messages should leave: the chat installed by
   * the last event that sets or clears it (or the starting chat, if none does),
   * followed by exactly the messages pushed since, in order.
   */
  function ExpectedChat(start: Option<Chat>, evs: seq<ServerEvent>): Option<Chat> {
    match LastIndex(evs, TouchesChat)
    case None => WithMessages(start, Pushed(evs))
    case Some(i) => WithMessages(ChatSetBy(evs[i]), Pushed(evs[i + 1..]))
  }

  lemma PushedSnoc(evs: seq<ServerEvent>, last: ServerEvent)
    ensures Pushed(evs + [last]) == Pushed(evs) + (if last.Message? then [last.msg] else [])
  {
    assert (evs + [last])[..|evs|] == evs;
  }

  lemma ExpectedChatAfterSetter(start: Option<Chat>, init: seq<ServerEvent>, last: ServerEvent)
    requires TouchesChat(last)
    ensures ExpectedChat(start, init + [last]) == ChatSetBy(last)
  {
    var evs := init + [last];
    assert evs[|init| + 1..] == [];
    var c := ChatSetBy(last);
    if c.Some? {
      assert c.value.messages + [] == c.value.messages;
    }
  }

  lemma ExpectedChatAfterOther(start: Option<Chat>, init: seq<ServerEvent>, last: ServerEvent)
    requires !TouchesChat(last)
    ensures ExpectedChat(start, init + [last]) ==
      if last.Message? then AppendMessage(ExpectedChat(start, init), last.msg) else ExpectedChat(start, init)
  {
    var evs := init + [last];
    assert evs[..|init|] == init;
    var idx := LastIndex(init, TouchesChat);
    assert LastIndex(evs, TouchesChat) == idx;
    var from, base := if idx.None? then 0 else idx.value + 1, if idx.None? then start else ChatSetBy(init[idx.value]);
    assert evs[from..] == init[from..] + [last];
    PushedSnoc(init[from..], last);
    if last.Message? {
      AppendAfterWithMessages(base, Pushed(init[from..]), last.msg);
    } else {
      assert Pushed(init[from..]) + [] == Pushed(init[from..]);
    }
    assert init[0..] == init;
    assert evs[0..] == evs;
  }

  /** Any run of server messages leaves exactly the expected transcript. */
  lemma {:induction false} TranscriptAfter(s: Session, evs: seq<ServerEvent>)
    ensures HandleAll(s, evs).currentChat == ExpectedChat(s.currentChat, evs)
    decreases |evs|
  {
    if evs == [] {
      if s.currentChat.Some? {
        assert s.currentChat.value.messages + [] == s.currentChat.value.messages;
      }
    } else {
      var n := |evs| - 1;
      var init, last := evs[..n], evs[n];
      assert evs == init + [last];
      HandleAllSnoc(s, init, last);
      TranscriptAfter(s, init);
      if TouchesChat(last) {
        ExpectedChatAfterSetter(s.currentChat, init, last);
      } else {
        ExpectedChatAfterOther(s.currentChat, init, last);
      }
    }
  }

  /** Whether the peer is shown typing after a run: decided by the last event that touches it. */
  lemma {:induction false} TypingAfter(s: Session, evs: seq<ServerEvent>)
    ensures HandleAll(s, evs).otherUserTyping ==
      match LastIndex(evs, TouchesTyping)
      case None => s.otherUserTyping
      case Some(i) => evs[i].TypingStarted?
    decreases |evs|
  {
    if evs != [] {
      var n := |evs| - 1;
      assert evs == evs[..n] + [evs[n]];
      HandleAllSnoc(s, evs[..n], evs[n]);
      TypingAfter(s, evs[..n]);
    }
  }

  /** The queue flag the last queue-touching event leaves. */
  function QueueFlagSetBy(ev: ServerEvent): bool
    requires TouchesQueue(ev)
  {
    match ev
    case InitialState(_, _, q, _) => q
    case QueueJoined => true
    case _ => false
  }

  /** Queue membership after a run: last write wins among the four events that set it. */
  lemma {:induction false} QueueMembershipAfter(s: Session, evs: seq<ServerEvent>)
    ensures HandleAll(s, evs).isInQueue ==
      match LastIndex(evs, TouchesQueue)
      case None => s.isInQueue
      case Some(i) => QueueFlagSetBy(evs[i])
    decreases |evs|
  {
    if evs != [] {
      var n := |evs| - 1;
      assert evs == evs[..n] + [evs[n]];
      HandleAllSnoc(s, evs[..n], evs[n]);
      QueueMembershipAfter(s, evs[..n]);
    }
  }

  /** The notifications a run raises: one per `chat_matched` and per `chat_ended`, in order. */
  function Notices(evs: seq<ServerEvent>): seq<Notification>
    decreases |evs|
  {
    if evs == [] then [] else Notice(evs[0]) + Notices(evs[1..])
  }

  lemma {:induction false} NotificationsAfter(s: Session, evs: seq<ServerEvent>)
    ensures HandleAll(s, evs).notifications == s.notifications + Notices(evs)
    decreases |evs|
  {
    if evs != [] {
      NotificationsAfter(Handle(s, evs[0]), evs[1..]);
      assert s.notifications + Notice(evs[0]) + Notices(evs[1..])
          == s.notifications + (Notice(evs[0]) + Notices(evs[1..]));
    }
  }

  /** `${base}/ws/main/?token=${token}`. */
  function MainUrl(base: string, token: string): (r: string)
    ensures base <= r && |token| < |r| && r[|r| - |token|..] == token
  {
    var r := base + "/ws/main/?token=" + token;
    assert r == (base + "/ws/main/?token=") + token;
    r
  }

  /** When neither the base nor the token holds a `?`, the URL has exactly one query mark. */
  lemma MainUrlQueryMark(base: string, token: string)
    requires '?' !in base && '?' !in token
    ensures Occurrences(MainUrl(base, token), '?') == 1
  {
    var query := ['?'] + ("token=" + token);
    assert MainUrl(base, token) == base + "/ws/main/" + query;
    OccurrencesConcat(base + "/ws/main/", query, '?');
    OccurrencesConcat(base, "/ws/main/", '?');
    OccurrencesConcat(['?'], "token=" + token, '?');
    OccurrencesConcat("token=", token, '?');
    OccurrencesMembership(base, '?');
    OccurrencesMembership("/ws/main/", '?');
    OccurrencesMembership("token=", '?');
    OccurrencesMembership(token, '?');
  }

  /** The provider: `useState` cells, `useRef` cells, and the abstracted effects. */
  class MainSocketClient {
    // useState
    var isConnected: bool
    var isConnecting: bool
    var access: Option<AccessData>
    var activity: Option<ActivityData>
    var isInQueue: bool
    var currentChat: Option<Chat>
    var otherUserTyping: bool
    // useRef
    var socket: Socket
    var heartbeatArmed: bool
    var reconnectArmed: bool
    var typingTimerArmed: bool
    var isTyping: bool
    // effects outside the provider
    var outbox: seq<Outbound>
    var notifications: seq<Notification>
    var errorLog: seq<Option<string>>
    // the authentication effect has run, so its cleanup runs before the next run
    var effectRan: bool

    /** The connection cells agree with the socket: one ConnectionState, heartbeat iff connected. */
    ghost predicate Valid()
      reads this
    {
      !(isConnected && isConnecting)
      && (isConnected ==> IsOpen(socket))
      && (isConnecting ==> socket.Live? && socket.state == Connecting)
      && (heartbeatArmed <==> isConnected)
    }

    ghost function SessionOf(): Session
      reads this
    {
      Session(access, activity, isInQueue, currentChat, otherUserTyping, notifications, errorLog)
    }

    /** Every derived cell at its empty default. */
    ghost predicate Reset()
      reads this
    {
      access.None? && activity.None? && !isInQueue && currentChat.None? && !otherUserTyping
      && !isConnected && !isConnecting
    }

    constructor ()
      ensures Valid() && Reset()
      ensures socket == NoSocket && !heartbeatArmed && !reconnectArmed && !typingTimerArmed && !isTyping
      ensures outbox == [] && notifications == [] && errorLog == [] && !effectRan
    {
      isConnected, isConnecting := false, false;
      access, activity := None, None;
      isInQueue, currentChat, otherUserTyping := false, None, false;
      socket := NoSocket;
      heartbeatArmed, reconnectArmed, typingTimerArmed, isTyping := false, false, false, false;
      outbox, notifications, errorLog := [], [], [];
      effectRan := false;
    }

    /** `sendAction`: sends only while the socket is OPEN. */
    method SendAction(a: Action)
      modifies this`outbox
      ensures outbox == Emit(socket, old(outbox), a)
    {
      if IsOpen(socket) {
        outbox := outbox + [Send(a)];
      }
    }

    /**
     * `connect`: no-op while a socket exists, while connecting, when not
     * authenticated or without an access token; otherwise opens a socket.
     */
    method Connect(isAuthenticated: bool, tokens: Option<TokenData>, env: Option<string>)
      requires Valid()
      modifies this`isConnecting, this`socket
      ensures Valid()
      ensures var starts := old(socket).NoSocket? && !old(isConnecting) && isAuthenticated
                            && AccessToken(tokens).Some?;
        if starts then
          isConnecting && socket == Live(MainUrl(WsBase(env), AccessToken(tokens).value), Connecting)
        else
          isConnecting == old(isConnecting) && socket == old(socket)
    {
      if socket.Live? || isConnecting || !isAuthenticated {
        return;
      }
      var token := AccessToken(tokens);
      if token.None? {
        return;
      }
      isConnecting := true;
      socket := Live(MainUrl(WsBase(env), token.value), Connecting);
    }

    /** `ws.onopen`: connected, and the 30 s heartbeat is armed. */
    method OnOpen()
      requires Valid() && socket.Live? && socket.state == Connecting
      modifies this`isConnected, this`isConnecting, this`heartbeatArmed, this`socket
      ensures Valid()
      ensures isConnected && !isConnecting && heartbeatArmed
      ensures socket == old(socket).(state := Open)
    {
      isConnected := true;
      isConnecting := false;
      socket := socket.(state := Open);
      heartbeatArmed := true;
    }

    /** `ws.onerror`. */
    method OnError()
      requires Valid()
      modifies this`isConnecting
      ensures Valid() && !isConnecting
    {
      isConnecting := false;
    }

    /**
     * `ws.onclose`: timers cleared, the socket released, and one reconnect
     * armed iff the close was not normal and the session is still authenticated
     * (as the callback's closure sees it).
     */
    method OnClose(code: int, isAuthenticated: bool, tokens: Option<TokenData>)
      requires Valid()
      modifies this`isConnected, this`isConnecting, this`heartbeatArmed, this`reconnectArmed,
               this`typingTimerArmed, this`socket
      ensures Valid()
      ensures !isConnected && !isConnecting && socket == NoSocket
      ensures !heartbeatArmed && !typingTimerArmed
      ensures reconnectArmed <==> code != NormalClosure && isAuthenticated && tokens.Some?
    {
      isConnected := false;
      isConnecting := false;
      ClearTimers();
      socket := NoSocket;
      if code != NormalClosure && isAuthenticated && tokens.Some? {
        reconnectArmed := true;
      }
    }

    /** `ws.onmessage` → `handleMessage`. */
    method HandleMessage(ev: ServerEvent)
      requires Valid() && IsOpen(socket)
      modifies this`access, this`activity, this`isInQueue, this`currentChat, this`otherUserTyping,
               this`notifications, this`errorLog
      ensures Valid()
      ensures SessionOf() == Handle(old(SessionOf()), ev)
    {
      match ev
      case InitialState(acc, act, q, chat) =>
        access, activity, isInQueue, currentChat := Some(acc), Some(act), q, chat;
      case QueueJoined =>
        isInQueue := true;
      case QueueLeft =>
        isInQueue := false;
      case ChatMatched(chat) =>
        currentChat := Some(chat);
        isInQueue := false;
        notifications := notifications + [ChatMatchedNotice(Some(chat.chatId))];
      case ChatJoined(chat) =>
        currentChat := Some(chat);
      case ChatLeft =>
        currentChat := None;
        otherUserTyping := false;
      case Message(msg) =>
        currentChat := AppendMessage(currentChat, msg);
      case ChatEnded =>
        currentChat := None;
        otherUserTyping := false;
        notifications := notifications + [ChatEndedNotice("ended")];
      case TypingStarted(_) =>
        otherUserTyping := true;
      case TypingStopped(_) =>
        otherUserTyping := false;
      case ActivityUpdate(act) =>
        activity := Some(act);
      case AccessUpdate(acc) =>
        access := Some(acc);
      case ServerError(m) =>
        if m != Some(SuppressedError) {
          errorLog := errorLog + [m];
        }
      case Pong =>
      case Unrecognised(_) =>
    }

    /** `clearTimers`. The typing flag itself is left as it is. */
    method ClearTimers()
      modifies this`heartbeatArmed, this`reconnectArmed, this`typingTimerArmed
      ensures !heartbeatArmed && !reconnectArmed && !typingTimerArmed
    {
      heartbeatArmed, reconnectArmed, typingTimerArmed := false, false, false;
    }

    /** `disconnect`: timers cancelled, the socket closed normally, all derived state reset. */
    method Disconnect()
      requires Valid()
      modifies this`heartbeatArmed, this`reconnectArmed, this`typingTimerArmed, this`outbox,
               this`socket, this`isConnected, this`isConnecting, this`access, this`activity,
               this`isInQueue, this`currentChat, this`otherUserTyping
      ensures Valid() && Reset()
      ensures socket == NoSocket && !heartbeatArmed && !reconnectArmed && !typingTimerArmed
      ensures outbox == CloseIfLive(old(socket), old(outbox), Some(NormalClosure))
      ensures isTyping == old(isTyping)
      ensures notifications == old(notifications) && errorLog == old(errorLog)
    {
      ClearTimers();
      if socket.Live? {
        outbox := outbox + [Close(Some(NormalClosure))];
        socket := NoSocket;
      }
      isConnected, isConnecting := false, false;
      access, activity := None, None;
      isInQueue := false;
      currentChat := None;
      otherUserTyping := false;
    }

    /**
     * One run of the authentication effect, which React makes on mount and
     * whenever `isAuthenticated`, the access token or the user id changes.
     * From the second run on, the previous run's cleanup (`disconnect`) comes
     * first. The `connect` it then calls belongs to the render that scheduled
     * the run, so its `isConnecting` guard sees the value from before the
     * cleanup: a re-run while a connect is in flight leaves no socket.
     */
    method SyncWithAuth(isAuthenticated: bool, tokens: Option<TokenData>, hasUser: bool, env: Option<string>)
      requires Valid()
      modifies this`heartbeatArmed, this`reconnectArmed, this`typingTimerArmed, this`outbox,
               this`socket, this`isConnected, this`isConnecting, this`access, this`activity,
               this`isInQueue, this`currentChat, this`otherUserTyping, this`effectRan
      ensures Valid() && effectRan
      ensures var signedIn := isAuthenticated && tokens.Some? && hasUser;
              var dropped := old(effectRan) || !signedIn;
              var starts := signedIn && !old(isConnecting) && (dropped || old(socket).NoSocket?)
                            && AccessToken(tokens).Some?;
        && outbox == (if dropped then CloseIfLive(old(socket), old(outbox), Some(NormalClosure)) else old(outbox))
        && (dropped ==> access.None? && activity.None? && !isInQueue && currentChat.None? && !otherUserTyping
                        && !isConnected && !heartbeatArmed && !reconnectArmed && !typingTimerArmed)
        && (!starts && dropped ==> !isConnecting)
        && (starts ==> isConnecting && socket == Live(MainUrl(WsBase(env), AccessToken(tokens).value), Connecting))
        && (!starts && dropped ==> socket == NoSocket)
        && (!dropped ==> access == old(access) && activity == old(activity) && isInQueue == old(isInQueue)
                         && currentChat == old(currentChat) && otherUserTyping == old(otherUserTyping)
                         && isConnected == old(isConnected) && heartbeatArmed == old(heartbeatArmed)
                         && reconnectArmed == old(reconnectArmed) && typingTimerArmed == old(typingTimerArmed))
        && (!starts && !dropped ==> socket == old(socket) && isConnecting == old(isConnecting))
    {
      var wasConnecting := isConnecting;
      if effectRan {
        Disconnect();
      }
      effectRan := true;
      if isAuthenticated && tokens.Some? && hasUser {
        if !wasConnecting {
          Connect(isAuthenticated, tokens, env);
        }
      } else {
        Disconnect();
      }
    }

    /** The heartbeat interval fires. */
    method FireHeartbeat()
      requires Valid() && heartbeatArmed
      modifies this`outbox
      ensures outbox == Emit(socket, old(outbox), Heartbeat)
    {
      SendAction(Heartbeat);
    }

    /** The reconnect timeout fires and calls `connect`. */
    method FireReconnect(isAuthenticated: bool, tokens: Option<TokenData>, env: Option<string>)
      requires Valid() && reconnectArmed
      modifies this`reconnectArmed, this`isConnecting, this`socket
      ensures Valid() && !reconnectArmed
      ensures var starts := old(socket).NoSocket? && !old(isConnecting) && isAuthenticated
                            && AccessToken(tokens).Some?;
        if starts then
          isConnecting && socket == Live(MainUrl(WsBase(env), AccessToken(tokens).value), Connecting)
        else
          isConnecting == old(isConnecting) && socket == old(socket)
    {
      reconnectArmed := false;
      Connect(isAuthenticated, tokens, env);
    }

    method JoinQueue()
      modifies this`outbox
      ensures outbox == Emit(socket, old(outbox), Action.JoinQueue)
    {
      SendAction(Action.JoinQueue);
    }

    /** `leaveQueue`: the optimistic update happens whether or not the socket is open. */
    method LeaveQueue()
      modifies this`isInQueue, this`outbox
      ensures !isInQueue
      ensures outbox == Emit(socket, old(outbox), Action.LeaveQueue)
    {
      isInQueue := false;
      SendAction(Action.LeaveQueue);
    }

    method JoinChat(chatId: string)
      modifies this`outbox
      ensures outbox == Emit(socket, old(outbox), Action.JoinChat(chatId))
    {
      SendAction(Action.JoinChat(chatId));
    }

    method LeaveChat()
      modifies this`outbox
      ensures outbox == Emit(socket, old(outbox), Action.LeaveChat)
    {
      SendAction(Action.LeaveChat);
    }

    method EndChat()
      modifies this`outbox
      ensures outbox == Emit(socket, old(outbox), Action.EndChat)
    {
      SendAction(Action.EndChat);
    }

    method Refresh()
      modifies this`outbox
      ensures outbox == Emit(socket, old(outbox), Action.Refresh)
    {
      SendAction(Action.Refresh);
    }

    /**
     * `sendMessage`: text that is blank after trimming is dropped; otherwise the
     * trimmed text is sent, followed by `typing_stop` if the typing flag was set.
     */
    method SendMessage(content: string)
      modifies this`outbox, this`isTyping
      ensures Trim(content) == [] ==> outbox == old(outbox) && isTyping == old(isTyping)
      ensures Trim(content) != [] ==> !isTyping
      ensures Trim(content) != [] ==>
        var sent := Emit(socket, old(outbox), Action.SendMessage(Trim(content)));
        outbox == if old(isTyping) then Emit(socket, sent, TypingStop) else sent
    {
      var text := Trim(content);
      if text != [] {
        SendAction(Action.SendMessage(text));
        if isTyping {
          isTyping := false;
          SendAction(TypingStop);
        }
      }
    }

    /**
     * `startTyping`: nothing without a chat; otherwise `typing_start` only on
     * the false→true edge of the flag, and the 3 s auto-stop is re-armed.
     */
    method StartTyping()
      modifies this`isTyping, this`typingTimerArmed, this`outbox
      ensures currentChat.None? ==>
        isTyping == old(isTyping) && typingTimerArmed == old(typingTimerArmed) && outbox == old(outbox)
      ensures currentChat.Some? ==> isTyping && typingTimerArmed
      ensures currentChat.Some? ==>
        outbox == if old(isTyping) then old(outbox) else Emit(socket, old(outbox), TypingStart)
    {
      if currentChat.None? {
        return;
      }
      if !isTyping {
        isTyping := true;
        SendAction(TypingStart);
      }
      typingTimerArmed := true;
    }

    /** `stopTyping`: flag and timer cleared; `typing_stop` only inside a chat and only if typing. */
    method StopTyping()
      modifies this`isTyping, this`typingTimerArmed, this`outbox
      ensures !isTyping && !typingTimerArmed
      ensures outbox == if currentChat.Some? && old(isTyping) then Emit(socket, old(outbox), TypingStop)
                        else old(outbox)
    {
      if currentChat.None? {
        isTyping := false;
        typingTimerArmed := false;
        return;
      }
      if isTyping {
        isTyping := false;
        SendAction(TypingStop);
      }
      typingTimerArmed := false;
    }

    /** The typing timeout fires: stop if still typing. */
    method FireTypingTimeout()
      requires typingTimerArmed
      modifies this`isTyping, this`typingTimerArmed, this`outbox
      ensures !isTyping && !typingTimerArmed
      ensures outbox == if old(isTyping) then Emit(socket, old(outbox), TypingStop) else old(outbox)
    {
      typingTimerArmed := false;
      if isTyping {
        isTyping := false;
        SendAction(TypingStop);
      }
    }
  }

  /** Connect, snapshot in the queue, leave optimistically, then the server confirms. */
  method LeaveQueueScenario(access: AccessData, activity: ActivityData, tokens: TokenData)
    requires tokens.access != ""
  {
    var client := new MainSocketClient();
    client.Connect(true, Some(tokens), None);
    client.OnOpen();
    client.HandleMessage(InitialState(access, activity, true, None));
    assert client.isInQueue;
    client.LeaveQueue();
    assert !client.isInQueue && client.outbox == [Send(Action.LeaveQueue)];
    client.HandleMessage(QueueLeft);
    assert !client.isInQueue;
  }

  /** A match installs the chat and leaves the queue; a pushed message lands in it. */
  method MatchScenario(tokens: TokenData, chat: Chat, msg: ChatMessage)
    requires tokens.access != "" && chat.messages == []
  {
    var client := new MainSocketClient();
    client.Connect(true, Some(tokens), None);
    client.OnOpen();
    client.HandleMessage(ChatMatched(chat));
    assert !client.isInQueue && client.currentChat == Some(chat);
    assert client.notifications == [ChatMatchedNotice(Some(chat.chatId))];
    client.HandleMessage(Message(msg));
    assert client.currentChat.value.messages == [msg];
  }

  /** An abnormal close arms one reconnect; a disconnect during the delay cancels it. */
  method ReconnectScenario(tokens: TokenData)
    requires tokens.access != ""
  {
    var client := new MainSocketClient();
    client.Connect(true, Some(tokens), None);
    client.OnOpen();
    client.OnClose(1006, true, Some(tokens));
    assert client.reconnectArmed;
    client.Disconnect();
    assert !client.reconnectArmed && !client.heartbeatArmed && !client.typingTimerArmed;
  }
}
