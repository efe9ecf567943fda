/**
 * The queue socket provider (src/contexts/QueueWebSocketContext.tsx): one
 * `/ws/queue/` socket carrying the queue status, the queue membership flag
 * and the presence list of online users.
 */
module QueueSocket {
  import opened Wrappers
  import opened JsText
  import opened Protocol

  datatype PresenceState = Online | InQueue | InChat | Offline

  datatype UserPresence = UserPresence(userId: string, status: PresenceState, lastSeen: Option<string>)

  /** The two server error texts the provider reacts to. */
  const AlreadyInQueue: string := "Already in queue"
  const NotInQueue: string := "Not in queue"

  /** `getWsUrl()`: the token is appended only when truthy. */
  function QueueUrl(base: string, token: Option<string>): (r: string)
    ensures Truthy(token) ==> r == base + "/ws/queue/" + "?token=" + token.value
    ensures !Truthy(token) ==> r == base + "/ws/queue/"
  {
    var url := base + "/ws/queue/";
    if Truthy(token) then url + "?token=" + token.value else url
  }

  /**
   * When neither the base nor the token holds a `?`, the URL has exactly one
   * query mark if a token was appended and none otherwise.
   */
  lemma QueueUrlQueryMark(base: string, token: Option<string>)
    requires '?' !in base && (token.Some? ==> '?' !in token.value)
    ensures Occurrences(QueueUrl(base, token), '?') == (if Truthy(token) then 1 else 0)
  {
    OccurrencesConcat(base, "/ws/queue/", '?');
    OccurrencesMembership(base, '?');
    OccurrencesMembership("/ws/queue/", '?');
    if Truthy(token) {
      var query := ['?'] + ("token=" + token.value);
      assert base + "/ws/queue/" + "?token=" + token.value == base + "/ws/queue/" + query;
      OccurrencesConcat(base + "/ws/queue/", query, '?');
      OccurrencesConcat(['?'], "token=" + token.value, '?');
      OccurrencesConcat("token=", token.value, '?');
      OccurrencesMembership("token=", '?');
      OccurrencesMembership(token.value, '?');
    }
  }

  class QueueSocketClient {
    // useState
    var queueStatus: Option<QueueStatus>
    var isInQueue: bool
    var isConnected: bool
    var onlineUsers: seq<UserPresence>
    // useRef
    var socket: Socket
    var reconnectArmed: bool
    var heartbeatArmed: bool
    // effects outside the provider
    var outbox: seq<Outbound>
    var notifications: seq<Notification>

    /**
     * Connected only over an open socket; without a socket there is no queue
     * status, no presence list and no heartbeat.
     */
    ghost predicate Valid()
      reads this
    {
      (isConnected ==> IsOpen(socket))
      && (socket.NoSocket? ==> queueStatus.None? && onlineUsers == [] && !isConnected)
      && (heartbeatArmed ==> socket.Live?)
    }

    constructor ()
      ensures Valid()
      ensures queueStatus.None? && !isInQueue && !isConnected && onlineUsers == []
      ensures socket == NoSocket && !reconnectArmed && !heartbeatArmed
      ensures outbox == [] && notifications == []
    {
      queueStatus, isInQueue, isConnected, onlineUsers := None, false, false, [];
      socket, reconnectArmed, heartbeatArmed := NoSocket, false, false;
      outbox, notifications := [], [];
    }

    method ClearTimers()
      modifies this`reconnectArmed, this`heartbeatArmed
      ensures !reconnectArmed && !heartbeatArmed
    {
      reconnectArmed, heartbeatArmed := false, false;
    }

    /** `connect`: a no-op without a user or tokens, or while a socket exists. */
    method Connect(hasUser: bool, tokens: Option<TokenData>, env: Option<string>)
      requires Valid()
      modifies this`socket
      ensures Valid()
      ensures hasUser && tokens.Some? && old(socket).NoSocket? ==>
        socket == Live(QueueUrl(WsBase(env), AccessToken(tokens)), Connecting)
      ensures !(hasUser && tokens.Some? && old(socket).NoSocket?) ==> socket == old(socket)
    {
      if !hasUser || tokens.None? || socket.Live? {
        return;
      }
      socket := Live(QueueUrl(WsBase(env), AccessToken(tokens)), Connecting);
    }

    /** `ws.onopen`: connected, `check_status` sent at once, heartbeat armed. */
    method OnOpen()
      requires Valid() && socket.Live? && socket.state == Connecting
      modifies this`isConnected, this`socket, this`outbox, this`heartbeatArmed
      ensures Valid()
      ensures isConnected && heartbeatArmed && socket == old(socket).(state := Open)
      ensures outbox == old(outbox) + [Send(CheckStatus)]
    {
      socket := socket.(state := Open);
      isConnected := true;
      outbox := outbox + [Send(CheckStatus)];
      heartbeatArmed := true;
    }

    /** `queue_status`: replaces the status; the flag follows it only when it is a boolean. */
    method OnQueueStatus(status: QueueStatus)
      requires Valid() && IsOpen(socket)
      modifies this`queueStatus, this`isInQueue
      ensures Valid()
      ensures queueStatus == Some(status)
      ensures isInQueue == status.isInQueue.GetOr(old(isInQueue))
    {
      queueStatus := Some(status);
      if status.isInQueue.Some? {
        isInQueue := status.isInQueue.value;
      }
    }

    /** `user_presence_update`: the list is replaced only when the message has one. */
    method OnPresenceUpdate(users: Option<seq<UserPresence>>)
      requires Valid() && IsOpen(socket)
      modifies this`onlineUsers
      ensures Valid()
      ensures onlineUsers == users.GetOr(old(onlineUsers))
    {
      if users.Some? {
        onlineUsers := users.value;
      }
    }

    /** `chat_matched`: out of the queue, one notice carrying the chat id. */
    method OnChatMatched(chatId: Option<string>)
      requires Valid() && IsOpen(socket)
      modifies this`isInQueue, this`notifications
      ensures Valid()
      ensures !isInQueue
      ensures notifications == old(notifications) + [ChatMatchedNotice(chatId)]
    {
      isInQueue := false;
      notifications := notifications + [ChatMatchedNotice(chatId)];
    }

    /** `user_joined_queue`: only `waiting_count` changes, and only on an existing status. */
    method OnUserJoinedQueue(waitingCount: Option<int>)
      requires Valid() && IsOpen(socket)
      modifies this`queueStatus
      ensures Valid()
      ensures queueStatus.None? <==> old(queueStatus).None?
      ensures waitingCount.None? ==> queueStatus == old(queueStatus)
      ensures waitingCount.Some? && queueStatus.Some? ==>
        queueStatus == Some(old(queueStatus).value.(waitingCount := waitingCount.value))
    {
      if waitingCount.Some? && queueStatus.Some? {
        queueStatus := Some(queueStatus.value.(waitingCount := waitingCount.value));
      }
    }

    /**
     * `user_left_queue`: always out of the queue; an existing status also takes
     * the count and `is_in_queue: false` when a count is given.
     */
    method OnUserLeftQueue(waitingCount: Option<int>)
      requires Valid() && IsOpen(socket)
      modifies this`queueStatus, this`isInQueue
      ensures Valid()
      ensures !isInQueue
      ensures queueStatus.None? <==> old(queueStatus).None?
      ensures waitingCount.None? ==> queueStatus == old(queueStatus)
      ensures waitingCount.Some? && queueStatus.Some? ==>
        queueStatus == Some(old(queueStatus).value.(waitingCount := waitingCount.value, isInQueue := Some(false)))
    {
      isInQueue := false;
      if waitingCount.Some? && queueStatus.Some? {
        queueStatus := Some(queueStatus.value.(waitingCount := waitingCount.value, isInQueue := Some(false)));
      }
    }

    /**
     * `error`: "Already in queue" sets the flag and asks for a fresh status,
     * "Not in queue" clears it, any other text changes nothing.
     */
    method OnServerError(message: Option<string>)
      requires Valid() && IsOpen(socket)
      modifies this`isInQueue, this`outbox
      ensures Valid()
      ensures message == Some(AlreadyInQueue) ==> isInQueue && outbox == old(outbox) + [Send(CheckStatus)]
      ensures message == Some(NotInQueue) ==> !isInQueue && outbox == old(outbox)
      ensures message != Some(AlreadyInQueue) && message != Some(NotInQueue) ==>
        isInQueue == old(isInQueue) && outbox == old(outbox)
    {
      if message == Some(AlreadyInQueue) {
        isInQueue := true;
        outbox := outbox + [Send(CheckStatus)];
      } else if message == Some(NotInQueue) {
        isInQueue := false;
      }
    }

    /** `ws.onerror`. */
    method OnError()
      requires Valid()
      modifies this`isConnected
      ensures Valid() && !isConnected
    {
      isConnected := false;
    }

    /**
     * `ws.onclose`: status and presence dropped, the membership flag kept, and
     * a reconnect armed iff the closure still saw a user and tokens and the
     * close was not normal.
     */
    method OnClose(code: int, hasUser: bool, tokens: Option<TokenData>)
      requires Valid()
      modifies this`isConnected, this`queueStatus, this`onlineUsers, this`reconnectArmed,
               this`heartbeatArmed, this`socket
      ensures Valid()
      ensures !isConnected && queueStatus.None? && onlineUsers == [] && socket == NoSocket
      ensures !heartbeatArmed
      ensures reconnectArmed <==> hasUser && tokens.Some? && code != NormalClosure
    {
      isConnected := false;
      queueStatus := None;
      onlineUsers := [];
      ClearTimers();
      socket := NoSocket;
      if hasUser && tokens.Some? && code != NormalClosure {
        reconnectArmed := true;
      }
    }

    /** `disconnect`: timers (a pending reconnect too) cancelled, socket closed, state reset. */
    method Disconnect()
      requires Valid()
      modifies this`reconnectArmed, this`heartbeatArmed, this`outbox, this`socket,
               this`isConnected, this`queueStatus, this`isInQueue, this`onlineUsers
      ensures Valid()
      ensures !reconnectArmed && !heartbeatArmed && socket == NoSocket
      ensures !isConnected && queueStatus.None? && !isInQueue && onlineUsers == []
      ensures outbox == CloseIfLive(old(socket), old(outbox), Some(NormalClosure))
    {
      ClearTimers();
      if socket.Live? {
        outbox := outbox + [Close(Some(NormalClosure))];
        socket := NoSocket;
      }
      isConnected := false;
      queueStatus := None;
      isInQueue := false;
      onlineUsers := [];
    }

    /** The reconnect timeout fires and calls the latest `connect`. */
    method FireReconnect(hasUser: bool, tokens: Option<TokenData>, env: Option<string>)
      requires Valid() && reconnectArmed
      modifies this`reconnectArmed, this`socket
      ensures Valid() && !reconnectArmed
      ensures hasUser && tokens.Some? && old(socket).NoSocket? ==>
        socket == Live(QueueUrl(WsBase(env), AccessToken(tokens)), Connecting)
      ensures !(hasUser && tokens.Some? && old(socket).NoSocket?) ==> socket == old(socket)
    {
      reconnectArmed := false;
      Connect(hasUser, tokens, env);
    }

    /** The heartbeat interval fires. */
    method FireHeartbeat()
      requires heartbeatArmed
      modifies this`outbox
      ensures outbox == Emit(socket, old(outbox), Heartbeat)
    {
      outbox := Emit(socket, outbox, Heartbeat);
    }

    /** `joinQueue`: sent without any local update. */
    method JoinQueue()
      modifies this`outbox
      ensures outbox == Emit(socket, old(outbox), Action.JoinQueue)
    {
      if IsOpen(socket) {
        outbox := outbox + [Send(Action.JoinQueue)];
      }
    }

    /** `leaveQueue`: on an open socket, the flag is cleared first, then the action is sent. */
    method LeaveQueue()
      modifies this`isInQueue, this`outbox
      ensures IsOpen(socket) ==> !isInQueue && outbox == old(outbox) + [Send(Action.LeaveQueue)]
      ensures !IsOpen(socket) ==> isInQueue == old(isInQueue) && outbox == old(outbox)
    {
      if IsOpen(socket) {
        isInQueue := false;
        outbox := outbox + [Send(Action.LeaveQueue)];
      }
    }

    /** `refreshStatus`. */
    method RefreshStatus()
      modifies this`outbox
      ensures outbox == Emit(socket, old(outbox), CheckStatus)
    {
      if IsOpen(socket) {
        outbox := outbox + [Send(CheckStatus)];
      }
    }

    /** The window `focus` listener: refresh while connected. */
    method OnWindowFocus()
      requires Valid()
      modifies this`outbox
      ensures isConnected ==> outbox == old(outbox) + [Send(CheckStatus)]
      ensures !isConnected ==> outbox == old(outbox)
    {
      if isConnected {
        RefreshStatus();
      }
    }

    /**
     * The authentication effect re-run after `user` or `tokenData` changed:
     * the previous run's cleanup disconnects, then the new run connects when
     * both are present (and disconnects again otherwise).
     */
    method OnAuthChange(hasUser: bool, tokens: Option<TokenData>, env: Option<string>)
      requires Valid()
      modifies this`reconnectArmed, this`heartbeatArmed, this`outbox, this`socket,
               this`isConnected, this`queueStatus, this`isInQueue, this`onlineUsers
      ensures Valid()
      ensures !reconnectArmed && !heartbeatArmed && !isConnected && !isInQueue
      ensures queueStatus.None? && onlineUsers == []
      ensures outbox == CloseIfLive(old(socket), old(outbox), Some(NormalClosure))
      ensures hasUser && tokens.Some? ==> socket == Live(QueueUrl(WsBase(env), AccessToken(tokens)), Connecting)
      ensures !(hasUser && tokens.Some?) ==> socket == NoSocket
    {
      Disconnect();
      if hasUser && tokens.Some? {
        Connect(hasUser, tokens, env);
      } else {
        Disconnect();
      }
    }
  }

  /** `Already in queue` repairs the flag after a lost `queue_status`. */
  method AlreadyInQueueScenario(tokens: TokenData)
  {
    var q := new QueueSocketClient();
    q.Connect(true, Some(tokens), None);
    q.OnOpen();
    q.JoinQueue();
    q.OnServerError(Some(AlreadyInQueue));
    assert q.isInQueue;
    assert q.outbox == [Send(CheckStatus), Send(Action.JoinQueue), Send(CheckStatus)];
    q.OnClose(1006, true, Some(tokens));
    assert q.isInQueue && q.reconnectArmed && q.queueStatus.None?;
  }
}
