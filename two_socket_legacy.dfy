/**
 * The oldest two-socket provider (src/contexts/WebSocketContext-old.tsx): the
 * same queue and chat sockets, with tokenless URLs, guarded connects, chat
 * details fetched before the chat socket opens, and a logout that closes the
 * sockets without releasing the references.
 */
module TwoSocketLegacy {
  import opened Wrappers
  import opened Protocol
  import TwoSocket

  /** `getWsUrl(path)`: plain concatenation. */
  function GetWsUrl(base: string, path: string): (r: string)
    ensures |r| == |base| + |path| && r[..|base|] == base && r[|base|..] == path
  {
    base + path
  }

  /** The legacy URL is the later one's URL for a session without a token. */
  lemma LegacyUrlIsTokenless(base: string, path: string, token: Option<string>)
    ensures GetWsUrl(base, path) == TwoSocket.GetWsUrl(base, path, None)
    ensures Truthy(token) ==> GetWsUrl(base, path) != TwoSocket.GetWsUrl(base, path, token)
  {
    if Truthy(token) {
      assert |TwoSocket.GetWsUrl(base, path, token)| > |base + path|;
    }
  }

  /** `close()`: a live socket starts its closing handshake; the reference is kept. */
  function StartClosing(s: Socket): (r: Socket)
    ensures s.NoSocket? ==> r.NoSocket?
    ensures s.Live? ==> r.Live? && r.url == s.url && r.state == Closing
  {
    match s
    case NoSocket => NoSocket
    case Live(url, _) => Live(url, Closing)
  }

  class LegacyClient {
    // useState
    var queueStatus: Option<QueueStatus>
    var isInQueue: bool
    var currentChat: Option<Chat>
    var isQueueConnected: bool
    var isChatConnected: bool
    // useRef
    var queueSocket: Socket
    var chatSocket: Socket
    // whether the `currentChat` captured by the chat socket's message closure was non-null
    var chatClosureSawChat: bool
    // setTimeout reconnects and started active-chat checks not yet run
    var pendingReconnects: nat
    var pendingActiveChecks: nat
    // chat ids whose details were requested, in order
    var detailRequests: seq<string>
    // what goes out on each socket
    var queueOut: seq<Outbound>
    var chatOut: seq<Outbound>

    constructor ()
      ensures queueStatus.None? && !isInQueue && currentChat.None?
      ensures !isQueueConnected && !isChatConnected
      ensures queueSocket == NoSocket && chatSocket == NoSocket
      ensures pendingReconnects == 0 && pendingActiveChecks == 0 && detailRequests == []
      ensures queueOut == [] && chatOut == []
    {
      queueStatus, isInQueue, currentChat := None, false, None;
      isQueueConnected, isChatConnected := false, false;
      queueSocket, chatSocket, chatClosureSawChat := NoSocket, NoSocket, false;
      pendingReconnects, pendingActiveChecks, detailRequests := 0, 0, [];
      queueOut, chatOut := [], [];
    }

    /**
     * `connectToQueue` (and the identical `connectToQueueWithFetch`): a no-op
     * without a user or tokens or while a queue socket is referenced.
     */
    method ConnectToQueue(hasUser: bool, tokens: Option<TokenData>, env: Option<string>)
      modifies this`queueSocket
      ensures hasUser && tokens.Some? && old(queueSocket).NoSocket? ==>
        queueSocket == Live(GetWsUrl(WsBase(env), "/ws/queue/"), Connecting)
      ensures !(hasUser && tokens.Some? && old(queueSocket).NoSocket?) ==> queueSocket == old(queueSocket)
    {
      if !hasUser || tokens.None? || queueSocket.Live? {
        return;
      }
      queueSocket := Live(GetWsUrl(WsBase(env), "/ws/queue/"), Connecting);
    }

    method OnQueueOpen()
      requires queueSocket.Live? && queueSocket.state == Connecting
      modifies this`isQueueConnected, this`queueSocket, this`queueOut
      ensures isQueueConnected && queueSocket == old(queueSocket).(state := Open)
      ensures queueOut == old(queueOut) + [Send(CheckStatus)]
    {
      isQueueConnected := true;
      queueSocket := queueSocket.(state := Open);
      queueOut := queueOut + [Send(CheckStatus)];
    }

    method OnQueueStatus(status: QueueStatus)
      requires IsOpen(queueSocket)
      modifies this`queueStatus
      ensures queueStatus == Some(status)
    {
      queueStatus := Some(status);
    }

    /** Queue `chat_matched`: no chat, out of the queue, details requested only for a chat id. */
    method OnQueueChatMatched(chatId: Option<string>)
      requires IsOpen(queueSocket)
      modifies this`currentChat, this`isInQueue, this`detailRequests
      ensures currentChat.None? && !isInQueue
      ensures detailRequests == old(detailRequests) + (if Truthy(chatId) then [chatId.value] else [])
    {
      currentChat := None;
      isInQueue := false;
      if Truthy(chatId) {
        detailRequests := detailRequests + [chatId.value];
      }
    }

    method OnQueueError()
      modifies this`isQueueConnected
      ensures !isQueueConnected
    {
      isQueueConnected := false;
    }

    /** Queue `onclose`: released; a reconnect scheduled iff the closure saw a user and tokens. */
    method OnQueueClose(hasUser: bool, tokens: Option<TokenData>)
      modifies this`isQueueConnected, this`queueSocket, this`pendingReconnects
      ensures !isQueueConnected && queueSocket == NoSocket
      ensures pendingReconnects == old(pendingReconnects) + (if hasUser && tokens.Some? then 1 else 0)
    {
      isQueueConnected := false;
      queueSocket := NoSocket;
      if hasUser && tokens.Some? {
        pendingReconnects := pendingReconnects + 1;
      }
    }

    /** A scheduled reconnect runs the guarded connect with the values its closure captured. */
    method FireReconnect(hasUser: bool, tokens: Option<TokenData>, env: Option<string>)
      requires pendingReconnects > 0
      modifies this`pendingReconnects, this`queueSocket
      ensures pendingReconnects == old(pendingReconnects) - 1
      ensures hasUser && tokens.Some? && old(queueSocket).NoSocket? ==>
        queueSocket == Live(GetWsUrl(WsBase(env), "/ws/queue/"), Connecting)
      ensures !(hasUser && tokens.Some? && old(queueSocket).NoSocket?) ==> queueSocket == old(queueSocket)
    {
      pendingReconnects := pendingReconnects - 1;
      ConnectToQueue(hasUser, tokens, env);
    }

    /**
     * `connectToChat`: a no-op without a user or tokens or while a chat socket is
     * referenced; the new socket's message closure keeps whether it saw a chat.
     */
    method ConnectToChat(chatId: string, hasUser: bool, tokens: Option<TokenData>, sawChat: bool, env: Option<string>)
      modifies this`chatSocket, this`chatClosureSawChat
      ensures hasUser && tokens.Some? && old(chatSocket).NoSocket? ==>
        chatSocket == Live(GetWsUrl(WsBase(env), "/ws/chat/" + chatId + "/"), Connecting)
        && chatClosureSawChat == sawChat
      ensures !(hasUser && tokens.Some? && old(chatSocket).NoSocket?) ==>
        chatSocket == old(chatSocket) && chatClosureSawChat == old(chatClosureSawChat)
    {
      if !hasUser || tokens.None? || chatSocket.Live? {
        return;
      }
      chatSocket := Live(GetWsUrl(WsBase(env), "/ws/chat/" + chatId + "/"), Connecting);
      chatClosureSawChat := sawChat;
    }

    /**
     * `fetchChatDetails` resuming with its reply: only an ok reply installs the
     * chat and asks for the chat socket.
     */
    method FetchChatDetails(chatId: string, details: TwoSocket.ChatDetails, hasUser: bool,
                            tokens: Option<TokenData>, sawChat: bool, env: Option<string>)
      modifies this`currentChat, this`chatSocket, this`chatClosureSawChat
      ensures details.DetailsFailed? ==>
        currentChat == old(currentChat) && chatSocket == old(chatSocket)
        && chatClosureSawChat == old(chatClosureSawChat)
      ensures details.Details? ==> currentChat == Some(details.chat)
      ensures details.Details? && hasUser && tokens.Some? && old(chatSocket).NoSocket? ==>
        chatSocket == Live(GetWsUrl(WsBase(env), "/ws/chat/" + chatId + "/"), Connecting)
      ensures details.Details? && !(hasUser && tokens.Some? && old(chatSocket).NoSocket?) ==>
        chatSocket == old(chatSocket)
    {
      if details.Details? {
        currentChat := Some(details.chat);
        ConnectToChat(chatId, hasUser, tokens, sawChat, env);
      }
    }

    /** `checkActiveChat` resuming with the lookup: an active chat's details are requested. */
    method CheckActiveChat(tokens: Option<TokenData>, lookup: TwoSocket.ActiveLookup)
      modifies this`detailRequests
      ensures detailRequests == old(detailRequests)
        + (if tokens.Some? && lookup.ActiveChat? then [lookup.chatId] else [])
    {
      if tokens.Some? && lookup.ActiveChat? {
        detailRequests := detailRequests + [lookup.chatId];
      }
    }

    method RunPendingActiveCheck(tokens: Option<TokenData>, lookup: TwoSocket.ActiveLookup)
      requires pendingActiveChecks > 0
      modifies this`pendingActiveChecks, this`detailRequests
      ensures pendingActiveChecks == old(pendingActiveChecks) - 1
      ensures detailRequests == old(detailRequests)
        + (if tokens.Some? && lookup.ActiveChat? then [lookup.chatId] else [])
    {
      pendingActiveChecks := pendingActiveChecks - 1;
      CheckActiveChat(tokens, lookup);
    }

    // The chat socket's callbacks.

    method OnChatOpen()
      requires chatSocket.Live? && chatSocket.state == Connecting
      modifies this`isChatConnected, this`chatSocket
      ensures isChatConnected && chatSocket == old(chatSocket).(state := Open)
    {
      isChatConnected := true;
      chatSocket := chatSocket.(state := Open);
    }

    /** Chat `message`: appended only if the closure's captured chat was non-null. */
    method OnChatMessage(msg: ChatMessage)
      requires IsOpen(chatSocket)
      modifies this`currentChat
      ensures chatClosureSawChat ==> currentChat == AppendMessage(old(currentChat), msg)
      ensures !chatClosureSawChat ==> currentChat == old(currentChat)
    {
      if chatClosureSawChat {
        currentChat := AppendMessage(currentChat, msg);
      }
    }

    /** `disconnectFromChat`: acts only while a chat socket is referenced. */
    method DisconnectFromChat()
      modifies this`chatSocket, this`chatOut, this`isChatConnected
      ensures chatSocket == NoSocket
      ensures chatOut == CloseIfLive(old(chatSocket), old(chatOut), None)
      ensures old(chatSocket).Live? ==> !isChatConnected
      ensures old(chatSocket).NoSocket? ==> isChatConnected == old(isChatConnected)
    {
      if chatSocket.Live? {
        chatOut := chatOut + [Close(None)];
        chatSocket := NoSocket;
        isChatConnected := false;
      }
    }

    /** Chat `chat_ended`: the chat is cleared and the chat socket disconnected. */
    method OnChatEnded()
      requires IsOpen(chatSocket)
      modifies this`currentChat, this`chatSocket, this`chatOut, this`isChatConnected
      ensures currentChat.None? && chatSocket == NoSocket && !isChatConnected
      ensures chatOut == old(chatOut) + [Close(None)]
    {
      currentChat := None;
      DisconnectFromChat();
    }

    method OnChatError()
      modifies this`isChatConnected
      ensures !isChatConnected
    {
      isChatConnected := false;
    }

    method OnChatClose()
      modifies this`isChatConnected, this`chatSocket
      ensures !isChatConnected && chatSocket == NoSocket
    {
      isChatConnected := false;
      chatSocket := NoSocket;
    }

    /**
     * The authentication effect: signed in, connect the queue and start an
     * active-chat check; otherwise close both sockets, keeping the references,
     * and reset the queue status, the chat and the membership flag.
     */
    method AuthEffect(hasUser: bool, tokens: Option<TokenData>, env: Option<string>)
      modifies this`queueSocket, this`chatSocket, this`queueOut, this`chatOut, this`pendingActiveChecks,
               this`queueStatus, this`currentChat, this`isInQueue
      ensures hasUser && tokens.Some? && old(queueSocket).Live? ==> queueSocket == old(queueSocket)
      ensures hasUser && tokens.Some? && old(queueSocket).NoSocket? ==>
        queueSocket == Live(GetWsUrl(WsBase(env), "/ws/queue/"), Connecting)
      ensures hasUser && tokens.Some? ==>
        pendingActiveChecks == old(pendingActiveChecks) + 1
        && chatSocket == old(chatSocket) && queueStatus == old(queueStatus)
        && queueOut == old(queueOut) && chatOut == old(chatOut)
        && currentChat == old(currentChat) && isInQueue == old(isInQueue)
      ensures !(hasUser && tokens.Some?) ==>
        queueSocket == StartClosing(old(queueSocket)) && chatSocket == StartClosing(old(chatSocket))
        && queueOut == CloseIfLive(old(queueSocket), old(queueOut), None)
        && chatOut == CloseIfLive(old(chatSocket), old(chatOut), None)
        && queueStatus.None? && currentChat.None? && !isInQueue
        && pendingActiveChecks == old(pendingActiveChecks)
    {
      if hasUser && tokens.Some? {
        ConnectToQueue(hasUser, tokens, env);
        pendingActiveChecks := pendingActiveChecks + 1;
      } else {
        CloseBoth();
        queueStatus := None;
        currentChat := None;
        isInQueue := false;
      }
    }

    /** `close()` on both referenced sockets; the effect's cleanup does only this. */
    method CloseBoth()
      modifies this`queueSocket, this`chatSocket, this`queueOut, this`chatOut
      ensures queueSocket == StartClosing(old(queueSocket)) && chatSocket == StartClosing(old(chatSocket))
      ensures queueOut == CloseIfLive(old(queueSocket), old(queueOut), None)
      ensures chatOut == CloseIfLive(old(chatSocket), old(chatOut), None)
    {
      if queueSocket.Live? {
        queueOut := queueOut + [Close(None)];
      }
      if chatSocket.Live? {
        chatOut := chatOut + [Close(None)];
      }
      queueSocket := StartClosing(queueSocket);
      chatSocket := StartClosing(chatSocket);
    }

    method JoinQueue()
      modifies this`queueOut, this`isInQueue
      ensures IsOpen(queueSocket) ==> queueOut == old(queueOut) + [Send(Action.JoinQueue)] && isInQueue
      ensures !IsOpen(queueSocket) ==> queueOut == old(queueOut) && isInQueue == old(isInQueue)
    {
      if IsOpen(queueSocket) {
        queueOut := queueOut + [Send(Action.JoinQueue)];
        isInQueue := true;
      }
    }

    method LeaveQueue()
      modifies this`queueOut, this`isInQueue
      ensures IsOpen(queueSocket) ==> queueOut == old(queueOut) + [Send(Action.LeaveQueue)] && !isInQueue
      ensures !IsOpen(queueSocket) ==> queueOut == old(queueOut) && isInQueue == old(isInQueue)
    {
      if IsOpen(queueSocket) {
        queueOut := queueOut + [Send(Action.LeaveQueue)];
        isInQueue := false;
      }
    }

    method SendMessage(content: string)
      modifies this`chatOut
      ensures chatOut == Emit(chatSocket, old(chatOut), Action.SendMessage(content))
    {
      if IsOpen(chatSocket) {
        chatOut := chatOut + [Send(Action.SendMessage(content))];
      }
    }

    method EndChat()
      modifies this`chatOut
      ensures chatOut == Emit(chatSocket, old(chatOut), Action.EndChat)
    {
      if IsOpen(chatSocket) {
        chatOut := chatOut + [Send(Action.EndChat)];
      }
    }
  }

  /**
   * After a logout the references still hold closing sockets, so signing in
   * again before their close events arrive does not open a new queue socket.
   */
  method LogoutKeepsReferencesScenario(tokens: TokenData)
  {
    var c := new LegacyClient();
    c.ConnectToQueue(true, Some(tokens), None);
    c.OnQueueOpen();
    c.AuthEffect(false, None, None);
    assert c.queueSocket.Live? && c.queueSocket.state == Closing;
    c.AuthEffect(true, Some(tokens), None);
    assert c.queueSocket.state == Closing;
    c.JoinQueue();
    assert !c.isInQueue;
  }
}
