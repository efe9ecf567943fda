/**
 * The earlier two-socket provider (src/contexts/WebSocketContext.tsx): a queue
 * socket opened by an authentication effect, and a chat socket opened by the
 * active-chat check once the chat has been fetched.
 */
module TwoSocket {
  import opened Wrappers
  import opened JsText
  import opened Protocol

  /**
   * `getWsUrl(path)`: base and path, then `token=<t>` when the token is truthy,
   * joined with `&` if the path already has a query and with `?` otherwise.
   */
  function GetWsUrl(base: string, path: string, token: Option<string>): (r: string)
    ensures !Truthy(token) ==> r == base + path
    ensures Truthy(token) ==>
      r == base + path + [if '?' in path then '&' else '?'] + "token=" + token.value
  {
    var url := base + path;
    if Truthy(token) then
      var separator := if '?' in path then '&' else '?';
      url + [separator] + "token=" + token.value
    else url
  }

  /**
   * With a token, the URL carries a query mark, and exactly one when neither
   * the base, the path nor the token had one.
   */
  lemma TokenedUrlHasOneQueryMark(base: string, path: string, token: string)
    requires token != ""
    requires '?' !in base && '?' !in path && '?' !in token
    ensures Occurrences(GetWsUrl(base, path, Some(token)), '?') == 1
  {
    var r := GetWsUrl(base, path, Some(token));
    assert r == base + path + ['?'] + ("token=" + token);
    OccurrencesConcat(base + path + ['?'], "token=" + token, '?');
    OccurrencesConcat(base + path, ['?'], '?');
    OccurrencesConcat(base, path, '?');
    OccurrencesConcat("token=", token, '?');
    OccurrencesMembership(base, '?');
    OccurrencesMembership(path, '?');
    OccurrencesMembership(token, '?');
    assert Occurrences("token=", '?') == 0 by { OccurrencesMembership("token=", '?'); }
  }

  /** A path that already has a query string keeps exactly its own query marks. */
  lemma TokenJoinsExistingQuery(base: string, path: string, token: string)
    requires token != "" && '?' in path && '?' !in token
    ensures Occurrences(GetWsUrl(base, path, Some(token)), '?') == Occurrences(base + path, '?')
  {
    assert GetWsUrl(base, path, Some(token)) == base + path + ['&'] + ("token=" + token);
    OccurrencesConcat(base + path + ['&'], "token=" + token, '?');
    OccurrencesConcat(base + path, ['&'], '?');
    OccurrencesConcat("token=", token, '?');
    OccurrencesMembership(token, '?');
    assert Occurrences("token=", '?') == 0 by { OccurrencesMembership("token=", '?'); }
  }

  /** The `/api/chat/active/` lookup as the check sees it. */
  datatype ActiveLookup = LookupFailed | NoActiveChat | ActiveChat(chatId: string)

  /** The `/api/chat/<id>/` fetch: failed (not ok, or a body that did not parse) or the chat. */
  datatype ChatDetails = DetailsFailed | Details(chat: Chat)

  class TwoSocketClient {
    // useState
    var queueStatus: Option<QueueStatus>
    var isInQueue: bool
    var currentChat: Option<Chat>
    var isQueueConnected: bool
    var isChatConnected: bool
    // useRef
    var queueSocket: Socket
    var chatSocket: Socket
    // setTimeout callbacks pending; their ids are never kept, so they cannot be cancelled
    var pendingReconnects: nat
    var pendingActiveChecks: nat
    // what goes out on each socket
    var queueOut: seq<Outbound>
    var chatOut: seq<Outbound>

    constructor ()
      ensures queueStatus.None? && !isInQueue && currentChat.None?
      ensures !isQueueConnected && !isChatConnected
      ensures queueSocket == NoSocket && chatSocket == NoSocket
      ensures pendingReconnects == 0 && pendingActiveChecks == 0
      ensures queueOut == [] && chatOut == []
    {
      queueStatus, isInQueue, currentChat := None, false, None;
      isQueueConnected, isChatConnected := false, false;
      queueSocket, chatSocket := NoSocket, NoSocket;
      pendingReconnects, pendingActiveChecks := 0, 0;
      queueOut, chatOut := [], [];
    }

    /**
     * `checkActiveChat`: only with tokens, an active chat and its details does
     * anything change: the chat is installed and a new chat socket replaces the
     * reference, without closing the one it held.
     */
    method CheckActiveChat(tokens: Option<TokenData>, lookup: ActiveLookup, details: ChatDetails, env: Option<string>)
      modifies this`currentChat, this`chatSocket
      ensures tokens.Some? && lookup.ActiveChat? && details.Details? ==>
        currentChat == Some(details.chat)
        && chatSocket == Live(GetWsUrl(WsBase(env), "/ws/chat/" + lookup.chatId + "/", AccessToken(tokens)), Connecting)
      ensures !(tokens.Some? && lookup.ActiveChat? && details.Details?) ==>
        currentChat == old(currentChat) && chatSocket == old(chatSocket)
    {
      if tokens.None? {
        return;
      }
      if lookup.ActiveChat? && details.Details? {
        currentChat := Some(details.chat);
        chatSocket := Live(GetWsUrl(WsBase(env), "/ws/chat/" + lookup.chatId + "/", AccessToken(tokens)), Connecting);
      }
    }

    /** A scheduled active-chat check runs. */
    method RunPendingActiveCheck(tokens: Option<TokenData>, lookup: ActiveLookup, details: ChatDetails, env: Option<string>)
      requires pendingActiveChecks > 0
      modifies this`pendingActiveChecks, this`currentChat, this`chatSocket
      ensures pendingActiveChecks == old(pendingActiveChecks) - 1
      ensures tokens.Some? && lookup.ActiveChat? && details.Details? ==>
        currentChat == Some(details.chat)
        && chatSocket == Live(GetWsUrl(WsBase(env), "/ws/chat/" + lookup.chatId + "/", AccessToken(tokens)), Connecting)
      ensures !(tokens.Some? && lookup.ActiveChat? && details.Details?) ==>
        currentChat == old(currentChat) && chatSocket == old(chatSocket)
    {
      pendingActiveChecks := pendingActiveChecks - 1;
      CheckActiveChat(tokens, lookup, details, env);
    }

    // The chat socket's callbacks.

    method OnChatOpen()
      requires chatSocket.Live? && chatSocket.state == Connecting
      modifies this`isChatConnected, this`chatSocket
      ensures isChatConnected && chatSocket == old(chatSocket).(state := Open)
    {
      isChatConnected := true;
      chatSocket := chatSocket.(state := Open);
    }

    /** Chat `message`: appended at the end; no chat stays no chat. */
    method OnChatMessage(msg: ChatMessage)
      requires IsOpen(chatSocket)
      modifies this`currentChat
      ensures currentChat == AppendMessage(old(currentChat), msg)
    {
      currentChat := AppendMessage(currentChat, msg);
    }

    /** Chat `chat_ended`: chat cleared, the chat socket closed (no code) and released. */
    method OnChatEnded()
      requires IsOpen(chatSocket)
      modifies this`currentChat, this`chatSocket, this`chatOut, this`isChatConnected
      ensures currentChat.None? && chatSocket == NoSocket && !isChatConnected
      ensures chatOut == old(chatOut) + [Close(None)]
    {
      currentChat := None;
      chatOut := chatOut + [Close(None)];
      chatSocket := NoSocket;
      isChatConnected := false;
    }

    method OnChatError()
      modifies this`isChatConnected
      ensures !isChatConnected
    {
      isChatConnected := false;
    }

    method OnChatClose()
      modifies this`isChatConnected, this`chatSocket
      ensures !isChatConnected && chatSocket == NoSocket
    {
      isChatConnected := false;
      chatSocket := NoSocket;
    }

    // The queue socket's callbacks.

    /** `connectToQueue`: unguarded; the reference is simply replaced. */
    method ConnectToQueue(token: Option<string>, env: Option<string>)
      modifies this`queueSocket
      ensures queueSocket == Live(GetWsUrl(WsBase(env), "/ws/queue/", token), Connecting)
    {
      queueSocket := Live(GetWsUrl(WsBase(env), "/ws/queue/", token), Connecting);
    }

    /** Queue `onopen`: connected, and `check_status` is sent on the socket itself. */
    method OnQueueOpen()
      requires queueSocket.Live? && queueSocket.state == Connecting
      modifies this`isQueueConnected, this`queueSocket, this`queueOut
      ensures isQueueConnected && queueSocket == old(queueSocket).(state := Open)
      ensures queueOut == old(queueOut) + [Send(CheckStatus)]
    {
      isQueueConnected := true;
      queueSocket := queueSocket.(state := Open);
      queueOut := queueOut + [Send(CheckStatus)];
    }

    method OnQueueStatus(status: QueueStatus)
      requires IsOpen(queueSocket)
      modifies this`queueStatus
      ensures queueStatus == Some(status)
    {
      queueStatus := Some(status);
    }

    /**
     * Queue `chat_matched`: no chat, out of the queue, and an active-chat check
     * scheduled only when the message carries a chat id.
     */
    method OnQueueChatMatched(chatId: Option<string>)
      requires IsOpen(queueSocket)
      modifies this`currentChat, this`isInQueue, this`pendingActiveChecks
      ensures currentChat.None? && !isInQueue
      ensures pendingActiveChecks == old(pendingActiveChecks) + (if Truthy(chatId) then 1 else 0)
    {
      currentChat := None;
      isInQueue := false;
      if Truthy(chatId) {
        pendingActiveChecks := pendingActiveChecks + 1;
      }
    }

    method OnQueueError()
      modifies this`isQueueConnected
      ensures !isQueueConnected
    {
      isQueueConnected := false;
    }

    /**
     * Queue `onclose`: released, and a reconnect scheduled iff the closure saw a
     * user and tokens, whatever the close code.
     */
    method OnQueueClose(code: int, hasUser: bool, tokens: Option<TokenData>)
      modifies this`isQueueConnected, this`queueSocket, this`pendingReconnects
      ensures !isQueueConnected && queueSocket == NoSocket
      ensures pendingReconnects == old(pendingReconnects) + (if hasUser && tokens.Some? then 1 else 0)
    {
      isQueueConnected := false;
      queueSocket := NoSocket;
      if hasUser && tokens.Some? {
        pendingReconnects := pendingReconnects + 1;
      }
    }

    /** A reconnect fires: the closure's `connectToQueue`, with the token it captured. */
    method FireReconnect(token: Option<string>, env: Option<string>)
      requires pendingReconnects > 0
      modifies this`pendingReconnects, this`queueSocket
      ensures pendingReconnects == old(pendingReconnects) - 1
      ensures queueSocket == Live(GetWsUrl(WsBase(env), "/ws/queue/", token), Connecting)
    {
      pendingReconnects := pendingReconnects - 1;
      ConnectToQueue(token, env);
    }

    /**
     * The queue effect: without a user or tokens both sockets are closed and the
     * five cells reset; with them, and no queue socket yet, the queue socket is
     * opened and an active-chat check started.
     */
    method QueueEffect(hasUser: bool, tokens: Option<TokenData>, env: Option<string>)
      modifies this`queueSocket, this`chatSocket, this`queueOut, this`chatOut, this`queueStatus,
               this`currentChat, this`isInQueue, this`isQueueConnected, this`isChatConnected,
               this`pendingActiveChecks
      ensures !hasUser || tokens.None? ==>
        queueSocket == NoSocket && chatSocket == NoSocket
        && queueStatus.None? && currentChat.None? && !isInQueue && !isQueueConnected && !isChatConnected
        && queueOut == CloseIfLive(old(queueSocket), old(queueOut), None)
        && chatOut == CloseIfLive(old(chatSocket), old(chatOut), None)
        && pendingReconnects == old(pendingReconnects) && pendingActiveChecks == old(pendingActiveChecks)
      ensures hasUser && tokens.Some? && old(queueSocket).Live? ==>
        queueSocket == old(queueSocket) && queueStatus == old(queueStatus) && currentChat == old(currentChat)
        && pendingActiveChecks == old(pendingActiveChecks) && queueOut == old(queueOut) && chatOut == old(chatOut)
      ensures hasUser && tokens.Some? && old(queueSocket).NoSocket? ==>
        queueSocket == Live(GetWsUrl(WsBase(env), "/ws/queue/", AccessToken(tokens)), Connecting)
        && pendingActiveChecks == old(pendingActiveChecks) + 1
        && queueStatus == old(queueStatus) && currentChat == old(currentChat)
        && queueOut == old(queueOut) && chatOut == old(chatOut)
      ensures hasUser && tokens.Some? ==>
        chatSocket == old(chatSocket) && isInQueue == old(isInQueue)
        && isQueueConnected == old(isQueueConnected) && isChatConnected == old(isChatConnected)
    {
      if !hasUser || tokens.None? {
        if queueSocket.Live? {
          queueOut := queueOut + [Close(None)];
          queueSocket := NoSocket;
        }
        if chatSocket.Live? {
          chatOut := chatOut + [Close(None)];
          chatSocket := NoSocket;
        }
        queueStatus := None;
        currentChat := None;
        isInQueue := false;
        isQueueConnected := false;
        isChatConnected := false;
        return;
      }
      if queueSocket.Live? {
        return;
      }
      ConnectToQueue(AccessToken(tokens), env);
      pendingActiveChecks := pendingActiveChecks + 1;
    }

    /** The queue effect's cleanup: both sockets closed and released, no cell reset. */
    method QueueEffectCleanup()
      modifies this`queueSocket, this`chatSocket, this`queueOut, this`chatOut
      ensures queueSocket == NoSocket && chatSocket == NoSocket
      ensures queueOut == CloseIfLive(old(queueSocket), old(queueOut), None)
      ensures chatOut == CloseIfLive(old(chatSocket), old(chatOut), None)
    {
      if queueSocket.Live? {
        queueOut := queueOut + [Close(None)];
        queueSocket := NoSocket;
      }
      if chatSocket.Live? {
        chatOut := chatOut + [Close(None)];
        chatSocket := NoSocket;
      }
    }

    /** `joinQueue`: on an open queue socket, send and then set the flag. */
    method JoinQueue()
      modifies this`queueOut, this`isInQueue
      ensures IsOpen(queueSocket) ==> queueOut == old(queueOut) + [Send(Action.JoinQueue)] && isInQueue
      ensures !IsOpen(queueSocket) ==> queueOut == old(queueOut) && isInQueue == old(isInQueue)
    {
      if IsOpen(queueSocket) {
        queueOut := queueOut + [Send(Action.JoinQueue)];
        isInQueue := true;
      }
    }

    /** `leaveQueue`: on an open queue socket, send and then clear the flag. */
    method LeaveQueue()
      modifies this`queueOut, this`isInQueue
      ensures IsOpen(queueSocket) ==> queueOut == old(queueOut) + [Send(Action.LeaveQueue)] && !isInQueue
      ensures !IsOpen(queueSocket) ==> queueOut == old(queueOut) && isInQueue == old(isInQueue)
    {
      if IsOpen(queueSocket) {
        queueOut := queueOut + [Send(Action.LeaveQueue)];
        isInQueue := false;
      }
    }

    /** `sendMessage`: the content goes out as given, untrimmed. */
    method SendMessage(content: string)
      modifies this`chatOut
      ensures chatOut == Emit(chatSocket, old(chatOut), Action.SendMessage(content))
    {
      if IsOpen(chatSocket) {
        chatOut := chatOut + [Send(Action.SendMessage(content))];
      }
    }

    method EndChat()
      modifies this`chatOut
      ensures chatOut == Emit(chatSocket, old(chatOut), Action.EndChat)
    {
      if IsOpen(chatSocket) {
        chatOut := chatOut + [Send(Action.EndChat)];
      }
    }
  }

  /** A blank message still goes out: this provider does not trim. */
  method UntrimmedSendScenario(tokens: TokenData, chat: Chat)
  {
    var c := new TwoSocketClient();
    c.CheckActiveChat(Some(tokens), ActiveChat(chat.chatId), Details(chat), None);
    c.OnChatOpen();
    c.SendMessage("  ");
    assert c.chatOut == [Send(Action.SendMessage("  "))];
  }
}
