/**
 * The per-chat socket provider (src/contexts/ChatWebSocketContext.tsx): one
 * `/ws/chat/<id>/` socket opened after the chat is fetched over HTTP, with the
 * chat transcript, the participants' presence list and the typing flags.
 */
module ChatSocket {
  import opened Wrappers
  import opened JsText
  import opened Protocol

  /** A `ParticipantStatus` entry. */
  datatype Participant = Participant(userId: string, isOnline: bool, lastSeen: Option<string>)

  /** What `connectToChat` resolves to. */
  datatype ConnectResult = Connected | NotFound | Forbidden | Failed

  /**
   * The HTTP fetch of the chat, seen from the provider: it threw (network
   * failure), or it answered with a status and, for a parsable body, the chat.
   */
  datatype ChatFetch = FetchThrew | Answered(status: int, body: Option<Chat>)

  predicate HttpOk(status: int) { 200 <= status <= 299 }

  /**
   * What `connectToChat` resolves to, given the tokens, the `isConnecting`
   * flag it sees and the fetch outcome: the guard, then 404, 403, any other
   * failure or an unparsable body, then success.
   */
  function ConnectOutcome(tokens: Option<TokenData>, connecting: bool, fetch: ChatFetch): (r: ConnectResult)
    ensures tokens.None? || connecting ==> r == Failed
    ensures r == Connected <==>
      tokens.Some? && !connecting && fetch.Answered? && HttpOk(fetch.status) && fetch.body.Some?
    ensures r == NotFound <==> tokens.Some? && !connecting && fetch.Answered? && fetch.status == 404
    ensures r == Forbidden <==> tokens.Some? && !connecting && fetch.Answered? && fetch.status == 403
  {
    if tokens.None? || connecting then Failed
    else match fetch
      case FetchThrew => Failed
      case Answered(status, body) =>
        if status == 404 then NotFound
        else if status == 403 then Forbidden
        else if !HttpOk(status) || body.None? then Failed
        else Connected
  }

  /** `getWsUrl(chatId)`: the token is appended only when truthy. */
  function ChatUrl(base: string, chatId: string, token: Option<string>): (r: string)
    ensures Truthy(token) ==> r == base + "/ws/chat/" + chatId + "/" + "?token=" + token.value
    ensures !Truthy(token) ==> r == base + "/ws/chat/" + chatId + "/"
  {
    var url := base + "/ws/chat/" + chatId + "/";
    if Truthy(token) then url + "?token=" + token.value else url
  }

  /**
   * When neither the base, the chat id nor the token holds a `?`, the URL has
   * exactly one query mark if a token was appended and none otherwise.
   */
  lemma ChatUrlQueryMark(base: string, chatId: string, token: Option<string>)
    requires '?' !in base && '?' !in chatId && (token.Some? ==> '?' !in token.value)
    ensures Occurrences(ChatUrl(base, chatId, token), '?') == (if Truthy(token) then 1 else 0)
  {
    var path := "/ws/chat/" + chatId + "/";
    assert '?' !in path by {
      OccurrencesConcat("/ws/chat/", chatId, '?');
      OccurrencesConcat("/ws/chat/" + chatId, "/", '?');
      OccurrencesMembership(chatId, '?');
      OccurrencesMembership("/ws/chat/", '?');
      OccurrencesMembership("/", '?');
      OccurrencesMembership(path, '?');
    }
    assert base + "/ws/chat/" + chatId + "/" == base + path;
    OccurrencesConcat(base, path, '?');
    OccurrencesMembership(base, '?');
    OccurrencesMembership(path, '?');
    if Truthy(token) {
      var query := ['?'] + ("token=" + token.value);
      assert base + path + "?token=" + token.value == base + path + query;
      OccurrencesConcat(base + path, query, '?');
      OccurrencesConcat(['?'], "token=" + token.value, '?');
      OccurrencesConcat("token=", token.value, '?');
      OccurrencesMembership("token=", '?');
      OccurrencesMembership(token.value, '?');
    }
  }

  /** `user?.id?.toString()`. */
  function LocalId(user: Option<int>): Option<string> {
    match user
    case None => None
    case Some(id) => Some(IntToString(id))
  }

  /** The typing signal counts only when `data.user_id !== user?.id?.toString()`. */
  predicate FromPeer(sender: Option<string>, user: Option<int>) {
    sender != LocalId(user)
  }

  /** The position of the first entry for `id`: the reference for `findIndex`. */
  function IndexOf(ps: seq<Participant>, id: string): (r: Option<nat>)
    ensures r.Some? ==> r.value < |ps| && ps[r.value].userId == id
    ensures r.Some? ==> forall j :: 0 <= j < r.value ==> ps[j].userId != id
    ensures r.None? ==> forall j :: 0 <= j < |ps| ==> ps[j].userId != id
    decreases |ps|
  {
    if ps == [] then None
    else if ps[0].userId == id then Some(0)
    else match IndexOf(ps[1..], id)
      case None => None
      case Some(k) => Some(k + 1)
  }

  predicate UniqueIds(ps: seq<Participant>) {
    forall i, j :: 0 <= i < j < |ps| ==> ps[i].userId != ps[j].userId
  }

  /**
   * The `user_presence` update: the existing entry for the id gets the new
   * `is_online`/`last_seen` in place; otherwise a new entry is appended.
   */
  function PresenceUpdate(ps: seq<Participant>, id: string, online: bool, lastSeen: Option<string>): (r: seq<Participant>)
    // length: unchanged iff the id was listed, else one more
    ensures |r| == if IndexOf(ps, id).Some? then |ps| else |ps| + 1
    // entries for other ids are untouched, in place
    ensures forall j :: 0 <= j < |ps| && ps[j].userId != id ==> r[j] == ps[j]
    // ids stay where they were
    ensures forall j :: 0 <= j < |ps| ==> r[j].userId == ps[j].userId
    // the id is listed, with the new presence, at its first position
    ensures exists k :: 0 <= k < |r| && r[k] == Participant(id, online, lastSeen)
    // no duplicate ids are introduced
    ensures UniqueIds(ps) ==> UniqueIds(r)
    // with distinct ids, every entry for the id carries the new presence
    ensures UniqueIds(ps) ==>
      forall j :: 0 <= j < |r| && r[j].userId == id ==> r[j] == Participant(id, online, lastSeen)
  {
    match IndexOf(ps, id)
    case Some(i) =>
      var r := ps[i := ps[i].(isOnline := online, lastSeen := lastSeen)];
      assert r[i] == Participant(id, online, lastSeen);
      r
    case None =>
      var r := ps + [Participant(id, online, lastSeen)];
      assert r[|ps|] == Participant(id, online, lastSeen);
      r
  }

  class ChatSocketClient {
    // useState
    var currentChat: Option<Chat>
    var isConnected: bool
    var isConnecting: bool
    var participants: seq<Participant>
    var isTyping: bool
    var otherUserTyping: bool
    // useRef
    var socket: Socket
    var typingTimerArmed: bool
    var heartbeatArmed: bool
    // the chat data the current socket's `onopen` closure captured
    var fetchedChat: Option<Chat>
    // effects outside the provider
    var outbox: seq<Outbound>
    var notifications: seq<Notification>

    /** Connected and heartbeat only with a socket; a connecting socket has its chat data. */
    ghost predicate Valid()
      reads this
    {
      (isConnected ==> socket.Live?)
      && (heartbeatArmed ==> socket.Live?)
      && (socket.Live? && socket.state == Connecting ==> fetchedChat.Some?)
    }

    constructor ()
      ensures Valid()
      ensures currentChat.None? && !isConnected && !isConnecting && participants == []
      ensures !isTyping && !otherUserTyping && socket == NoSocket
      ensures !typingTimerArmed && !heartbeatArmed
      ensures outbox == [] && notifications == []
    {
      currentChat, isConnected, isConnecting := None, false, false;
      participants, isTyping, otherUserTyping := [], false, false;
      socket, typingTimerArmed, heartbeatArmed := NoSocket, false, false;
      fetchedChat := None;
      outbox, notifications := [], [];
    }

    method ClearTimers()
      modifies this`typingTimerArmed, this`heartbeatArmed
      ensures !typingTimerArmed && !heartbeatArmed
    {
      typingTimerArmed, heartbeatArmed := false, false;
    }

    /**
     * The state change of one `connectToChat(chatId)`: on success any existing
     * socket is closed normally and replaced by a connecting one whose `onopen`
     * holds the fetched chat; every other outcome leaves the socket, the
     * outbound log, the captured chat and the `isConnecting` flag as they were.
     */
    twostate predicate ConnectStep(chatId: string, tokens: Option<TokenData>, fetch: ChatFetch, env: Option<string>)
      reads this
    {
      if ConnectOutcome(tokens, old(isConnecting), fetch) == Connected then
        isConnecting && fetch.Answered? && fetchedChat == fetch.body
        && socket == Live(ChatUrl(WsBase(env), chatId, AccessToken(tokens)), Connecting)
        && outbox == CloseIfLive(old(socket), old(outbox), Some(NormalClosure))
      else
        isConnecting == old(isConnecting) && socket == old(socket) && outbox == old(outbox)
        && fetchedChat == old(fetchedChat)
    }

    /**
     * `connectToChat`: refused while connecting or without tokens; otherwise
     * the fetch outcome decides the result, and only a fetched chat replaces
     * any existing socket (closed normally) by a new connecting one.
     */
    method ConnectToChat(chatId: string, tokens: Option<TokenData>, fetch: ChatFetch, env: Option<string>)
      returns (r: ConnectResult)
      requires Valid()
      modifies this`isConnecting, this`socket, this`fetchedChat, this`outbox
      ensures Valid()
      ensures r == ConnectOutcome(tokens, old(isConnecting), fetch)
      ensures ConnectStep(chatId, tokens, fetch, env)
    {
      if tokens.None? || isConnecting {
        return Failed;
      }
      isConnecting := true;
      match fetch
      case FetchThrew =>
        isConnecting := false;
        return Failed;
      case Answered(status, body) =>
        if status == 404 {
          isConnecting := false;
          return NotFound;
        }
        if status == 403 {
          isConnecting := false;
          return Forbidden;
        }
        if !HttpOk(status) || body.None? {
          isConnecting := false;
          return Failed;
        }
        if socket.Live? {
          outbox := outbox + [Close(Some(NormalClosure))];
          socket := NoSocket;
        }
        socket := Live(ChatUrl(WsBase(env), chatId, AccessToken(tokens)), Connecting);
        fetchedChat := body;
        return Connected;
    }

    /** `ws.onopen`: connected, the captured chat data installed, heartbeat armed. */
    method OnOpen()
      requires Valid() && socket.Live? && socket.state == Connecting
      modifies this`isConnected, this`isConnecting, this`currentChat, this`heartbeatArmed, this`socket
      ensures Valid()
      ensures isConnected && !isConnecting && heartbeatArmed
      ensures currentChat == fetchedChat && currentChat.Some?
      ensures socket == old(socket).(state := Open)
    {
      isConnected, isConnecting := true, false;
      currentChat := fetchedChat;
      socket := socket.(state := Open);
      heartbeatArmed := true;
    }

    /** `message`: appended at the end of the transcript; no chat stays no chat. */
    method OnChatMessage(msg: ChatMessage)
      requires IsOpen(socket)
      modifies this`currentChat
      ensures currentChat == AppendMessage(old(currentChat), msg)
    {
      currentChat := AppendMessage(currentChat, msg);
    }

    /** `chat_ended`: the chat is cleared and the socket closed normally and released. */
    method OnChatEnded()
      requires Valid() && IsOpen(socket)
      modifies this`currentChat, this`outbox, this`socket, this`isConnected,
               this`typingTimerArmed, this`heartbeatArmed, this`notifications
      ensures Valid()
      ensures currentChat.None? && socket == NoSocket && !isConnected
      ensures !typingTimerArmed && !heartbeatArmed
      ensures outbox == old(outbox) + [Close(Some(NormalClosure))]
      ensures notifications == old(notifications) + [ChatEndedNotice("ended_by_other")]
    {
      currentChat := None;
      outbox := outbox + [Close(Some(NormalClosure))];
      socket := NoSocket;
      isConnected := false;
      ClearTimers();
      notifications := notifications + [ChatEndedNotice("ended_by_other")];
    }

    /** `participant_status`: the list is replaced only when the message carries one. */
    method OnParticipantStatus(list: Option<seq<Participant>>)
      requires IsOpen(socket)
      modifies this`participants
      ensures participants == list.GetOr(old(participants))
    {
      if list.Some? {
        participants := list.value;
      }
    }

    /** `typing_start`: ignored when it carries the local user's own id. */
    method OnTypingStart(sender: Option<string>, user: Option<int>)
      requires IsOpen(socket)
      modifies this`otherUserTyping
      ensures otherUserTyping == (FromPeer(sender, user) || old(otherUserTyping))
    {
      if sender != LocalId(user) {
        otherUserTyping := true;
      }
    }

    method OnTypingStop(sender: Option<string>, user: Option<int>)
      requires IsOpen(socket)
      modifies this`otherUserTyping
      ensures otherUserTyping == (!FromPeer(sender, user) && old(otherUserTyping))
    {
      if sender != LocalId(user) {
        otherUserTyping := false;
      }
    }

    /** `findIndex(p => p.user_id === id)`, -1 when absent. */
    method FindParticipant(id: string) returns (index: int)
      ensures -1 <= index < |participants|
      ensures index == -1 <==> IndexOf(participants, id).None?
      ensures index >= 0 ==> IndexOf(participants, id) == Some(index)
    {
      index := 0;
      while index < |participants|
        invariant 0 <= index <= |participants|
        invariant forall j :: 0 <= j < index ==> participants[j].userId != id
      {
        if participants[index].userId == id {
          return;
        }
        index := index + 1;
      }
      index := -1;
    }

    /** `user_presence`: update the entry in place or append one. */
    method OnUserPresence(id: string, online: bool, lastSeen: Option<string>)
      requires IsOpen(socket)
      modifies this`participants
      ensures participants == PresenceUpdate(old(participants), id, online, lastSeen)
    {
      var index := FindParticipant(id);
      if index >= 0 {
        participants := participants[index := participants[index].(isOnline := online, lastSeen := lastSeen)];
      } else {
        participants := participants + [Participant(id, online, lastSeen)];
      }
    }

    /** `ws.onerror`. */
    method OnError()
      requires Valid()
      modifies this`isConnected, this`isConnecting
      ensures Valid() && !isConnected && !isConnecting
    {
      isConnected, isConnecting := false, false;
    }

    /**
     * `ws.onclose`: timers cleared and the reference released; the chat and
     * the participants are dropped only on an unexpected close.
     */
    method OnClose(code: int)
      requires Valid()
      modifies this`isConnected, this`isConnecting, this`typingTimerArmed, this`heartbeatArmed,
               this`socket, this`currentChat, this`participants
      ensures Valid()
      ensures !isConnected && !isConnecting && !typingTimerArmed && !heartbeatArmed && socket == NoSocket
      ensures code != NormalClosure ==> currentChat.None? && participants == []
      ensures code == NormalClosure ==> currentChat == old(currentChat) && participants == old(participants)
    {
      isConnected, isConnecting := false, false;
      ClearTimers();
      socket := NoSocket;
      if code != NormalClosure {
        currentChat := None;
        participants := [];
      }
    }

    /** `disconnect`: everything but `isConnecting` back to its default. */
    method Disconnect()
      requires Valid()
      modifies this`typingTimerArmed, this`heartbeatArmed, this`outbox, this`socket, this`isConnected,
               this`currentChat, this`participants, this`isTyping, this`otherUserTyping
      ensures Valid()
      ensures !typingTimerArmed && !heartbeatArmed && socket == NoSocket && !isConnected
      ensures currentChat.None? && participants == [] && !isTyping && !otherUserTyping
      ensures outbox == CloseIfLive(old(socket), old(outbox), Some(NormalClosure))
    {
      ClearTimers();
      if socket.Live? {
        outbox := outbox + [Close(Some(NormalClosure))];
        socket := NoSocket;
      }
      isConnected := false;
      currentChat := None;
      participants := [];
      isTyping := false;
      otherUserTyping := false;
    }

    /** The logout effect: without a user or tokens the chat socket is torn down. */
    method SyncWithAuth(hasUser: bool, tokens: Option<TokenData>)
      requires Valid()
      modifies this`typingTimerArmed, this`heartbeatArmed, this`outbox, this`socket, this`isConnected,
               this`currentChat, this`participants, this`isTyping, this`otherUserTyping
      ensures Valid()
      ensures !hasUser || tokens.None? ==>
        !typingTimerArmed && !heartbeatArmed && socket == NoSocket && !isConnected
        && currentChat.None? && participants == [] && !isTyping && !otherUserTyping
        && outbox == CloseIfLive(old(socket), old(outbox), Some(NormalClosure))
      ensures hasUser && tokens.Some? ==> unchanged(this)
    {
      if !hasUser || tokens.None? {
        Disconnect();
      }
    }

    /** The `chatMatched` window event: connect when the notice carries a chat id. */
    method OnChatMatched(chatId: Option<string>, tokens: Option<TokenData>, fetch: ChatFetch, env: Option<string>)
      requires Valid()
      modifies this`isConnecting, this`socket, this`fetchedChat, this`outbox
      ensures Valid()
      ensures !Truthy(chatId) ==> unchanged(this)
      ensures Truthy(chatId) ==> ConnectStep(chatId.value, tokens, fetch, env)
    {
      if Truthy(chatId) {
        var _ := ConnectToChat(chatId.value, tokens, fetch, env);
      }
    }

    /** The heartbeat interval fires. */
    method FireHeartbeat()
      requires heartbeatArmed
      modifies this`outbox
      ensures outbox == Emit(socket, old(outbox), Heartbeat)
    {
      outbox := Emit(socket, outbox, Heartbeat);
    }

    /** `stopTyping`: acts only on an open socket while typing. */
    method StopTyping()
      modifies this`isTyping, this`outbox, this`typingTimerArmed
      ensures IsOpen(socket) && old(isTyping) ==>
        !isTyping && !typingTimerArmed && outbox == old(outbox) + [Send(TypingStop)]
      ensures !(IsOpen(socket) && old(isTyping)) ==>
        isTyping == old(isTyping) && typingTimerArmed == old(typingTimerArmed) && outbox == old(outbox)
    {
      if IsOpen(socket) && isTyping {
        isTyping := false;
        outbox := outbox + [Send(TypingStop)];
        typingTimerArmed := false;
      }
    }

    /** `startTyping`: acts only on an open socket while not typing, then arms the 3 s timer. */
    method StartTyping()
      modifies this`isTyping, this`outbox, this`typingTimerArmed
      ensures IsOpen(socket) && !old(isTyping) ==>
        isTyping && typingTimerArmed && outbox == old(outbox) + [Send(TypingStart)]
      ensures !(IsOpen(socket) && !old(isTyping)) ==>
        isTyping == old(isTyping) && typingTimerArmed == old(typingTimerArmed) && outbox == old(outbox)
    {
      if IsOpen(socket) && !isTyping {
        isTyping := true;
        outbox := outbox + [Send(TypingStart)];
        typingTimerArmed := true;
      }
    }

    /**
     * The 3 s timer fires as written: it runs the `stopTyping` of the render
     * in which `startTyping` ran, whose `isTyping` was still false, so it
     * changes nothing but the timer itself.
     */
    method FireTypingTimeout()
      requires typingTimerArmed
      modifies this`typingTimerArmed
      ensures !typingTimerArmed
    {
      typingTimerArmed := false;
    }

    /** The 3 s timer as evidently intended: stop typing if still typing. */
    method FireTypingTimeoutIntended()
      requires typingTimerArmed
      modifies this`isTyping, this`outbox, this`typingTimerArmed
      ensures !typingTimerArmed
      ensures IsOpen(socket) && old(isTyping) ==> !isTyping && outbox == old(outbox) + [Send(TypingStop)]
      ensures !(IsOpen(socket) && old(isTyping)) ==> isTyping == old(isTyping) && outbox == old(outbox)
    {
      StopTyping();
      typingTimerArmed := false;
    }

    /** `sendMessage`: trimmed non-empty text on an open socket, then typing is stopped. */
    method SendMessage(content: string)
      modifies this`isTyping, this`outbox, this`typingTimerArmed
      ensures !(IsOpen(socket) && Trim(content) != []) ==>
        outbox == old(outbox) && isTyping == old(isTyping) && typingTimerArmed == old(typingTimerArmed)
      ensures IsOpen(socket) && Trim(content) != [] ==>
        !isTyping && typingTimerArmed == (old(typingTimerArmed) && !old(isTyping))
      ensures IsOpen(socket) && Trim(content) != [] ==>
        outbox == old(outbox) + [Send(Action.SendMessage(Trim(content)))]
                  + (if old(isTyping) then [Send(TypingStop)] else [])
    {
      if IsOpen(socket) && Trim(content) != [] {
        outbox := outbox + [Send(Action.SendMessage(Trim(content)))];
        if isTyping {
          StopTyping();
        }
      }
    }

    /** `endChat`: `end_chat` is sent before the chat is cleared and the socket closed. */
    method EndChat()
      requires Valid()
      modifies this`outbox, this`currentChat, this`socket, this`isConnected,
               this`typingTimerArmed, this`heartbeatArmed, this`notifications
      ensures Valid()
      ensures !IsOpen(old(socket)) ==>
        outbox == old(outbox) && currentChat == old(currentChat) && socket == old(socket)
        && notifications == old(notifications) && isConnected == old(isConnected)
        && typingTimerArmed == old(typingTimerArmed) && heartbeatArmed == old(heartbeatArmed)
      ensures IsOpen(old(socket)) ==>
        outbox == old(outbox) + [Send(Action.EndChat), Close(Some(NormalClosure))]
        && currentChat.None? && socket == NoSocket && !isConnected
        && !typingTimerArmed && !heartbeatArmed
        && notifications == old(notifications) + [ChatEndedNotice("ended_by_user")]
    {
      if IsOpen(socket) {
        outbox := outbox + [Send(Action.EndChat)];
        currentChat := None;
        outbox := outbox + [Close(Some(NormalClosure))];
        socket := NoSocket;
        isConnected := false;
        ClearTimers();
        notifications := notifications + [ChatEndedNotice("ended_by_user")];
      }
    }
  }

  /** The typing flag as written stays set after the auto-stop, and no `typing_stop` is sent. */
  method StaleTypingTimerScenario(tokens: TokenData, chat: Chat)
  {
    var client := new ChatSocketClient();
    var r := client.ConnectToChat(chat.chatId, Some(tokens), Answered(200, Some(chat)), None);
    assert r == Connected;
    client.OnOpen();
    client.StartTyping();
    assert client.outbox == [Send(TypingStart)];
    client.FireTypingTimeout();
    assert client.isTyping && client.outbox == [Send(TypingStart)];
    // the flag now blocks every later typing_start
    client.StartTyping();
    assert client.outbox == [Send(TypingStart)];
  }

  /** With the intended timer, the auto-stop sends `typing_stop` and clears the flag. */
  method IntendedTypingTimerScenario(tokens: TokenData, chat: Chat)
  {
    var client := new ChatSocketClient();
    var r := client.ConnectToChat(chat.chatId, Some(tokens), Answered(200, Some(chat)), None);
    client.OnOpen();
    client.StartTyping();
    client.FireTypingTimeoutIntended();
    assert !client.isTyping && client.outbox == [Send(TypingStart), Send(TypingStop)];
  }
}
