/**
 * Routing of decoded envelopes by their type tag. `Handle` is what one call of
 * `handleMessage` does to the registry and to the frames written; the class
 * `MessageHandler` performs it through a `ConnectionManager` and is proved
 * against it.
 */
module Router {
  import opened Wrappers
  import opened ChatMessages
  import opened Connections

  const AUTH_USER_OK: string := "用户认证成功"
  const AUTH_USER_FAILED: string := "用户认证失败，无效的token"
  const AUTH_CLIENT_OK: string := "客户端认证成功"
  const UNKNOWN_CLIENT_TYPE: string := "未知的客户端类型: "
  const NO_CLIENT: string := "暂无可用的本地客户端"
  const ONLY_USERS_REQUEST: string := "只有用户可以发送聊天请求"
  const ONLY_CLIENTS_RESPOND: string := "只有本地客户端可以发送聊天响应"
  const UNKNOWN_TYPE: string := "未知的消息类型: "
  const HANDLING_FAILED: string := "处理消息失败: "

  /** The frames written between two relay states. */
  function Sent(before: RelayState, after: RelayState): seq<Delivery> {
    if |before.out| <= |after.out| then after.out[|before.out|..] else []
  }

  /** The auth step: a "user" session with a token-derived username joins that
      user's set, a "client" session joins the client set, and the sender is
      told the outcome. */
  function AuthStep(w: RelayState, username: Option<string>, s: Session, m: ChatMessage, env: Env, net: Network): RelayState {
    if m.clientType == Some(CLIENT_TYPE_USER) then
      if username.Some? then Send(w.(reg := AddUser(w.reg, username.value, s)), [s], SuccessReply(env, m.id, AUTH_USER_OK), net)
      else Send(w, [s], ErrorReply(env, m.id, AUTH_USER_FAILED), net)
    else if m.clientType == Some(CLIENT_TYPE_CLIENT) then
      Send(w.(reg := AddClient(w.reg, s)), [s], SuccessReply(env, m.id, AUTH_CLIENT_OK), net)
    else
      Send(w, [s], ErrorReply(env, m.id, UNKNOWN_CLIENT_TYPE + OrNull(m.clientType)), net)
  }

  /** The heartbeat reply: a fresh heartbeat carrying the request's id and user id. */
  function HeartbeatReply(env: Env, m: ChatMessage): (r: ChatMessage)
    ensures r.typ == Some(TYPE_HEARTBEAT) && r.id == m.id && r.userId == m.userId
    ensures r.timestamp == Some(env.now)
  {
    Heartbeat(env, m.userId).(id := m.id)
  }

  function ChatRequestStep(w: RelayState, s: Session, m: ChatMessage, env: Env, net: Network): RelayState {
    if w.reg.SessionType(s) == Some(UserRole) then
      if w.reg.HasClientConnections() then Send(w, w.reg.clientSessions, m, net)
      else Send(w, [s], ErrorReply(env, m.id, NO_CLIENT), net)
    else Send(w, [s], ErrorReply(env, m.id, ONLY_USERS_REQUEST), net)
  }

  /** A response with a user id goes to that user's sessions; one without goes
      to every user, in the iteration order `order`. */
  function ChatResponseStep(w: RelayState, s: Session, m: ChatMessage, env: Env, net: Network, order: seq<UserId>): RelayState {
    if w.reg.SessionType(s) == Some(ClientRole) then
      if m.userId.Some? then Send(w, w.reg.SessionsOf(m.userId.value), m, net)
      else Send(w, Flatten(w.reg, order), m, net)
    else Send(w, [s], ErrorReply(env, m.id, ONLY_CLIENTS_RESPOND), net)
  }

  /** The path on which the response is broadcast. */
  predicate Broadcasts(r: Registry, s: Session, m: ChatMessage) {
    m.typ == Some(TYPE_CHAT_RESPONSE) && r.SessionType(s) == Some(ClientRole) && m.userId.None?
  }

  /**
   * One `handleMessage` call on session `s`, whose attribute bag holds
   * `username`. A null type makes the `switch` throw; the handler then replies
   * with the exception's message, `faultText`.
   */
  function Handle(w: RelayState, username: Option<string>, s: Session, m: ChatMessage, env: Env,
                  faultText: string, net: Network, order: seq<UserId>): RelayState {
    if m.typ.None? then Send(w, [s], ErrorReply(env, m.id, HANDLING_FAILED + faultText), net)
    else if m.typ.value == TYPE_AUTH then AuthStep(w, username, s, m, env, net)
    else if m.typ.value == TYPE_HEARTBEAT then Send(w, [s], HeartbeatReply(env, m), net)
    else if m.typ.value == TYPE_CHAT_REQUEST then ChatRequestStep(w, s, m, env, net)
    else if m.typ.value == TYPE_CHAT_RESPONSE then ChatResponseStep(w, s, m, env, net, order)
    else Send(w, [s], ErrorReply(env, m.id, UNKNOWN_TYPE + m.typ.value), net)
  }

  // ------------------------------------------------------------ lemmas

  lemma SentBySend(w: RelayState, x: Registry, ts: seq<Session>, m: ChatMessage, net: Network)
    ensures Sent(w, Send(w.(reg := x), ts, m, net)) == Delivered(ts, m, net)
  {
  }

  /** Every path writes at most its frames after the ones already written. */
  lemma HandleExtendsOutbox(w: RelayState, username: Option<string>, s: Session, m: ChatMessage, env: Env,
                            faultText: string, net: Network, order: seq<UserId>)
    ensures var w' := Handle(w, username, s, m, env, faultText, net, order);
      |w.out| <= |w'.out| && w'.out == w.out + Sent(w, w')
  {
  }

  /** A reply to the sender writes at most one frame, to the sender, and
      when it is written the registry is left as it was. */
  lemma ReplyGoesToSender(w: RelayState, x: Registry, s: Session, msg: ChatMessage, net: Network)
    ensures var w' := Send(w.(reg := x), [s], msg, net);
      && |Sent(w, w')| <= 1
      && forall d :: d in Sent(w, w') ==> d == Delivery(s, msg) && w'.reg == x
  {
    SendToOne(w.(reg := x), s, msg, net);
  }

  /** A fan-out of `m` writes nothing but `m`. */
  lemma ForwardCarriesMessage(w: RelayState, ts: seq<Session>, m: ChatMessage, net: Network)
    ensures forall d :: d in Sent(w, Send(w, ts, m, net)) ==> d.msg == m && d.to in ts
  {
    DeliveredSpec(ts, m, net);
  }

  /**
   * An error frame is only ever written to the sender, carries the sender's
   * message id (or a fresh one), and is never written on a path that changes
   * the registry.
   */
  lemma ErrorsGoToSenderOnly(w: RelayState, username: Option<string>, s: Session, m: ChatMessage, env: Env,
                             faultText: string, net: Network, order: seq<UserId>)
    ensures var w' := Handle(w, username, s, m, env, faultText, net, order);
      forall d :: d in Sent(w, w') && d.msg.typ == Some(TYPE_ERROR) ==>
        d.to == s && d.msg.id == IdOrFresh(env, m.id) && w'.reg == w.reg
  {
    if m.typ.None? {
      ReplyGoesToSender(w, w.reg, s, ErrorReply(env, m.id, HANDLING_FAILED + faultText), net);
    } else if m.typ.value == TYPE_AUTH {
      if m.clientType == Some(CLIENT_TYPE_USER) {
        if username.Some? {
          ReplyGoesToSender(w, AddUser(w.reg, username.value, s), s, SuccessReply(env, m.id, AUTH_USER_OK), net);
        } else {
          ReplyGoesToSender(w, w.reg, s, ErrorReply(env, m.id, AUTH_USER_FAILED), net);
        }
      } else if m.clientType == Some(CLIENT_TYPE_CLIENT) {
        ReplyGoesToSender(w, AddClient(w.reg, s), s, SuccessReply(env, m.id, AUTH_CLIENT_OK), net);
      } else {
        ReplyGoesToSender(w, w.reg, s, ErrorReply(env, m.id, UNKNOWN_CLIENT_TYPE + OrNull(m.clientType)), net);
      }
    } else if m.typ.value == TYPE_HEARTBEAT {
      ReplyGoesToSender(w, w.reg, s, HeartbeatReply(env, m), net);
    } else if m.typ.value == TYPE_CHAT_REQUEST {
      if w.reg.SessionType(s) == Some(UserRole) {
        if w.reg.HasClientConnections() {
          ForwardCarriesMessage(w, w.reg.clientSessions, m, net);
        } else {
          ReplyGoesToSender(w, w.reg, s, ErrorReply(env, m.id, NO_CLIENT), net);
        }
      } else {
        ReplyGoesToSender(w, w.reg, s, ErrorReply(env, m.id, ONLY_USERS_REQUEST), net);
      }
    } else if m.typ.value == TYPE_CHAT_RESPONSE {
      if w.reg.SessionType(s) == Some(ClientRole) {
        if m.userId.Some? {
          ForwardCarriesMessage(w, w.reg.SessionsOf(m.userId.value), m, net);
        } else {
          ForwardCarriesMessage(w, Flatten(w.reg, order), m, net);
        }
      } else {
        ReplyGoesToSender(w, w.reg, s, ErrorReply(env, m.id, ONLY_CLIENTS_RESPOND), net);
      }
    } else {
      ReplyGoesToSender(w, w.reg, s, ErrorReply(env, m.id, UNKNOWN_TYPE + m.typ.value), net);
    }
  }

  /**
   * Authentication: when the reply is written, it is a success exactly when
   * the session was registered, as a user under the token's username or as a
   * client, and the session's type afterwards says which.
   */
  lemma AuthOutcome(w: RelayState, username: Option<string>, s: Session, m: ChatMessage, env: Env,
                    faultText: string, net: Network, order: seq<UserId>)
    requires m.typ == Some(TYPE_AUTH)
    requires Writable(net, s)
    ensures var w' := Handle(w, username, s, m, env, faultText, net, order);
      var asUser := m.clientType == Some(CLIENT_TYPE_USER) && username.Some?;
      var asClient := m.clientType == Some(CLIENT_TYPE_CLIENT);
      && |Sent(w, w')| == 1 && Sent(w, w')[0].to == s
      && (Sent(w, w')[0].msg.typ == Some(TYPE_SUCCESS) <==> asUser || asClient)
      && (Sent(w, w')[0].msg.typ == Some(TYPE_ERROR) <==> !(asUser || asClient))
      && (asUser ==> w'.reg.SessionType(s) == Some(UserRole) && w'.reg.UserIdBySession(s) == username)
      && (asClient ==> w'.reg.SessionType(s) == Some(ClientRole) && s in w'.reg.clientSessions)
      && (!(asUser || asClient) ==> w'.reg == w.reg)
  {
    SendToOne(w.(reg := AddUser(w.reg, username.GetOr(""), s)), s, SuccessReply(env, m.id, AUTH_USER_OK), net);
    SendToOne(w.(reg := AddClient(w.reg, s)), s, SuccessReply(env, m.id, AUTH_CLIENT_OK), net);
    SendToOne(w, s, ErrorReply(env, m.id, AUTH_USER_FAILED), net);
    SendToOne(w, s, ErrorReply(env, m.id, UNKNOWN_CLIENT_TYPE + OrNull(m.clientType)), net);
  }

  /**
   * A chat request from a user session while clients are connected is
   * forwarded unchanged to every connected client that accepts the write, and
   * to nobody else.
   */
  lemma ChatRequestForwarded(w: RelayState, username: Option<string>, s: Session, m: ChatMessage, env: Env,
                             faultText: string, net: Network, order: seq<UserId>)
    requires m.typ == Some(TYPE_CHAT_REQUEST)
    requires w.reg.SessionType(s) == Some(UserRole) && w.reg.HasClientConnections()
    ensures var w' := Handle(w, username, s, m, env, faultText, net, order);
      && (forall d :: d in Sent(w, w') ==> d.msg == m && d.to in w.reg.clientSessions)
      && (forall c :: c in w.reg.clientSessions && Writable(net, c) ==> Delivery(c, m) in Sent(w, w'))
  {
    SentBySend(w, w.reg, w.reg.clientSessions, m, net);
    DeliveredSpec(w.reg.clientSessions, m, net);
  }

  /** A chat request from a session that is not a user session reaches no client. */
  lemma ChatRequestFromNonUserRejected(w: RelayState, username: Option<string>, s: Session, m: ChatMessage, env: Env,
                                       faultText: string, net: Network, order: seq<UserId>)
    requires m.typ == Some(TYPE_CHAT_REQUEST)
    requires w.reg.SessionType(s) != Some(UserRole) || !w.reg.HasClientConnections()
    ensures var w' := Handle(w, username, s, m, env, faultText, net, order);
      forall d :: d in Sent(w, w') ==> d.to == s && d.msg.typ == Some(TYPE_ERROR)
  {
    if w.reg.SessionType(s) == Some(UserRole) {
      ReplyGoesToSender(w, w.reg, s, ErrorReply(env, m.id, NO_CLIENT), net);
    } else {
      ReplyGoesToSender(w, w.reg, s, ErrorReply(env, m.id, ONLY_USERS_REQUEST), net);
    }
  }

  /**
   * A chat response from a client session naming a user reaches exactly that
   * user's writable sessions; on consistent tables every recipient is a
   * session registered to that user.
   */
  lemma ChatResponseRouted(w: RelayState, username: Option<string>, s: Session, m: ChatMessage, env: Env,
                           faultText: string, net: Network, order: seq<UserId>)
    requires m.typ == Some(TYPE_CHAT_RESPONSE) && m.userId.Some?
    requires w.reg.SessionType(s) == Some(ClientRole)
    ensures var w' := Handle(w, username, s, m, env, faultText, net, order);
      && (forall d :: d in Sent(w, w') ==> d.msg == m && d.to in w.reg.SessionsOf(m.userId.value))
      && (forall t :: t in w.reg.SessionsOf(m.userId.value) && Writable(net, t) ==> Delivery(t, m) in Sent(w, w'))
      && (Wf(w.reg) ==> forall d :: d in Sent(w, w') ==> w.reg.UserIdBySession(d.to) == m.userId)
  {
    var ts := w.reg.SessionsOf(m.userId.value);
    SentBySend(w, w.reg, ts, m, net);
    DeliveredSpec(ts, m, net);
  }

  /** A chat response without a user id reaches every writable session of every user. */
  lemma ChatResponseBroadcast(w: RelayState, username: Option<string>, s: Session, m: ChatMessage, env: Env,
                              faultText: string, net: Network, order: seq<UserId>)
    requires Broadcasts(w.reg, s, m)
    requires Enumerates(order, w.reg.userSessions.Keys)
    ensures var w' := Handle(w, username, s, m, env, faultText, net, order);
      && (forall d :: d in Sent(w, w') ==> d.msg == m && exists u :: u in w.reg.userSessions && d.to in w.reg.userSessions[u])
      && (forall u, t :: u in w.reg.userSessions && t in w.reg.userSessions[u] && Writable(net, t) ==>
            Delivery(t, m) in Sent(w, w'))
  {
    var ts := Flatten(w.reg, order);
    SentBySend(w, w.reg, ts, m, net);
    DeliveredSpec(ts, m, net);
    FlattenMembers(w.reg, order);
  }

  /** The sessions of a flattened enumeration are those of the enumerated users. */
  lemma {:induction false} FlattenMembers(r: Registry, order: seq<UserId>)
    ensures forall t :: t in Flatten(r, order) ==> exists u :: u in order && u in r.userSessions && t in r.userSessions[u]
    ensures forall u, t :: u in order && u in r.userSessions && t in r.userSessions[u] ==> t in Flatten(r, order)
  {
    if order != [] {
      var init := order[..|order| - 1];
      var last := order[|order| - 1];
      FlattenMembers(r, init);
      assert order == init + [last];
      forall u, t | u in order && u in r.userSessions && t in r.userSessions[u]
        ensures t in Flatten(r, order)
      {
        if u != last {
          assert u in init;
        }
      }
    }
  }

  /**
   * Handling keeps the tables consistent as long as an auth message never
   * arrives on a session that is already registered.
   */
  lemma HandlePreservesWf(w: RelayState, username: Option<string>, s: Session, m: ChatMessage, env: Env,
                          faultText: string, net: Network, order: seq<UserId>)
    requires Wf(w.reg)
    requires m.typ == Some(TYPE_AUTH) ==> w.reg.SessionType(s).None?
    ensures Wf(Handle(w, username, s, m, env, faultText, net, order).reg)
  {
    if m.typ == Some(TYPE_AUTH) {
      AuthStepPreservesWf(w, username, s, m, env, net);
    } else if m.typ == Some(TYPE_CHAT_REQUEST) {
      ChatRequestStepPreservesWf(w, s, m, env, net);
    } else if m.typ == Some(TYPE_CHAT_RESPONSE) {
      ChatResponseStepPreservesWf(w, s, m, env, net, order);
    } else {
      var reply := Handle(w, username, s, m, env, faultText, net, order);
      EvictFailedErases(w.reg, [s], net);
      assert reply.reg == EvictFailed(w.reg, [s], net);
    }
  }

  lemma AuthStepPreservesWf(w: RelayState, username: Option<string>, s: Session, m: ChatMessage, env: Env, net: Network)
    requires Wf(w.reg)
    requires w.reg.SessionType(s).None?
    ensures Wf(AuthStep(w, username, s, m, env, net).reg)
  {
    var x := w.reg;
    if m.clientType == Some(CLIENT_TYPE_USER) && username.Some? {
      AddUserPreservesWf(w.reg, username.value, s);
      x := AddUser(w.reg, username.value, s);
    } else if m.clientType == Some(CLIENT_TYPE_CLIENT) {
      AddClientPreservesWf(w.reg, s);
      x := AddClient(w.reg, s);
    }
    EvictFailedErases(x, [s], net);
  }

  lemma ChatRequestStepPreservesWf(w: RelayState, s: Session, m: ChatMessage, env: Env, net: Network)
    requires Wf(w.reg)
    ensures Wf(ChatRequestStep(w, s, m, env, net).reg)
  {
    EvictFailedErases(w.reg, [s], net);
    EvictFailedErases(w.reg, w.reg.clientSessions, net);
  }

  lemma ChatResponseStepPreservesWf(w: RelayState, s: Session, m: ChatMessage, env: Env, net: Network, order: seq<UserId>)
    requires Wf(w.reg)
    ensures Wf(ChatResponseStep(w, s, m, env, net, order).reg)
  {
    EvictFailedErases(w.reg, [s], net);
    if m.userId.Some? {
      EvictFailedErases(w.reg, w.reg.SessionsOf(m.userId.value), net);
    }
    EvictFailedErases(w.reg, Flatten(w.reg, order), net);
  }

  // ------------------------------------------------------------- class

  /** The connection figures reported to the status endpoint. */
  datatype Status = Status(userConnections: int, clientConnections: int, hasClients: bool)

  class MessageHandler {
    const cm: ConnectionManager

    constructor (cm: ConnectionManager)
      ensures this.cm == cm
    {
      this.cm := cm;
    }

    method HandleMessage(session: Session, message: ChatMessage, env: Env, faultText: string, net: Network)
      returns (ghost order: seq<UserId>)
      modifies cm, session
      ensures cm.State() == Handle(old(cm.State()), old(session.username), session, message, env, faultText, net, order)
      ensures Broadcasts(old(cm.Tables()), session, message) ==> Enumerates(order, old(cm.userSessions).Keys)
      ensures session.username == old(session.username)
      ensures session.lastHeartbeat == if message.typ == Some(TYPE_HEARTBEAT) then Some(env.now) else old(session.lastHeartbeat)
    {
      order := [];
      if message.typ.None? {
        cm.SendMessageToSession(session, ErrorReply(env, message.id, HANDLING_FAILED + faultText), net);
      } else if message.typ.value == TYPE_AUTH {
        HandleAuthMessage(session, message, env, net);
      } else if message.typ.value == TYPE_HEARTBEAT {
        HandleHeartbeatMessage(session, message, env, net);
      } else if message.typ.value == TYPE_CHAT_REQUEST {
        HandleChatRequestMessage(session, message, env, net);
      } else if message.typ.value == TYPE_CHAT_RESPONSE {
        order := HandleChatResponseMessage(session, message, env, net);
      } else {
        cm.SendMessageToSession(session, ErrorReply(env, message.id, UNKNOWN_TYPE + message.typ.value), net);
      }
    }

    method HandleAuthMessage(session: Session, message: ChatMessage, env: Env, net: Network)
      modifies cm
      ensures cm.State() == AuthStep(old(cm.State()), session.username, session, message, env, net)
    {
      var clientType := message.clientType;
      if clientType == Some(CLIENT_TYPE_USER) {
        var username := session.username;
        if username.Some? {
          cm.AddUserSession(username.value, session);
          cm.SendMessageToSession(session, SuccessReply(env, message.id, AUTH_USER_OK), net);
        } else {
          cm.SendMessageToSession(session, ErrorReply(env, message.id, AUTH_USER_FAILED), net);
        }
      } else if clientType == Some(CLIENT_TYPE_CLIENT) {
        cm.AddClientSession(session);
        cm.SendMessageToSession(session, SuccessReply(env, message.id, AUTH_CLIENT_OK), net);
      } else {
        cm.SendMessageToSession(session, ErrorReply(env, message.id, UNKNOWN_CLIENT_TYPE + OrNull(clientType)), net);
      }
    }

    method HandleHeartbeatMessage(session: Session, message: ChatMessage, env: Env, net: Network)
      modifies cm, session
      ensures cm.State() == Send(old(cm.State()), [session], HeartbeatReply(env, message), net)
      ensures session.lastHeartbeat == Some(env.now) && session.username == old(session.username)
    {
      session.lastHeartbeat := Some(env.now);
      var response := Heartbeat(env, message.userId);
      response := response.(id := message.id);
      cm.SendMessageToSession(session, response, net);
    }

    method HandleChatRequestMessage(session: Session, message: ChatMessage, env: Env, net: Network)
      modifies cm
      ensures cm.State() == ChatRequestStep(old(cm.State()), session, message, env, net)
    {
      var sessionType := cm.Tables().SessionType(session);
      if sessionType == Some(UserRole) {
        if |cm.clientSessions| > 0 {
          cm.SendMessageToClients(message, net);
        } else {
          cm.SendMessageToSession(session, ErrorReply(env, message.id, NO_CLIENT), net);
        }
      } else {
        cm.SendMessageToSession(session, ErrorReply(env, message.id, ONLY_USERS_REQUEST), net);
      }
    }

    method HandleChatResponseMessage(session: Session, message: ChatMessage, env: Env, net: Network)
      returns (ghost order: seq<UserId>)
      modifies cm
      ensures cm.State() == ChatResponseStep(old(cm.State()), session, message, env, net, order)
      ensures Broadcasts(old(cm.Tables()), session, message) ==> Enumerates(order, old(cm.userSessions).Keys)
    {
      order := [];
      var sessionType := cm.Tables().SessionType(session);
      if sessionType == Some(ClientRole) {
        var userId := message.userId;
        if userId.Some? {
          cm.SendMessageToUser(userId.value, message, net);
        } else {
          order := cm.BroadcastToAllUsers(message, net);
        }
      } else {
        cm.SendMessageToSession(session, ErrorReply(env, message.id, ONLY_CLIENTS_RESPOND), net);
      }
    }

    /** Pushes a new chat request to the clients; without a client nothing is written. */
    method SendChatRequestToClient(userId: Option<string>, content: Option<string>, data: Option<Data>,
                                   env: Env, net: Network)
      modifies cm
      ensures old(cm.HasClients()) ==> cm.State() == Send(old(cm.State()), old(cm.clientSessions), ChatRequest(env, userId, content, data), net)
      ensures !old(cm.HasClients()) ==> cm.State() == old(cm.State())
    {
      if cm.HasClients() {
        cm.SendMessageToClients(ChatRequest(env, userId, content, data), net);
      }
    }

    /** Pushes a response to every session of `userId`, stamped with that user id. */
    method SendChatResponseToUser(userId: UserId, messageId: Option<string>, content: Option<string>,
                                  data: Option<Data>, env: Env, net: Network)
      modifies cm
      ensures cm.State() == Send(old(cm.State()), old(cm.Tables()).SessionsOf(userId),
                                 ChatResponse(env, messageId, content, data).(userId := Some(userId)), net)
    {
      var message := ChatResponse(env, messageId, content, data);
      message := message.(userId := Some(userId));
      cm.SendMessageToUser(userId, message, net);
    }

    method HasAvailableClients() returns (r: bool)
      ensures r <==> cm.clientSessions != []
    {
      r := cm.HasClients();
    }

    method GetConnectionStatus() returns (st: Status)
      ensures st.userConnections == |cm.userSessions| && st.clientConnections == |cm.clientSessions|
      ensures st.hasClients <==> st.clientConnections > 0
    {
      st := Status(|cm.userSessions|, |cm.clientSessions|, cm.HasClients());
    }
  }
}
