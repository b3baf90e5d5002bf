/**
 * The transport edge: the connection lifecycle callbacks and the token
 * lookup in the connection URI's query string. Token validation is an
 * oracle `jwt` from valid tokens to the username they carry; the JSON
 * decoder's outcome for a text frame is given with the frame.
 */
module Transport {
  import opened Wrappers
  import opened JavaText
  import opened ChatMessages
  import opened Connections
  import opened Router

  const WELCOME: string := "WebSocket连接已建立，请发送认证消息"
  const MALFORMED: string := "消息格式错误: "

  /** A query parameter that splits on '=' into exactly the key "token" and a value. */
  predicate IsTokenParam(param: string) {
    var kv := Split(param, '=');
    |kv| == 2 && kv[0] == "token"
  }

  /** The value of the first token parameter, searching in order. */
  function FindToken(params: seq<string>): Option<string> {
    if params == [] then None
    else if IsTokenParam(params[0]) then Some(Split(params[0], '=')[1])
    else FindToken(params[1..])
  }

  /** `getTokenFromSession`: no URI or no query means no token. */
  function TokenFromSession(uri: Option<Uri>): Option<string> {
    if uri.Some? && uri.value.query.Some? then FindToken(Split(uri.value.query.value, '&')) else None
  }

  /** The search finds a token exactly when some parameter is a token
      parameter, and then it is the value of the first one. */
  lemma {:induction false} FindTokenFirst(params: seq<string>)
    ensures FindToken(params).None? <==> forall i :: 0 <= i < |params| ==> !IsTokenParam(params[i])
    ensures FindToken(params).Some? ==>
      exists i :: 0 <= i < |params| && IsTokenParam(params[i]) && FindToken(params).value == Split(params[i], '=')[1]
        && forall j :: 0 <= j < i ==> !IsTokenParam(params[j])
  {
    if params != [] && !IsTokenParam(params[0]) {
      FindTokenFirst(params[1..]);
      if FindToken(params).Some? {
        var i :| 0 <= i < |params[1..]| && IsTokenParam(params[1..][i])
          && FindToken(params[1..]).value == Split(params[1..][i], '=')[1]
          && forall j :: 0 <= j < i ==> !IsTokenParam(params[1..][j]);
        assert params[i + 1] == params[1..][i];
        assert forall j :: 0 <= j < i + 1 ==> !IsTokenParam(params[j]) by {
          forall j | 0 <= j < i + 1 ensures !IsTokenParam(params[j]) {
            if j > 0 {
              assert params[j] == params[1..][j - 1];
            }
          }
        }
      } else {
        forall i | 0 <= i < |params| ensures !IsTokenParam(params[i]) {
          if i > 0 {
            assert params[i] == params[1..][i - 1];
          }
        }
      }
    }
  }

  /** A query "token=" (or any "key=") has an empty value, which `split`
      drops, so it yields no token. */
  lemma EmptyTokenValueIgnored(key: string)
    requires '=' !in key && '&' !in key
    ensures TokenFromSession(Some(Uri(Some(key + "=")))) == None
  {
    var q := key + "=";
    PiecesWithoutSeparator(q, '&');
    PiecesWithoutSeparator(key, '=');
    PiecesAtFirstSeparator(key, '=', "");
    assert q == key + ['='] + "";
    assert q[|key|] == '=';
    assert |Split(q, '=')| <= 1;
    assert Split(q, '&') == [q] && !IsTokenParam(q);
    assert FindToken([q]) == FindToken([]);
  }

  /** A query "token=a=b" splits into three parts, so it yields no token. */
  lemma ThreePartTokenIgnored(a: string, b: string)
    requires '=' !in a && '&' !in a && '=' !in b && '&' !in b && b != ""
    ensures TokenFromSession(Some(Uri(Some("token=" + a + "=" + b)))) == None
  {
    var q := "token=" + a + "=" + b;
    assert '&' !in q by {
      assert q == "token" + ['='] + a + ['='] + b;
    }
    PiecesWithoutSeparator(q, '&');
    PiecesWithoutSeparator(b, '=');
    PiecesAtFirstSeparator(a, '=', b);
    PiecesAtFirstSeparator("token", '=', a + "=" + b);
    assert q == "token" + ['='] + (a + ['='] + b);
    assert q[5] == '=';
    assert |Split(q, '=')| == 3;
    assert Split(q, '&') == [q] && !IsTokenParam(q);
    assert FindToken([q]) == FindToken([]);
  }

  /** A query "token=t" with a non-empty, plain value yields t. */
  lemma PlainTokenFound(t: string)
    requires '=' !in t && '&' !in t && t != ""
    ensures TokenFromSession(Some(Uri(Some("token=" + t)))) == Some(t)
  {
    var q := "token=" + t;
    assert q == "token" + ['='] + t;
    assert '&' !in q;
    PiecesWithoutSeparator(q, '&');
    SplitAround("token", '=', t);
  }

  /** What a frame is, as far as the handler is concerned: a text frame with the
      decoder's outcome (the envelope, or the exception's message), or another kind. */
  datatype Frame = TextFrame(decoded: Result<ChatMessage, string>) | OtherFrame

  /** One `handleMessage` callback. */
  function OnFrame(w: RelayState, username: Option<string>, s: Session, f: Frame, env: Env,
                   faultText: string, net: Network, order: seq<UserId>): RelayState {
    match f
    case OtherFrame => w
    case TextFrame(Failure(e)) => Send(w, [s], ErrorReply(env, None, MALFORMED + e), net)
    case TextFrame(Success(m)) => Handle(w, username, s, m, env, faultText, net, order)
  }

  /** A frame that does not decode is answered with one error carrying a fresh
      id, and changes the registry only if that write fails. */
  lemma DecodeFailureAnswered(w: RelayState, username: Option<string>, s: Session, e: string, env: Env,
                              faultText: string, net: Network, order: seq<UserId>)
    ensures var w' := OnFrame(w, username, s, TextFrame(Failure(e)), env, faultText, net, order);
      && (Writable(net, s) ==> w'.reg == w.reg && Sent(w, w') == [Delivery(s, ErrorReply(env, None, MALFORMED + e))])
      && (!Writable(net, s) ==> Sent(w, w') == [])
      && forall d :: d in Sent(w, w') ==> d.msg.typ == Some(TYPE_ERROR) && d.msg.id == Some(env.freshId)
  {
    SendToOne(w, s, ErrorReply(env, None, MALFORMED + e), net);
  }

  /** The parameter loop of `getTokenFromSession`: the first parameter that
      splits into "token" and a value yields that value. */
  method GetTokenFromSession(uri: Option<Uri>) returns (token: Option<string>)
    ensures token == TokenFromSession(uri)
  {
    if uri.Some? && uri.value.query.Some? {
      var params := Split(uri.value.query.value, '&');
      var i := 0;
      while i < |params|
        invariant 0 <= i <= |params|
        invariant FindToken(params[i..]) == FindToken(params)
      {
        var keyValue := Split(params[i], '=');
        if |keyValue| == 2 && keyValue[0] == "token" {
          return Some(keyValue[1]);
        }
        assert params[i..][1..] == params[i + 1..];
        i := i + 1;
      }
    }
    return None;
  }

  /** The username a connection is given: the token's user when the query holds a valid token. */
  function ConnectUsername(uri: Option<Uri>, jwt: map<string, string>, previous: Option<string>): (r: Option<string>)
    ensures TokenFromSession(uri).Some? && TokenFromSession(uri).value in jwt ==> r == Some(jwt[TokenFromSession(uri).value])
    ensures TokenFromSession(uri).None? || TokenFromSession(uri).value !in jwt ==> r == previous
  {
    var token := TokenFromSession(uri);
    if token.Some? && token.value in jwt then Some(jwt[token.value]) else previous
  }

  class ChatWebSocketHandler {
    const cm: ConnectionManager
    const handler: MessageHandler

    constructor (handler: MessageHandler)
      ensures this.handler == handler && cm == handler.cm
    {
      this.handler := handler;
      cm := handler.cm;
    }

    predicate Wired() {
      cm == handler.cm
    }

    method AfterConnectionEstablished(session: Session, jwt: map<string, string>, env: Env, net: Network)
      modifies session, cm
      ensures session.username == ConnectUsername(session.uri, jwt, old(session.username))
      ensures session.lastHeartbeat == old(session.lastHeartbeat)
      ensures cm.State() == Send(old(cm.State()), [session], SuccessReply(env, None, WELCOME), net)
    {
      var token := GetTokenFromSession(session.uri);
      if token.Some? && token.value in jwt {
        session.username := Some(jwt[token.value]);
      }
      cm.SendMessageToSession(session, SuccessReply(env, None, WELCOME), net);
    }

    method HandleMessage(session: Session, frame: Frame, env: Env, faultText: string, net: Network)
      returns (ghost order: seq<UserId>)
      requires Wired()
      modifies session, cm
      ensures cm.State() == OnFrame(old(cm.State()), old(session.username), session, frame, env, faultText, net, order)
      ensures frame.TextFrame? && frame.decoded.Success? && Broadcasts(old(cm.Tables()), session, frame.decoded.value) ==>
        Enumerates(order, old(cm.userSessions).Keys)
      ensures session.username == old(session.username)
    {
      order := [];
      if frame.TextFrame? {
        match frame.decoded
        case Success(m) =>
          order := handler.HandleMessage(session, m, env, faultText, net);
        case Failure(e) =>
          cm.SendMessageToSession(session, ErrorReply(env, None, MALFORMED + e), net);
      }
    }

    method HandleTransportError(session: Session)
      modifies cm
      ensures cm.Tables() == Remove(old(cm.Tables()), session) && cm.outbox == old(cm.outbox)
    {
      cm.RemoveSession(session);
    }

    method AfterConnectionClosed(session: Session)
      modifies cm
      ensures cm.Tables() == Remove(old(cm.Tables()), session) && cm.outbox == old(cm.outbox)
    {
      cm.RemoveSession(session);
    }
  }
}
