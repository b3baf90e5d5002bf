/**
 * The WebSocket envelope: a record of seven nullable fields, the six type tags,
 * the two client types, and the static factories that fill a fresh record.
 * The UUID and the clock reading a factory would draw are passed in as `Env`.
 */
module ChatMessages {
  import opened Wrappers

  /** The structured payload; its values are modelled as strings. */
  type Data = map<string, string>

  datatype ChatMessage = ChatMessage(
    id: Option<string>,
    typ: Option<string>,
    userId: Option<string>,
    clientType: Option<string>,
    content: Option<string>,
    data: Option<Data>,
    timestamp: Option<int>)

  /** The clock reading (`System.currentTimeMillis()`) and the fresh UUID a call draws. */
  datatype Env = Env(now: int, freshId: string)

  const TYPE_AUTH: string := "auth"
  const TYPE_HEARTBEAT: string := "heartbeat"
  const TYPE_CHAT_REQUEST: string := "chat_request"
  const TYPE_CHAT_RESPONSE: string := "chat_response"
  const TYPE_ERROR: string := "error"
  const TYPE_SUCCESS: string := "success"

  const CLIENT_TYPE_USER: string := "user"
  const CLIENT_TYPE_CLIENT: string := "client"

  const DECLARED_TYPES: set<string> :=
    {TYPE_AUTH, TYPE_HEARTBEAT, TYPE_CHAT_REQUEST, TYPE_CHAT_RESPONSE, TYPE_ERROR, TYPE_SUCCESS}

  predicate HasDeclaredType(m: ChatMessage) {
    m.typ.Some? && m.typ.value in DECLARED_TYPES
  }

  /** An empty record, as the no-argument constructor leaves it. */
  const BLANK: ChatMessage := ChatMessage(None, None, None, None, None, None, None)

  function Auth(env: Env, userId: Option<string>, clientType: Option<string>): (m: ChatMessage)
    ensures m.typ == Some(TYPE_AUTH) && m.id == Some(env.freshId) && m.timestamp == Some(env.now)
    ensures m.userId == userId && m.clientType == clientType
    ensures m.content.None? && m.data.None?
  {
    BLANK.(id := Some(env.freshId), typ := Some(TYPE_AUTH), userId := userId,
           clientType := clientType, timestamp := Some(env.now))
  }

  function Heartbeat(env: Env, userId: Option<string>): (m: ChatMessage)
    ensures m.typ == Some(TYPE_HEARTBEAT) && m.id == Some(env.freshId) && m.timestamp == Some(env.now)
    ensures m.userId == userId
    ensures m.clientType.None? && m.content.None? && m.data.None?
  {
    BLANK.(id := Some(env.freshId), typ := Some(TYPE_HEARTBEAT), userId := userId,
           timestamp := Some(env.now))
  }

  function ChatRequest(env: Env, userId: Option<string>, content: Option<string>, data: Option<Data>): (m: ChatMessage)
    ensures m.typ == Some(TYPE_CHAT_REQUEST) && m.id == Some(env.freshId) && m.timestamp == Some(env.now)
    ensures m.userId == userId && m.content == content && m.data == data
    ensures m.clientType.None?
  {
    BLANK.(id := Some(env.freshId), typ := Some(TYPE_CHAT_REQUEST), userId := userId,
           content := content, data := data, timestamp := Some(env.now))
  }

  /** Keeps the caller's id, even a null one; the user id stays null. */
  function ChatResponse(env: Env, id: Option<string>, content: Option<string>, data: Option<Data>): (m: ChatMessage)
    ensures m.typ == Some(TYPE_CHAT_RESPONSE) && m.id == id && m.timestamp == Some(env.now)
    ensures m.content == content && m.data == data
    ensures m.userId.None? && m.clientType.None?
  {
    BLANK.(id := id, typ := Some(TYPE_CHAT_RESPONSE), content := content, data := data,
           timestamp := Some(env.now))
  }

  /** The given id when there is one, else a fresh one. */
  function IdOrFresh(env: Env, id: Option<string>): (r: Option<string>)
    ensures r.Some?
    ensures id.Some? ==> r == id
    ensures id.None? ==> r == Some(env.freshId)
  {
    Some(id.GetOr(env.freshId))
  }

  function ErrorReply(env: Env, id: Option<string>, text: string): (m: ChatMessage)
    ensures m.typ == Some(TYPE_ERROR) && m.content == Some(text) && m.timestamp == Some(env.now)
    ensures m.id == IdOrFresh(env, id)
    ensures m.userId.None? && m.clientType.None? && m.data.None?
  {
    BLANK.(id := IdOrFresh(env, id), typ := Some(TYPE_ERROR), content := Some(text),
           timestamp := Some(env.now))
  }

  function SuccessReply(env: Env, id: Option<string>, text: string): (m: ChatMessage)
    ensures m.typ == Some(TYPE_SUCCESS) && m.content == Some(text) && m.timestamp == Some(env.now)
    ensures m.id == IdOrFresh(env, id)
    ensures m.userId.None? && m.clientType.None? && m.data.None?
  {
    BLANK.(id := IdOrFresh(env, id), typ := Some(TYPE_SUCCESS), content := Some(text),
           timestamp := Some(env.now))
  }

  /** Every factory produces one of the six declared type tags. */
  lemma FactoriesUseDeclaredTypes(env: Env, id: Option<string>, u: Option<string>, c: Option<string>,
                                  d: Option<Data>, t: string)
    ensures HasDeclaredType(Auth(env, u, c)) && HasDeclaredType(Heartbeat(env, u))
    ensures HasDeclaredType(ChatRequest(env, u, c, d)) && HasDeclaredType(ChatResponse(env, id, c, d))
    ensures HasDeclaredType(ErrorReply(env, id, t)) && HasDeclaredType(SuccessReply(env, id, t))
  {
  }

  /** Java's string concatenation writes a null reference as "null". */
  function OrNull(s: Option<string>): string {
    s.GetOr("null")
  }
}
