/**
 * The persisted records and the tables that hold them. Each JPA repository
 * is a class whose one field is its table: a map from primary key to row
 * where the code looks rows up by key, a sequence where it only appends
 * and aggregates. Generated ids and clock readings are parameters of the
 * operations that create rows.
 */
module Entities {
  import opened Wrappers

  /** The error every operation gives when no user is logged in. */
  const NOT_LOGGED_IN: string := "用户未登录"

  /** A row of `users`. */
  datatype User = User(
    id: string,
    username: string,
    password: string,
    realName: Option<string>,
    email: Option<string>,
    userRole: string,
    tokenLimit: int,
    userStatus: string,
    createdTime: int,
    lastLoginTime: Option<int>)

  /** Some row has this username; the column is unique, so a save that would
      add a second such row fails. */
  predicate UsernameTaken(users: map<string, User>, username: string) {
    exists id | id in users :: users[id].username == username
  }

  /** A row of `token_usage`. */
  datatype TokenUsage = TokenUsage(
    id: string,
    userId: string,
    conversationId: Option<string>,
    tokensCount: int,
    usageType: Option<string>,
    usageTime: int)

  /** One entry of a conversation's message list. */
  datatype Entry = Entry(role: string, content: string, timestamp: int, files: Option<seq<string>>)

  /**
   * The stored content of a conversation, as the JSON reader sees it: a
   * document whose "messages" member is a message list (or absent), or
   * text that does not read as such a document.
   */
  datatype Content = Document(messages: Option<seq<Entry>>) | Unreadable

  /** A row of `conversations`. */
  datatype Conversation = Conversation(
    id: string,
    userId: string,
    title: Option<string>,
    content: Option<Content>,
    tokensUsed: int,
    createdTime: int)

  /** A row of `system_config`; the key column is unique. */
  datatype SystemConfig = SystemConfig(key: string, value: Option<string>, desc: Option<string>)

  class UserRepository {
    var users: map<string, User>

    constructor ()
      ensures users == map[]
    {
      users := map[];
    }

    /** `existsByUsername`. */
    predicate ExistsByUsername(username: string)
      reads this
    {
      UsernameTaken(users, username)
    }

    /** `existsByEmail`. */
    predicate ExistsByEmail(email: string)
      reads this
    {
      exists id | id in users :: users[id].email == Some(email)
    }
  }

  class TokenUsageRepository {
    var usages: seq<TokenUsage>

    constructor ()
      ensures usages == []
    {
      usages := [];
    }
  }

  class ConversationRepository {
    var conversations: map<string, Conversation>

    constructor ()
      ensures conversations == map[]
    {
      conversations := map[];
    }

    /** `findByIdAndUserId`: the row with that id, if the given user owns it. */
    function FindByIdAndUserId(id: string, userId: string): (r: Option<Conversation>)
      reads this
      ensures r.Some? <==> id in conversations && conversations[id].userId == userId
      ensures r.Some? ==> r.value == conversations[id]
    {
      if id in conversations && conversations[id].userId == userId then Some(conversations[id]) else None
    }
  }

  class SystemConfigRepository {
    /** Rows by their unique key. */
    var configs: map<string, SystemConfig>

    constructor ()
      ensures configs == map[]
    {
      configs := map[];
    }
  }
}
