/**
 * Conversations of the logged-in user (`ConversationService`): creation,
 * partial update and deletion, each allowed only on the caller's own rows,
 * with the tokens a create or update consumes recorded in the ledger. A
 * failed ledger write rolls the whole transaction back.
 */
module Conversations {
  import opened Wrappers
  import opened Entities
  import opened TokenLedger

  const NOT_FOUND_OR_FORBIDDEN: string := "对话不存在或无权限访问"
  const USAGE_CHAT: string := "CHAT"

  /** The usage a create or update with `tokens` records, if any: only a positive count is recorded. */
  function UsageFor(tokens: Option<int>, usageId: string, userId: string, conversationId: string, now: int): seq<TokenUsage> {
    if tokens.Some? && tokens.value > 0
    then [TokenUsage(usageId, userId, Some(conversationId), tokens.value, Some(USAGE_CHAT), now)]
    else []
  }

  /** The row after `updateConversation`: a non-null title or content replaces
      the old one, and a positive token count is added. */
  function Updated(c: Conversation, title: Option<string>, content: Option<Content>, additionalTokens: Option<int>): (d: Conversation)
    ensures d.id == c.id && d.userId == c.userId && d.createdTime == c.createdTime
    ensures d.title == (if title.Some? then title else c.title)
    ensures d.content == (if content.Some? then content else c.content)
    ensures d.tokensUsed >= c.tokensUsed
    ensures d.tokensUsed - c.tokensUsed == (if additionalTokens.Some? && additionalTokens.value > 0 then additionalTokens.value else 0)
  {
    var c1 := if title.Some? then c.(title := title) else c;
    var c2 := if content.Some? then c1.(content := content) else c1;
    if additionalTokens.Some? && additionalTokens.value > 0 then c2.(tokensUsed := c2.tokensUsed + additionalTokens.value) else c2
  }

  /** Nothing to update leaves the row as it is. */
  lemma EmptyUpdateIsIdentity(c: Conversation, additionalTokens: Option<int>)
    requires additionalTokens.None? || additionalTokens.value <= 0
    ensures Updated(c, None, None, additionalTokens) == c
  {
  }

  /** Token counts of successive updates add up. */
  lemma UpdatesAccumulate(c: Conversation, a: nat, b: nat)
    ensures Updated(Updated(c, None, None, Some(a)), None, None, Some(b)).tokensUsed == c.tokensUsed + a + b
  {
  }

  class ConversationService {
    const conversationRepository: ConversationRepository
    const tokenService: TokenService

    constructor (conversations: ConversationRepository, tokens: TokenService)
      ensures conversationRepository == conversations && tokenService == tokens
    {
      conversationRepository := conversations;
      tokenService := tokens;
    }

    /**
     * `createConversation`: the row is owned by the caller, with a null
     * token count stored as 0; a positive count is recorded, and if the
     * ledger refuses it neither table changes.
     */
    method CreateConversation(currentUserId: Option<string>, title: Option<string>, content: Option<Content>,
                              tokensUsed: Option<int>, id: string, usageId: string, now: int, w: Window)
      returns (r: Result<Conversation, string>)
      requires id !in conversationRepository.conversations
      modifies conversationRepository, tokenService.tokenUsageRepository
      ensures currentUserId.None? ==> r == Failure(NOT_LOGGED_IN)
      ensures r.Failure? ==>
        conversationRepository.conversations == old(conversationRepository.conversations)
        && tokenService.tokenUsageRepository.usages == old(tokenService.tokenUsageRepository.usages)
      ensures currentUserId.Some? && (tokensUsed.None? || tokensUsed.value <= 0) ==> r.Success?
      ensures currentUserId.Some? && tokensUsed.Some? && tokensUsed.value > 0 ==>
        (r.Success? <==>
          (currentUserId.value in tokenService.userRepository.users
           && WithinQuota(old(tokenService.MonthlyUsedTokens(currentUserId.value, w)), tokensUsed.value,
                          tokenService.userRepository.users[currentUserId.value].tokenLimit)))
      ensures r.Success? ==>
        currentUserId.Some?
        && r.value == Conversation(id, currentUserId.value, title, content, tokensUsed.GetOr(0), now)
        && conversationRepository.conversations == old(conversationRepository.conversations)[id := r.value]
        && tokenService.tokenUsageRepository.usages
           == old(tokenService.tokenUsageRepository.usages) + UsageFor(tokensUsed, usageId, currentUserId.value, id, now)
    {
      if currentUserId.None? {
        return Failure(NOT_LOGGED_IN);
      }
      var userId := currentUserId.value;
      var conversation := Conversation(id, userId, title, content, tokensUsed.GetOr(0), now);
      var saved := conversationRepository.conversations;
      conversationRepository.conversations := conversationRepository.conversations[id := conversation];
      if tokensUsed.Some? && tokensUsed.value > 0 {
        var recorded := tokenService.RecordTokenUsage(userId, Some(id), tokensUsed.value, Some(USAGE_CHAT), w, now, usageId);
        if recorded.Failure? {
          conversationRepository.conversations := saved;
          return Failure(recorded.error);
        }
      }
      return Success(conversation);
    }

    /**
     * `updateConversation`: only on a row the caller owns; the non-null
     * fields replace the old ones and a positive count is added and
     * recorded. A refused ledger write leaves both tables as they were.
     */
    method UpdateConversation(currentUserId: Option<string>, conversationId: string, title: Option<string>,
                              content: Option<Content>, additionalTokens: Option<int>, usageId: string, now: int, w: Window)
      returns (r: Result<Conversation, string>)
      modifies conversationRepository, tokenService.tokenUsageRepository
      ensures currentUserId.None? ==> r == Failure(NOT_LOGGED_IN)
      ensures currentUserId.Some? && old(conversationRepository.FindByIdAndUserId(conversationId, currentUserId.value)).None?
        ==> r == Failure(NOT_FOUND_OR_FORBIDDEN)
      ensures currentUserId.Some? && old(conversationRepository.FindByIdAndUserId(conversationId, currentUserId.value)).Some? ==>
        (r.Success? <==>
          (additionalTokens.None? || additionalTokens.value <= 0
           || (currentUserId.value in tokenService.userRepository.users
               && WithinQuota(old(tokenService.MonthlyUsedTokens(currentUserId.value, w)), additionalTokens.value,
                              tokenService.userRepository.users[currentUserId.value].tokenLimit))))
      ensures r.Failure? ==>
        conversationRepository.conversations == old(conversationRepository.conversations)
        && tokenService.tokenUsageRepository.usages == old(tokenService.tokenUsageRepository.usages)
      ensures r.Success? ==>
        currentUserId.Some? && conversationId in old(conversationRepository.conversations)
        && old(conversationRepository.conversations)[conversationId].userId == currentUserId.value
        && r.value == Updated(old(conversationRepository.conversations)[conversationId], title, content, additionalTokens)
        && conversationRepository.conversations == old(conversationRepository.conversations)[conversationId := r.value]
        && tokenService.tokenUsageRepository.usages
           == old(tokenService.tokenUsageRepository.usages) + UsageFor(additionalTokens, usageId, currentUserId.value, conversationId, now)
      ensures forall id :: id in old(conversationRepository.conversations) && id != conversationId ==>
        id in conversationRepository.conversations && conversationRepository.conversations[id] == old(conversationRepository.conversations)[id]
    {
      if currentUserId.None? {
        return Failure(NOT_LOGGED_IN);
      }
      var userId := currentUserId.value;
      var found := conversationRepository.FindByIdAndUserId(conversationId, userId);
      if found.None? {
        return Failure(NOT_FOUND_OR_FORBIDDEN);
      }
      var conversation := found.value;
      if title.Some? {
        conversation := conversation.(title := title);
      }
      if content.Some? {
        conversation := conversation.(content := content);
      }
      if additionalTokens.Some? && additionalTokens.value > 0 {
        conversation := conversation.(tokensUsed := conversation.tokensUsed + additionalTokens.value);
        var recorded := tokenService.RecordTokenUsage(userId, Some(conversationId), additionalTokens.value, Some(USAGE_CHAT), w, now, usageId);
        if recorded.Failure? {
          return Failure(recorded.error);
        }
      }
      conversationRepository.conversations := conversationRepository.conversations[conversationId := conversation];
      return Success(conversation);
    }

    /** `getConversationById`: the caller's own row, or an error. */
    function GetConversationById(currentUserId: Option<string>, conversationId: string): (r: Result<Conversation, string>)
      reads conversationRepository
      ensures r.Success? ==> currentUserId.Some? && conversationRepository.FindByIdAndUserId(conversationId, currentUserId.value) == Some(r.value)
      ensures r.Failure? ==> r.error == NOT_LOGGED_IN || r.error == NOT_FOUND_OR_FORBIDDEN
    {
      if currentUserId.None? then Failure(NOT_LOGGED_IN)
      else match conversationRepository.FindByIdAndUserId(conversationId, currentUserId.value)
        case Some(c) => Success(c)
        case None => Failure(NOT_FOUND_OR_FORBIDDEN)
    }

    /** `deleteConversation`: removes the row only when the caller owns it. */
    method DeleteConversation(currentUserId: Option<string>, conversationId: string) returns (r: Result<(), string>)
      modifies conversationRepository
      ensures currentUserId.None? ==> r == Failure(NOT_LOGGED_IN)
      ensures r.Failure? ==> conversationRepository.conversations == old(conversationRepository.conversations)
      ensures currentUserId.Some? ==>
        (r.Success? <==> old(conversationRepository.FindByIdAndUserId(conversationId, currentUserId.value)).Some?)
      ensures r.Success? ==> conversationRepository.conversations == old(conversationRepository.conversations) - {conversationId}
    {
      if currentUserId.None? {
        return Failure(NOT_LOGGED_IN);
      }
      var userId := currentUserId.value;
      if conversationRepository.FindByIdAndUserId(conversationId, userId).None? {
        return Failure(NOT_FOUND_OR_FORBIDDEN);
      }
      conversationRepository.conversations := conversationRepository.conversations - {conversationId};
      return Success(());
    }

    /** `getUserConversationCount`. */
    function GetUserConversationCount(userId: string): nat
      reads conversationRepository
    {
      |set id | id in conversationRepository.conversations && conversationRepository.conversations[id].userId == userId|
    }
  }
}
