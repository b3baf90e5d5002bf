/**
 * The chat request path of `ChatService`: quota check, attachment
 * collection, message assembly, the simulated reply and its token
 * estimate, and the creation or extension of the conversation. The file
 * store is a lookup function; the current user, the clock, the month's
 * window and the generated ids are parameters.
 */
module ChatFlow {
  import opened Wrappers
  import opened JavaText
  import opened Entities
  import opened TokenLedger
  import opened SystemConfigs
  import opened Conversations

  const SIMULATED_PREFIX: string := "这是Claude的模拟响应。您的消息是: "
  const ATTACHMENTS_HEADER: string := "\n\n附件内容:\n"
  const FILE_LABEL: string := "文件: "
  const CONTENT_LABEL: string := "\n内容:\n"
  const QUOTA_TOO_LOW: string := "Token额度不足"
  const REQUEST_FAILED: string := "处理请求失败: "
  const ROLE_USER: string := "user"
  const ROLE_ASSISTANT: string := "assistant"

  /** The request body; `message` is declared not blank, so it is never null. */
  datatype ChatRequest = ChatRequest(
    conversationId: Option<string>, message: string, fileIds: Option<seq<string>>, title: Option<string>)

  datatype ChatResponse = ChatResponse(
    conversationId: Option<string>, response: Option<string>, tokensUsed: int,
    success: bool, error: Option<string>, timestamp: int)

  function SuccessResponse(conversationId: Option<string>, response: string, tokensUsed: int, now: int): ChatResponse {
    ChatResponse(conversationId, Some(response), tokensUsed, true, None, now)
  }

  function ErrorResponse(conversationId: Option<string>, error: string, now: int): ChatResponse {
    ChatResponse(conversationId, None, 0, false, Some(error), now)
  }

  /** What the file service answers for an id: no such file, a read that
      throws, or the file's name and text. */
  datatype FileLookup = Absent | ReadFails | Found(fileName: string, content: string)

  // ------------------------------------------------------ pure helpers

  /** `simulateClaudeResponse`: the prefix, the first 100 characters, and "..." when some were cut. */
  function SimulateResponse(message: string): (r: string)
    ensures var k := if |message| < 100 then |message| else 100;
      && |r| == |SIMULATED_PREFIX| + k + (if |message| > 100 then 3 else 0)
      && r[..|SIMULATED_PREFIX|] == SIMULATED_PREFIX
      && r[|SIMULATED_PREFIX|..|SIMULATED_PREFIX| + k] == message[..k]
      && (|message| > 100 ==> r[|SIMULATED_PREFIX| + k..] == "...")
  {
    var k := if |message| < 100 then |message| else 100;
    SIMULATED_PREFIX + message[..k] + (if |message| > 100 then "..." else "")
  }

  /** `estimateTokenUsage`: a quarter of each length, each rounded down. */
  function EstimateTokenUsage(input: string, output: string): (r: int)
    ensures 0 <= r <= (|input| + |output|) / 4
    ensures (|input| + |output|) / 4 <= r + 1
  {
    |input| / 4 + |output| / 4
  }

  /** `generateConversationTitle`: at most 50 characters plus "...", then each
      whitespace run made one space, then trimmed. */
  function GenerateConversationTitle(message: string): (r: string)
    ensures |r| <= 53
  {
    Trim(CollapseSpaces(TitleCut(message)))
  }

  function TitleCut(message: string): (r: string)
    ensures |r| <= 53
  {
    if |message| > 50 then message[..50] + "..." else message
  }

  /** A title has no whitespace run and neither starts nor ends with whitespace. */
  lemma TitleShape(message: string)
    ensures var r := GenerateConversationTitle(message);
      && NoSpaceRun(r)
      && (r == [] || (!IsRegexSpace(r[0]) && !IsRegexSpace(r[|r| - 1])))
  {
    var collapsed := CollapseSpaces(TitleCut(message));
    var i, j := TrimIsSlice(collapsed);
    NoSpaceRunSlice(collapsed, i, j);
    var r := collapsed[i..j];
    assert r == GenerateConversationTitle(message);
    assert r == [] || (r[0] > ' ' && r[|r| - 1] > ' ');
  }

  /** A part of a string without whitespace runs has none either. */
  lemma NoSpaceRunSlice(s: string, i: nat, j: nat)
    requires i <= j <= |s| && NoSpaceRun(s)
    ensures NoSpaceRun(s[i..j])
  {
    var t := s[i..j];
    forall k | 0 <= k < |t| - 1
      ensures !(IsRegexSpace(t[k]) && IsRegexSpace(t[k + 1]))
    {
      assert t[k] == s[i + k] && t[k + 1] == s[i + k + 1];
    }
  }

  /** The text recorded for each readable attachment, in request order. */
  function FileContents(fileIds: seq<string>, lookup: string -> FileLookup): seq<string> {
    if fileIds == [] then []
    else
      var rest := FileContents(fileIds[..|fileIds| - 1], lookup);
      match lookup(fileIds[|fileIds| - 1])
      case Found(name, content) => rest + [FILE_LABEL + name + CONTENT_LABEL + content]
      case _ => rest
  }

  /** The attachment section: each content followed by a blank line. */
  function Attachments(contents: seq<string>): string {
    if contents == [] then "" else Attachments(contents[..|contents| - 1]) + contents[|contents| - 1] + "\n\n"
  }

  /** The message the reply is built from. */
  function FullMessage(message: string, contents: seq<string>): string {
    if contents == [] then message else message + ATTACHMENTS_HEADER + Attachments(contents)
  }

  function UserEntry(message: string, contents: seq<string>, now: int): (e: Entry)
    ensures e.role == ROLE_USER && e.content == message
    ensures e.files.Some? <==> contents != []
  {
    Entry(ROLE_USER, message, now, if contents == [] then None else Some(contents))
  }

  function AssistantEntry(response: string, now: int): (e: Entry)
    ensures e.role == ROLE_ASSISTANT && e.content == response && e.files.None?
  {
    Entry(ROLE_ASSISTANT, response, now, None)
  }

  /** `buildConversationContent`: a document holding the user's message, then the reply. */
  function BuildConversationContent(message: string, response: string, contents: seq<string>, now: int): (c: Content)
    ensures c.Document? && c.messages.Some? && |c.messages.value| == 2
    ensures c.messages.value[0] == UserEntry(message, contents, now)
    ensures c.messages.value[1] == AssistantEntry(response, now)
  {
    Document(Some([UserEntry(message, contents, now), AssistantEntry(response, now)]))
  }

  // -------------------------------------------------------------- lemmas

  /** Collecting attachments distributes over the list of ids. */
  lemma {:induction false} FileContentsConcat(a: seq<string>, b: seq<string>, lookup: string -> FileLookup)
    ensures FileContents(a + b, lookup) == FileContents(a, lookup) + FileContents(b, lookup)
  {
    if b == [] {
      assert a + b == a;
    } else {
      var ab := a + b;
      assert ab[..|ab| - 1] == a + b[..|b| - 1];
      assert ab[|ab| - 1] == b[|b| - 1];
      FileContentsConcat(a, b[..|b| - 1], lookup);
    }
  }

  /** Every collected text is labelled, and there is at most one per id. */
  lemma {:induction false} FileContentsShape(fileIds: seq<string>, lookup: string -> FileLookup)
    ensures |FileContents(fileIds, lookup)| <= |fileIds|
    ensures forall k :: 0 <= k < |FileContents(fileIds, lookup)| ==> StartsWith(FileContents(fileIds, lookup)[k], FILE_LABEL)
  {
    if fileIds != [] {
      FileContentsShape(fileIds[..|fileIds| - 1], lookup);
    }
  }

  /** The attachment section distributes over the list of contents. */
  lemma {:induction false} AttachmentsConcat(a: seq<string>, b: seq<string>)
    ensures Attachments(a + b) == Attachments(a) + Attachments(b)
  {
    if b == [] {
      assert a + b == a;
    } else {
      var ab := a + b;
      assert ab[..|ab| - 1] == a + b[..|b| - 1];
      assert ab[|ab| - 1] == b[|b| - 1];
      AttachmentsConcat(a, b[..|b| - 1]);
    }
  }

  /** The full message always starts with the request text. */
  lemma FullMessageStartsWithMessage(message: string, contents: seq<string>)
    ensures StartsWith(FullMessage(message, contents), message)
  {
    if contents != [] {
      var rest := ATTACHMENTS_HEADER + Attachments(contents);
      assert FullMessage(message, contents) == message + rest;
      assert (message + rest)[..|message|] == message;
    }
  }

  /** One more attachment adds its content and a blank line at the end. */
  lemma FullMessageAppend(message: string, contents: seq<string>, c: string)
    ensures FullMessage(message, contents + [c]) == message + ATTACHMENTS_HEADER + Attachments(contents) + c + "\n\n"
  {
    var cs := contents + [c];
    assert cs[..|cs| - 1] == contents;
    assert cs[|cs| - 1] == c;
    assert Attachments(cs) == Attachments(contents) + c + "\n\n";
  }

  /** The reply is at least as long as its prefix, so every chat consumes at
      least five tokens and always records a usage. */
  lemma EstimateIsPositive(full: string)
    ensures EstimateTokenUsage(full, SimulateResponse(full)) >= 5
  {
    assert |SIMULATED_PREFIX| == 21;
  }

  /** Short single-word messages are their own title. */
  lemma TitleOfShortWord(message: string)
    requires |message| <= 50 && forall k :: 0 <= k < |message| ==> message[k] > ' '
    ensures GenerateConversationTitle(message) == message
  {
    assert TitleCut(message) == message;
    CollapseUnchanged(message);
    assert CollapseSpaces(message) == message;
    TrimUnchanged(message);
  }

  lemma {:induction false} CollapseUnchanged(s: string)
    requires forall k :: 0 <= k < |s| ==> s[k] > ' '
    ensures CollapseSpaces(s) == s
  {
    if |s| > 0 {
      var t := s[1..];
      assert forall k :: 0 <= k < |t| ==> t[k] == s[k + 1];
      CollapseUnchanged(t);
      assert !IsRegexSpace(s[0]);
      assert CollapseSpaces(s) == [s[0]] + CollapseSpaces(t);
      assert s == [s[0]] + t;
    }
  }


  // ------------------------------------------------------------ methods

  /** The attachment loop of `processChat`: a missing file or a failed read is skipped. */
  method CollectFileContents(fileIds: Option<seq<string>>, lookup: string -> FileLookup) returns (contents: seq<string>)
    ensures fileIds.None? ==> contents == []
    ensures fileIds.Some? ==> contents == FileContents(fileIds.value, lookup)
  {
    contents := [];
    if fileIds.Some? && fileIds.value != [] {
      var ids := fileIds.value;
      var i := 0;
      while i < |ids|
        invariant 0 <= i <= |ids|
        invariant contents == FileContents(ids[..i], lookup)
      {
        assert ids[..i + 1][..i] == ids[..i];
        match lookup(ids[i]) {
          case Found(name, content) =>
            contents := contents + [FILE_LABEL + name + CONTENT_LABEL + content];
          case _ =>
        }
        i := i + 1;
      }
      assert ids[..|ids|] == ids;
    }
  }

  /** The `StringBuilder` assembly of the full message. */
  method BuildFullMessage(message: string, contents: seq<string>) returns (full: string)
    ensures full == FullMessage(message, contents)
  {
    full := message;
    if contents != [] {
      full := full + ATTACHMENTS_HEADER;
      var i := 0;
      while i < |contents|
        invariant 0 <= i <= |contents|
        invariant full == message + ATTACHMENTS_HEADER + Attachments(contents[..i])
      {
        assert contents[..i + 1][..i] == contents[..i];
        full := full + contents[i] + "\n\n";
        i := i + 1;
      }
      assert contents[..|contents|] == contents;
    }
  }

  /**
   * `appendToConversationContent`: the stored list with the user's message
   * and the reply appended; unreadable or missing content starts over from
   * a fresh two-entry document.
   */
  function AppendToConversationContent(existing: Option<Content>, message: string, response: string,
                                       contents: seq<string>, now: int): (c: Content)
    ensures existing.None? || existing.value.Unreadable? ==> c == BuildConversationContent(message, response, contents, now)
    ensures c.Document? && c.messages.Some?
    ensures var before := if existing.Some? && existing.value.Document? then existing.value.messages.GetOr([]) else [];
      && |c.messages.value| == |before| + 2
      && c.messages.value[..|before|] == before
      && c.messages.value[|before|] == UserEntry(message, contents, now)
      && c.messages.value[|before| + 1] == AssistantEntry(response, now)
  {
    if existing.None? || existing.value.Unreadable? then BuildConversationContent(message, response, contents, now)
    else Document(Some(existing.value.messages.GetOr([]) + [UserEntry(message, contents, now)] + [AssistantEntry(response, now)]))
  }

  /** The title a new conversation gets: the request's, unless it is null or empty. */
  function TitleFor(request: ChatRequest): string {
    if request.title.None? || request.title == Some("") then GenerateConversationTitle(request.message) else request.title.value
  }

  /** Whether the request names no conversation, so that one is created. */
  predicate StartsNew(request: ChatRequest) {
    request.conversationId.None? || request.conversationId == Some("")
  }

  class ChatService {
    const conversationService: ConversationService
    const tokenService: TokenService
    const systemService: SystemService

    constructor (conversations: ConversationService, tokens: TokenService, system: SystemService)
      requires conversations.tokenService == tokens
      ensures conversationService == conversations && tokenService == tokens && systemService == system && Wired()
    {
      conversationService := conversations;
      tokenService := tokens;
      systemService := system;
    }

    /** The conversation service records usage in the same ledger. */
    predicate Wired() {
      conversationService.tokenService == tokenService
    }

    /**
     * `processChat`. A missing user, a failed quota check or a failed
     * create or update answers an error without touching either table;
     * otherwise the reply to the message with its attachments is stored in
     * a new conversation or appended to the caller's, and its estimated
     * tokens are recorded once.
     */
    method ProcessChat(currentUserId: Option<string>, request: ChatRequest, lookup: string -> FileLookup,
                       newConversationId: string, usageId: string, now: int, w: Window)
      returns (resp: ChatResponse)
      requires Wired()
      requires newConversationId !in conversationService.conversationRepository.conversations
      modifies conversationService.conversationRepository, tokenService.tokenUsageRepository
      ensures currentUserId.None? ==> resp == ErrorResponse(None, NOT_LOGGED_IN, now)
      ensures currentUserId.Some? && currentUserId.value in tokenService.userRepository.users
        && !WithinQuota(old(tokenService.MonthlyUsedTokens(currentUserId.value, w)), systemService.GetMaxTokensPerRequest(),
                        tokenService.userRepository.users[currentUserId.value].tokenLimit)
        ==> resp == ErrorResponse(request.conversationId, QUOTA_TOO_LOW, now)
      ensures currentUserId.Some? && currentUserId.value !in tokenService.userRepository.users
        ==> resp == ErrorResponse(request.conversationId, REQUEST_FAILED + USER_NOT_FOUND, now)
      ensures currentUserId.Some? && currentUserId.value in tokenService.userRepository.users ==>
        var used := old(tokenService.MonthlyUsedTokens(currentUserId.value, w));
        var limit := tokenService.userRepository.users[currentUserId.value].tokenLimit;
        var full := FullMessage(request.message, FileContents(request.fileIds.GetOr([]), lookup));
        var before := old(conversationService.conversationRepository.conversations);
        (resp.success <==>
          WithinQuota(used, systemService.GetMaxTokensPerRequest(), limit)
          && WithinQuota(used, EstimateTokenUsage(full, SimulateResponse(full)), limit)
          && (StartsNew(request)
              || (request.conversationId.value in before && before[request.conversationId.value].userId == currentUserId.value)))
      ensures !resp.success ==>
        conversationService.conversationRepository.conversations == old(conversationService.conversationRepository.conversations)
        && tokenService.tokenUsageRepository.usages == old(tokenService.tokenUsageRepository.usages)
      ensures resp.success ==>
        var contents := FileContents(request.fileIds.GetOr([]), lookup);
        var full := FullMessage(request.message, contents);
        var reply := SimulateResponse(full);
        var tokens := EstimateTokenUsage(full, reply);
        var cid := if StartsNew(request) then newConversationId else request.conversationId.value;
        var before := old(conversationService.conversationRepository.conversations);
        && currentUserId.Some?
        && resp == SuccessResponse(Some(cid), reply, tokens, now)
        && tokenService.tokenUsageRepository.usages
           == old(tokenService.tokenUsageRepository.usages) + [TokenUsage(usageId, currentUserId.value, Some(cid), tokens, Some(USAGE_CHAT), now)]
        && (StartsNew(request) ==>
              conversationService.conversationRepository.conversations
              == before[cid := Conversation(cid, currentUserId.value, Some(TitleFor(request)),
                                            Some(BuildConversationContent(request.message, reply, contents, now)), tokens, now)])
        && (!StartsNew(request) ==>
              cid in before && before[cid].userId == currentUserId.value
              && conversationService.conversationRepository.conversations
                 == before[cid := Updated(before[cid], None,
                                          Some(AppendToConversationContent(before[cid].content, request.message, reply, contents, now)),
                                          Some(tokens))])
    {
      if currentUserId.None? {
        return ErrorResponse(None, NOT_LOGGED_IN, now);
      }
      var userId := currentUserId.value;
      var maxTokensPerRequest := systemService.GetMaxTokensPerRequest();
      var available := tokenService.CheckTokenAvailable(userId, maxTokensPerRequest, w);
      if available.Failure? {
        return ErrorResponse(request.conversationId, REQUEST_FAILED + available.error, now);
      }
      if !available.value {
        return ErrorResponse(request.conversationId, QUOTA_TOO_LOW, now);
      }
      var fileContents := CollectFileContents(request.fileIds, lookup);
      var fullMessage := BuildFullMessage(request.message, fileContents);
      var response := SimulateResponse(fullMessage);
      var tokensUsed := EstimateTokenUsage(fullMessage, response);
      EstimateIsPositive(fullMessage);
      var stored: Result<string, string>;
      if StartsNew(request) {
        stored := StartConversation(userId, request, fileContents, response, tokensUsed, newConversationId, usageId, now, w);
      } else {
        stored := ContinueConversation(userId, request, fileContents, response, tokensUsed, usageId, now, w);
      }
      if stored.Failure? {
        return ErrorResponse(request.conversationId, REQUEST_FAILED + stored.error, now);
      }
      return SuccessResponse(Some(stored.value), response, tokensUsed, now);
    }

    /** The create branch of `processChat`: a new conversation titled from the request. */
    method StartConversation(userId: string, request: ChatRequest, contents: seq<string>, response: string, tokensUsed: int,
                             newConversationId: string, usageId: string, now: int, w: Window)
      returns (r: Result<string, string>)
      requires Wired() && tokensUsed > 0
      requires newConversationId !in conversationService.conversationRepository.conversations
      modifies conversationService.conversationRepository, tokenService.tokenUsageRepository
      ensures r.Success? <==>
        userId in tokenService.userRepository.users
        && WithinQuota(old(tokenService.MonthlyUsedTokens(userId, w)), tokensUsed, tokenService.userRepository.users[userId].tokenLimit)
      ensures r.Failure? ==>
        conversationService.conversationRepository.conversations == old(conversationService.conversationRepository.conversations)
        && tokenService.tokenUsageRepository.usages == old(tokenService.tokenUsageRepository.usages)
      ensures r.Success? ==>
        r.value == newConversationId
        && conversationService.conversationRepository.conversations
           == old(conversationService.conversationRepository.conversations)[newConversationId :=
                Conversation(newConversationId, userId, Some(TitleFor(request)),
                             Some(BuildConversationContent(request.message, response, contents, now)), tokensUsed, now)]
        && tokenService.tokenUsageRepository.usages == old(tokenService.tokenUsageRepository.usages)
           + [TokenUsage(usageId, userId, Some(newConversationId), tokensUsed, Some(USAGE_CHAT), now)]
    {
      var title := request.title;
      if title.None? || title.value == "" {
        title := Some(GenerateConversationTitle(request.message));
      }
      var conversationContent := BuildConversationContent(request.message, response, contents, now);
      var created := conversationService.CreateConversation(
        Some(userId), title, Some(conversationContent), Some(tokensUsed), newConversationId, usageId, now, w);
      if created.Failure? {
        return Failure(created.error);
      }
      return Success(created.value.id);
    }

    /** The update branch of `processChat`: the exchange appended to the caller's conversation. */
    method ContinueConversation(userId: string, request: ChatRequest, contents: seq<string>, response: string, tokensUsed: int,
                                usageId: string, now: int, w: Window)
      returns (r: Result<string, string>)
      requires Wired() && tokensUsed > 0 && request.conversationId.Some?
      modifies conversationService.conversationRepository, tokenService.tokenUsageRepository
      ensures r.Success? <==>
        var cid := request.conversationId.value;
        var before := old(conversationService.conversationRepository.conversations);
        cid in before && before[cid].userId == userId
        && userId in tokenService.userRepository.users
        && WithinQuota(old(tokenService.MonthlyUsedTokens(userId, w)), tokensUsed, tokenService.userRepository.users[userId].tokenLimit)
      ensures r.Failure? ==>
        conversationService.conversationRepository.conversations == old(conversationService.conversationRepository.conversations)
        && tokenService.tokenUsageRepository.usages == old(tokenService.tokenUsageRepository.usages)
      ensures r.Success? ==>
        var cid := request.conversationId.value;
        var before := old(conversationService.conversationRepository.conversations);
        && r.value == cid && cid in before && before[cid].userId == userId
        && conversationService.conversationRepository.conversations
           == before[cid := Updated(before[cid], None,
                                    Some(AppendToConversationContent(before[cid].content, request.message, response, contents, now)),
                                    Some(tokensUsed))]
        && tokenService.tokenUsageRepository.usages == old(tokenService.tokenUsageRepository.usages)
           + [TokenUsage(usageId, userId, Some(cid), tokensUsed, Some(USAGE_CHAT), now)]
    {
      var conversationId := request.conversationId.value;
      var existing := conversationService.GetConversationById(Some(userId), conversationId);
      if existing.Failure? {
        return Failure(existing.error);
      }
      var updatedContent := AppendToConversationContent(existing.value.content, request.message, response, contents, now);
      var updated := conversationService.UpdateConversation(
        Some(userId), conversationId, None, Some(updatedContent), Some(tokensUsed), usageId, now, w);
      if updated.Failure? {
        return Failure(updated.error);
      }
      return Success(conversationId);
    }
  }
}
