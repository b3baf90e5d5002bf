/**
 * The token quota ledger of `TokenService`: usages are appended to the
 * `token_usage` table, and a user's monthly consumption is the sum of the
 * counts recorded in the current month's window. The window bounds come
 * from the clock and are a parameter.
 */
module TokenLedger {
  import opened Wrappers
  import opened Entities

  const USER_NOT_FOUND: string := "用户不存在"
  const QUOTA_EXCEEDED: string := "Token额度不足"

  /** The first and last millisecond of a calendar month, both inclusive. */
  datatype Window = Window(start: int, end: int)

  predicate InWindow(t: int, w: Window) {
    w.start <= t <= w.end
  }

  /** The repository's `SUM(tokensCount)` over one user's usages inside the
      window, with a missing sum (no rows) read as 0. */
  function UsedInWindow(usages: seq<TokenUsage>, userId: string, w: Window): int {
    if usages == [] then 0
    else
      var last := usages[|usages| - 1];
      UsedInWindow(usages[..|usages| - 1], userId, w)
        + (if last.userId == userId && InWindow(last.usageTime, w) then last.tokensCount else 0)
  }

  /** `SUM(tokensCount)` over all of one user's usages, 0 when there are none. */
  function UsedInTotal(usages: seq<TokenUsage>, userId: string): int {
    if usages == [] then 0
    else
      var last := usages[|usages| - 1];
      UsedInTotal(usages[..|usages| - 1], userId) + (if last.userId == userId then last.tokensCount else 0)
  }

  /** `COUNT(t)` over one user's usages. */
  function UsageCount(usages: seq<TokenUsage>, userId: string): (n: nat)
    ensures n <= |usages|
  {
    if usages == [] then 0
    else UsageCount(usages[..|usages| - 1], userId) + (if usages[|usages| - 1].userId == userId then 1 else 0)
  }

  /** The quota rule shared by the check and the recording path. */
  predicate WithinQuota(used: int, required: int, limit: int) {
    used + required <= limit
  }

  // -------------------------------------------------------------- lemmas

  /** Appending one usage adds its count to its own user's sum exactly when it
      falls in the window, and leaves every other user's sum alone. */
  lemma UsedInWindowAppend(usages: seq<TokenUsage>, t: TokenUsage, userId: string, w: Window)
    ensures UsedInWindow(usages + [t], userId, w)
      == UsedInWindow(usages, userId, w) + (if t.userId == userId && InWindow(t.usageTime, w) then t.tokensCount else 0)
  {
    assert (usages + [t])[..|usages|] == usages;
  }

  /** Likewise for the all-time sum and the count. */
  lemma UsedInTotalAppend(usages: seq<TokenUsage>, t: TokenUsage, userId: string)
    ensures UsedInTotal(usages + [t], userId) == UsedInTotal(usages, userId) + (if t.userId == userId then t.tokensCount else 0)
    ensures UsageCount(usages + [t], userId) == UsageCount(usages, userId) + (if t.userId == userId then 1 else 0)
  {
    assert (usages + [t])[..|usages|] == usages;
  }

  /** With positive counts (the entity's constraint) the window sum is between 0 and the all-time sum. */
  lemma {:induction false} WindowWithinTotal(usages: seq<TokenUsage>, userId: string, w: Window)
    requires forall i :: 0 <= i < |usages| ==> usages[i].tokensCount > 0
    ensures 0 <= UsedInWindow(usages, userId, w) <= UsedInTotal(usages, userId)
  {
    if usages != [] {
      WindowWithinTotal(usages[..|usages| - 1], userId, w);
    }
  }

  /** A user without usages has consumed nothing. */
  lemma {:induction false} NoUsagesNoConsumption(usages: seq<TokenUsage>, userId: string, w: Window)
    requires forall i :: 0 <= i < |usages| ==> usages[i].userId != userId
    ensures UsedInWindow(usages, userId, w) == 0 && UsedInTotal(usages, userId) == 0 && UsageCount(usages, userId) == 0
  {
    if usages != [] {
      NoUsagesNoConsumption(usages[..|usages| - 1], userId, w);
    }
  }

  /** Recording only what passes the quota rule, at a time inside the window,
      keeps the month's consumption within the limit. */
  lemma RecordKeepsQuota(usages: seq<TokenUsage>, t: TokenUsage, limit: int, w: Window)
    requires WithinQuota(UsedInWindow(usages, t.userId, w), t.tokensCount, limit)
    requires InWindow(t.usageTime, w)
    ensures UsedInWindow(usages + [t], t.userId, w) <= limit
  {
    UsedInWindowAppend(usages, t, t.userId, w);
  }

  class TokenService {
    const userRepository: UserRepository
    const tokenUsageRepository: TokenUsageRepository

    constructor (users: UserRepository, ledger: TokenUsageRepository)
      ensures userRepository == users && tokenUsageRepository == ledger
    {
      userRepository := users;
      tokenUsageRepository := ledger;
    }

    /** `getMonthlyUsedTokens`, for the month whose bounds are `w`. */
    function MonthlyUsedTokens(userId: string, w: Window): int
      reads tokenUsageRepository
    {
      UsedInWindow(tokenUsageRepository.usages, userId, w)
    }

    /** `getTotalUsedTokens`. */
    function TotalUsedTokens(userId: string): int
      reads tokenUsageRepository
    {
      UsedInTotal(tokenUsageRepository.usages, userId)
    }

    /** `getUserUsageCount`. */
    function UserUsageCount(userId: string): nat
      reads tokenUsageRepository
    {
      UsageCount(tokenUsageRepository.usages, userId)
    }

    /** `checkTokenAvailable`: an unknown user is an error; otherwise whether
        the month's consumption plus `requiredTokens` stays within the limit. */
    method CheckTokenAvailable(userId: string, requiredTokens: int, w: Window) returns (r: Result<bool, string>)
      ensures userId !in userRepository.users <==> r == Failure(USER_NOT_FOUND)
      ensures r.Failure? ==> r == Failure(USER_NOT_FOUND)
      ensures r.Success? ==>
        (r.value <==> MonthlyUsedTokens(userId, w) + requiredTokens <= userRepository.users[userId].tokenLimit)
    {
      if userId !in userRepository.users {
        return Failure(USER_NOT_FOUND);
      }
      var user := userRepository.users[userId];
      var monthlyUsed := MonthlyUsedTokens(userId, w);
      return Success(WithinQuota(monthlyUsed, requiredTokens, user.tokenLimit));
    }

    /** `getRemainingTokens`: the limit minus the month's consumption. */
    method GetRemainingTokens(userId: string, w: Window) returns (r: Result<int, string>)
      ensures userId !in userRepository.users <==> r == Failure(USER_NOT_FOUND)
      ensures r.Success? ==> r.value + MonthlyUsedTokens(userId, w) == userRepository.users[userId].tokenLimit
    {
      if userId !in userRepository.users {
        return Failure(USER_NOT_FOUND);
      }
      var user := userRepository.users[userId];
      return Success(user.tokenLimit - MonthlyUsedTokens(userId, w));
    }

    /**
     * `recordTokenUsage`: fails for an unknown user, and for a count the
     * quota cannot absorb; otherwise appends exactly one usage stamped `now`
     * with the given user, conversation, count and type.
     */
    method RecordTokenUsage(userId: string, conversationId: Option<string>, tokensCount: int,
                            usageType: Option<string>, w: Window, now: int, id: string)
      returns (r: Result<TokenUsage, string>)
      modifies tokenUsageRepository
      ensures userId !in userRepository.users ==> r == Failure(USER_NOT_FOUND)
      ensures userId in userRepository.users ==>
        (r.Success? <==> WithinQuota(old(MonthlyUsedTokens(userId, w)), tokensCount, userRepository.users[userId].tokenLimit))
      ensures r.Failure? ==> tokenUsageRepository.usages == old(tokenUsageRepository.usages)
      ensures r.Failure? && userId in userRepository.users ==> r.error == QUOTA_EXCEEDED
      ensures r.Success? ==>
        r.value == TokenUsage(id, userId, conversationId, tokensCount, usageType, now)
        && tokenUsageRepository.usages == old(tokenUsageRepository.usages) + [r.value]
    {
      if userId !in userRepository.users {
        return Failure(USER_NOT_FOUND);
      }
      var user := userRepository.users[userId];
      var monthlyUsed := MonthlyUsedTokens(userId, w);
      if !WithinQuota(monthlyUsed, tokensCount, user.tokenLimit) {
        return Failure(QUOTA_EXCEEDED);
      }
      var usage := TokenUsage(id, userId, conversationId, tokensCount, usageType, now);
      tokenUsageRepository.usages := tokenUsageRepository.usages + [usage];
      return Success(usage);
    }
  }
}
