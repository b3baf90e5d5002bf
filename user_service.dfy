/**
 * Account administration of `UserService`: creation with uniqueness checks,
 * partial updates, password changes and the id-based setters, each a
 * read-modify-save of one row of the user table. Password hashing is a
 * pair of opaque functions; the current user and the month's window are
 * parameters.
 */
module Users {
  import opened Wrappers
  import opened Entities
  import opened TokenLedger

  const USERNAME_EXISTS: string := "用户名已存在"
  const EMAIL_EXISTS: string := "邮箱已存在"
  const WRONG_PASSWORD: string := "当前密码不正确"
  const STATUS_ACTIVE: string := "ACTIVE"

  /** The password encoder: hashing, and matching a raw password against a hash. */
  datatype Encoder = Encoder(encode: string -> string, matches: (string, string) -> bool)

  datatype CreateUserRequest = CreateUserRequest(
    username: string, password: string, realName: Option<string>, email: Option<string>,
    userRole: string, tokenLimit: int)

  /** Every field is optional; a null field is left as it is. */
  datatype UpdateUserRequest = UpdateUserRequest(
    realName: Option<string>, email: Option<string>, tokenLimit: Option<int>, userStatus: Option<string>)

  datatype ChangePasswordRequest = ChangePasswordRequest(currentPassword: string, newPassword: string)

  datatype UserInfo = UserInfo(
    id: string, username: string, realName: Option<string>, email: Option<string>, userRole: string,
    tokenLimit: int, userStatus: string, createdTime: int, lastLoginTime: Option<int>,
    remainingTokens: int, usedTokens: int)

  /** The row `createUser` saves: the request's fields, the hashed password, status ACTIVE. */
  function NewUser(req: CreateUserRequest, encoder: Encoder, id: string, now: int): (u: User)
    ensures u.id == id && u.username == req.username && u.password == encoder.encode(req.password)
    ensures u.realName == req.realName && u.email == req.email && u.userRole == req.userRole
    ensures u.tokenLimit == req.tokenLimit && u.userStatus == STATUS_ACTIVE
  {
    User(id, req.username, encoder.encode(req.password), req.realName, req.email, req.userRole,
         req.tokenLimit, STATUS_ACTIVE, now, None)
  }

  /** The fields `updateUser` overwrites: each non-null field of the request. */
  function ApplyUpdate(u: User, req: UpdateUserRequest): User {
    u.(realName := if req.realName.Some? then req.realName else u.realName,
       email := if req.email.Some? then req.email else u.email,
       tokenLimit := if req.tokenLimit.Some? then req.tokenLimit.value else u.tokenLimit,
       userStatus := if req.userStatus.Some? then req.userStatus.value else u.userStatus)
  }

  /** Some user holds `email`. */
  predicate EmailInUse(users: map<string, User>, email: string) {
    exists id | id in users :: users[id].email == Some(email)
  }

  /** `updateUser` refuses a new email that is already in use; keeping one's own email is not a change. */
  predicate EmailConflict(users: map<string, User>, u: User, req: UpdateUserRequest) {
    req.email.Some? && req.email != u.email && EmailInUse(users, req.email.value)
  }

  /** `buildUserInfo`, given the month's consumption: the row's fields plus used and remaining tokens. */
  function BuildUserInfo(u: User, used: int): (info: UserInfo)
    ensures info.id == u.id && info.username == u.username && info.tokenLimit == u.tokenLimit
    ensures info.realName == u.realName && info.email == u.email && info.userRole == u.userRole
    ensures info.userStatus == u.userStatus && info.createdTime == u.createdTime && info.lastLoginTime == u.lastLoginTime
    ensures info.usedTokens == used && info.remainingTokens + info.usedTokens == info.tokenLimit
  {
    UserInfo(u.id, u.username, u.realName, u.email, u.userRole, u.tokenLimit, u.userStatus,
             u.createdTime, u.lastLoginTime, u.tokenLimit - used, used)
  }

  function ActiveUserCount(users: map<string, User>): nat {
    |set id | id in users && users[id].userStatus == STATUS_ACTIVE|
  }

  // -------------------------------------------------------------- lemmas

  /** An update overwrites exactly the fields the request gives, and never the
      id, the username, the password, the role or the timestamps. */
  lemma UpdateOnlyGivenFields(u: User, req: UpdateUserRequest)
    ensures var v := ApplyUpdate(u, req);
      && v.id == u.id && v.username == u.username && v.password == u.password && v.userRole == u.userRole
      && v.createdTime == u.createdTime && v.lastLoginTime == u.lastLoginTime
      && (req.realName.Some? ==> v.realName == req.realName) && (req.realName.None? ==> v.realName == u.realName)
      && (req.email.Some? ==> v.email == req.email) && (req.email.None? ==> v.email == u.email)
      && (req.tokenLimit.Some? ==> v.tokenLimit == req.tokenLimit.value) && (req.tokenLimit.None? ==> v.tokenLimit == u.tokenLimit)
      && (req.userStatus.Some? ==> v.userStatus == req.userStatus.value) && (req.userStatus.None? ==> v.userStatus == u.userStatus)
  {
  }

  /** Applying the same update twice is applying it once; an empty update changes nothing. */
  lemma UpdateIdempotent(u: User, req: UpdateUserRequest)
    ensures ApplyUpdate(ApplyUpdate(u, req), req) == ApplyUpdate(u, req)
    ensures ApplyUpdate(u, UpdateUserRequest(None, None, None, None)) == u
  {
  }

  /** Keeping one's own email is never a conflict; an email another user already
      holds, different from one's own, always is. */
  lemma EmailConflictCases(users: map<string, User>, u: User, req: UpdateUserRequest)
    ensures req.email == u.email ==> !EmailConflict(users, u, req)
    ensures (req.email.Some? && req.email != u.email
      && exists id | id in users :: id != u.id && users[id].email == req.email) ==> EmailConflict(users, u, req)
  {
  }

  class UserService {
    const userRepository: UserRepository
    const tokenService: TokenService

    constructor (users: UserRepository, tokens: TokenService)
      requires tokens.userRepository == users
      ensures userRepository == users && tokenService == tokens && Wired()
    {
      userRepository := users;
      tokenService := tokens;
    }

    /** The token service looks users up in the same table. */
    predicate Wired() {
      tokenService.userRepository == userRepository
    }

    function Info(u: User, w: Window): UserInfo
      reads tokenService.tokenUsageRepository
    {
      BuildUserInfo(u, tokenService.MonthlyUsedTokens(u.id, w))
    }

    /** `createUser`: a taken username or a taken non-null email fails and saves nothing;
        otherwise the new row is saved under the fresh id. */
    method CreateUser(req: CreateUserRequest, encoder: Encoder, id: string, now: int, w: Window)
      returns (r: Result<UserInfo, string>)
      requires id !in userRepository.users
      modifies userRepository
      ensures old(userRepository.ExistsByUsername(req.username)) ==> r == Failure(USERNAME_EXISTS)
      ensures (!old(userRepository.ExistsByUsername(req.username)) && req.email.Some?
        && old(userRepository.ExistsByEmail(req.email.value))) ==> r == Failure(EMAIL_EXISTS)
      ensures r.Failure? ==> userRepository.users == old(userRepository.users)
      ensures r.Success? ==>
        userRepository.users == old(userRepository.users)[id := NewUser(req, encoder, id, now)]
        && r.value == Info(NewUser(req, encoder, id, now), w)
      ensures r.Success? || r == Failure(USERNAME_EXISTS) || r == Failure(EMAIL_EXISTS)
      ensures !old(userRepository.ExistsByUsername(req.username))
        && !(req.email.Some? && old(userRepository.ExistsByEmail(req.email.value)))
        ==> r.Success?
    {
      if userRepository.ExistsByUsername(req.username) {
        return Failure(USERNAME_EXISTS);
      }
      if req.email.Some? && userRepository.ExistsByEmail(req.email.value) {
        return Failure(EMAIL_EXISTS);
      }
      var user := NewUser(req, encoder, id, now);
      userRepository.users := userRepository.users[id := user];
      return Success(Info(user, w));
    }

    /** `getUserById`. */
    function GetUserById(id: string, w: Window): (r: Result<UserInfo, string>)
      reads userRepository, tokenService.tokenUsageRepository
      ensures r.Failure? <==> id !in userRepository.users
      ensures r.Failure? ==> r.error == USER_NOT_FOUND
      ensures r.Success? ==>
        var u := userRepository.users[id];
        && r.value.id == u.id && r.value.username == u.username && r.value.tokenLimit == u.tokenLimit
        && r.value.realName == u.realName && r.value.email == u.email && r.value.userRole == u.userRole
        && r.value.userStatus == u.userStatus && r.value.createdTime == u.createdTime
        && r.value.lastLoginTime == u.lastLoginTime
        && r.value.usedTokens == tokenService.MonthlyUsedTokens(u.id, w)
        && r.value.remainingTokens == u.tokenLimit - r.value.usedTokens
    {
      if id in userRepository.users then Success(Info(userRepository.users[id], w)) else Failure(USER_NOT_FOUND)
    }

    /** `getCurrentUserProfile`. */
    function GetCurrentUserProfile(currentUserId: Option<string>, w: Window): (r: Result<UserInfo, string>)
      reads userRepository, tokenService.tokenUsageRepository
      ensures currentUserId.None? ==> r == Failure(NOT_LOGGED_IN)
      ensures currentUserId.Some? ==> (r.Success? <==> currentUserId.value in userRepository.users)
      ensures currentUserId.Some? && currentUserId.value !in userRepository.users ==> r == Failure(USER_NOT_FOUND)
      ensures currentUserId.Some? ==> r == GetUserById(currentUserId.value, w)
      ensures r.Success? ==> r.value.id == userRepository.users[currentUserId.value].id
    {
      if currentUserId.None? then Failure(NOT_LOGGED_IN) else GetUserById(currentUserId.value, w)
    }

    /** `updateUser`: an unknown id or a conflicting email fails with no change;
        otherwise the non-null fields are written. */
    method UpdateUser(id: string, req: UpdateUserRequest, w: Window) returns (r: Result<UserInfo, string>)
      modifies userRepository
      ensures id !in old(userRepository.users) ==> r == Failure(USER_NOT_FOUND)
      ensures id in old(userRepository.users) && EmailConflict(old(userRepository.users), old(userRepository.users)[id], req)
        ==> r == Failure(EMAIL_EXISTS)
      ensures r.Failure? ==> userRepository.users == old(userRepository.users)
      ensures r.Success? ==>
        id in old(userRepository.users) && !EmailConflict(old(userRepository.users), old(userRepository.users)[id], req)
        && userRepository.users == old(userRepository.users)[id := ApplyUpdate(old(userRepository.users)[id], req)]
        && r.value == Info(userRepository.users[id], w)
      ensures id in old(userRepository.users) && !EmailConflict(old(userRepository.users), old(userRepository.users)[id], req)
        ==> r.Success?
    {
      if id !in userRepository.users {
        return Failure(USER_NOT_FOUND);
      }
      var user := userRepository.users[id];
      if req.email.Some? && req.email != user.email {
        if userRepository.ExistsByEmail(req.email.value) {
          return Failure(EMAIL_EXISTS);
        }
      }
      if req.realName.Some? {
        user := user.(realName := req.realName);
      }
      if req.email.Some? {
        user := user.(email := req.email);
      }
      if req.tokenLimit.Some? {
        user := user.(tokenLimit := req.tokenLimit.value);
      }
      if req.userStatus.Some? {
        user := user.(userStatus := req.userStatus.value);
      }
      userRepository.users := userRepository.users[id := user];
      return Success(Info(user, w));
    }

    /** `changePassword`: only the logged-in user, and only with the right current password. */
    method ChangePassword(currentUserId: Option<string>, req: ChangePasswordRequest, encoder: Encoder)
      returns (r: Result<(), string>)
      modifies userRepository
      ensures currentUserId.None? ==> r == Failure(NOT_LOGGED_IN)
      ensures currentUserId.Some? && currentUserId.value !in old(userRepository.users) ==> r == Failure(USER_NOT_FOUND)
      ensures currentUserId.Some? && currentUserId.value in old(userRepository.users)
        && !encoder.matches(req.currentPassword, old(userRepository.users)[currentUserId.value].password)
        ==> r == Failure(WRONG_PASSWORD)
      ensures r.Failure? ==> userRepository.users == old(userRepository.users)
      ensures r.Success? ==>
        currentUserId.Some? && currentUserId.value in old(userRepository.users)
        && encoder.matches(req.currentPassword, old(userRepository.users)[currentUserId.value].password)
        && userRepository.users == old(userRepository.users)[currentUserId.value :=
             old(userRepository.users)[currentUserId.value].(password := encoder.encode(req.newPassword))]
      ensures currentUserId.Some? && currentUserId.value in old(userRepository.users)
        && encoder.matches(req.currentPassword, old(userRepository.users)[currentUserId.value].password)
        ==> r.Success?
    {
      if currentUserId.None? {
        return Failure(NOT_LOGGED_IN);
      }
      var userId := currentUserId.value;
      if userId !in userRepository.users {
        return Failure(USER_NOT_FOUND);
      }
      var user := userRepository.users[userId];
      if !encoder.matches(req.currentPassword, user.password) {
        return Failure(WRONG_PASSWORD);
      }
      userRepository.users := userRepository.users[userId := user.(password := encoder.encode(req.newPassword))];
      return Success(());
    }

    /** `resetPassword` and the other id-based setters: an unknown id fails with no change. */
    method ResetPassword(id: string, newPassword: string, encoder: Encoder) returns (r: Result<(), string>)
      modifies userRepository
      ensures id !in old(userRepository.users) ==> r == Failure(USER_NOT_FOUND) && userRepository.users == old(userRepository.users)
      ensures id in old(userRepository.users) ==> (r.Success? &&
        userRepository.users == old(userRepository.users)[id := old(userRepository.users)[id].(password := encoder.encode(newPassword))])
    {
      if id !in userRepository.users {
        return Failure(USER_NOT_FOUND);
      }
      var user := userRepository.users[id];
      userRepository.users := userRepository.users[id := user.(password := encoder.encode(newPassword))];
      return Success(());
    }

    method UpdateUserStatus(id: string, status: string) returns (r: Result<(), string>)
      modifies userRepository
      ensures id !in old(userRepository.users) ==> r == Failure(USER_NOT_FOUND) && userRepository.users == old(userRepository.users)
      ensures id in old(userRepository.users) ==> (r.Success? &&
        userRepository.users == old(userRepository.users)[id := old(userRepository.users)[id].(userStatus := status)])
    {
      if id !in userRepository.users {
        return Failure(USER_NOT_FOUND);
      }
      var user := userRepository.users[id];
      userRepository.users := userRepository.users[id := user.(userStatus := status)];
      return Success(());
    }

    method UpdateTokenLimit(id: string, tokenLimit: int) returns (r: Result<(), string>)
      modifies userRepository
      ensures id !in old(userRepository.users) ==> r == Failure(USER_NOT_FOUND) && userRepository.users == old(userRepository.users)
      ensures id in old(userRepository.users) ==> (r.Success? &&
        userRepository.users == old(userRepository.users)[id := old(userRepository.users)[id].(tokenLimit := tokenLimit)])
    {
      if id !in userRepository.users {
        return Failure(USER_NOT_FOUND);
      }
      var user := userRepository.users[id];
      userRepository.users := userRepository.users[id := user.(tokenLimit := tokenLimit)];
      return Success(());
    }

    /** `addExtraToken`: the limit grows by exactly `extraTokens`. */
    method AddExtraToken(id: string, extraTokens: int) returns (r: Result<(), string>)
      modifies userRepository
      ensures id !in old(userRepository.users) ==> r == Failure(USER_NOT_FOUND) && userRepository.users == old(userRepository.users)
      ensures id in old(userRepository.users) ==> (r.Success? &&
        userRepository.users == old(userRepository.users)[id := old(userRepository.users)[id].(tokenLimit :=
          old(userRepository.users)[id].tokenLimit + extraTokens)])
    {
      if id !in userRepository.users {
        return Failure(USER_NOT_FOUND);
      }
      var user := userRepository.users[id];
      userRepository.users := userRepository.users[id := user.(tokenLimit := user.tokenLimit + extraTokens)];
      return Success(());
    }

    method DeleteUser(id: string) returns (r: Result<(), string>)
      modifies userRepository
      ensures id !in old(userRepository.users) ==> r == Failure(USER_NOT_FOUND) && userRepository.users == old(userRepository.users)
      ensures id in old(userRepository.users) ==> r.Success? && userRepository.users == old(userRepository.users) - {id}
    {
      if id !in userRepository.users {
        return Failure(USER_NOT_FOUND);
      }
      userRepository.users := userRepository.users - {id};
      return Success(());
    }

    predicate CheckUsernameExists(username: string)
      reads userRepository
    {
      userRepository.ExistsByUsername(username)
    }

    function GetActiveUserCount(): nat
      reads userRepository
    {
      ActiveUserCount(userRepository.users)
    }
  }
}
