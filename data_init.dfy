/**
 * Start-up seeding of `DataInitService`: a default administrator when there
 * is none, and six configuration rows, each inserted only when its key is
 * absent. Both steps are conditional inserts, so running the seeding again
 * changes nothing.
 */
module DataInit {
  import opened Wrappers
  import opened JavaText
  import opened Entities
  import opened SystemConfigs

  const ROLE_ADMIN: string := "ROLE_ADMIN"
  const ADMIN_USERNAME: string := "admin"
  const ADMIN_PASSWORD: string := "123456"
  const ADMIN_TOKEN_LIMIT: int := 100000

  const CONFIG_KEYS: seq<string> := [
    "DEFAULT_TOKEN_LIMIT", "MAX_FILE_SIZE", "FILE_EXPIRE_HOURS",
    "MAX_TOKENS_PER_REQUEST", "CONVERSATION_HISTORY_DAYS", "AUTO_CLEANUP_ENABLED"]
  const CONFIG_VALUES: seq<string> := ["5000", "52428800", "24", "4000", "30", "true"]
  const CONFIG_DESCRIPTIONS: seq<string> := [
    "用户默认Token限制", "文件上传大小限制(字节)", "文件过期时间(小时)",
    "单次请求最大Token数", "对话历史保留天数", "是否启用自动清理"]

  /** `countByUserRole("ROLE_ADMIN")`. */
  function AdminCount(users: map<string, User>): nat {
    |set id | id in users && users[id].userRole == ROLE_ADMIN|
  }

  /** The administrator `initAdminUser` creates; `encodedPassword` is the encoder's hash of "123456". */
  function DefaultAdmin(id: string, encodedPassword: string, now: int): (u: User)
    ensures u.id == id && u.username == ADMIN_USERNAME && u.userRole == ROLE_ADMIN
    ensures u.tokenLimit == ADMIN_TOKEN_LIMIT && u.userStatus == "ACTIVE"
  {
    User(id, ADMIN_USERNAME, encodedPassword, Some("系统管理员"), Some("admin@claude-platform.com"),
         ROLE_ADMIN, ADMIN_TOKEN_LIMIT, "ACTIVE", now, None)
  }

  /** The user table as `initAdminUser` leaves it inside the transaction: the
      new administrator is saved when there is none. The row has an assigned
      id, so `save` merges it and its INSERT waits for a later flush. */
  function SeedAdmin(users: map<string, User>, admin: User): map<string, User> {
    if AdminCount(users) == 0 then users[admin.id := admin] else users
  }

  /** No two rows share a username, as the unique column demands. */
  predicate UniqueUsernames(users: map<string, User>) {
    forall i, j :: i in users && j in users && users[i].username == users[j].username ==> i == j
  }

  /** The seeding transaction cannot commit: the administrator is inserted
      under a username some existing user already holds, so the deferred
      INSERT violates the unique constraint, whether at a flush inside the
      configuration loop or at commit, and the whole transaction rolls back. */
  predicate CommitRefused(users: map<string, User>, admin: User) {
    AdminCount(users) == 0 && UsernameTaken(users, admin.username)
  }

  /** The row seeded for index i. */
  function SeedRow(i: nat): SystemConfig
    requires i < |CONFIG_KEYS|
  {
    SystemConfig(CONFIG_KEYS[i], Some(CONFIG_VALUES[i]), Some(CONFIG_DESCRIPTIONS[i]))
  }

  /** The config table after the first `n` turns of `initSystemConfig`'s loop. */
  function SeedUpTo(configs: map<string, SystemConfig>, n: nat): map<string, SystemConfig>
    requires n <= |CONFIG_KEYS|
  {
    if n == 0 then configs
    else
      var c := SeedUpTo(configs, n - 1);
      if CONFIG_KEYS[n - 1] in c then c else c[CONFIG_KEYS[n - 1] := SeedRow(n - 1)]
  }

  function SeedConfigs(configs: map<string, SystemConfig>): map<string, SystemConfig> {
    SeedUpTo(configs, |CONFIG_KEYS|)
  }

  // -------------------------------------------------------------- lemmas

  /** The three arrays line up index by index. */
  lemma ArraysAligned()
    ensures |CONFIG_KEYS| == |CONFIG_VALUES| == |CONFIG_DESCRIPTIONS| == 6
    ensures forall i, j :: 0 <= i < j < |CONFIG_KEYS| ==> CONFIG_KEYS[i] != CONFIG_KEYS[j]
  {
  }

  /** An administrator is saved exactly when there is none, and afterwards there is one. */
  lemma SeedAdminCases(users: map<string, User>, admin: User)
    requires admin.userRole == ROLE_ADMIN
    ensures AdminCount(users) == 0 ==> SeedAdmin(users, admin) == users[admin.id := admin]
    ensures AdminCount(users) > 0 ==> SeedAdmin(users, admin) == users
    ensures AdminCount(SeedAdmin(users, admin)) > 0
  {
    var u := SeedAdmin(users, admin);
    if AdminCount(users) == 0 {
      var admins := set id | id in u && u[id].userRole == ROLE_ADMIN;
      assert admin.id in admins;
      assert admins != {};
    }
  }

  /** A second run creates no second administrator, whatever fresh id it draws. */
  lemma SeedAdminIdempotent(users: map<string, User>, admin: User, admin2: User)
    requires admin.userRole == ROLE_ADMIN
    ensures SeedAdmin(SeedAdmin(users, admin), admin2) == SeedAdmin(users, admin)
  {
    SeedAdminCases(users, admin);
  }

  /** On a table with unique usernames and a fresh id, the seeded table keeps
      them unique exactly when the commit is not refused. */
  lemma SeedAdminKeepsUnique(users: map<string, User>, admin: User)
    requires UniqueUsernames(users) && admin.id !in users
    ensures UniqueUsernames(SeedAdmin(users, admin)) <==> !CommitRefused(users, admin)
  {
    var u := SeedAdmin(users, admin);
    if CommitRefused(users, admin) {
      var other :| other in users && users[other].username == admin.username;
      assert u[other].username == u[admin.id].username && other != admin.id;
    } else if AdminCount(users) == 0 {
      forall i, j | i in u && j in u && u[i].username == u[j].username
        ensures i == j
      {
        if i != admin.id && j != admin.id {
          assert users[i].username == users[j].username;
        }
      }
    }
  }

  /** Seeding never overwrites: every existing row is kept, and the absent keys
      among the first `n` are added, each with its own value and description. */
  lemma {:induction false} SeedUpToFacts(configs: map<string, SystemConfig>, n: nat)
    requires n <= |CONFIG_KEYS|
    ensures forall k :: k in configs ==> k in SeedUpTo(configs, n) && SeedUpTo(configs, n)[k] == configs[k]
    ensures forall i :: 0 <= i < n ==> CONFIG_KEYS[i] in SeedUpTo(configs, n)
    ensures forall i :: 0 <= i < n && CONFIG_KEYS[i] !in configs ==> SeedUpTo(configs, n)[CONFIG_KEYS[i]] == SeedRow(i)
  {
    if n > 0 {
      SeedUpToFacts(configs, n - 1);
      SeedUpToAddsOnlySeedKeys(configs, n - 1);
      ArraysAligned();
      assert CONFIG_KEYS[n - 1] !in CONFIG_KEYS[..n - 1];
    }
  }

  /** Nothing but the first `n` seeded keys is added. */
  lemma {:induction false} SeedUpToAddsOnlySeedKeys(configs: map<string, SystemConfig>, n: nat)
    requires n <= |CONFIG_KEYS|
    ensures forall k :: k in SeedUpTo(configs, n) ==> k in configs || k in CONFIG_KEYS[..n]
  {
    if n > 0 {
      SeedUpToAddsOnlySeedKeys(configs, n - 1);
      assert CONFIG_KEYS[..n] == CONFIG_KEYS[..n - 1] + [CONFIG_KEYS[n - 1]];
    }
  }

  /** When every seeded key is already present, the loop changes nothing. */
  lemma {:induction false} SeedUpToPresent(configs: map<string, SystemConfig>, n: nat)
    requires n <= |CONFIG_KEYS|
    requires forall i :: 0 <= i < |CONFIG_KEYS| ==> CONFIG_KEYS[i] in configs
    ensures SeedUpTo(configs, n) == configs
  {
    if n > 0 {
      SeedUpToPresent(configs, n - 1);
    }
  }

  /** Running the configuration seeding twice leaves what running it once does. */
  lemma SeedConfigsIdempotent(configs: map<string, SystemConfig>)
    ensures SeedConfigs(SeedConfigs(configs)) == SeedConfigs(configs)
  {
    SeedUpToFacts(configs, |CONFIG_KEYS|);
    SeedUpToPresent(SeedConfigs(configs), |CONFIG_KEYS|);
  }

  /** The seeded keys are upper case while the settings are read under lower-case
      keys, so with exact key comparison the seeded "4000" is never the value read:
      on an empty table the per-request limit stays at its default of 1000. */
  lemma SeededKeysNotRead()
    ensures MAX_TOKENS_PER_REQUEST !in SeedConfigs(map[])
    ensures AsInteger(ValueOf(SeedConfigs(map[]), MAX_TOKENS_PER_REQUEST), 1000, INT_MIN, INT_MAX) == 1000
  {
    SeedUpToAddsOnlySeedKeys(map[], |CONFIG_KEYS|);
    assert MAX_TOKENS_PER_REQUEST !in CONFIG_KEYS[..|CONFIG_KEYS|];
  }

  class DataInitService {
    const userRepository: UserRepository
    const systemConfigRepository: SystemConfigRepository

    constructor (users: UserRepository, configs: SystemConfigRepository)
      ensures userRepository == users && systemConfigRepository == configs
    {
      userRepository := users;
      systemConfigRepository := configs;
    }

    /**
     * `run`, one transaction: seed the administrator, then the configuration.
     * `committed` is false when the commit is refused; both tables are then
     * rolled back and the exception ends start-up.
     */
    method Run(adminId: string, encodedPassword: string, now: int) returns (committed: bool)
      modifies userRepository, systemConfigRepository
      ensures committed <==> !CommitRefused(old(userRepository.users), DefaultAdmin(adminId, encodedPassword, now))
      ensures committed ==>
        userRepository.users == SeedAdmin(old(userRepository.users), DefaultAdmin(adminId, encodedPassword, now))
        && systemConfigRepository.configs == SeedConfigs(old(systemConfigRepository.configs))
      ensures !committed ==>
        userRepository.users == old(userRepository.users)
        && systemConfigRepository.configs == old(systemConfigRepository.configs)
    {
      var users := userRepository.users;
      var configs := systemConfigRepository.configs;
      var refused := CommitRefused(users, DefaultAdmin(adminId, encodedPassword, now));
      InitAdminUser(adminId, encodedPassword, now);
      InitSystemConfig();
      if refused {
        userRepository.users := users;
        systemConfigRepository.configs := configs;
        return false;
      }
      return true;
    }

    /** `initAdminUser`: the table as the transaction sees it. The saved row's
        INSERT is deferred, so the unique constraint is not checked here and
        the catch of this method has no modelled path. */
    method InitAdminUser(adminId: string, encodedPassword: string, now: int)
      modifies userRepository
      ensures userRepository.users == SeedAdmin(old(userRepository.users), DefaultAdmin(adminId, encodedPassword, now))
    {
      var adminCount := AdminCount(userRepository.users);
      if adminCount == 0 {
        var admin := DefaultAdmin(adminId, encodedPassword, now);
        userRepository.users := userRepository.users[adminId := admin];
      }
    }

    /** `initSystemConfig`: for each index, insert the row when its key is absent. */
    method InitSystemConfig()
      modifies systemConfigRepository
      ensures systemConfigRepository.configs == SeedConfigs(old(systemConfigRepository.configs))
    {
      var configKeys := CONFIG_KEYS;
      var configValues := CONFIG_VALUES;
      var configDescriptions := CONFIG_DESCRIPTIONS;
      var i := 0;
      while i < |configKeys|
        invariant 0 <= i <= |configKeys|
        invariant systemConfigRepository.configs == SeedUpTo(old(systemConfigRepository.configs), i)
      {
        if configKeys[i] !in systemConfigRepository.configs {
          var config := SystemConfig(configKeys[i], Some(configValues[i]), Some(configDescriptions[i]));
          systemConfigRepository.configs := systemConfigRepository.configs[configKeys[i] := config];
        }
        i := i + 1;
      }
    }
  }
}
