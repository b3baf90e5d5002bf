/**
 * The key/value configuration of `SystemService`: an upsert that keeps an
 * existing description unless a new one is given, typed readers that fall
 * back to a default, and the named settings with their defaults. Keys are
 * compared exactly.
 */
module SystemConfigs {
  import opened Wrappers
  import opened JavaText
  import opened Entities

  const DEFAULT_TOKEN_LIMIT: string := "default_token_limit"
  const MAX_FILE_SIZE: string := "max_file_size"
  const FILE_EXPIRE_HOURS: string := "file_expire_hours"
  const MAX_TOKENS_PER_REQUEST: string := "max_tokens_per_request"
  const CONVERSATION_HISTORY_DAYS: string := "conversation_history_days"
  const AUTO_CLEANUP_ENABLED: string := "auto_cleanup_enabled"

  /** Every row sits under its own key. */
  ghost predicate Keyed(configs: map<string, SystemConfig>) {
    forall k :: k in configs ==> configs[k].key == k
  }

  /** The row `saveConfig(key, value, description)` leaves under `key`. */
  function Upserted(configs: map<string, SystemConfig>, key: string, value: Option<string>,
                    description: Option<string>): SystemConfig {
    if key in configs then
      var existing := configs[key];
      SystemConfig(existing.key, value, if description.Some? then description else existing.desc)
    else
      SystemConfig(key, value, description)
  }

  /** The table after `saveConfig`. */
  function Upsert(configs: map<string, SystemConfig>, key: string, value: Option<string>,
                  description: Option<string>): map<string, SystemConfig> {
    configs[key := Upserted(configs, key, value, description)]
  }

  /** `findConfigValueByKey`: the value column of the row, when there is a row and the value is not null. */
  function ValueOf(configs: map<string, SystemConfig>, key: string): Option<string> {
    if key in configs then configs[key].value else None
  }

  /** `getConfigValueAsInt` / `getConfigValueAsLong` on a looked-up value: the
      default for a missing value or one `parseInt` / `parseLong` rejects. */
  function AsInteger(value: Option<string>, defaultValue: int, lo: int, hi: int): (r: int)
    ensures value.None? ==> r == defaultValue
    ensures value.Some? && ParseInteger(value.value, lo, hi).Some? ==> r == ParseInteger(value.value, lo, hi).value
    ensures value.Some? && ParseInteger(value.value, lo, hi).None? ==> r == defaultValue
  {
    if value.None? then defaultValue
    else match ParseInteger(value.value, lo, hi)
      case Some(n) => n
      case None => defaultValue
  }

  /** `getConfigValueAsBoolean` on a looked-up value: `Boolean.parseBoolean`, true only for "true" in any case. */
  function AsBoolean(value: Option<string>, defaultValue: bool): (r: bool)
    ensures value.None? ==> r == defaultValue
    ensures value.Some? ==> (r <==> ToLower(value.value) == "true")
  {
    if value.None? then defaultValue else ToLower(value.value) == "true"
  }

  /** `getAllConfigsAsMap`: every key to its value, with a null value as "". */
  function AllAsMap(configs: map<string, SystemConfig>): (r: map<string, string>)
    ensures r.Keys == configs.Keys
    ensures forall k :: k in r ==> r[k] == configs[k].value.GetOr("")
  {
    map k | k in configs :: configs[k].value.GetOr("")
  }

  /** The table after `saveConfigs` has saved `configs` with no descriptions, in any order. */
  function SaveAll(table: map<string, SystemConfig>, configs: map<string, string>): map<string, SystemConfig> {
    map k | k in table.Keys + configs.Keys ::
      if k in configs then Upserted(table, k, Some(configs[k]), None) else table[k]
  }

  // -------------------------------------------------------------- lemmas

  /** After `saveConfig(k, v, d)` the value of `k` is `v`; the description is
      replaced only by a non-null one, except on insertion; other keys keep their rows. */
  lemma UpsertQueries(configs: map<string, SystemConfig>, key: string, value: Option<string>, description: Option<string>)
    ensures var c := Upsert(configs, key, value, description);
      && ValueOf(c, key) == value
      && (key !in configs || description.Some? ==> c[key].desc == description)
      && (key in configs && description.None? ==> c[key].desc == configs[key].desc)
      && c.Keys == configs.Keys + {key}
      && forall k :: k in configs && k != key ==> c[k] == configs[k]
  {
  }

  /** The upsert keeps every row under its own key. */
  lemma UpsertKeyed(configs: map<string, SystemConfig>, key: string, value: Option<string>, description: Option<string>)
    requires Keyed(configs)
    ensures Keyed(Upsert(configs, key, value, description))
  {
  }

  /** Saving the same value twice is the same as saving it once. */
  lemma UpsertIdempotent(configs: map<string, SystemConfig>, key: string, value: Option<string>, description: Option<string>)
    ensures Upsert(Upsert(configs, key, value, description), key, value, description) == Upsert(configs, key, value, description)
  {
  }

  /** After `saveConfigs`, every saved key reads back its value; descriptions and unsaved rows are kept. */
  lemma SaveAllQueries(table: map<string, SystemConfig>, configs: map<string, string>)
    ensures var t := SaveAll(table, configs);
      && (forall k :: k in configs ==> ValueOf(t, k) == Some(configs[k]))
      && (forall k :: k in configs && k in table ==> t[k].desc == table[k].desc)
      && (forall k :: k in table && k !in configs ==> t[k] == table[k])
      && t.Keys == table.Keys + configs.Keys
  {
  }

  /** Parsing is exact on numbers in range: a stored `IntToString(n)` reads back as `n`. */
  lemma AsIntegerRoundTrip(n: int, defaultValue: int)
    requires INT_MIN <= n <= INT_MAX
    ensures AsInteger(Some(IntToString(n)), defaultValue, INT_MIN, INT_MAX) == n
  {
    ParseIntegerRoundTrip(n, INT_MIN, INT_MAX);
  }

  /** Saving one more, not yet saved, entry is one more upsert. */
  lemma SaveAllStep(table: map<string, SystemConfig>, configs: map<string, string>, remaining: set<string>, k: string)
    requires k in remaining && k in configs
    ensures SaveAll(table, configs - (remaining - {k})) == Upsert(SaveAll(table, configs - remaining), k, Some(configs[k]), None)
  {
    var lhs := SaveAll(table, configs - (remaining - {k}));
    var rhs := Upsert(SaveAll(table, configs - remaining), k, Some(configs[k]), None);
    assert lhs.Keys == rhs.Keys;
    forall j | j in lhs
      ensures lhs[j] == rhs[j]
    {
    }
  }

  class SystemService {
    const systemConfigRepository: SystemConfigRepository

    constructor (repository: SystemConfigRepository)
      ensures systemConfigRepository == repository
    {
      systemConfigRepository := repository;
    }

    /** `saveConfig`: update the row under `key`, or insert one. */
    method SaveConfig(key: string, value: Option<string>, description: Option<string>) returns (config: SystemConfig)
      modifies systemConfigRepository
      ensures config == Upserted(old(systemConfigRepository.configs), key, value, description)
      ensures systemConfigRepository.configs == Upsert(old(systemConfigRepository.configs), key, value, description)
    {
      var configs := systemConfigRepository.configs;
      if key in configs {
        config := configs[key];
        config := config.(value := value);
        if description.Some? {
          config := config.(desc := description);
        }
      } else {
        config := SystemConfig(key, value, description);
      }
      systemConfigRepository.configs := configs[key := config];
    }

    /** `saveConfigs`: `saveConfig(k, v, null)` for each entry, in the map's
        iteration order, which is returned as `order`. */
    method SaveConfigs(configs: map<string, string>) returns (ghost order: seq<string>)
      modifies systemConfigRepository
      ensures systemConfigRepository.configs == SaveAll(old(systemConfigRepository.configs), configs)
      ensures forall k :: k in order <==> k in configs
    {
      ghost var table := systemConfigRepository.configs;
      var remaining := configs.Keys;
      order := [];
      assert configs - remaining == map[];
      while remaining != {}
        invariant remaining <= configs.Keys
        invariant forall j :: j in order <==> j in configs && j !in remaining
        invariant systemConfigRepository.configs == SaveAll(table, configs - remaining)
        decreases |remaining|
      {
        var k :| k in remaining;
        SaveAllStep(table, configs, remaining, k);
        var _ := SaveConfig(k, Some(configs[k]), None);
        remaining := remaining - {k};
        order := order + [k];
      }
      assert configs - remaining == configs;
    }

    function GetConfigValue(key: string): Option<string>
      reads systemConfigRepository
    {
      ValueOf(systemConfigRepository.configs, key)
    }

    /** `getConfigValue(key, defaultValue)`. */
    function GetConfigValueOr(key: string, defaultValue: string): string
      reads systemConfigRepository
    {
      GetConfigValue(key).GetOr(defaultValue)
    }

    function GetConfigValueAsInt(key: string, defaultValue: int): int
      reads systemConfigRepository
    {
      AsInteger(GetConfigValue(key), defaultValue, INT_MIN, INT_MAX)
    }

    function GetConfigValueAsLong(key: string, defaultValue: int): int
      reads systemConfigRepository
    {
      AsInteger(GetConfigValue(key), defaultValue, LONG_MIN, LONG_MAX)
    }

    function GetConfigValueAsBoolean(key: string, defaultValue: bool): bool
      reads systemConfigRepository
    {
      AsBoolean(GetConfigValue(key), defaultValue)
    }

    function GetConfig(key: string): Option<SystemConfig>
      reads systemConfigRepository
    {
      if key in systemConfigRepository.configs then Some(systemConfigRepository.configs[key]) else None
    }

    function GetAllConfigsAsMap(): map<string, string>
      reads systemConfigRepository
    {
      AllAsMap(systemConfigRepository.configs)
    }

    method DeleteConfig(key: string)
      modifies systemConfigRepository
      ensures systemConfigRepository.configs == old(systemConfigRepository.configs) - {key}
    {
      systemConfigRepository.configs := systemConfigRepository.configs - {key};
    }

    predicate ConfigExists(key: string)
      reads systemConfigRepository
    {
      key in systemConfigRepository.configs
    }

    function GetDefaultTokenLimit(): int reads systemConfigRepository { GetConfigValueAsInt(DEFAULT_TOKEN_LIMIT, 5000) }
    function GetMaxFileSize(): int reads systemConfigRepository { GetConfigValueAsLong(MAX_FILE_SIZE, 10485760) }
    function GetFileExpireHours(): int reads systemConfigRepository { GetConfigValueAsInt(FILE_EXPIRE_HOURS, 24) }
    function GetMaxTokensPerRequest(): int reads systemConfigRepository { GetConfigValueAsInt(MAX_TOKENS_PER_REQUEST, 1000) }
    function GetConversationHistoryDays(): int reads systemConfigRepository { GetConfigValueAsInt(CONVERSATION_HISTORY_DAYS, 30) }
    predicate IsAutoCleanupEnabled() reads systemConfigRepository { GetConfigValueAsBoolean(AUTO_CLEANUP_ENABLED, true) }

    /** With none of the six keys stored, the named settings are 5000, 10 MiB, 24, 1000, 30 and true. */
    lemma DefaultsWhenAbsent()
      requires forall k :: k in systemConfigRepository.configs ==>
        k !in {DEFAULT_TOKEN_LIMIT, MAX_FILE_SIZE, FILE_EXPIRE_HOURS, MAX_TOKENS_PER_REQUEST,
               CONVERSATION_HISTORY_DAYS, AUTO_CLEANUP_ENABLED}
      ensures GetDefaultTokenLimit() == 5000
      ensures GetMaxFileSize() == 10485760
      ensures GetFileExpireHours() == 24
      ensures GetMaxTokensPerRequest() == 1000
      ensures GetConversationHistoryDays() == 30
      ensures IsAutoCleanupEnabled()
    {
    }
  }
}
