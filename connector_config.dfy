/**
 * The connector's configuration (`internal/config`): the four sections,
 * the defaults registered before the file is read, and `validate`, which
 * checks the server URL, the token and the timeout in that order.
 */
module ConnectorConfig {
  import opened Wrappers

  datatype ServerConfig = ServerConfig(url: string, token: string)
  datatype ClaudeConfig = ClaudeConfig(command: string, timeout: int)
  datatype ClientConfig = ClientConfig(id: string, name: string)
  datatype LogConfig = LogConfig(level: string, file: string)
  datatype Config = Config(server: ServerConfig, claude: ClaudeConfig, client: ClientConfig, log: LogConfig)

  const EMPTY_URL: string := "服务器地址不能为空"
  const EMPTY_TOKEN: string := "认证令牌不能为空"
  const BAD_TIMEOUT: string := "超时时间必须大于0"

  /** The values of `setDefaults`; the log path is joined with the Unix separator. */
  const DEFAULTS: Config := Config(
    ServerConfig("ws://localhost:8080/ws/connector", ""),
    ClaudeConfig("claude", 300),
    ClientConfig("connector-001", "Claude Connector"),
    LogConfig("info", "logs/claude-connector.log"))

  /** `validate`: the first failing check decides the error. */
  function Validate(cfg: Config): (r: Result<(), string>)
    ensures r.Success? <==> cfg.server.url != "" && cfg.server.token != "" && cfg.claude.timeout > 0
    ensures cfg.server.url == "" ==> r == Failure(EMPTY_URL)
    ensures cfg.server.url != "" && cfg.server.token == "" ==> r == Failure(EMPTY_TOKEN)
    ensures cfg.server.url != "" && cfg.server.token != "" && cfg.claude.timeout <= 0 ==> r == Failure(BAD_TIMEOUT)
  {
    if cfg.server.url == "" then Failure(EMPTY_URL)
    else if cfg.server.token == "" then Failure(EMPTY_TOKEN)
    else if cfg.claude.timeout <= 0 then Failure(BAD_TIMEOUT)
    else Success(())
  }

  /** The three error texts differ, so the error names the check that failed. */
  lemma ErrorsIdentifyCheck(cfg: Config)
    ensures Validate(cfg) == Failure(EMPTY_URL) <==> cfg.server.url == ""
    ensures Validate(cfg) == Failure(EMPTY_TOKEN) <==> cfg.server.url != "" && cfg.server.token == ""
    ensures Validate(cfg) == Failure(BAD_TIMEOUT) <==> cfg.server.url != "" && cfg.server.token != "" && cfg.claude.timeout <= 0
  {
    assert EMPTY_URL != EMPTY_TOKEN by { assert EMPTY_URL[0] != EMPTY_TOKEN[0]; }
    assert EMPTY_URL != BAD_TIMEOUT by { assert EMPTY_URL[0] != BAD_TIMEOUT[0]; }
    assert EMPTY_TOKEN != BAD_TIMEOUT by { assert EMPTY_TOKEN[0] != BAD_TIMEOUT[0]; }
  }

  /** The defaults alone are rejected for the missing token; with any token they are accepted. */
  lemma DefaultsNeedToken(token: string)
    ensures Validate(DEFAULTS) == Failure(EMPTY_TOKEN)
    ensures token != "" ==> Validate(DEFAULTS.(server := DEFAULTS.server.(token := token))).Success?
  {
  }
}
