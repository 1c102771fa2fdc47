/**
 * Configuration from the environment (internal/kubecost/config.go). The process
 * environment is a map; `os.Getenv` of an unset variable is "".
 */
module KubecostConfig {
  import opened Wrappers
  import opened GoLib

  datatype Config = Config(
    baseURL: string,
    apiToken: string,
    defaultWindow: string,
    timeout: Duration,
    tlsSkipVerify: bool)

  type Env = map<string, string>

  const DefaultWindow := "30d"
  const DefaultTimeout: Duration := 15 * Second

  function Getenv(env: Env, k: string): string
  {
    if k in env then env[k] else ""
  }

  /** The variable's value when it is set and non-empty, else `def`. */
  function GetenvDefault(env: Env, k: string, def: string): (r: string)
    ensures k in env && env[k] != "" ==> r == env[k]
    ensures k !in env || env[k] == "" ==> r == def
  {
    var v := Getenv(env, k);
    if v != "" then v else def
  }

  /** The parsed duration when the variable is set, non-empty and parses, else `def`. */
  function GetenvDuration(lib: Lib, env: Env, k: string, def: Duration): (r: Duration)
    ensures k in env && env[k] != "" && lib.parseDuration(env[k]).Some? ==> r == lib.parseDuration(env[k]).value
    ensures k !in env || env[k] == "" || lib.parseDuration(env[k]).None? ==> r == def
  {
    var v := Getenv(env, k);
    if v != "" then
      match lib.parseDuration(v)
      case Some(d) => d
      case None => def
    else def
  }

  /** The struct literal at the top of LoadConfigFromEnvOrFile. */
  function EnvConfig(lib: Lib, env: Env): (cfg: Config)
    ensures cfg.baseURL == Getenv(env, "KUBECOST_BASE_URL")
    ensures cfg.apiToken == Getenv(env, "KUBECOST_API_TOKEN")
    ensures cfg.defaultWindow == GetenvDefault(env, "KUBECOST_DEFAULT_WINDOW", DefaultWindow)
    ensures cfg.defaultWindow != ""
    ensures cfg.timeout == GetenvDuration(lib, env, "KUBECOST_TIMEOUT", DefaultTimeout)
    ensures cfg.tlsSkipVerify <==> "KUBECOST_TLS_SKIP_VERIFY" in env && env["KUBECOST_TLS_SKIP_VERIFY"] == "true"
  {
    Config(
      Getenv(env, "KUBECOST_BASE_URL"),
      Getenv(env, "KUBECOST_API_TOKEN"),
      GetenvDefault(env, "KUBECOST_DEFAULT_WINDOW", DefaultWindow),
      GetenvDuration(lib, env, "KUBECOST_TIMEOUT", DefaultTimeout),
      Getenv(env, "KUBECOST_TLS_SKIP_VERIFY") == "true")
  }

  /** The outcome of os.ReadFile. */
  datatype ReadOutcome = Contents(data: string) | NotExist | ReadFailed(reason: string)

  /** The (Config, error) pair LoadConfigFromEnvOrFile returns. */
  datatype Loaded = Loaded(cfg: Config, err: Option<string>)

  /**
   * The environment-derived config, overlaid by the file's YAML when the file can be read.
   * `readFile` stands for os.ReadFile and `unmarshal` for yaml.Unmarshal into the config
   * (its error is ignored, as in the source).
   */
  function LoadConfigFromEnvOrFile(lib: Lib, env: Env, path: string,
                                   readFile: string -> ReadOutcome,
                                   unmarshal: (string, Config) -> Config): (r: Loaded)
    ensures path == "" ==> r == Loaded(EnvConfig(lib, env), None)
    ensures path != "" && readFile(path).NotExist? ==> r == Loaded(EnvConfig(lib, env), None)
    ensures path != "" && readFile(path).ReadFailed? ==>
              r == Loaded(EnvConfig(lib, env), Some(readFile(path).reason))
    ensures path != "" && readFile(path).Contents? ==>
              r == Loaded(unmarshal(readFile(path).data, EnvConfig(lib, env)), None)
  {
    var cfg := EnvConfig(lib, env);
    if path == "" then Loaded(cfg, None)
    else
      match readFile(path)
      case ReadFailed(reason) => Loaded(cfg, Some(reason))
      case NotExist => Loaded(cfg, None)
      case Contents(data) => Loaded(unmarshal(data, cfg), None)
  }

  /** With none of the five variables set, every field takes its default. */
  lemma {:induction false} EmptyEnvironmentDefaults(lib: Lib, env: Env)
    requires "KUBECOST_BASE_URL" !in env && "KUBECOST_API_TOKEN" !in env
    requires "KUBECOST_DEFAULT_WINDOW" !in env && "KUBECOST_TIMEOUT" !in env
    requires "KUBECOST_TLS_SKIP_VERIFY" !in env
    ensures EnvConfig(lib, env) == Config("", "", "30d", 15 * Second, false)
  {
  }

  /** A missing file is the same as no file; only another read failure is reported. */
  lemma {:induction false} MissingFileIsNoFile(lib: Lib, env: Env, path: string,
                            readFile: string -> ReadOutcome, unmarshal: (string, Config) -> Config)
    requires path != "" && readFile(path).NotExist?
    ensures LoadConfigFromEnvOrFile(lib, env, path, readFile, unmarshal)
         == LoadConfigFromEnvOrFile(lib, env, "", readFile, unmarshal)
  {
  }

  /** An error is returned exactly when a named file exists but cannot be read. */
  lemma {:induction false} ErrorOnlyForUnreadableFile(lib: Lib, env: Env, path: string,
                                   readFile: string -> ReadOutcome, unmarshal: (string, Config) -> Config)
    ensures LoadConfigFromEnvOrFile(lib, env, path, readFile, unmarshal).err.Some?
        <==> path != "" && readFile(path).ReadFailed?
  {
  }
}
