/** Configuration (package internal/config): every setting comes from an
    environment variable, with a default when the variable is unset or
    empty, and a production environment must carry its secrets.

    The process environment is an explicit map; `time.ParseDuration` is the
    parameter `parseDuration`, None where Go reports an error; durations
    are nanoseconds. */
module Config {
  import opened Wrappers

  type Env = map<string, string>

  /** `time.Second` in nanoseconds. */
  const Second: int := 1_000_000_000

  const JwtRequired: string := "JWT_SECRET is required in production"
  const DatabaseRequired: string := "DATABASE_URL is required in production"

  datatype Config = Config(
    port: string,
    host: string,
    readTimeout: int,
    writeTimeout: int,
    debug: bool,
    appName: string,
    appVersion: string,
    environment: string,
    databaseUrl: string,
    jwtSecret: string)
  {
    /** The comparison is exact: "Development" is neither. */
    predicate IsDevelopment(): (dev: bool)
      ensures dev ==> environment != "production"
    {
      environment == "development"
    }

    predicate IsProduction(): (prod: bool)
      ensures prod ==> environment != "development"
    {
      environment == "production"
    }
  }

  /** `os.Getenv`: an unset variable reads as "". */
  function Getenv(env: Env, key: string): (v: string)
    ensures key in env ==> v == env[key]
    ensures key !in env ==> v == ""
  {
    if key in env then env[key] else ""
  }

  /** `getEnvWithDefault`: the variable's value unless it is unset or "",
      in which case the default. */
  function GetEnvWithDefault(env: Env, key: string, default: string): (v: string)
    ensures v == default || (key in env && v == env[key])
    ensures v == "" ==> default == ""
    ensures key in env && env[key] != "" ==> v == env[key]
  {
    var value := Getenv(env, key);
    if value != "" then value else default
  }

  /** `strconv.ParseBool`: the twelve spellings it accepts. */
  function ParseBoolText(s: string): (r: Option<bool>)
    ensures r == Some(true) <==> s in {"1", "t", "T", "TRUE", "true", "True"}
    ensures r == Some(false) <==> s in {"0", "f", "F", "FALSE", "false", "False"}
  {
    if s == "1" || s == "t" || s == "T" || s == "TRUE" || s == "true" || s == "True" then Some(true)
    else if s == "0" || s == "f" || s == "F" || s == "FALSE" || s == "false" || s == "False" then Some(false)
    else None
  }

  /** `parseBool`: the variable parsed when it is set and parses; the
      default parsed otherwise (false when the default does not parse). */
  function ParseBoolEnv(env: Env, key: string, default: string): (b: bool)
    ensures Getenv(env, key) != "" && ParseBoolText(Getenv(env, key)).Some? ==> b == ParseBoolText(Getenv(env, key)).value
    ensures Getenv(env, key) == "" || ParseBoolText(Getenv(env, key)).None? ==> b == ParseBoolText(default).GetOr(false)
  {
    var value := Getenv(env, key);
    if value != "" && ParseBoolText(value).Some? then ParseBoolText(value).value
    else ParseBoolText(default).GetOr(false)
  }

  /** `parseDuration`, the same way: a default that does not parse gives 0. */
  function ParseDurationEnv(env: Env, key: string, default: string, parseDuration: string -> Option<int>): (d: int)
    ensures Getenv(env, key) != "" && parseDuration(Getenv(env, key)).Some? ==> d == parseDuration(Getenv(env, key)).value
    ensures Getenv(env, key) == "" || parseDuration(Getenv(env, key)).None? ==> d == parseDuration(default).GetOr(0)
  {
    var value := Getenv(env, key);
    if value != "" && parseDuration(value).Some? then parseDuration(value).value
    else parseDuration(default).GetOr(0)
  }

  /** The configuration the environment describes, before the production check. */
  function Settings(env: Env, parseDuration: string -> Option<int>): Config {
    Config(
      port := GetEnvWithDefault(env, "PORT", "8000"),
      host := GetEnvWithDefault(env, "HOST", "0.0.0.0"),
      readTimeout := ParseDurationEnv(env, "READ_TIMEOUT", "30s", parseDuration),
      writeTimeout := ParseDurationEnv(env, "WRITE_TIMEOUT", "30s", parseDuration),
      debug := ParseBoolEnv(env, "DEBUG", "false"),
      appName := GetEnvWithDefault(env, "APP_NAME", "Tasks API"),
      appVersion := GetEnvWithDefault(env, "APP_VERSION", "1.0.0"),
      environment := GetEnvWithDefault(env, "ENVIRONMENT", "development"),
      databaseUrl := Getenv(env, "DATABASE_URL"),
      jwtSecret := Getenv(env, "JWT_SECRET"))
  }

  /** What `Load` returns: the settings, unless a production environment
      lacks its JWT secret (checked first) or its database URL. */
  function ConfigFrom(env: Env, parseDuration: string -> Option<int>): Result<Config, string> {
    var cfg := Settings(env, parseDuration);
    if cfg.environment == "production" && cfg.jwtSecret == "" then Failure(JwtRequired)
    else if cfg.environment == "production" && cfg.databaseUrl == "" then Failure(DatabaseRequired)
    else Success(cfg)
  }

  /** `Load`: starts from the zero Config and assigns its fields one by one. */
  method Load(env: Env, parseDuration: string -> Option<int>) returns (r: Result<Config, string>)
    ensures r == ConfigFrom(env, parseDuration)
  {
    var cfg := Config("", "", 0, 0, false, "", "", "", "", "");

    cfg := cfg.(port := GetEnvWithDefault(env, "PORT", "8000"));
    cfg := cfg.(host := GetEnvWithDefault(env, "HOST", "0.0.0.0"));
    cfg := cfg.(readTimeout := ParseDurationEnv(env, "READ_TIMEOUT", "30s", parseDuration));
    cfg := cfg.(writeTimeout := ParseDurationEnv(env, "WRITE_TIMEOUT", "30s", parseDuration));
    cfg := cfg.(debug := ParseBoolEnv(env, "DEBUG", "false"));

    cfg := cfg.(appName := GetEnvWithDefault(env, "APP_NAME", "Tasks API"));
    cfg := cfg.(appVersion := GetEnvWithDefault(env, "APP_VERSION", "1.0.0"));
    cfg := cfg.(environment := GetEnvWithDefault(env, "ENVIRONMENT", "development"));

    cfg := cfg.(databaseUrl := Getenv(env, "DATABASE_URL"));
    cfg := cfg.(jwtSecret := Getenv(env, "JWT_SECRET"));

    if cfg.environment == "production" {
      if cfg.jwtSecret == "" {
        return Failure(JwtRequired);
      }
      if cfg.databaseUrl == "" {
        return Failure(DatabaseRequired);
      }
    }
    return Success(cfg);
  }

  // ---------------------------------------------------------------------
  // Properties

  /** A variable set to "" is the same as an unset one. */
  lemma SetToEmptyMeansUnset(env: Env, key: string, default: string)
    ensures GetEnvWithDefault(env[key := ""], key, default) == GetEnvWithDefault(env - {key}, key, default) == default
  {
  }

  /** ParseBool accepts its twelve spellings and nothing else; "true" and
      "false" read as themselves, so the default "false" of DEBUG gives false. */
  lemma ParseBoolAccepts(s: string)
    ensures ParseBoolText(s).Some? <==> s in {"1", "t", "T", "TRUE", "true", "True", "0", "f", "F", "FALSE", "false", "False"}
    ensures ParseBoolText("true") == Some(true) && ParseBoolText("false") == Some(false)
  {
  }

  /** With nothing set, Load succeeds with every default: port 8000 on
      0.0.0.0, 30-second timeouts, no debug, a development environment and
      no secrets. */
  lemma EmptyEnvDefaults(parseDuration: string -> Option<int>)
    requires parseDuration("30s") == Some(30 * Second)
    ensures ConfigFrom(map[], parseDuration)
         == Success(Config("8000", "0.0.0.0", 30 * Second, 30 * Second, false, "Tasks API", "1.0.0", "development", "", ""))
    ensures ConfigFrom(map[], parseDuration).value.IsDevelopment()
  {
  }

  /** Outside production, Load never fails; an unset ENVIRONMENT means
      development. */
  lemma NonProductionNeverFails(env: Env, parseDuration: string -> Option<int>)
    requires Getenv(env, "ENVIRONMENT") != "production"
    ensures ConfigFrom(env, parseDuration) == Success(Settings(env, parseDuration))
    ensures Getenv(env, "ENVIRONMENT") == "" ==> ConfigFrom(env, parseDuration).value.IsDevelopment()
  {
  }

  /** Load fails exactly in production with a secret missing; the JWT secret
      is checked first, so with both missing its error is the one reported. */
  lemma ProductionGate(env: Env, parseDuration: string -> Option<int>)
    ensures var prod := Getenv(env, "ENVIRONMENT") == "production";
      && (ConfigFrom(env, parseDuration).Failure? <==>
            prod && (Getenv(env, "JWT_SECRET") == "" || Getenv(env, "DATABASE_URL") == ""))
      && (prod && Getenv(env, "JWT_SECRET") == "" ==> ConfigFrom(env, parseDuration) == Failure(JwtRequired))
      && (prod && Getenv(env, "JWT_SECRET") != "" && Getenv(env, "DATABASE_URL") == "" ==>
            ConfigFrom(env, parseDuration) == Failure(DatabaseRequired))
  {
  }

  /** A configuration Load hands back for production always has both secrets. */
  lemma LoadedProductionHasSecrets(env: Env, parseDuration: string -> Option<int>)
    requires ConfigFrom(env, parseDuration).Success?
    ensures var cfg := ConfigFrom(env, parseDuration).value;
      cfg.IsProduction() ==> cfg.jwtSecret != "" && cfg.databaseUrl != ""
  {
  }

  /** No environment is both development and production, and any other
      string, however close, is neither. */
  lemma DevProdExclusive(c: Config)
    ensures !(c.IsDevelopment() && c.IsProduction())
    ensures c.environment !in {"development", "production"} ==> !c.IsDevelopment() && !c.IsProduction()
  {
  }
}
