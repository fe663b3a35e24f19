/** Validation of the process environment against the configuration schema,
    the message a failed validation raises, and the configuration getters.
    The environment is a map from variable names to values; a name that is
    not in the map is unset. Whether a string is a URL is decided by the
    `isUrl` parameter (the URL parser is not part of this model). */
module Env {
  import opened Wrappers
  import opened Strings

  type Environment = map<string, string>

  datatype NodeEnv = Development | Production | Test
  datatype LogLevel = ErrorLevel | WarnLevel | InfoLevel | HttpLevel | DebugLevel

  /** The validated configuration, one field per schema entry. */
  datatype Config = Config(
    nodeEnv: NodeEnv,
    databaseUrl: string,
    redisUrl: string,
    jwtAccessSecret: string,
    jwtRefreshSecret: string,
    jwtAccessExpiry: string,
    jwtRefreshExpiry: string,
    googleClientId: string,
    googleClientSecret: string,
    authPort: int,
    signalingPort: int,
    logLevel: LogLevel,
    authRateLimitWindowMs: int,
    authRateLimitMaxAttempts: int,
    apiRateLimitWindowMs: int,
    apiRateLimitMaxRequests: int,
    corsOrigin: string,
    allowedOrigins: string,
    healthCheckTimeout: int)

  /** One schema violation: the offending key and the message for it. */
  datatype Issue = Issue(path: string, message: string)

  // ---------------------------------------------------------------------------
  // Field rules

  const Required := "Required"

  /** A field's parsed value: the schema has string fields and numeric ones. */
  datatype Value = Str(s: string) | Num(n: int)

  /** `Number(s)` on an environment string: surrounding white space is
      ignored, an empty string is 0, a digit string is its value, and
      everything else is treated as not a number. */
  function ToNumber(s: string): (r: Option<int>)
    ensures r.Some? ==> r.value >= 0
    ensures s == "" ==> r == Some(0)
  {
    var t := Trim(s);
    if t == "" then Some(0)
    else if IsDigits(t) then Some(DigitsValue(t))
    else None
  }

  /** The quoted option list of an enum error message: `'a' | 'b' | 'c'`. */
  function QuotedOptions(options: seq<string>): string {
    Join(seq(|options|, i requires 0 <= i < |options| => "'" + options[i] + "'"), " | ")
  }

  /** `z.string().default(default)`. */
  function StringField(env: Environment, key: string, default: string): (r: string)
    ensures key in env ==> r == env[key]
    ensures key !in env ==> r == default
  {
    if key in env then env[key] else default
  }

  /** `z.enum(options).default(default)`. */
  function EnumField(env: Environment, key: string, options: seq<string>, default: string): (r: Result<Value, Issue>)
    ensures key !in env ==> r == Ok(Str(default))
    ensures key in env ==> (r.Ok? <==> env[key] in options)
    ensures r.Ok? && key in env ==> r.value == Str(env[key])
  {
    if key !in env then Ok(Str(default))
    else if env[key] in options then Ok(Str(env[key]))
    else Err(Issue(key, "Invalid enum value. Expected " + QuotedOptions(options) + ", received '" + env[key] + "'"))
  }

  /** `z.string().url(message)`: required, and a URL. */
  function UrlField(env: Environment, key: string, isUrl: string -> bool, message: string): (r: Result<Value, Issue>)
    ensures r.Ok? <==> key in env && isUrl(env[key])
    ensures r.Ok? ==> r.value == Str(env[key])
  {
    if key !in env then Err(Issue(key, Required))
    else if isUrl(env[key]) then Ok(Str(env[key]))
    else Err(Issue(key, message))
  }

  /** `z.string().min(n, message)`: required, and at least `n` characters. */
  function MinLengthField(env: Environment, key: string, n: nat, message: string): (r: Result<Value, Issue>)
    ensures r.Ok? <==> key in env && |env[key]| >= n
    ensures r.Ok? ==> r.value == Str(env[key])
  {
    if key !in env then Err(Issue(key, Required))
    else if |env[key]| >= n then Ok(Str(env[key]))
    else Err(Issue(key, message))
  }

  /** `z.string().transform(Number).pipe(z.number().min(1).max(65535)).default(default)`:
      the default is itself a string and goes through the same rule. */
  function PortField(env: Environment, key: string, default: string): (r: Result<Value, Issue>)
    ensures r.Ok? <==> ToNumber(StringField(env, key, default)).Some?
                       && 1 <= ToNumber(StringField(env, key, default)).value <= 65535
    ensures r.Ok? ==> r.value == Num(ToNumber(StringField(env, key, default)).value)
  {
    var s := StringField(env, key, default);
    match ToNumber(s)
    case None => Err(Issue(key, "Expected number, received nan"))
    case Some(n) =>
      if n < 1 then Err(Issue(key, "Number must be greater than or equal to 1"))
      else if n > 65535 then Err(Issue(key, "Number must be less than or equal to 65535"))
      else Ok(Num(n))
  }

  /** `z.string().transform(Number).pipe(z.number().positive()).default(default)`. */
  function PositiveField(env: Environment, key: string, default: string): (r: Result<Value, Issue>)
    ensures r.Ok? <==> ToNumber(StringField(env, key, default)).Some?
                       && ToNumber(StringField(env, key, default)).value > 0
    ensures r.Ok? ==> r.value == Num(ToNumber(StringField(env, key, default)).value)
  {
    var s := StringField(env, key, default);
    match ToNumber(s)
    case None => Err(Issue(key, "Expected number, received nan"))
    case Some(n) =>
      if n <= 0 then Err(Issue(key, "Number must be greater than 0"))
      else Ok(Num(n))
  }

  // ---------------------------------------------------------------------------
  // The schema

  const NodeEnvOptions := ["development", "production", "test"]
  const LogLevelOptions := ["error", "warn", "info", "http", "debug"]

  function ToNodeEnv(s: string): NodeEnv {
    if s == "production" then Production else if s == "test" then Test else Development
  }

  function ToLogLevel(s: string): LogLevel {
    if s == "error" then ErrorLevel
    else if s == "warn" then WarnLevel
    else if s == "http" then HttpLevel
    else if s == "debug" then DebugLevel
    else InfoLevel
  }

  /** The outcome of each checked key (the four plain string keys with a
      default cannot fail and are read directly). */
  datatype Fields = Fields(
    nodeEnv: Result<Value, Issue>,
    databaseUrl: Result<Value, Issue>,
    redisUrl: Result<Value, Issue>,
    jwtAccessSecret: Result<Value, Issue>,
    jwtRefreshSecret: Result<Value, Issue>,
    googleClientId: Result<Value, Issue>,
    googleClientSecret: Result<Value, Issue>,
    authPort: Result<Value, Issue>,
    signalingPort: Result<Value, Issue>,
    logLevel: Result<Value, Issue>,
    authRateLimitWindowMs: Result<Value, Issue>,
    authRateLimitMaxAttempts: Result<Value, Issue>,
    apiRateLimitWindowMs: Result<Value, Issue>,
    apiRateLimitMaxRequests: Result<Value, Issue>,
    healthCheckTimeout: Result<Value, Issue>)
  {
    /** The outcomes in the schema's key order. */
    function InOrder(): (l: seq<Result<Value, Issue>>)
      ensures |l| == 15
    {
      [nodeEnv, databaseUrl, redisUrl, jwtAccessSecret, jwtRefreshSecret,
       googleClientId, googleClientSecret, authPort, signalingPort, logLevel,
       authRateLimitWindowMs, authRateLimitMaxAttempts, apiRateLimitWindowMs,
       apiRateLimitMaxRequests, healthCheckTimeout]
    }

    predicate AllPass() {
      && nodeEnv.Ok? && databaseUrl.Ok? && redisUrl.Ok? && jwtAccessSecret.Ok?
      && jwtRefreshSecret.Ok? && googleClientId.Ok? && googleClientSecret.Ok?
      && authPort.Ok? && signalingPort.Ok? && logLevel.Ok?
      && authRateLimitWindowMs.Ok? && authRateLimitMaxAttempts.Ok?
      && apiRateLimitWindowMs.Ok? && apiRateLimitMaxRequests.Ok? && healthCheckTimeout.Ok?
    }
  }

  /** The schema's checked keys, each by its own rule. The keys without a
      default pass only when they are set. */
  function CheckFields(env: Environment, isUrl: string -> bool): (r: Fields)
    ensures r.AllPass() ==>
              && "DATABASE_URL" in env && isUrl(env["DATABASE_URL"])
              && "REDIS_URL" in env && isUrl(env["REDIS_URL"])
              && "JWT_ACCESS_SECRET" in env && |env["JWT_ACCESS_SECRET"]| >= 32
              && "JWT_REFRESH_SECRET" in env && |env["JWT_REFRESH_SECRET"]| >= 32
              && "GOOGLE_CLIENT_ID" in env && |env["GOOGLE_CLIENT_ID"]| >= 1
              && "GOOGLE_CLIENT_SECRET" in env && |env["GOOGLE_CLIENT_SECRET"]| >= 1
  {
    Fields(
      EnumField(env, "NODE_ENV", NodeEnvOptions, "development"),
      UrlField(env, "DATABASE_URL", isUrl, "Invalid database URL"),
      UrlField(env, "REDIS_URL", isUrl, "Invalid Redis URL"),
      MinLengthField(env, "JWT_ACCESS_SECRET", 32, "JWT access secret must be at least 32 characters"),
      MinLengthField(env, "JWT_REFRESH_SECRET", 32, "JWT refresh secret must be at least 32 characters"),
      MinLengthField(env, "GOOGLE_CLIENT_ID", 1, "Google Client ID is required"),
      MinLengthField(env, "GOOGLE_CLIENT_SECRET", 1, "Google Client Secret is required"),
      PortField(env, "AUTH_PORT", "3001"),
      PortField(env, "SIGNALING_PORT", "3002"),
      EnumField(env, "LOG_LEVEL", LogLevelOptions, "info"),
      PositiveField(env, "AUTH_RATE_LIMIT_WINDOW_MS", "900000"),
      PositiveField(env, "AUTH_RATE_LIMIT_MAX_ATTEMPTS", "5"),
      PositiveField(env, "API_RATE_LIMIT_WINDOW_MS", "900000"),
      PositiveField(env, "API_RATE_LIMIT_MAX_REQUESTS", "100"),
      PositiveField(env, "HEALTH_CHECK_TIMEOUT", "5000"))
  }

  /** The violations among the checked keys, in order. */
  function Issues(fields: seq<Result<Value, Issue>>): (issues: seq<Issue>)
    ensures |issues| <= |fields|
  {
    if |fields| == 0 then []
    else (if fields[0].Err? then [fields[0].error] else []) + Issues(fields[1..])
  }

  /** There is no violation exactly when every key passed. */
  lemma {:induction false} NoIssuesIffAllPass(fields: seq<Result<Value, Issue>>)
    ensures Issues(fields) == [] <==> forall i :: 0 <= i < |fields| ==> fields[i].Ok?
  {
    if |fields| > 0 {
      NoIssuesIffAllPass(fields[1..]);
      assert forall i :: 1 <= i < |fields| ==> fields[i] == fields[1..][i - 1];
    }
  }

  /** The checked keys report no violation exactly when all of them pass. */
  lemma NoIssuesIffFieldsPass(f: Fields)
    ensures Issues(f.InOrder()) == [] <==> f.AllPass()
  {
    var l := f.InOrder();
    NoIssuesIffAllPass(l);
    assert l[0] == f.nodeEnv && l[1] == f.databaseUrl && l[2] == f.redisUrl;
    assert l[3] == f.jwtAccessSecret && l[4] == f.jwtRefreshSecret && l[5] == f.googleClientId;
    assert l[6] == f.googleClientSecret && l[7] == f.authPort && l[8] == f.signalingPort;
    assert l[9] == f.logLevel && l[10] == f.authRateLimitWindowMs && l[11] == f.authRateLimitMaxAttempts;
    assert l[12] == f.apiRateLimitWindowMs && l[13] == f.apiRateLimitMaxRequests && l[14] == f.healthCheckTimeout;
  }

  /** Every issue comes from a failed key, and every failed key's issue is
      listed. */
  lemma {:induction false} IssuesAreTheFailures(fields: seq<Result<Value, Issue>>)
    ensures forall i :: 0 <= i < |fields| && fields[i].Err? ==> fields[i].error in Issues(fields)
    ensures forall x :: x in Issues(fields) ==> exists i :: 0 <= i < |fields| && fields[i] == Err(x)
  {
    if |fields| > 0 {
      IssuesAreTheFailures(fields[1..]);
      assert forall i :: 1 <= i < |fields| ==> fields[i] == fields[1..][i - 1];
    }
  }

  /** One line of the failure message: `path: message`. */
  function IssueLine(i: Issue): string {
    i.path + ": " + i.message
  }

  function IssueLines(issues: seq<Issue>): seq<string> {
    seq(|issues|, k requires 0 <= k < |issues| => IssueLine(issues[k]))
  }

  const FailurePrefix := "Environment validation failed:\n"

  /** The constraints every accepted configuration satisfies. */
  predicate ValidConfig(c: Config) {
    && |c.jwtAccessSecret| >= 32 && |c.jwtRefreshSecret| >= 32
    && |c.googleClientId| >= 1 && |c.googleClientSecret| >= 1
    && 1 <= c.authPort <= 65535 && 1 <= c.signalingPort <= 65535
    && c.authRateLimitWindowMs > 0 && c.authRateLimitMaxAttempts > 0
    && c.apiRateLimitWindowMs > 0 && c.apiRateLimitMaxRequests > 0
    && c.healthCheckTimeout > 0
  }

  /** What each checked key guarantees when it passes. */
  predicate PassedFieldsMeetSchema(f: Fields, isUrl: string -> bool) {
    && (f.nodeEnv.Ok? ==> f.nodeEnv.value.Str?)
    && (f.databaseUrl.Ok? ==> f.databaseUrl.value.Str? && isUrl(f.databaseUrl.value.s))
    && (f.redisUrl.Ok? ==> f.redisUrl.value.Str? && isUrl(f.redisUrl.value.s))
    && (f.jwtAccessSecret.Ok? ==> f.jwtAccessSecret.value.Str? && |f.jwtAccessSecret.value.s| >= 32)
    && (f.jwtRefreshSecret.Ok? ==> f.jwtRefreshSecret.value.Str? && |f.jwtRefreshSecret.value.s| >= 32)
    && (f.googleClientId.Ok? ==> f.googleClientId.value.Str? && |f.googleClientId.value.s| >= 1)
    && (f.googleClientSecret.Ok? ==> f.googleClientSecret.value.Str? && |f.googleClientSecret.value.s| >= 1)
    && (f.authPort.Ok? ==> f.authPort.value.Num? && 1 <= f.authPort.value.n <= 65535)
    && (f.signalingPort.Ok? ==> f.signalingPort.value.Num? && 1 <= f.signalingPort.value.n <= 65535)
    && (f.logLevel.Ok? ==> f.logLevel.value.Str?)
    && (f.authRateLimitWindowMs.Ok? ==> f.authRateLimitWindowMs.value.Num? && f.authRateLimitWindowMs.value.n > 0)
    && (f.authRateLimitMaxAttempts.Ok? ==> f.authRateLimitMaxAttempts.value.Num? && f.authRateLimitMaxAttempts.value.n > 0)
    && (f.apiRateLimitWindowMs.Ok? ==> f.apiRateLimitWindowMs.value.Num? && f.apiRateLimitWindowMs.value.n > 0)
    && (f.apiRateLimitMaxRequests.Ok? ==> f.apiRateLimitMaxRequests.value.Num? && f.apiRateLimitMaxRequests.value.n > 0)
    && (f.healthCheckTimeout.Ok? ==> f.healthCheckTimeout.value.Num? && f.healthCheckTimeout.value.n > 0)
  }

  lemma CheckedFieldsMeetSchema(env: Environment, isUrl: string -> bool)
    ensures PassedFieldsMeetSchema(CheckFields(env, isUrl), isUrl)
  {
  }

  function StrOf(r: Result<Value, Issue>): string {
    if r.Ok? && r.value.Str? then r.value.s else ""
  }

  function NumOf(r: Result<Value, Issue>): int {
    if r.Ok? && r.value.Num? then r.value.n else 0
  }

  /** The configuration assembled from the checked keys. */
  function BuildConfig(env: Environment, f: Fields): Config {
    Config(
      ToNodeEnv(StrOf(f.nodeEnv)), StrOf(f.databaseUrl), StrOf(f.redisUrl),
      StrOf(f.jwtAccessSecret), StrOf(f.jwtRefreshSecret),
      StringField(env, "JWT_ACCESS_EXPIRY", "15m"),
      StringField(env, "JWT_REFRESH_EXPIRY", "7d"),
      StrOf(f.googleClientId), StrOf(f.googleClientSecret),
      NumOf(f.authPort), NumOf(f.signalingPort), ToLogLevel(StrOf(f.logLevel)),
      NumOf(f.authRateLimitWindowMs), NumOf(f.authRateLimitMaxAttempts),
      NumOf(f.apiRateLimitWindowMs), NumOf(f.apiRateLimitMaxRequests),
      StringField(env, "CORS_ORIGIN", "http://localhost:3000"),
      StringField(env, "ALLOWED_ORIGINS", "http://localhost:3000,http://localhost:3001"),
      NumOf(f.healthCheckTimeout))
  }

  /** `validateEnv()`: the configuration, or the error message listing every
      violation, one `path: message` line each. */
  function ValidateEnv(env: Environment, isUrl: string -> bool): (r: Result<Config, string>)
    ensures r.Ok? <==> CheckFields(env, isUrl).AllPass()
    ensures r.Ok? ==> ValidConfig(r.value)
    ensures r.Ok? ==> isUrl(r.value.databaseUrl) && isUrl(r.value.redisUrl)
    ensures r.Ok? ==> r.value == BuildConfig(env, CheckFields(env, isUrl))
    ensures r.Err? ==> r.error == FailurePrefix + Join(IssueLines(Issues(CheckFields(env, isUrl).InOrder())), "\n")
  {
    var f := CheckFields(env, isUrl);
    CheckedFieldsMeetSchema(env, isUrl);
    if !f.AllPass() then
      Err(FailurePrefix + Join(IssueLines(Issues(f.InOrder())), "\n"))
    else
      Ok(BuildConfig(env, f))
  }

  /** An accepted configuration holds the environment's values: each
      required key as set, each key with a default as set or else its
      default, numbers read as `Number()` reads them. */
  lemma ValidatedConfigReadsTheEnvironment(env: Environment, isUrl: string -> bool)
    requires ValidateEnv(env, isUrl).Ok?
    ensures var c := ValidateEnv(env, isUrl).value;
            && c.nodeEnv == ToNodeEnv(StringField(env, "NODE_ENV", "development"))
            && StringField(env, "NODE_ENV", "development") in NodeEnvOptions
            && "DATABASE_URL" in env && c.databaseUrl == env["DATABASE_URL"]
            && "REDIS_URL" in env && c.redisUrl == env["REDIS_URL"]
            && "JWT_ACCESS_SECRET" in env && c.jwtAccessSecret == env["JWT_ACCESS_SECRET"]
            && "JWT_REFRESH_SECRET" in env && c.jwtRefreshSecret == env["JWT_REFRESH_SECRET"]
            && c.jwtAccessExpiry == StringField(env, "JWT_ACCESS_EXPIRY", "15m")
            && c.jwtRefreshExpiry == StringField(env, "JWT_REFRESH_EXPIRY", "7d")
            && "GOOGLE_CLIENT_ID" in env && c.googleClientId == env["GOOGLE_CLIENT_ID"]
            && "GOOGLE_CLIENT_SECRET" in env && c.googleClientSecret == env["GOOGLE_CLIENT_SECRET"]
            && c.authPort == ToNumber(StringField(env, "AUTH_PORT", "3001")).value
            && c.signalingPort == ToNumber(StringField(env, "SIGNALING_PORT", "3002")).value
            && c.logLevel == ToLogLevel(StringField(env, "LOG_LEVEL", "info"))
            && StringField(env, "LOG_LEVEL", "info") in LogLevelOptions
            && c.authRateLimitWindowMs == ToNumber(StringField(env, "AUTH_RATE_LIMIT_WINDOW_MS", "900000")).value
            && c.authRateLimitMaxAttempts == ToNumber(StringField(env, "AUTH_RATE_LIMIT_MAX_ATTEMPTS", "5")).value
            && c.apiRateLimitWindowMs == ToNumber(StringField(env, "API_RATE_LIMIT_WINDOW_MS", "900000")).value
            && c.apiRateLimitMaxRequests == ToNumber(StringField(env, "API_RATE_LIMIT_MAX_REQUESTS", "100")).value
            && c.corsOrigin == StringField(env, "CORS_ORIGIN", "http://localhost:3000")
            && c.allowedOrigins == StringField(env, "ALLOWED_ORIGINS", "http://localhost:3000,http://localhost:3001")
            && c.healthCheckTimeout == ToNumber(StringField(env, "HEALTH_CHECK_TIMEOUT", "5000")).value
  {
  }

  /** None of the keys that have a default is set. */
  predicate NoDefaultedKeySet(env: Environment) {
    && "NODE_ENV" !in env && "JWT_ACCESS_EXPIRY" !in env && "JWT_REFRESH_EXPIRY" !in env
    && "AUTH_PORT" !in env && "SIGNALING_PORT" !in env && "LOG_LEVEL" !in env
    && "AUTH_RATE_LIMIT_WINDOW_MS" !in env && "AUTH_RATE_LIMIT_MAX_ATTEMPTS" !in env
    && "API_RATE_LIMIT_WINDOW_MS" !in env && "API_RATE_LIMIT_MAX_REQUESTS" !in env
    && "CORS_ORIGIN" !in env && "ALLOWED_ORIGINS" !in env && "HEALTH_CHECK_TIMEOUT" !in env
  }

  /** The six keys without a default are set to acceptable values. */
  predicate RequiredKeysAcceptable(env: Environment, isUrl: string -> bool) {
    && "DATABASE_URL" in env && isUrl(env["DATABASE_URL"])
    && "REDIS_URL" in env && isUrl(env["REDIS_URL"])
    && "JWT_ACCESS_SECRET" in env && |env["JWT_ACCESS_SECRET"]| >= 32
    && "JWT_REFRESH_SECRET" in env && |env["JWT_REFRESH_SECRET"]| >= 32
    && "GOOGLE_CLIENT_ID" in env && |env["GOOGLE_CLIENT_ID"]| >= 1
    && "GOOGLE_CLIENT_SECRET" in env && |env["GOOGLE_CLIENT_SECRET"]| >= 1
  }

  /** An environment that sets the six keys without a default acceptably
      and none of the others validates to the schema's defaults. */
  lemma DefaultsApply(env: Environment, isUrl: string -> bool)
    requires NoDefaultedKeySet(env)
    requires RequiredKeysAcceptable(env, isUrl)
    ensures var r := ValidateEnv(env, isUrl);
            && r.Ok?
            && r.value.nodeEnv == Development && r.value.logLevel == InfoLevel
            && r.value.jwtAccessExpiry == "15m" && r.value.jwtRefreshExpiry == "7d"
            && r.value.authPort == 3001 && r.value.signalingPort == 3002
            && r.value.authRateLimitWindowMs == 900000 && r.value.authRateLimitMaxAttempts == 5
            && r.value.apiRateLimitWindowMs == 900000 && r.value.apiRateLimitMaxRequests == 100
            && r.value.healthCheckTimeout == 5000
            && r.value.corsOrigin == "http://localhost:3000"
            && r.value.allowedOrigins == "http://localhost:3000,http://localhost:3001"
  {
    DefaultsPass(env, isUrl);
    DefaultFields(env, isUrl);
    BuiltDefaults(env, CheckFields(env, isUrl));
  }

  /** The configuration built from the default values of the checked keys. */
  lemma BuiltDefaults(env: Environment, f: Fields)
    requires NoDefaultedKeySet(env)
    requires f.nodeEnv == Ok(Str("development")) && f.logLevel == Ok(Str("info"))
    requires f.authPort == Ok(Num(3001)) && f.signalingPort == Ok(Num(3002))
    requires f.authRateLimitWindowMs == Ok(Num(900000)) && f.authRateLimitMaxAttempts == Ok(Num(5))
    requires f.apiRateLimitWindowMs == Ok(Num(900000)) && f.apiRateLimitMaxRequests == Ok(Num(100))
    requires f.healthCheckTimeout == Ok(Num(5000))
    ensures var c := BuildConfig(env, f);
            && c.nodeEnv == Development && c.logLevel == InfoLevel
            && c.jwtAccessExpiry == "15m" && c.jwtRefreshExpiry == "7d"
            && c.authPort == 3001 && c.signalingPort == 3002
            && c.authRateLimitWindowMs == 900000 && c.authRateLimitMaxAttempts == 5
            && c.apiRateLimitWindowMs == 900000 && c.apiRateLimitMaxRequests == 100
            && c.healthCheckTimeout == 5000
            && c.corsOrigin == "http://localhost:3000"
            && c.allowedOrigins == "http://localhost:3000,http://localhost:3001"
  {
    assert ToLogLevel("info") == InfoLevel;
    assert ToNodeEnv("development") == Development;
  }

  lemma DefaultsPass(env: Environment, isUrl: string -> bool)
    requires NoDefaultedKeySet(env)
    requires RequiredKeysAcceptable(env, isUrl)
    ensures ValidateEnv(env, isUrl) == Ok(BuildConfig(env, CheckFields(env, isUrl)))
  {
    DefaultFields(env, isUrl);
  }

  /** The checked keys of such an environment: the defaults, converted. */
  lemma DefaultFields(env: Environment, isUrl: string -> bool)
    requires NoDefaultedKeySet(env)
    requires RequiredKeysAcceptable(env, isUrl)
    ensures var f := CheckFields(env, isUrl);
            && f.nodeEnv == Ok(Str("development")) && f.logLevel == Ok(Str("info"))
            && f.databaseUrl.Ok? && f.redisUrl.Ok? && f.jwtAccessSecret.Ok? && f.jwtRefreshSecret.Ok?
            && f.googleClientId.Ok? && f.googleClientSecret.Ok?
            && f.authPort == Ok(Num(3001)) && f.signalingPort == Ok(Num(3002))
            && f.authRateLimitWindowMs == Ok(Num(900000)) && f.authRateLimitMaxAttempts == Ok(Num(5))
            && f.apiRateLimitWindowMs == Ok(Num(900000)) && f.apiRateLimitMaxRequests == Ok(Num(100))
            && f.healthCheckTimeout == Ok(Num(5000))
  {
    var f := CheckFields(env, isUrl);
    DefaultNumerals();
    assert f.authPort == Ok(Num(3001)) by { DefaultPort(env, "AUTH_PORT", "3001", 3001); }
    assert f.signalingPort == Ok(Num(3002)) by { DefaultPort(env, "SIGNALING_PORT", "3002", 3002); }
    assert f.authRateLimitWindowMs == Ok(Num(900000)) by {
      DefaultPositive(env, "AUTH_RATE_LIMIT_WINDOW_MS", "900000", 900000);
    }
    assert f.authRateLimitMaxAttempts == Ok(Num(5)) by {
      DefaultPositive(env, "AUTH_RATE_LIMIT_MAX_ATTEMPTS", "5", 5);
    }
    assert f.apiRateLimitWindowMs == Ok(Num(900000)) by {
      DefaultPositive(env, "API_RATE_LIMIT_WINDOW_MS", "900000", 900000);
    }
    assert f.apiRateLimitMaxRequests == Ok(Num(100)) by {
      DefaultPositive(env, "API_RATE_LIMIT_MAX_REQUESTS", "100", 100);
    }
    assert f.healthCheckTimeout == Ok(Num(5000)) by {
      DefaultPositive(env, "HEALTH_CHECK_TIMEOUT", "5000", 5000);
    }
  }

  /** An unset port key takes its default. */
  lemma DefaultPort(env: Environment, key: string, default: string, n: nat)
    requires key !in env && ToNumber(default) == Some(n) && 1 <= n <= 65535
    ensures PortField(env, key, default) == Ok(Num(n))
  {
  }

  /** An unset positive numeric key takes its default. */
  lemma DefaultPositive(env: Environment, key: string, default: string, n: nat)
    requires key !in env && ToNumber(default) == Some(n) && n > 0
    ensures PositiveField(env, key, default) == Ok(Num(n))
  {
  }

  /** The numeric defaults of the schema read as the numbers they spell. */
  lemma DefaultNumerals()
    ensures ToNumber("3001") == Some(3001) && ToNumber("3002") == Some(3002)
    ensures ToNumber("900000") == Some(900000) && ToNumber("5") == Some(5)
    ensures ToNumber("100") == Some(100) && ToNumber("5000") == Some(5000)
  {
    PortNumerals();
    LimitNumerals();
  }

  lemma PortNumerals()
    ensures ToNumber("3001") == Some(3001) && ToNumber("3002") == Some(3002)
  {
    assert NatToString(3001) == "3001";
    assert NatToString(3002) == "3002";
    NumberOfDigitString(NatToString(3001));
    DigitsValueOfNatToString(3001);
    NumberOfDigitString(NatToString(3002));
    DigitsValueOfNatToString(3002);
  }

  lemma LimitNumerals()
    ensures ToNumber("900000") == Some(900000) && ToNumber("5") == Some(5)
    ensures ToNumber("100") == Some(100) && ToNumber("5000") == Some(5000)
  {
    assert NatToString(900000) == "900000";
    assert NatToString(5) == "5";
    assert NatToString(100) == "100";
    assert NatToString(5000) == "5000";
    NumberOfDigitString(NatToString(900000));
    DigitsValueOfNatToString(900000);
    NumberOfDigitString(NatToString(5));
    DigitsValueOfNatToString(5);
    NumberOfDigitString(NatToString(100));
    DigitsValueOfNatToString(100);
    NumberOfDigitString(NatToString(5000));
    DigitsValueOfNatToString(5000);
  }

  /** A decimal digit string converts to its value. */
  lemma NumberOfDigitString(s: string)
    requires IsDigits(s)
    ensures ToNumber(s) == Some(DigitsValue(s))
  {
    TrimOfTrimmed(s);
  }

  /** A secret shorter than 32 characters is reported against its own key. */
  lemma ShortSecretIsReported(env: Environment, isUrl: string -> bool)
    requires "JWT_ACCESS_SECRET" in env && |env["JWT_ACCESS_SECRET"]| < 32
    ensures ValidateEnv(env, isUrl).Err?
    ensures Issue("JWT_ACCESS_SECRET", "JWT access secret must be at least 32 characters")
            in Issues(CheckFields(env, isUrl).InOrder())
  {
    IssuesAreTheFailures(CheckFields(env, isUrl).InOrder());
  }

  /** When no issue line contains a line break, the failure message lists
      exactly the issues, one per line, after the fixed first line. */
  lemma FailureMessageLines(env: Environment, isUrl: string -> bool)
    requires ValidateEnv(env, isUrl).Err?
    requires forall l :: l in IssueLines(Issues(CheckFields(env, isUrl).InOrder())) ==> '\n' !in l
    ensures var m := ValidateEnv(env, isUrl).error;
            && StartsWith(m, FailurePrefix)
            && Split(m[|FailurePrefix|..], '\n') == IssueLines(Issues(CheckFields(env, isUrl).InOrder()))
  {
    NoIssuesIffFieldsPass(CheckFields(env, isUrl));
    PrefixedLines(IssueLines(Issues(CheckFields(env, isUrl).InOrder())), ValidateEnv(env, isUrl).error);
  }

  /** The fixed first line followed by joined lines splits back into them. */
  lemma PrefixedLines(lines: seq<string>, m: string)
    requires |lines| >= 1 && forall l :: l in lines ==> '\n' !in l
    requires m == FailurePrefix + Join(lines, "\n")
    ensures StartsWith(m, FailurePrefix) && Split(m[|FailurePrefix|..], '\n') == lines
  {
    assert m[..|FailurePrefix|] == FailurePrefix;
    assert m[|FailurePrefix|..] == Join(lines, "\n");
    SplitJoin(lines, '\n');
  }

  // ---------------------------------------------------------------------------
  // Getters

  datatype CorsConfig = CorsConfig(origin: seq<string>, credentials: bool, optionsSuccessStatus: int)

  /** `getCorsConfig()`: the comma-separated allowed origins, each trimmed. */
  function GetCorsConfig(c: Config): (r: CorsConfig)
    ensures |r.origin| == |Split(c.allowedOrigins, ',')| >= 1
    ensures forall i :: 0 <= i < |r.origin| ==> r.origin[i] == Trim(Split(c.allowedOrigins, ',')[i])
    ensures forall i :: 0 <= i < |r.origin| ==> ',' !in r.origin[i]
    ensures forall i :: 0 <= i < |r.origin| && |r.origin[i]| > 0 ==>
              !IsWhiteSpace(r.origin[i][0]) && !IsWhiteSpace(r.origin[i][|r.origin[i]| - 1])
    ensures r.credentials && r.optionsSuccessStatus == 200
  {
    var parts := Split(c.allowedOrigins, ',');
    var origins := TrimAll(parts);
    assert forall i :: 0 <= i < |origins| ==> ',' !in origins[i] by {
      forall i | 0 <= i < |origins| ensures ',' !in origins[i] {
        TrimKeepsOut(parts[i], ',');
      }
    }
    CorsConfig(origins, true, 200)
  }

  /** Every entry trimmed. */
  function TrimAll(parts: seq<string>): (r: seq<string>)
    ensures |r| == |parts| && forall i :: 0 <= i < |r| ==> r[i] == Trim(parts[i])
  {
    seq(|parts|, i requires 0 <= i < |parts| => Trim(parts[i]))
  }

  /** Trimming adds no character. */
  lemma TrimKeepsOut(s: string, c: char)
    requires c !in s
    ensures c !in Trim(s)
  {
    var i, j := TrimSpec(s);
    assert forall k :: 0 <= k < j - i ==> Trim(s)[k] == s[i + k];
  }

  /** Each origin is its comma-separated entry with the white space at both
      ends cut off, and nothing else. */
  lemma CorsOriginIsTrimmedEntry(c: Config, n: nat) returns (lo: nat, hi: nat)
    requires n < |GetCorsConfig(c).origin|
    ensures lo <= hi <= |Split(c.allowedOrigins, ',')[n]|
    ensures GetCorsConfig(c).origin[n] == Split(c.allowedOrigins, ',')[n][lo..hi]
    ensures forall k :: 0 <= k < lo ==> IsWhiteSpace(Split(c.allowedOrigins, ',')[n][k])
    ensures forall k :: hi <= k < |Split(c.allowedOrigins, ',')[n]| ==> IsWhiteSpace(Split(c.allowedOrigins, ',')[n][k])
    ensures lo < hi ==> !IsWhiteSpace(Split(c.allowedOrigins, ',')[n][lo]) && !IsWhiteSpace(Split(c.allowedOrigins, ',')[n][hi - 1])
  {
    lo, hi := TrimSpec(Split(c.allowedOrigins, ',')[n]);
  }

  /** When no entry of the list has surrounding white space, the origins are
      exactly the comma-separated entries: joining them gives the list back. */
  lemma {:induction false} CorsOriginsRoundTrip(c: Config)
    requires forall p :: p in Split(c.allowedOrigins, ',') && |p| > 0 ==>
               !IsWhiteSpace(p[0]) && !IsWhiteSpace(p[|p| - 1])
    ensures Join(GetCorsConfig(c).origin, ",") == c.allowedOrigins
  {
    var parts := Split(c.allowedOrigins, ',');
    forall i | 0 <= i < |parts| ensures Trim(parts[i]) == parts[i] {
      TrimOfTrimmed(parts[i]);
    }
    assert GetCorsConfig(c).origin == parts;
    JoinSplit(c.allowedOrigins, ',');
  }

  /** A list of comma-free entries without surrounding white space, joined
      with commas, yields exactly those entries as origins (the default list
      of the two local front-end origins is one). */
  lemma {:induction false} CorsOriginsOfList(c: Config, entries: seq<string>)
    requires |entries| >= 1 && c.allowedOrigins == Join(entries, ",")
    requires forall i :: 0 <= i < |entries| ==> ',' !in entries[i]
    requires forall i :: 0 <= i < |entries| && |entries[i]| > 0 ==>
               !IsWhiteSpace(entries[i][0]) && !IsWhiteSpace(entries[i][|entries[i]| - 1])
    ensures GetCorsConfig(c).origin == entries
  {
    SplitJoin(entries, ',');
    forall i | 0 <= i < |entries| ensures Trim(entries[i]) == entries[i] {
      TrimOfTrimmed(entries[i]);
    }
  }

  datatype RateLimitConfig = RateLimitConfig(windowMs: int, max: int)

  /** `getAuthRateLimitConfig()`. */
  function GetAuthRateLimitConfig(c: Config): (r: RateLimitConfig)
    ensures ValidConfig(c) ==> r.windowMs > 0 && r.max > 0
    ensures r == RateLimitConfig(c.authRateLimitWindowMs, c.authRateLimitMaxAttempts)
  {
    RateLimitConfig(c.authRateLimitWindowMs, c.authRateLimitMaxAttempts)
  }

  /** `getApiRateLimitConfig()`. */
  function GetApiRateLimitConfig(c: Config): (r: RateLimitConfig)
    ensures ValidConfig(c) ==> r.windowMs > 0 && r.max > 0
    ensures r == RateLimitConfig(c.apiRateLimitWindowMs, c.apiRateLimitMaxRequests)
  {
    RateLimitConfig(c.apiRateLimitWindowMs, c.apiRateLimitMaxRequests)
  }
}
