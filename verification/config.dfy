/**
 * Process configuration as a function of the environment-variable map:
 * the settings dictionary read at start-up and the CORS policy.
 */
module Config {
  import opened Wrappers
  import opened Strings

  type Env = map<string, string>

  /** `os.environ.get(key, default)` */
  function Getenv(env: Env, key: string, default: string): (r: string)
    ensures key in env ==> r == env[key]
    ensures key !in env ==> r == default
  {
    if key in env then env[key] else default
  }

  /** `value.lower() == "true"` */
  predicate IsTrue(value: string) {
    Lower(value) == "true"
  }

  // ---------------------------------------------------------------------------
  // int(): optional surrounding whitespace, an optional sign, then decimal
  // digits in which single underscores may separate digits.

  /** Each underscore sits between two digits, and there is at least one digit. */
  predicate ValidDigits(s: string) {
    |s| > 0 && forall i :: 0 <= i < |s| ==> IsDigit(s[i]) || (s[i] == '_' && BetweenDigits(s, i))
  }

  predicate BetweenDigits(s: string, i: int) {
    0 < i < |s| - 1 && IsDigit(s[i - 1]) && IsDigit(s[i + 1])
  }

  function DropUnderscores(s: string): (r: string)
    ensures |r| <= |s|
    ensures forall i :: 0 <= i < |r| ==> r[i] != '_'
  {
    if |s| == 0 then ""
    else (if s[0] == '_' then "" else [s[0]]) + DropUnderscores(s[1..])
  }

  /** The value of a string of decimal digits, most significant first. */
  function DigitsValue(s: string): (n: nat)
    requires forall i :: 0 <= i < |s| ==> IsDigit(s[i])
  {
    if |s| == 0 then 0
    else
      assert IsDigit(s[|s| - 1]);
      DigitsValue(s[..|s| - 1]) * 10 + (s[|s| - 1] as int - '0' as int)
  }

  /** An unsigned digit string with optional underscores, or `None` when it is malformed. */
  function ParseUnsigned(body: string): (r: Option<nat>)
    ensures r.Some? <==> ValidDigits(body)
  {
    if ValidDigits(body) then
      DropUnderscoresOfValid(body);
      Some(DigitsValue(DropUnderscores(body)))
    else None
  }

  /** `int(s)`, with `None` where Python raises `ValueError`. */
  function ParseInt(s: string): Option<int> {
    ParseStripped(Strip(s))
  }

  /** `int()` on text without surrounding whitespace. */
  function ParseStripped(t: string): (r: Option<int>)
    ensures r.Some? ==> |t| > 0
  {
    if |t| > 0 && (t[0] == '-' || t[0] == '+') then
      match ParseUnsigned(t[1..])
      case Some(n) => Some(if t[0] == '-' then 0 - n else n)
      case None => None
    else
      match ParseUnsigned(t)
      case Some(n) => Some(n)
      case None => None
  }

  lemma {:induction false} DropUnderscoresOfValid(s: string)
    requires ValidDigits(s)
    ensures forall i :: 0 <= i < |DropUnderscores(s)| ==> IsDigit(DropUnderscores(s)[i])
  {
    DigitsOrUnderscores(s);
  }

  lemma {:induction false} DigitsOrUnderscores(s: string)
    requires forall i :: 0 <= i < |s| ==> IsDigit(s[i]) || s[i] == '_'
    ensures forall i :: 0 <= i < |DropUnderscores(s)| ==> IsDigit(DropUnderscores(s)[i])
  {
    if |s| > 0 {
      DigitsOrUnderscores(s[1..]);
    }
  }

  lemma {:induction false} DropUnderscoresOfDigits(s: string)
    requires forall i :: 0 <= i < |s| ==> IsDigit(s[i])
    ensures DropUnderscores(s) == s
  {
    if |s| > 0 {
      DropUnderscoresOfDigits(s[1..]);
      assert s == [s[0]] + s[1..];
    }
  }

  lemma {:induction false} DigitsValueOfNatText(n: nat)
    ensures DigitsValue(NatText(n)) == n
  {
    if n >= 10 {
      var prefix := NatText(n / 10);
      var s := prefix + [DigitChar(n % 10)];
      assert s[..|s| - 1] == prefix;
      DigitsValueOfNatText(n / 10);
    }
  }

  lemma ParseUnsignedNatText(n: nat)
    ensures ParseUnsigned(NatText(n)) == Some(n)
  {
    var s := NatText(n);
    assert ValidDigits(s);
    DropUnderscoresOfDigits(s);
    DigitsValueOfNatText(n);
  }

  lemma StripOfIntText(n: int)
    ensures Strip(IntText(n)) == IntText(n)
  {
    var s := IntText(n);
    assert "" + s + "" == s;
    StripByExact("", s, "", IsSpace);
  }

  /** Text produced by `str(n)` parses back to `n`. */
  lemma ParseIntText(n: int)
    ensures ParseInt(IntText(n)) == Some(n)
  {
    StripOfIntText(n);
    assert ParseInt(IntText(n)) == ParseStripped(IntText(n));
    if n < 0 {
      ParseUnsignedNatText(-n);
      assert IntText(n)[1..] == NatText(-n);
    } else {
      ParseUnsignedNatText(n);
    }
  }

  /** Surrounding whitespace does not change what `int()` reads. */
  lemma ParseIntIgnoresPadding(left: string, core: string, right: string)
    requires forall i :: 0 <= i < |left| ==> IsSpace(left[i])
    requires forall i :: 0 <= i < |right| ==> IsSpace(right[i])
    requires |core| > 0 && !IsSpace(core[0]) && !IsSpace(core[|core| - 1])
    ensures ParseInt(left + core + right) == ParseInt(core)
  {
    StripByExact(left, core, right, IsSpace);
    assert "" + core + "" == core;
    StripByExact("", core, "", IsSpace);
  }

  // ---------------------------------------------------------------------------
  // The settings dictionary

  datatype EnvConfig = EnvConfig(
    environment: string,
    debug: bool,
    redisUrl: string,
    redisExpirationSeconds: int,
    apiHost: string,
    apiPort: int,
    useContainers: bool,
    containerMemoryLimit: string,
    containerCpuQuota: int,
    maxAgentInstances: int,
    agentTimeoutSeconds: int,
    maxSubtasks: int,
    maxTaskExecutionTime: int)

  /** The `ValueError` raised when an integer setting does not parse. */
  datatype ConfigError = InvalidInteger(variable: string, value: string)

  /**
   * `int(os.environ.get(key, str(default)))`. The default is held as the
   * number its literal denotes; `ParseIntText` shows that reading the literal
   * gives that number back.
   */
  function IntSetting(env: Env, key: string, default: int): (r: Result<int, ConfigError>)
    ensures key !in env ==> r == Success(default)
    ensures key in env ==> (r.Success? <==> ParseInt(env[key]).Some?)
    ensures key in env && r.Success? ==> Some(r.value) == ParseInt(env[key])
    ensures r.Failure? ==> r.error == InvalidInteger(key, env[key])
  {
    if key !in env then Success(default)
    else
      match ParseInt(env[key])
      case Some(n) => Success(n)
      case None => Failure(InvalidInteger(key, env[key]))
  }

  /** The integer settings in the order they are listed, with the default of each. */
  const IntSettings: seq<(string, int)> := [
    ("REDIS_EXPIRATION_SECONDS", 604800), ("API_PORT", 8098), ("CONTAINER_CPU_QUOTA", 50000),
    ("MAX_AGENT_INSTANCES", 5), ("AGENT_TIMEOUT_SECONDS", 60), ("MAX_SUBTASKS", 10),
    ("MAX_TASK_EXECUTION_TIME", 300)]

  predicate BadInt(env: Env, key: string) {
    key in env && ParseInt(env[key]).None?
  }

  /** The `i`th listed setting is malformed and none before it is. */
  predicate FirstBad(env: Env, settings: seq<(string, int)>, i: nat)
    requires i < |settings|
  {
    BadInt(env, settings[i].0) && forall j :: 0 <= j < i ==> !BadInt(env, settings[j].0)
  }

  /** Reads the listed integer settings in order, stopping at the first that does not parse. */
  function ReadInts(env: Env, settings: seq<(string, int)>): (r: Result<seq<int>, ConfigError>)
    ensures r.Failure? <==> exists i | 0 <= i < |settings| :: BadInt(env, settings[i].0)
    ensures r.Success? ==> |r.value| == |settings|
    ensures r.Success? ==> forall i :: 0 <= i < |settings| ==> Success(r.value[i]) == IntSetting(env, settings[i].0, settings[i].1)
    ensures r.Failure? ==> BadInt(env, r.error.variable) && exists i | 0 <= i < |settings| :: settings[i].0 == r.error.variable
  {
    if |settings| == 0 then Success([])
    else
      var first := IntSetting(env, settings[0].0, settings[0].1);
      if first.Failure? then
        assert BadInt(env, settings[0].0);
        Failure(first.error)
      else
        var rest := ReadInts(env, settings[1..]);
        if rest.Failure? then
          var j :| 0 <= j < |settings[1..]| && BadInt(env, settings[1..][j].0);
          assert BadInt(env, settings[j + 1].0);
          var k :| 0 <= k < |settings[1..]| && settings[1..][k].0 == rest.error.variable;
          assert settings[k + 1].0 == rest.error.variable;
          Failure(rest.error)
        else
          assert !BadInt(env, settings[0].0);
          assert forall i | 1 <= i < |settings| :: settings[i] == settings[1..][i - 1];
          Success([first.value] + rest.value)
  }

  /**
   * Reading stops at the first malformed setting in listing order, and the
   * error carries that setting's name and text.
   */
  lemma {:induction false} ReadIntsStopsAtFirstBad(env: Env, settings: seq<(string, int)>)
    ensures var r := ReadInts(env, settings);
      r.Failure? ==> exists i | 0 <= i < |settings| :: FirstBad(env, settings, i) && r.error == InvalidInteger(settings[i].0, env[settings[i].0])
  {
    if |settings| > 0 && IntSetting(env, settings[0].0, settings[0].1).Success? {
      var rest := ReadInts(env, settings[1..]);
      ReadIntsStopsAtFirstBad(env, settings[1..]);
      if rest.Failure? {
        var f :| 0 <= f < |settings[1..]| && FirstBad(env, settings[1..], f)
                 && rest.error == InvalidInteger(settings[1..][f].0, env[settings[1..][f].0]);
        assert !BadInt(env, settings[0].0);
        assert FirstBad(env, settings, f + 1) by {
          forall m | 0 <= m < f + 1 ensures !BadInt(env, settings[m].0) {
            if m > 0 { assert settings[m] == settings[1..][m - 1]; }
          }
        }
      }
    }
  }

  /** `get_env_config()`: integer settings are parsed in the order they are listed; the first bad one is the error. */
  function GetEnvConfig(env: Env): (r: Result<EnvConfig, ConfigError>)
    ensures r.Failure? <==> exists i | 0 <= i < |IntSettings| :: BadInt(env, IntSettings[i].0)
    ensures r.Failure? ==> BadInt(env, r.error.variable)
    ensures r.Failure? ==> exists i | 0 <= i < |IntSettings| :: FirstBad(env, IntSettings, i) && r.error == InvalidInteger(IntSettings[i].0, env[IntSettings[i].0])
    ensures r.Success? ==> r.value.environment == Getenv(env, "ENVIRONMENT", "development")
    ensures r.Success? ==> (r.value.debug <==> IsTrue(Getenv(env, "DEBUG", "true")))
    ensures r.Success? ==> r.value.redisUrl == Getenv(env, "REDIS_URL", "redis://localhost:6379")
    ensures r.Success? ==> Success(r.value.redisExpirationSeconds) == IntSetting(env, "REDIS_EXPIRATION_SECONDS", 604800)
    ensures r.Success? ==> r.value.apiHost == Getenv(env, "API_HOST", "0.0.0.0")
    ensures r.Success? ==> Success(r.value.apiPort) == IntSetting(env, "API_PORT", 8098)
    ensures r.Success? ==> (r.value.useContainers <==> IsTrue(Getenv(env, "USE_CONTAINERS", "false")))
    ensures r.Success? ==> r.value.containerMemoryLimit == Getenv(env, "CONTAINER_MEMORY_LIMIT", "512m")
    ensures r.Success? ==> Success(r.value.containerCpuQuota) == IntSetting(env, "CONTAINER_CPU_QUOTA", 50000)
    ensures r.Success? ==> Success(r.value.maxAgentInstances) == IntSetting(env, "MAX_AGENT_INSTANCES", 5)
    ensures r.Success? ==> Success(r.value.agentTimeoutSeconds) == IntSetting(env, "AGENT_TIMEOUT_SECONDS", 60)
    ensures r.Success? ==> Success(r.value.maxSubtasks) == IntSetting(env, "MAX_SUBTASKS", 10)
    ensures r.Success? ==> Success(r.value.maxTaskExecutionTime) == IntSetting(env, "MAX_TASK_EXECUTION_TIME", 300)
  {
    ReadIntsStopsAtFirstBad(env, IntSettings);
    var n :- ReadInts(env, IntSettings);
    Success(EnvConfig(
      Getenv(env, "ENVIRONMENT", "development"),
      IsTrue(Getenv(env, "DEBUG", "true")),
      Getenv(env, "REDIS_URL", "redis://localhost:6379"),
      n[0],
      Getenv(env, "API_HOST", "0.0.0.0"),
      n[1],
      IsTrue(Getenv(env, "USE_CONTAINERS", "false")),
      Getenv(env, "CONTAINER_MEMORY_LIMIT", "512m"),
      n[2], n[3], n[4], n[5], n[6]))
  }

  /** With nothing set, every setting takes its documented default. */
  lemma GetEnvConfigDefaults()
    ensures GetEnvConfig(map[]) == Success(EnvConfig(
      "development", true, "redis://localhost:6379", 604800, "0.0.0.0", 8098,
      false, "512m", 50000, 5, 60, 10, 300))
  {
    assert Lower("true") == "true";
    assert Lower("false") != "true" by {
      assert |Lower("false")| != |"true"|;
    }
  }

  // ---------------------------------------------------------------------------
  // CORS

  const DefaultOrigin := "https://autonomous-ai-agent.example.com"

  predicate IsProduction(env: Env) {
    Lower(Getenv(env, "ENVIRONMENT", "development")) == "production"
  }

  /** `get_allowed_origins()` */
  function AllowedOrigins(env: Env): (r: seq<string>)
    ensures !IsProduction(env) ==> r == ["*"]
    ensures IsProduction(env) ==> Join(r, ",") == Getenv(env, "ALLOWED_ORIGINS", DefaultOrigin)
    ensures |r| >= 1
  {
    if IsProduction(env) then
      var v := Getenv(env, "ALLOWED_ORIGINS", DefaultOrigin);
      JoinSplit(v, ",");
      Split(v, ",")
    else ["*"]
  }

  datatype CorsConfig = CorsConfig(
    allowOrigins: seq<string>,
    allowCredentials: bool,
    allowMethods: seq<string>,
    allowHeaders: seq<string>)

  /** `get_cors_config()` */
  function GetCorsConfig(env: Env): (r: CorsConfig)
    ensures r.allowOrigins == AllowedOrigins(env)
    ensures r.allowCredentials
    ensures !IsProduction(env) ==> r.allowMethods == ["*"] && r.allowHeaders == ["*"]
    ensures IsProduction(env) ==> r.allowMethods == ["GET", "POST", "PUT", "DELETE"]
    ensures IsProduction(env) ==> r.allowHeaders == ["Content-Type", "Authorization", "Accept"]
  {
    CorsConfig(
      AllowedOrigins(env),
      true,
      if IsProduction(env) then ["GET", "POST", "PUT", "DELETE"] else ["*"],
      if IsProduction(env) then ["Content-Type", "Authorization", "Accept"] else ["*"])
  }

  /** The production origin list is the comma-separated pieces, untrimmed. */
  lemma ProductionOriginsArePieces(env: Env, origins: seq<string>)
    requires IsProduction(env) && "ALLOWED_ORIGINS" in env
    requires |origins| >= 1 && forall i :: 0 <= i < |origins| ==> ',' !in origins[i]
    requires env["ALLOWED_ORIGINS"] == Join(origins, ",")
    ensures AllowedOrigins(env) == origins
  {
    var v := env["ALLOWED_ORIGINS"];
    assert AllowedOrigins(env) == Split(v, ",");
    SplitJoin(origins, ",");
  }

  /** Without ALLOWED_ORIGINS, production admits the one default origin. */
  lemma ProductionDefaultOrigin(env: Env)
    requires IsProduction(env) && "ALLOWED_ORIGINS" !in env
    ensures AllowedOrigins(env) == [DefaultOrigin]
  {
    assert ',' !in DefaultOrigin;
    NoSeparatorNoSplit(DefaultOrigin, ",");
  }
}
