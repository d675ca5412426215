/** The configuration validator: credential checks, trading-parameter range checks and a
    redacted environment summary. Each validator appends what it finds to the validator's
    error and warning lists and returns whether its part of the configuration is valid.

    The environment is a map from variable name to value, passed in; the trading parameters
    arrive parsed, with `None` where `int()` or `float()` would raise `ValueError`. */
module Config {
  import opened Wrappers
  import opened Text

  datatype SecurityConfig = SecurityConfig(
    minApiKeyLength: int,
    maxApiKeyLength: int,
    forbiddenTestValues: seq<string>,
    requiredEnvVars: seq<string>)

  /** `SecurityConfig()` with every default filled in. */
  const DefaultSecurityConfig: SecurityConfig := SecurityConfig(
    20, 200,
    ["your_api_key_here", "your_secret_key_here", "your_claude_api_key_here", "test_key",
     "demo_key", "placeholder", "changeme", "example", "sample"],
    ["APCA_API_KEY_ID", "APCA_API_SECRET_KEY", "TRADING_MODE"])

  /** One entry of `validation_errors`, with the values its message reports. */
  datatype ValidationError =
    | EmptyKey(keyName: string)
    | PlaceholderKey(keyName: string, forbidden: string)
    | KeyTooShort(keyName: string, length: int, minimum: int)
    | KeyTooLong(keyName: string, length: int, maximum: int)
    | IdenticalAlpacaKeys
    | MissingLlmKey
    | MissingEnvVars(names: seq<string>)
    | IntOutOfRange(parameter: string, intValue: int, low: int, high: int)
    | RealOutOfRange(parameter: string, realValue: real, realLow: real, realHigh: real)
    | RsiThresholdNotBelowExit(threshold: int, exit: int)
    | UnknownTimeframe(timeframe: string)
    | WrongTradingMode(mode: string)
    | EmptyUniverse
    | UniverseTooLarge(count: int)
    | InvalidNumber(parameter: string)

  /** One entry of `security_warnings`. */
  datatype SecurityWarning =
    | TestKey(keyName: string)
    | UnexpectedAlpacaPrefix
    | UnexpectedClaudePrefix

  /** What one validator contributes: its verdict and the entries it appends. */
  datatype Report = Report(ok: bool, errors: seq<ValidationError>, warnings: seq<SecurityWarning>)

  /** `os.getenv(name, default)` */
  function GetEnv(env: map<string, string>, name: string, default: string): string {
    if name in env then env[name] else default
  }

  /** The first forbidden placeholder that occurs, case-insensitively, in the lower-cased key. */
  function FirstForbidden(forbidden: seq<string>, keyLower: string): Option<string>
    decreases |forbidden|
  {
    if |forbidden| == 0 then None
    else if Contains(keyLower, Lower(forbidden[0])) then Some(forbidden[0])
    else FirstForbidden(forbidden[1..], keyLower)
  }

  /** Any placeholder that occurs in the key is caught (perhaps by an earlier one), and
      whatever is reported occurs in the key. */
  lemma {:induction false} FirstForbiddenFinds(forbidden: seq<string>, keyLower: string, i: int)
    requires 0 <= i < |forbidden| && Contains(keyLower, Lower(forbidden[i]))
    ensures FirstForbidden(forbidden, keyLower).Some?
    ensures FirstForbidden(forbidden, keyLower).value in forbidden[..i + 1]
    ensures Contains(keyLower, Lower(FirstForbidden(forbidden, keyLower).value))
    decreases |forbidden|
  {
    if !Contains(keyLower, Lower(forbidden[0])) {
      assert i > 0;
      FirstForbiddenFinds(forbidden[1..], keyLower, i - 1);
      assert forbidden[1..][..i] == forbidden[1..i + 1];
    }
  }

  predicate HasTestPrefix(value: string) {
    StartsWith(value, "test_") || StartsWith(value, "demo_") || StartsWith(value, "sample_")
  }

  /** `validate_api_key`: empty, then placeholder, then too short, then too long, each
      rejecting with exactly one error; an accepted key appends no error and warns when it
      carries a test prefix. */
  function ApiKeyReport(cfg: SecurityConfig, keyName: string, keyValue: string): (r: Report)
    ensures r.ok <==> r.errors == []
    ensures |r.errors| <= 1
    ensures r.ok <==> keyValue != "" && FirstForbidden(cfg.forbiddenTestValues, Lower(keyValue)).None? &&
                      cfg.minApiKeyLength <= |keyValue| <= cfg.maxApiKeyLength
    ensures r.warnings == if r.ok && HasTestPrefix(keyValue) then [TestKey(keyName)] else []
  {
    if keyValue == "" then Report(false, [EmptyKey(keyName)], [])
    else match FirstForbidden(cfg.forbiddenTestValues, Lower(keyValue))
      case Some(f) => Report(false, [PlaceholderKey(keyName, f)], [])
      case None =>
        if |keyValue| < cfg.minApiKeyLength then
          Report(false, [KeyTooShort(keyName, |keyValue|, cfg.minApiKeyLength)], [])
        else if |keyValue| > cfg.maxApiKeyLength then
          Report(false, [KeyTooLong(keyName, |keyValue|, cfg.maxApiKeyLength)], [])
        else
          Report(true, [], if HasTestPrefix(keyValue) then [TestKey(keyName)] else [])
  }

  /** A key holding a placeholder anywhere, in any letter case, is rejected. */
  lemma PlaceholderRejected(cfg: SecurityConfig, keyName: string, keyValue: string, i: int)
    requires 0 <= i < |cfg.forbiddenTestValues|
    requires Contains(Lower(keyValue), Lower(cfg.forbiddenTestValues[i]))
    ensures !ApiKeyReport(cfg, keyName, keyValue).ok
  {
    FirstForbiddenFinds(cfg.forbiddenTestValues, Lower(keyValue), i);
  }

  /** With the default placeholders, the `sample_` test-prefix warning can never be issued:
      such a key contains the placeholder `sample` and is rejected first. */
  lemma SamplePrefixIsRejected(keyName: string, keyValue: string)
    requires StartsWith(keyValue, "sample_")
    ensures !ApiKeyReport(DefaultSecurityConfig, keyName, keyValue).ok
    ensures ApiKeyReport(DefaultSecurityConfig, keyName, keyValue).warnings == []
  {
    var lowered := Lower(keyValue);
    assert lowered[0..6] == "sample";
    ContainsWitness(lowered, "sample", 0);
    assert Lower(DefaultSecurityConfig.forbiddenTestValues[8]) == "sample";
    PlaceholderRejected(DefaultSecurityConfig, keyName, keyValue, 8);
  }

  /** `validate_alpaca_credentials`: valid iff both keys validate and differ; the identical
      keys error is added only when both validated. */
  function AlpacaReport(cfg: SecurityConfig, env: map<string, string>): (r: Report)
    ensures r.ok <==> r.errors == []
    ensures r.ok <==>
              ApiKeyReport(cfg, "APCA_API_KEY_ID", GetEnv(env, "APCA_API_KEY_ID", "")).ok &&
              ApiKeyReport(cfg, "APCA_API_SECRET_KEY", GetEnv(env, "APCA_API_SECRET_KEY", "")).ok &&
              GetEnv(env, "APCA_API_KEY_ID", "") != GetEnv(env, "APCA_API_SECRET_KEY", "")
  {
    var apiKey := GetEnv(env, "APCA_API_KEY_ID", "");
    var secretKey := GetEnv(env, "APCA_API_SECRET_KEY", "");
    var api := ApiKeyReport(cfg, "APCA_API_KEY_ID", apiKey);
    var secret := ApiKeyReport(cfg, "APCA_API_SECRET_KEY", secretKey);
    var prefixWarning := if api.ok && !(StartsWith(apiKey, "PK") || StartsWith(apiKey, "AK"))
                         then [UnexpectedAlpacaPrefix] else [];
    var identical := api.ok && secret.ok && apiKey == secretKey;
    Report(api.ok && secret.ok && !identical,
           api.errors + secret.errors + (if identical then [IdenticalAlpacaKeys] else []),
           api.warnings + secret.warnings + prefixWarning)
  }

  /** Appending three lists one after the other appends their concatenation. */
  lemma AppendAssociates<T>(a: seq<T>, b: seq<T>, c: seq<T>, d: seq<T>)
    ensures a + b + c + d == a + (b + c + d)
  {
  }

  /** `AlpacaReport` as the two key reports followed by the prefix warning and the identity check. */
  lemma AlpacaReportSteps(cfg: SecurityConfig, env: map<string, string>)
    ensures var apiKey := GetEnv(env, "APCA_API_KEY_ID", "");
            var secretKey := GetEnv(env, "APCA_API_SECRET_KEY", "");
            var api := ApiKeyReport(cfg, "APCA_API_KEY_ID", apiKey);
            var secret := ApiKeyReport(cfg, "APCA_API_SECRET_KEY", secretKey);
            var identical := api.ok && secret.ok && apiKey == secretKey;
            AlpacaReport(cfg, env) ==
              Report(api.ok && secret.ok && !identical,
                     api.errors + secret.errors + (if identical then [IdenticalAlpacaKeys] else []),
                     api.warnings + secret.warnings +
                       (if api.ok && !(StartsWith(apiKey, "PK") || StartsWith(apiKey, "AK"))
                        then [UnexpectedAlpacaPrefix] else []))
  {
  }

  /** `validate_claude_credentials`: valid when the LLM analysis is off; otherwise the key must
      be present and validate. */
  function ClaudeReport(cfg: SecurityConfig, env: map<string, string>): (r: Report)
    ensures r.ok <==> r.errors == []
    ensures Lower(GetEnv(env, "LLM_ANALYSIS_ENABLED", "false")) != "true" ==> r == Report(true, [], [])
    ensures Lower(GetEnv(env, "LLM_ANALYSIS_ENABLED", "false")) == "true" ==>
              (r.ok <==> ApiKeyReport(cfg, "LLM_API_KEY", GetEnv(env, "LLM_API_KEY", "")).ok)
  {
    if Lower(GetEnv(env, "LLM_ANALYSIS_ENABLED", "false")) != "true" then Report(true, [], [])
    else
      var apiKey := GetEnv(env, "LLM_API_KEY", "");
      if apiKey == "" then Report(false, [MissingLlmKey], [])
      else
        var key := ApiKeyReport(cfg, "LLM_API_KEY", apiKey);
        Report(key.ok, key.errors,
               key.warnings + (if key.ok && !StartsWith(apiKey, "sk-ant-") then [UnexpectedClaudePrefix] else []))
  }

  /** A variable `os.getenv` finds no non-empty value for. */
  predicate IsMissing(env: map<string, string>, name: string) {
    name !in env || env[name] == ""
  }

  /** The required names without a value, in the order they are required. */
  function MissingVars(names: seq<string>, env: map<string, string>): seq<string>
    decreases |names|
  {
    if |names| == 0 then []
    else
      var last := names[|names| - 1];
      MissingVars(names[..|names| - 1], env) + (if IsMissing(env, last) then [last] else [])
  }

  /** The missing list holds exactly the required names that have no value. */
  lemma {:induction false} MissingVarsExact(names: seq<string>, env: map<string, string>, x: string)
    ensures x in MissingVars(names, env) <==> x in names && IsMissing(env, x)
    decreases |names|
  {
    if |names| > 0 {
      var init := names[..|names| - 1];
      MissingVarsExact(init, env, x);
      assert names == init + [names[|names| - 1]];
    }
  }

  /** `validate_required_env_vars` */
  function RequiredReport(cfg: SecurityConfig, env: map<string, string>): (r: Report)
    ensures r.ok <==> r.errors == []
    ensures r.ok <==> forall n :: n in cfg.requiredEnvVars ==> !IsMissing(env, n)
    ensures !r.ok ==> exists missing :: r.errors == [MissingEnvVars(missing)] &&
                        forall n :: n in missing <==> n in cfg.requiredEnvVars && IsMissing(env, n)
    ensures r.warnings == []
  {
    var missing := MissingVars(cfg.requiredEnvVars, env);
    AllPresentIffNoneMissing(cfg.requiredEnvVars, env);
    if missing == [] then Report(true, [], [])
    else
      assert forall n :: n in missing <==> n in cfg.requiredEnvVars && IsMissing(env, n) by {
        forall n { MissingVarsExact(cfg.requiredEnvVars, env, n); }
      }
      Report(false, [MissingEnvVars(missing)], [])
  }

  /** No required name is missing exactly when the missing list is empty. */
  lemma AllPresentIffNoneMissing(names: seq<string>, env: map<string, string>)
    ensures MissingVars(names, env) == [] <==> forall n :: n in names ==> !IsMissing(env, n)
  {
    var missing := MissingVars(names, env);
    forall n ensures n in missing <==> n in names && IsMissing(env, n) {
      MissingVarsExact(names, env, n);
    }
    if missing != [] {
      assert missing[0] in missing;
    }
  }

  /** The trading parameters as `int()`/`float()` would parse them (`None`: `ValueError`),
      with the text parameters as read. */
  datatype TradingParams = TradingParams(
    maxPositions: Option<int>,
    dollarsPerTrade: Option<int>,
    rsiThreshold: Option<int>,
    rsiExit: Option<int>,
    takeProfit: Option<real>,
    stopLoss: Option<real>,
    rsiPeriod: Option<int>,
    timeframe: string,
    tradingInterval: Option<int>,
    tradingMode: string,
    universe: string)

  const ValidTimeframes: seq<string> := ["1m", "5m", "15m", "1h", "4h", "1d", "1w"]

  /** The number of pieces that are not blank once stripped. */
  function CountNonBlank(pieces: seq<string>): (n: nat)
    ensures n <= |pieces|
    decreases |pieces|
  {
    if |pieces| == 0 then 0
    else CountNonBlank(pieces[..|pieces| - 1]) + (if IsBlank(pieces[|pieces| - 1]) then 0 else 1)
  }

  /** The size of the stock universe: the comma-separated entries that are not blank. */
  function UniverseSize(universe: string): nat {
    CountNonBlank(Split(universe, ','))
  }

  /** Every stated condition on the trading parameters, independently of the order in which
      they are checked. */
  predicate TradingParamsValid(p: TradingParams) {
    && p.maxPositions.Some? && 1 <= p.maxPositions.value <= 10
    && p.dollarsPerTrade.Some? && 100 <= p.dollarsPerTrade.value <= 100000
    && p.rsiThreshold.Some? && p.rsiExit.Some?
    && 1 <= p.rsiThreshold.value <= 50 && 50 <= p.rsiExit.value <= 99
    && p.rsiThreshold.value < p.rsiExit.value
    && p.takeProfit.Some? && 1.0 <= p.takeProfit.value <= 10.0
    && p.stopLoss.Some? && 1.0 <= p.stopLoss.value <= 10.0
    && p.rsiPeriod.Some? && 2 <= p.rsiPeriod.value <= 100
    && p.timeframe in ValidTimeframes
    && p.tradingInterval.Some? && 1 <= p.tradingInterval.value <= 1440
    && Upper(p.tradingMode) == "STOCKS"
    && 1 <= UniverseSize(p.universe) <= 50
  }

  /** `validate_trading_parameters`' first violation, in the order the checks run. */
  function TradingViolation(p: TradingParams): Option<ValidationError> {
    if p.maxPositions.None? then Some(InvalidNumber("MAX_POSITIONS"))
    else if !(1 <= p.maxPositions.value <= 10) then
      Some(IntOutOfRange("MAX_POSITIONS", p.maxPositions.value, 1, 10))
    else if p.dollarsPerTrade.None? then Some(InvalidNumber("DOLLARS_PER_TRADE"))
    else if !(100 <= p.dollarsPerTrade.value <= 100000) then
      Some(IntOutOfRange("DOLLARS_PER_TRADE", p.dollarsPerTrade.value, 100, 100000))
    else if p.rsiThreshold.None? then Some(InvalidNumber("STOCK_RSI_THRESHOLD"))
    else if p.rsiExit.None? then Some(InvalidNumber("STOCK_RSI_EXIT"))
    else if !(1 <= p.rsiThreshold.value <= 50) then
      Some(IntOutOfRange("STOCK_RSI_THRESHOLD", p.rsiThreshold.value, 1, 50))
    else if !(50 <= p.rsiExit.value <= 99) then
      Some(IntOutOfRange("STOCK_RSI_EXIT", p.rsiExit.value, 50, 99))
    else if p.rsiThreshold.value >= p.rsiExit.value then
      Some(RsiThresholdNotBelowExit(p.rsiThreshold.value, p.rsiExit.value))
    else if p.takeProfit.None? then Some(InvalidNumber("TAKE_PROFIT_MULT"))
    else if !(1.0 <= p.takeProfit.value <= 10.0) then
      Some(RealOutOfRange("TAKE_PROFIT_MULT", p.takeProfit.value, 1.0, 10.0))
    else if p.stopLoss.None? then Some(InvalidNumber("STOP_LOSS_MULT"))
    else if !(1.0 <= p.stopLoss.value <= 10.0) then
      Some(RealOutOfRange("STOP_LOSS_MULT", p.stopLoss.value, 1.0, 10.0))
    else if p.rsiPeriod.None? then Some(InvalidNumber("STOCK_RSI_PERIOD"))
    else if !(2 <= p.rsiPeriod.value <= 100) then
      Some(IntOutOfRange("STOCK_RSI_PERIOD", p.rsiPeriod.value, 2, 100))
    else if p.timeframe !in ValidTimeframes then Some(UnknownTimeframe(p.timeframe))
    else if p.tradingInterval.None? then Some(InvalidNumber("TRADING_INTERVAL_MINUTES"))
    else if !(1 <= p.tradingInterval.value <= 1440) then
      Some(IntOutOfRange("TRADING_INTERVAL_MINUTES", p.tradingInterval.value, 1, 1440))
    else if Upper(p.tradingMode) != "STOCKS" then Some(WrongTradingMode(Upper(p.tradingMode)))
    else if UniverseSize(p.universe) == 0 then Some(EmptyUniverse)
    else if UniverseSize(p.universe) > 50 then Some(UniverseTooLarge(UniverseSize(p.universe)))
    else None
  }

  /** The ordered checks accept exactly the parameters meeting every condition. */
  lemma TradingChecksComplete(p: TradingParams)
    ensures TradingViolation(p).None? <==> TradingParamsValid(p)
  {
  }

  function TradingReport(p: TradingParams): (r: Report)
    ensures r.ok <==> r.errors == []
    ensures r.ok <==> TradingParamsValid(p)
    ensures |r.errors| <= 1 && r.warnings == []
  {
    TradingChecksComplete(p);
    match TradingViolation(p)
    case None => Report(true, [], [])
    case Some(e) => Report(false, [e], [])
  }

  /** `validate_all` (with `check_file_security`, which always returns True, contributing
      nothing): the four validators' entries in order; valid iff no error was recorded. */
  function AllReport(cfg: SecurityConfig, env: map<string, string>, p: TradingParams): (r: Report)
    ensures r.ok <==> r.errors == []
    ensures r.ok <==> RequiredReport(cfg, env).ok && AlpacaReport(cfg, env).ok &&
                      ClaudeReport(cfg, env).ok && TradingParamsValid(p)
  {
    var required, alpaca, claude, trading :=
      RequiredReport(cfg, env), AlpacaReport(cfg, env), ClaudeReport(cfg, env), TradingReport(p);
    Report(required.ok && alpaca.ok && claude.ok && trading.ok,
           required.errors + alpaca.errors + claude.errors + trading.errors,
           required.warnings + alpaca.warnings + claude.warnings + trading.warnings)
  }

  /** Whether a variable name marks a value to redact. */
  predicate IsSensitive(key: string) {
    var upper := Upper(key);
    Contains(upper, "KEY") || Contains(upper, "SECRET") || Contains(upper, "PASSWORD") || Contains(upper, "TOKEN")
  }

  /** The summary's value for one variable. */
  function Redacted(key: string, value: string): string {
    if IsSensitive(key) then
      if |value| > 4 then value[..4] + "...***" else "***"
    else value
  }

  /** A redacted value reveals no more than the first four characters and whether there
      are more: two values that agree on these redact alike. */
  lemma RedactionHidesTheRest(key: string, v1: string, v2: string)
    requires IsSensitive(key)
    requires (|v1| > 4) == (|v2| > 4)
    requires |v1| > 4 ==> v1[..4] == v2[..4]
    ensures Redacted(key, v1) == Redacted(key, v2)
  {
  }

  /** `get_sanitized_env_summary` over the environment `env`: the same names, each mapped to
      its redacted value. */
  method GetSanitizedEnvSummary(env: map<string, string>) returns (summary: map<string, string>)
    ensures summary.Keys == env.Keys
    ensures forall k :: k in env ==> summary[k] == Redacted(k, env[k])
    ensures forall k :: k in env && !IsSensitive(k) ==> summary[k] == env[k]
  {
    summary := map[];
    var remaining := env.Keys;
    while remaining != {}
      invariant remaining <= env.Keys
      invariant summary.Keys == env.Keys - remaining
      invariant forall k :: k in summary ==> summary[k] == Redacted(k, env[k])
      decreases |remaining|
    {
      var key :| key in remaining;
      var value := env[key];
      if IsSensitive(key) {
        if value != "" && |value| > 4 {
          summary := summary[key := value[..4] + "...***"];
        } else {
          summary := summary[key := "***"];
        }
      } else {
        summary := summary[key := value];
      }
      remaining := remaining - {key};
    }
  }

  class SecureConfigValidator {
    const securityConfig: SecurityConfig
    var validationErrors: seq<ValidationError>
    var securityWarnings: seq<SecurityWarning>

    /** `SecureConfigValidator(security_config)`: the defaults when none is given. */
    constructor (securityConfig: Option<SecurityConfig>)
      ensures this.securityConfig == securityConfig.GetOr(DefaultSecurityConfig)
      ensures validationErrors == [] && securityWarnings == []
    {
      this.securityConfig := securityConfig.GetOr(DefaultSecurityConfig);
      validationErrors := [];
      securityWarnings := [];
    }

    method AddError(e: ValidationError)
      modifies this`validationErrors
      ensures validationErrors == old(validationErrors) + [e]
    {
      validationErrors := validationErrors + [e];
    }

    method AddWarning(w: SecurityWarning)
      modifies this`securityWarnings
      ensures securityWarnings == old(securityWarnings) + [w]
    {
      securityWarnings := securityWarnings + [w];
    }

    /** `validate_api_key` */
    method ValidateApiKey(keyName: string, keyValue: string) returns (ok: bool)
      modifies this`validationErrors, this`securityWarnings
      ensures var r := ApiKeyReport(securityConfig, keyName, keyValue);
              ok == r.ok && validationErrors == old(validationErrors) + r.errors &&
              securityWarnings == old(securityWarnings) + r.warnings
    {
      if keyValue == "" {
        AddError(EmptyKey(keyName));
        return false;
      }
      var keyLower := Lower(keyValue);
      var forbidden := securityConfig.forbiddenTestValues;
      for i := 0 to |forbidden|
        invariant FirstForbidden(forbidden, keyLower) == FirstForbidden(forbidden[i..], keyLower)
        invariant validationErrors == old(validationErrors) && securityWarnings == old(securityWarnings)
      {
        assert forbidden[i..][1..] == forbidden[i + 1..];
        if Contains(keyLower, Lower(forbidden[i])) {
          AddError(PlaceholderKey(keyName, forbidden[i]));
          return false;
        }
      }
      if |keyValue| < securityConfig.minApiKeyLength {
        AddError(KeyTooShort(keyName, |keyValue|, securityConfig.minApiKeyLength));
        return false;
      }
      if |keyValue| > securityConfig.maxApiKeyLength {
        AddError(KeyTooLong(keyName, |keyValue|, securityConfig.maxApiKeyLength));
        return false;
      }
      if HasTestPrefix(keyValue) {
        AddWarning(TestKey(keyName));
      }
      return true;
    }

    /** `validate_alpaca_credentials` */
    method ValidateAlpacaCredentials(env: map<string, string>) returns (ok: bool)
      modifies this`validationErrors, this`securityWarnings
      ensures var r := AlpacaReport(securityConfig, env);
              ok == r.ok && validationErrors == old(validationErrors) + r.errors &&
              securityWarnings == old(securityWarnings) + r.warnings
    {
      var apiKey := GetEnv(env, "APCA_API_KEY_ID", "");
      var secretKey := GetEnv(env, "APCA_API_SECRET_KEY", "");
      var apiKeyValid := ValidateApiKey("APCA_API_KEY_ID", apiKey);
      var secretKeyValid := ValidateApiKey("APCA_API_SECRET_KEY", secretKey);
      ok := CompareAlpacaKeys(apiKey, secretKey, apiKeyValid, secretKeyValid);
      AlpacaReportSteps(securityConfig, env);
      ghost var api := ApiKeyReport(securityConfig, "APCA_API_KEY_ID", apiKey);
      ghost var secret := ApiKeyReport(securityConfig, "APCA_API_SECRET_KEY", secretKey);
      AppendAssociates(old(validationErrors), api.errors, secret.errors,
                       if api.ok && secret.ok && apiKey == secretKey then [IdenticalAlpacaKeys] else []);
      AppendAssociates(old(securityWarnings), api.warnings, secret.warnings,
                       if api.ok && !(StartsWith(apiKey, "PK") || StartsWith(apiKey, "AK"))
                       then [UnexpectedAlpacaPrefix] else []);
    }

    /** The tail of `validate_alpaca_credentials`, once both keys have been validated: the
        prefix warning, then the rejection of identical keys. */
    method CompareAlpacaKeys(apiKey: string, secretKey: string, apiKeyValid: bool, secretKeyValid: bool)
      returns (ok: bool)
      modifies this`validationErrors, this`securityWarnings
      ensures ok == (apiKeyValid && secretKeyValid && apiKey != secretKey)
      ensures validationErrors == old(validationErrors) +
                (if apiKeyValid && secretKeyValid && apiKey == secretKey then [IdenticalAlpacaKeys] else [])
      ensures securityWarnings == old(securityWarnings) +
                (if apiKeyValid && !(StartsWith(apiKey, "PK") || StartsWith(apiKey, "AK"))
                 then [UnexpectedAlpacaPrefix] else [])
    {
      if apiKeyValid && !(StartsWith(apiKey, "PK") || StartsWith(apiKey, "AK")) {
        AddWarning(UnexpectedAlpacaPrefix);
      }
      if apiKeyValid && secretKeyValid && apiKey == secretKey {
        AddError(IdenticalAlpacaKeys);
        return false;
      }
      return apiKeyValid && secretKeyValid;
    }

    /** `validate_claude_credentials` */
    method ValidateClaudeCredentials(env: map<string, string>) returns (ok: bool)
      modifies this`validationErrors, this`securityWarnings
      ensures var r := ClaudeReport(securityConfig, env);
              ok == r.ok && validationErrors == old(validationErrors) + r.errors &&
              securityWarnings == old(securityWarnings) + r.warnings
    {
      var llmEnabled := Lower(GetEnv(env, "LLM_ANALYSIS_ENABLED", "false")) == "true";
      if !llmEnabled {
        return true;
      }
      var apiKey := GetEnv(env, "LLM_API_KEY", "");
      if apiKey == "" {
        AddError(MissingLlmKey);
        return false;
      }
      ok := ValidateApiKey("LLM_API_KEY", apiKey);
      if ok && !StartsWith(apiKey, "sk-ant-") {
        AddWarning(UnexpectedClaudePrefix);
      }
    }

    /** `validate_required_env_vars` */
    method ValidateRequiredEnvVars(env: map<string, string>) returns (ok: bool)
      modifies this`validationErrors
      ensures var r := RequiredReport(securityConfig, env);
              ok == r.ok && validationErrors == old(validationErrors) + r.errors
    {
      var names := securityConfig.requiredEnvVars;
      var missing: seq<string> := [];
      for i := 0 to |names|
        invariant missing == MissingVars(names[..i], env)
      {
        assert names[..i + 1][..i] == names[..i];
        if IsMissing(env, names[i]) {
          missing := missing + [names[i]];
        }
      }
      assert names[..|names|] == names;
      if missing != [] {
        AddError(MissingEnvVars(missing));
        return false;
      }
      return true;
    }

    /** Appends `e` and answers False: the shape of every rejection below. */
    method Reject(e: ValidationError) returns (ok: bool)
      modifies this`validationErrors
      ensures !ok && validationErrors == old(validationErrors) + [e]
    {
      AddError(e);
      return false;
    }

    /** `validate_trading_parameters` */
    method ValidateTradingParameters(p: TradingParams) returns (ok: bool)
      modifies this`validationErrors
      ensures var r := TradingReport(p);
              ok == r.ok && validationErrors == old(validationErrors) + r.errors
    {
      if p.maxPositions.None? { ok := Reject(InvalidNumber("MAX_POSITIONS")); return; }
      var maxPositions := p.maxPositions.value;
      if maxPositions < 1 || maxPositions > 10 {
        ok := Reject(IntOutOfRange("MAX_POSITIONS", maxPositions, 1, 10)); return;
      }
      if p.dollarsPerTrade.None? { ok := Reject(InvalidNumber("DOLLARS_PER_TRADE")); return; }
      var dollarsPerTrade := p.dollarsPerTrade.value;
      if dollarsPerTrade < 100 || dollarsPerTrade > 100000 {
        ok := Reject(IntOutOfRange("DOLLARS_PER_TRADE", dollarsPerTrade, 100, 100000)); return;
      }
      if p.rsiThreshold.None? { ok := Reject(InvalidNumber("STOCK_RSI_THRESHOLD")); return; }
      if p.rsiExit.None? { ok := Reject(InvalidNumber("STOCK_RSI_EXIT")); return; }
      var rsiThreshold, rsiExit := p.rsiThreshold.value, p.rsiExit.value;
      if rsiThreshold < 1 || rsiThreshold > 50 {
        ok := Reject(IntOutOfRange("STOCK_RSI_THRESHOLD", rsiThreshold, 1, 50)); return;
      }
      if rsiExit < 50 || rsiExit > 99 {
        ok := Reject(IntOutOfRange("STOCK_RSI_EXIT", rsiExit, 50, 99)); return;
      }
      if rsiThreshold >= rsiExit {
        ok := Reject(RsiThresholdNotBelowExit(rsiThreshold, rsiExit)); return;
      }
      if p.takeProfit.None? { ok := Reject(InvalidNumber("TAKE_PROFIT_MULT")); return; }
      var takeProfit := p.takeProfit.value;
      if takeProfit < 1.0 || takeProfit > 10.0 {
        ok := Reject(RealOutOfRange("TAKE_PROFIT_MULT", takeProfit, 1.0, 10.0)); return;
      }
      if p.stopLoss.None? { ok := Reject(InvalidNumber("STOP_LOSS_MULT")); return; }
      var stopLoss := p.stopLoss.value;
      if stopLoss < 1.0 || stopLoss > 10.0 {
        ok := Reject(RealOutOfRange("STOP_LOSS_MULT", stopLoss, 1.0, 10.0)); return;
      }
      if p.rsiPeriod.None? { ok := Reject(InvalidNumber("STOCK_RSI_PERIOD")); return; }
      var rsiPeriod := p.rsiPeriod.value;
      if rsiPeriod < 2 || rsiPeriod > 100 {
        ok := Reject(IntOutOfRange("STOCK_RSI_PERIOD", rsiPeriod, 2, 100)); return;
      }
      if p.timeframe !in ValidTimeframes {
        ok := Reject(UnknownTimeframe(p.timeframe)); return;
      }
      if p.tradingInterval.None? { ok := Reject(InvalidNumber("TRADING_INTERVAL_MINUTES")); return; }
      var tradingInterval := p.tradingInterval.value;
      if tradingInterval < 1 || tradingInterval > 1440 {
        ok := Reject(IntOutOfRange("TRADING_INTERVAL_MINUTES", tradingInterval, 1, 1440)); return;
      }
      var tradingMode := Upper(p.tradingMode);
      if tradingMode != "STOCKS" {
        ok := Reject(WrongTradingMode(tradingMode)); return;
      }
      var universeSize := UniverseSize(p.universe);
      if universeSize == 0 {
        ok := Reject(EmptyUniverse); return;
      }
      if universeSize > 50 {
        ok := Reject(UniverseTooLarge(universeSize)); return;
      }
      return true;
    }

    /** `validate_all`: both lists are cleared first; the result is True exactly when no
        error was recorded. */
    method ValidateAll(env: map<string, string>, p: TradingParams) returns (ok: bool)
      modifies this`validationErrors, this`securityWarnings
      ensures var r := AllReport(securityConfig, env, p);
              ok == r.ok && validationErrors == r.errors && securityWarnings == r.warnings
      ensures ok <==> validationErrors == []
    {
      ghost var r1, r2, r3, r4 :=
        RequiredReport(securityConfig, env), AlpacaReport(securityConfig, env),
        ClaudeReport(securityConfig, env), TradingReport(p);
      validationErrors := [];
      securityWarnings := [];
      var required := ValidateRequiredEnvVars(env);
      assert validationErrors == r1.errors && securityWarnings == [];
      var alpaca := ValidateAlpacaCredentials(env);
      assert validationErrors == r1.errors + r2.errors && securityWarnings == r2.warnings;
      var claude := ValidateClaudeCredentials(env);
      assert validationErrors == r1.errors + r2.errors + r3.errors;
      assert securityWarnings == r2.warnings + r3.warnings;
      var trading := ValidateTradingParameters(p);
      assert validationErrors == r1.errors + r2.errors + r3.errors + r4.errors;
      var fileSecurity := true;  // `check_file_security` is not part of the model
      ok := required && alpaca && claude && trading && fileSecurity && validationErrors == [];
      assert r1.warnings == [] && r4.warnings == [];
      assert securityWarnings == r1.warnings + r2.warnings + r3.warnings + r4.warnings;
    }
  }
}
