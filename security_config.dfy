/** `utils/securityConfig.js`: the rate-limit, CORS and Helmet settings the
    server uses, chosen from a preset and then overridden from the
    environment, and the warnings reported about them. */
module SecurityConfig {
  import opened Wrappers
  import opened Js
  import opened JsNumber

  /** `windowMs` and `max` are `None` where the source stores NaN. */
  datatype RateLimit = RateLimit(windowMs: Option<int>, max: Option<int>, message: string)

  /** `cors.origin`: `false`, `true`, or a list of allowed origins. */
  datatype Origin = SameOrigin | AnyOrigin | Origins(list: seq<string>)

  datatype Cors = Cors(origin: Origin, credentials: bool)

  datatype Hsts = Hsts(maxAge: int, includeSubDomains: bool, preload: bool)

  /** The Helmet options object; an absent key is `None`. */
  datatype Helmet = Helmet(contentSecurityPolicy: Option<bool>, hsts: Option<Hsts>)

  /** A settings object, or `false` to switch the feature off. */
  datatype Toggle<T> = Disabled | Enabled(settings: T)

  datatype Preset = Preset(rateLimit: RateLimit, cors: Cors, helmet: Helmet)

  datatype Config = Config(rateLimit: RateLimit, cors: Toggle<Cors>, helmet: Toggle<Helmet>)

  const DEFAULT_MESSAGE := "Too many requests from this IP, please try again later."
  const STRICT_MESSAGE := "Rate limit exceeded. Please try again later."

  const DEVELOPMENT := Preset(
    RateLimit(Some(60 * 60 * 1000), Some(1000), DEFAULT_MESSAGE),
    Cors(Origins(["http://localhost:3000", "http://localhost:4000", "http://127.0.0.1:3000"]), true),
    Helmet(Some(false), None))

  const PRODUCTION := Preset(
    RateLimit(Some(15 * 60 * 1000), Some(100), DEFAULT_MESSAGE),
    Cors(SameOrigin, true),
    Helmet(None, None))

  const STRICT := Preset(
    RateLimit(Some(15 * 60 * 1000), Some(50), STRICT_MESSAGE),
    Cors(SameOrigin, false),
    Helmet(None, Some(Hsts(31536000, true, true))))

  /** `securityPresets[name]`. */
  function PresetNamed(name: string): Option<Preset> {
    if name == "development" then Some(DEVELOPMENT)
    else if name == "production" then Some(PRODUCTION)
    else if name == "strict" then Some(STRICT)
    else None
  }

  /** `SECURITY_PROFILE || NODE_ENV || 'development'`. */
  function ProfileName(env: Env): string {
    OrElse(Lookup(env, "SECURITY_PROFILE"), OrElse(Lookup(env, "NODE_ENV"), "development"))
  }

  /** The preset the configuration starts from; an unknown name selects
      the development preset. */
  function SelectedPreset(env: Env): (p: Preset)
    ensures PresetNamed(ProfileName(env)).None? ==> p == DEVELOPMENT
    ensures PresetNamed(ProfileName(env)).Some? ==> p == PresetNamed(ProfileName(env)).value
  {
    PresetNamed(ProfileName(env)).GetOr(DEVELOPMENT)
  }

  /** `CORS_ORIGIN`: `'false'`, `'*'`, or a comma-separated list whose
      entries are trimmed. */
  function OriginSetting(v: string): Origin {
    if v == "false" then SameOrigin
    else if v == "*" then AnyOrigin
    else Origins(SplitTrim(v, ','))
  }

  /** `parseInt(v) * 60 * 1000`, NaN staying NaN. */
  function MinutesToMs(v: string): Option<int> {
    match ParseInt(v)
    case None => None
    case Some(n) => Some(n * 60 * 1000)
  }

  /** The `RATE_LIMIT_*` overrides of `getSecurityConfig()`: each applies
      whenever its variable is set, an unparsable number giving NaN. */
  method OverrideRateLimit(base: RateLimit, env: Env) returns (rateLimit: RateLimit)
    ensures var window := Lookup(env, "RATE_LIMIT_WINDOW_MINUTES");
      var max := Lookup(env, "RATE_LIMIT_MAX_REQUESTS");
      var message := Lookup(env, "RATE_LIMIT_MESSAGE");
      && rateLimit.windowMs == (if Truthy(window) then MinutesToMs(window.value) else base.windowMs)
      && rateLimit.max == (if Truthy(max) then ParseInt(max.value) else base.max)
      && rateLimit.message == OrElse(message, base.message)
  {
    rateLimit := base;
    var window := Lookup(env, "RATE_LIMIT_WINDOW_MINUTES");
    if Truthy(window) {
      rateLimit := rateLimit.(windowMs := MinutesToMs(window.value));
    }
    var max := Lookup(env, "RATE_LIMIT_MAX_REQUESTS");
    if Truthy(max) {
      rateLimit := rateLimit.(max := ParseInt(max.value));
    }
    var message := Lookup(env, "RATE_LIMIT_MESSAGE");
    if Truthy(message) {
      rateLimit := rateLimit.(message := message.value);
    }
  }

  /** The `CORS_*` overrides of `getSecurityConfig()`: `CORS_ORIGIN`
      replaces the origin rule, and `CORS_ENABLED === 'false'` switches CORS
      off whatever `CORS_ORIGIN` says. */
  method OverrideCors(base: Cors, env: Env) returns (cors: Toggle<Cors>)
    ensures var origin := Lookup(env, "CORS_ORIGIN");
      && (Lookup(env, "CORS_ENABLED") == Some("false") <==> cors == Disabled)
      && (cors.Enabled? ==> cors.settings.credentials == base.credentials)
      && (cors.Enabled? ==>
            cors.settings.origin == if Truthy(origin) then OriginSetting(origin.value) else base.origin)
  {
    cors := Enabled(base);
    var origin := Lookup(env, "CORS_ORIGIN");
    if Truthy(origin) {
      cors := Enabled(cors.settings.(origin := OriginSetting(origin.value)));
    }
    if Lookup(env, "CORS_ENABLED") == Some("false") {
      cors := Disabled;
    }
  }

  /** `getSecurityConfig()`: copy the preset, then apply each override that
      is set; `HELMET_ENABLED === 'false'` switches Helmet off. Presets are
      values, so the copy can never alter them. */
  method GetSecurityConfig(env: Env) returns (config: Config)
    ensures var base := SelectedPreset(env);
      var window := Lookup(env, "RATE_LIMIT_WINDOW_MINUTES");
      var max := Lookup(env, "RATE_LIMIT_MAX_REQUESTS");
      var message := Lookup(env, "RATE_LIMIT_MESSAGE");
      && config.rateLimit.windowMs == (if Truthy(window) then MinutesToMs(window.value) else base.rateLimit.windowMs)
      && config.rateLimit.max == (if Truthy(max) then ParseInt(max.value) else base.rateLimit.max)
      && config.rateLimit.message == OrElse(message, base.rateLimit.message)
    ensures var base := SelectedPreset(env);
      var origin := Lookup(env, "CORS_ORIGIN");
      && (Lookup(env, "CORS_ENABLED") == Some("false") <==> config.cors == Disabled)
      && (config.cors.Enabled? ==> config.cors.settings.credentials == base.cors.credentials)
      && (config.cors.Enabled? ==>
            config.cors.settings.origin == if Truthy(origin) then OriginSetting(origin.value) else base.cors.origin)
    ensures Lookup(env, "HELMET_ENABLED") == Some("false") ==> config.helmet == Disabled
    ensures Lookup(env, "HELMET_ENABLED") != Some("false") ==> config.helmet == Enabled(SelectedPreset(env).helmet)
  {
    var preset := SelectedPreset(env);
    var rateLimit := OverrideRateLimit(preset.rateLimit, env);
    var cors := OverrideCors(preset.cors, env);
    var helmet := if Lookup(env, "HELMET_ENABLED") == Some("false") then Disabled else Enabled(preset.helmet);
    config := Config(rateLimit, cors, helmet);
  }

  datatype Warning = HighRateLimit | AllOriginsAllowed | CorsDisabledInProduction {
    function Text(): string {
      match this
      case HighRateLimit => "\U{26A0}\U{FE0F}  High rate limit detected. Consider lowering for production."
      case AllOriginsAllowed => "\U{26A0}\U{FE0F}  CORS allows all origins. This may be insecure in production."
      case CorsDisabledInProduction => "\U{26A0}\U{FE0F}  CORS is disabled in production. This may cause browser issues."
    }
  }

  /** `validateSecurityConfig(config)`: exactly the warnings whose condition
      holds, in this order: a `max` above 500 (NaN is not), CORS enabled
      with every origin allowed, CORS disabled while `NODE_ENV` is
      `production`. */
  method ValidateSecurityConfig(config: Config, env: Env) returns (warnings: seq<Warning>)
    ensures warnings ==
      (if config.rateLimit.max.Some? && config.rateLimit.max.value > 500 then [HighRateLimit] else [])
      + (if config.cors.Enabled? && config.cors.settings.origin == AnyOrigin then [AllOriginsAllowed] else [])
      + (if config.cors == Disabled && Lookup(env, "NODE_ENV") == Some("production")
         then [CorsDisabledInProduction] else [])
    ensures |warnings| <= 2
    ensures AllOriginsAllowed in warnings ==> CorsDisabledInProduction !in warnings
  {
    warnings := [];
    if config.rateLimit.max.Some? && config.rateLimit.max.value > 500 {
      warnings := warnings + [HighRateLimit];
    }
    if config.cors.Enabled? && config.cors.settings.origin == AnyOrigin {
      warnings := warnings + [AllOriginsAllowed];
    }
    if config.cors == Disabled && Lookup(env, "NODE_ENV") == Some("production") {
      warnings := warnings + [CorsDisabledInProduction];
    }
  }

  /** The origin list holds one entry per comma-separated piece, in order,
      each trimmed and free of commas. */
  lemma OriginListShape(v: string)
    requires v != "false" && v != "*"
    ensures OriginSetting(v).Origins?
    ensures var list := OriginSetting(v).list;
      && |list| == Occurrences(v, ',') + 1
      && forall i :: 0 <= i < |list| ==> list[i] == Trim(Split(v, ',')[i]) && ',' !in list[i]
  {
    SplitCount(v, ',');
    var parts := Split(v, ',');
    forall i | 0 <= i < |parts| ensures ',' !in Trim(parts[i]) {
      TrimIsSlice(parts[i]);
      var a, b :| 0 <= a <= b <= |parts[i]| && Trim(parts[i]) == parts[i][a..b];
      assert forall c :: c in parts[i][a..b] ==> c in parts[i];
    }
  }

  /** The profile is `SECURITY_PROFILE`, else `NODE_ENV`, else development. */
  lemma ProfileFallback(env: Env)
    ensures Truthy(Lookup(env, "SECURITY_PROFILE")) ==> ProfileName(env) == env["SECURITY_PROFILE"]
    ensures !Truthy(Lookup(env, "SECURITY_PROFILE")) && Truthy(Lookup(env, "NODE_ENV")) ==>
              ProfileName(env) == env["NODE_ENV"]
    ensures !Truthy(Lookup(env, "SECURITY_PROFILE")) && !Truthy(Lookup(env, "NODE_ENV")) ==>
              SelectedPreset(env) == DEVELOPMENT
  {
  }
}
