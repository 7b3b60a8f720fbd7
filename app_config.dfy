/** `config.js`: the library build's defaults and `loadConfig()`, which
    merges them with the environment. */
module AppConfig {
  import opened Wrappers
  import opened Js
  import opened JsNumber
  import SecurityConfig

  datatype ServerConfig = ServerConfig(port: int, nodeEnv: string)

  datatype LocationConfig = LocationConfig(latitude: real, longitude: real, name: string)

  datatype RateLimitSettings = RateLimitSettings(windowMinutes: int, maxRequests: int, message: string)

  /** `cors.origins`: the string `"*"` or a list of origins. */
  datatype Origins = AllOrigins | OriginList(list: seq<string>)

  datatype CorsSettings = CorsSettings(enabled: bool, origins: Origins)

  datatype HelmetSettings = HelmetSettings(enabled: bool)

  datatype Profile = Profile(rateLimit: RateLimitSettings, cors: CorsSettings, helmet: HelmetSettings)

  datatype SecuritySettings = SecuritySettings(profile: string, rateLimit: RateLimitSettings,
                                               cors: CorsSettings, helmet: HelmetSettings)

  datatype Config = Config(openWeatherKey: Option<string>, server: ServerConfig,
                           location: LocationConfig, security: SecuritySettings)

  const DEFAULT_SERVER := ServerConfig(4000, "development")
  const DEFAULT_LOCATION := LocationConfig(38.8977, -77.0365, "Washington, DC")
  const MESSAGE := "Too many requests from this IP, please try again later."

  const DEVELOPMENT := Profile(RateLimitSettings(60, 1000, MESSAGE),
                               CorsSettings(true, OriginList(["http://localhost:3000", "http://localhost:4000"])),
                               HelmetSettings(true))
  const PRODUCTION := Profile(RateLimitSettings(60, 100, MESSAGE), CorsSettings(true, OriginList([])),
                              HelmetSettings(true))
  const STRICT := Profile(RateLimitSettings(60, 50, MESSAGE), CorsSettings(true, OriginList([])),
                          HelmetSettings(true))

  /** `config.security.profiles[name]`. */
  function ProfileNamed(name: string): Option<Profile> {
    if name == "development" then Some(DEVELOPMENT)
    else if name == "production" then Some(PRODUCTION)
    else if name == "strict" then Some(STRICT)
    else None
  }

  /** `parseInt(v) || fallback`: NaN and 0 are falsy. */
  function IntOr(v: Option<string>, fallback: int): (r: int)
    ensures v.Some? && ParseInt(v.value).Some? && ParseInt(v.value).value != 0 ==> r == ParseInt(v.value).value
    ensures v.None? || ParseInt(v.value).None? || ParseInt(v.value) == Some(0) ==> r == fallback
  {
    if v.None? then fallback
    else match ParseInt(v.value)
      case Some(n) => if n != 0 then n else fallback
      case None => fallback
  }

  /** `parseFloat(v) || fallback`. */
  function RealOr(v: Option<string>, fallback: real): (r: real)
    ensures v.Some? && ParseFloat(v.value).Some? && ParseFloat(v.value).value != 0.0 ==> r == ParseFloat(v.value).value
    ensures v.None? || ParseFloat(v.value).None? || ParseFloat(v.value) == Some(0.0) ==> r == fallback
  {
    if v.None? then fallback
    else match ParseFloat(v.value)
      case Some(x) => if x != 0.0 then x else fallback
      case None => fallback
  }

  /** `CORS_ORIGIN ? (CORS_ORIGIN === "*" ? "*" : split-and-trim) : fallback`. */
  function OriginsFrom(v: Option<string>, fallback: Origins): Origins {
    if !Truthy(v) then fallback
    else if v.value == "*" then AllOrigins
    else OriginList(SplitTrim(v.value, ','))
  }

  /** The name the configuration reports: `SECURITY_PROFILE || "development"`. */
  function ProfileName(env: Env): string {
    OrElse(Lookup(env, "SECURITY_PROFILE"), "development")
  }

  /** The profile the settings fall back on; an unknown name selects the
      development profile while the configuration still reports the name. */
  function SelectedProfile(env: Env): Profile {
    ProfileNamed(ProfileName(env)).GetOr(DEVELOPMENT)
  }

  /** `loadConfig()`: each setting is its variable, parsed where it is a
      number, or the default when the variable is falsy; the security
      settings fall back on the selected profile. */
  function LoadConfig(env: Env): (c: Config)
    ensures c.openWeatherKey == Lookup(env, "OPENWEATHER_KEY")
    ensures c.server.nodeEnv == OrElse(Lookup(env, "NODE_ENV"), "development")
    ensures c.security.profile == OrElse(Lookup(env, "SECURITY_PROFILE"), "development")
    ensures c.server.port != 0 && c.location.latitude != 0.0 && c.location.longitude != 0.0
  {
    var profile := SelectedProfile(env);
    Config(
      Lookup(env, "OPENWEATHER_KEY"),
      ServerConfig(IntOr(Lookup(env, "PORT"), DEFAULT_SERVER.port),
                   OrElse(Lookup(env, "NODE_ENV"), DEFAULT_SERVER.nodeEnv)),
      LocationConfig(RealOr(Lookup(env, "LATITUDE"), DEFAULT_LOCATION.latitude),
                     RealOr(Lookup(env, "LONGITUDE"), DEFAULT_LOCATION.longitude),
                     OrElse(Lookup(env, "LOCATION_NAME"), DEFAULT_LOCATION.name)),
      SecuritySettings(
        ProfileName(env),
        RateLimitSettings(IntOr(Lookup(env, "RATE_LIMIT_WINDOW_MINUTES"), profile.rateLimit.windowMinutes),
                          IntOr(Lookup(env, "RATE_LIMIT_MAX_REQUESTS"), profile.rateLimit.maxRequests),
                          OrElse(Lookup(env, "RATE_LIMIT_MESSAGE"), profile.rateLimit.message)),
        CorsSettings(Lookup(env, "CORS_ENABLED") != Some("false") && profile.cors.enabled,
                     OriginsFrom(Lookup(env, "CORS_ORIGIN"), profile.cors.origins)),
        HelmetSettings(Lookup(env, "HELMET_ENABLED") != Some("false") && profile.helmet.enabled)))
  }

  /** The port is `PORT` when it parses to a non-zero integer, else 4000;
      so it is never 0. */
  lemma PortRule(env: Env)
    ensures LoadConfig(env).server.port != 0
    ensures var v := Lookup(env, "PORT");
      && (v.Some? && ParseInt(v.value).Some? && ParseInt(v.value).value != 0 ==>
            LoadConfig(env).server.port == ParseInt(v.value).value)
      && (v.None? || ParseInt(v.value).None? || ParseInt(v.value) == Some(0) ==>
            LoadConfig(env).server.port == 4000)
  {
  }

  /** `PORT="8080"` selects port 8080; `PORT="abc"` and `PORT="0"` keep 4000. */
  lemma PortExamples()
    ensures IntOr(Some("8080"), 4000) == 8080
    ensures IntOr(Some("abc"), 4000) == 4000
    ensures IntOr(Some("0"), 4000) == 4000
  {
    assert IntOr(Some("8080"), 4000) == 8080 by { ParseIntOf8080(); }
    assert IntOr(Some("abc"), 4000) == 4000 by { ParseIntOfLetters(); }
    assert IntOr(Some("0"), 4000) == 4000 by { ParseIntOfZero(); }
  }

  /** Latitude and longitude are `LATITUDE` and `LONGITUDE` when they parse
      to a non-zero number; a zero, unparsable or unset value falls back to
      the default coordinate of Washington, DC, so neither is ever 0. */
  lemma LocationRule(env: Env)
    ensures LoadConfig(env).location.latitude != 0.0
    ensures LoadConfig(env).location.longitude != 0.0
    ensures var v := Lookup(env, "LATITUDE");
      && (v.Some? && ParseFloat(v.value).Some? && ParseFloat(v.value).value != 0.0 ==>
            LoadConfig(env).location.latitude == ParseFloat(v.value).value)
      && (v.None? || ParseFloat(v.value).None? || ParseFloat(v.value) == Some(0.0) ==>
            LoadConfig(env).location.latitude == 38.8977)
    ensures var v := Lookup(env, "LONGITUDE");
      && (v.Some? && ParseFloat(v.value).Some? && ParseFloat(v.value).value != 0.0 ==>
            LoadConfig(env).location.longitude == ParseFloat(v.value).value)
      && (v.None? || ParseFloat(v.value).None? || ParseFloat(v.value) == Some(0.0) ==>
            LoadConfig(env).location.longitude == -77.0365)
    ensures LoadConfig(env).location.name == OrElse(Lookup(env, "LOCATION_NAME"), "Washington, DC")
  {
  }

  /** A coordinate written `a.b` (north) and `-c.e` (west), neither of them
      zero, is read as written: `LATITUDE="40.7128"` and
      `LONGITUDE="-74.0060"` configure 40.7128 and -74.006. */
  lemma {:induction false} DecimalLocation(env: Env, a: string, b: string, c: string, e: string)
    requires AllDigitsIn(a, 10) && AllDigitsIn(b, 10) && (a != [] || b != [])
    requires AllDigitsIn(c, 10) && AllDigitsIn(e, 10) && (c != [] || e != [])
    requires DecimalValue(a, b) != 0.0 && DecimalValue(c, e) != 0.0
    requires "LATITUDE" in env && env["LATITUDE"] == a + "." + b
    requires "LONGITUDE" in env && env["LONGITUDE"] == "-" + c + "." + e
    ensures LoadConfig(env).location.latitude == DecimalValue(a, b)
    ensures LoadConfig(env).location.longitude == -DecimalValue(c, e)
  {
    var lat, lon := env["LATITUDE"], env["LONGITUDE"];
    assert ParseFloat(lat) == Some(DecimalValue(a, b)) by {
      assert lat == a + "." + b + "";
      ParseFloatOfDecimal(a, b, "");
    }
    assert ParseFloat(lon) == Some(-DecimalValue(c, e)) by {
      assert lon == "-" + c + "." + e + "";
      ParseFloatOfNegativeDecimal(c, e, "");
    }
    LocationRule(env);
  }

  /** The rate-limit window and maximum are their variables when those parse
      to a non-zero integer, else the selected profile's; the message is
      `RATE_LIMIT_MESSAGE` when set and non-empty, else the profile's. */
  lemma RateLimitRule(env: Env)
    ensures var v := Lookup(env, "RATE_LIMIT_WINDOW_MINUTES");
      && (v.Some? && ParseInt(v.value).Some? && ParseInt(v.value).value != 0 ==>
            LoadConfig(env).security.rateLimit.windowMinutes == ParseInt(v.value).value)
      && (v.None? || ParseInt(v.value).None? || ParseInt(v.value) == Some(0) ==>
            LoadConfig(env).security.rateLimit.windowMinutes == SelectedProfile(env).rateLimit.windowMinutes)
    ensures var v := Lookup(env, "RATE_LIMIT_MAX_REQUESTS");
      && (v.Some? && ParseInt(v.value).Some? && ParseInt(v.value).value != 0 ==>
            LoadConfig(env).security.rateLimit.maxRequests == ParseInt(v.value).value)
      && (v.None? || ParseInt(v.value).None? || ParseInt(v.value) == Some(0) ==>
            LoadConfig(env).security.rateLimit.maxRequests == SelectedProfile(env).rateLimit.maxRequests)
    ensures LoadConfig(env).security.rateLimit.message ==
              OrElse(Lookup(env, "RATE_LIMIT_MESSAGE"), SelectedProfile(env).rateLimit.message)
  {
  }

  /** Every profile enables CORS and Helmet, so each is off exactly when its
      variable is the string "false". */
  lemma SwitchesRule(env: Env)
    ensures !LoadConfig(env).security.cors.enabled <==> Lookup(env, "CORS_ENABLED") == Some("false")
    ensures !LoadConfig(env).security.helmet.enabled <==> Lookup(env, "HELMET_ENABLED") == Some("false")
  {
  }

  /** An unknown profile name is reported as given but takes the
      development settings; an unset one reports "development". */
  lemma UnknownProfileFallsBack(env: Env)
    requires ProfileNamed(ProfileName(env)).None?
    ensures LoadConfig(env).security.profile == env["SECURITY_PROFILE"]
    ensures Lookup(env, "RATE_LIMIT_MAX_REQUESTS").None? ==>
              LoadConfig(env).security.rateLimit.maxRequests == 1000
    ensures Lookup(env, "CORS_ORIGIN").None? ==> LoadConfig(env).security.cors.origins == DEVELOPMENT.cors.origins
  {
  }

  /** `CORS_ORIGIN="*"` allows every origin; any other non-empty value is a
      comma-separated list of trimmed origins. */
  lemma OriginsRule(env: Env)
    ensures Lookup(env, "CORS_ORIGIN") == Some("*") ==> LoadConfig(env).security.cors.origins == AllOrigins
    ensures Truthy(Lookup(env, "CORS_ORIGIN")) && env["CORS_ORIGIN"] != "*" ==>
              LoadConfig(env).security.cors.origins == OriginList(SplitTrim(env["CORS_ORIGIN"], ','))
    ensures !Truthy(Lookup(env, "CORS_ORIGIN")) ==>
              LoadConfig(env).security.cors.origins == SelectedProfile(env).cors.origins
  {
  }

  /** The two configuration loaders pick their profile differently: with
      only `NODE_ENV=production` set, `loadConfig` uses the development
      profile (1000 requests) while `getSecurityConfig` uses the production
      preset (100 requests). */
  lemma ProfileSelectionsDiffer()
    ensures var env := map["NODE_ENV" := "production"];
      && LoadConfig(env).security.profile == "development"
      && LoadConfig(env).security.rateLimit.maxRequests == 1000
      && SecurityConfig.ProfileName(env) == "production"
      && SecurityConfig.SelectedPreset(env).rateLimit.max == Some(100)
  {
    var env := map["NODE_ENV" := "production"];
    assert Lookup(env, "SECURITY_PROFILE") == None;
    assert Lookup(env, "RATE_LIMIT_MAX_REQUESTS") == None;
    assert Lookup(env, "NODE_ENV") == Some("production");
  }
}
