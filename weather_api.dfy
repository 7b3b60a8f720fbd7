/** `index.js`: the `WeatherAPI` class of the library build, which loads a
    configuration, lets the caller override parts of it, and serves the
    cache. */
module WeatherApi {
  import opened Wrappers
  import opened Errors
  import opened Js
  import opened Weather
  import opened FileSystem
  import opened CacheStore
  import opened Simplify
  import opened AppConfig

  /** A `location` option object; an absent key is `None`. */
  datatype LocationOptions = LocationOptions(latitude: Option<real>, longitude: Option<real>, name: Option<string>)

  /** A `security` option object; an absent key is `None`. */
  datatype SecurityOptions = SecurityOptions(
    profile: Option<string>, rateLimit: Option<RateLimitSettings>,
    cors: Option<CorsSettings>, helmet: Option<HelmetSettings>)

  /** The constructor's `options`; `{}` is all `None`. */
  datatype Options = Options(openWeatherKey: Option<string>, location: Option<LocationOptions>,
                             security: Option<SecurityOptions>)

  const NO_OPTIONS := Options(None, None, None)

  /** `Object.assign(location, patch)`. */
  function AssignLocation(base: LocationConfig, patch: LocationOptions): LocationConfig {
    LocationConfig(patch.latitude.GetOr(base.latitude), patch.longitude.GetOr(base.longitude),
                   patch.name.GetOr(base.name))
  }

  /** `Object.assign(security, patch)`: each supplied key replaces the whole
      nested object, with no deep merge. */
  function AssignSecurity(base: SecuritySettings, patch: SecurityOptions): SecuritySettings {
    SecuritySettings(patch.profile.GetOr(base.profile), patch.rateLimit.GetOr(base.rateLimit),
                     patch.cors.GetOr(base.cors), patch.helmet.GetOr(base.helmet))
  }

  /** A supplied key replaces the loaded value, an absent key keeps it;
      assigning the same options twice changes nothing more. */
  lemma AssignLocationShallow(base: LocationConfig, patch: LocationOptions)
    ensures var r := AssignLocation(base, patch);
      && (patch.latitude.Some? ==> r.latitude == patch.latitude.value)
      && (patch.latitude.None? ==> r.latitude == base.latitude)
      && (patch.longitude.Some? ==> r.longitude == patch.longitude.value)
      && (patch.longitude.None? ==> r.longitude == base.longitude)
      && (patch.name.Some? ==> r.name == patch.name.value)
      && (patch.name.None? ==> r.name == base.name)
    ensures AssignLocation(AssignLocation(base, patch), patch) == AssignLocation(base, patch)
    ensures AssignLocation(base, LocationOptions(None, None, None)) == base
  {
  }

  /** The same for `security`; a supplied `rateLimit` replaces every
      rate-limit field, including those it does not mention. */
  lemma AssignSecurityShallow(base: SecuritySettings, patch: SecurityOptions)
    ensures var r := AssignSecurity(base, patch);
      && (patch.profile.Some? ==> r.profile == patch.profile.value)
      && (patch.profile.None? ==> r.profile == base.profile)
      && (patch.rateLimit.Some? ==> r.rateLimit == patch.rateLimit.value)
      && (patch.rateLimit.None? ==> r.rateLimit == base.rateLimit)
      && (patch.cors.Some? ==> r.cors == patch.cors.value)
      && (patch.cors.None? ==> r.cors == base.cors)
      && (patch.helmet.Some? ==> r.helmet == patch.helmet.value)
      && (patch.helmet.None? ==> r.helmet == base.helmet)
    ensures AssignSecurity(AssignSecurity(base, patch), patch) == AssignSecurity(base, patch)
    ensures AssignSecurity(base, SecurityOptions(None, None, None, None)) == base
  {
  }

  class WeatherAPI {
    var config: Config
    /** The cache modules as they were loaded: the updater's directory and
        location name, and the file the loader reads. */
    const updater: Updater
    const cacheFile: Path

    /** `new WeatherAPI(options)`: load the configuration, then override the
        key only with a truthy `openWeatherKey`, and merge `location` and
        `security` shallowly; `server` always comes from the environment. */
    constructor (env: Env, options: Options, updater: Updater, cacheFile: Path)
      ensures this.updater == updater && this.cacheFile == cacheFile
      ensures config.server == LoadConfig(env).server
      ensures config.openWeatherKey ==
                if Truthy(options.openWeatherKey) then options.openWeatherKey else LoadConfig(env).openWeatherKey
      ensures config.location ==
                if options.location.Some? then AssignLocation(LoadConfig(env).location, options.location.value)
                else LoadConfig(env).location
      ensures config.security ==
                if options.security.Some? then AssignSecurity(LoadConfig(env).security, options.security.value)
                else LoadConfig(env).security
    {
      this.updater := updater;
      this.cacheFile := cacheFile;
      config := LoadConfig(env);
      new;
      if Truthy(options.openWeatherKey) {
        config := config.(openWeatherKey := options.openWeatherKey);
      }
      if options.location.Some? {
        config := config.(location := AssignLocation(config.location, options.location.value));
      }
      if options.security.Some? {
        config := config.(security := AssignSecurity(config.security, options.security.value));
      }
    }

    /** `getWeather()`: `null` exactly when the load gives `null`, the
        simplified view of a loaded entry otherwise; errors of either step
        propagate. */
    method GetWeather(fs: FileSystem, fault: Option<OsError>) returns (r: Result<Option<SimpleView>, Error>)
      ensures var loaded := LoadSpec(fs.State(), cacheFile, fault);
        && (loaded.Failure? ==> r == Failure(loaded.error))
        && (r == Success(None) <==> loaded == Success(None))
        && (loaded.Success? && loaded.value.Some? ==>
              match SimplifyWeatherData(loaded.value.value)
              case Success(v) => r == Success(Some(v))
              case Failure(e) => r == Failure(e))
    {
      var loaded := LoadWeatherDataFromCache(fs, cacheFile, fault);
      if loaded.Failure? {
        return Failure(loaded.error);
      }
      if loaded.value.None? {
        return Success(None);
      }
      var view := SimplifyWeatherData(loaded.value.value);
      if view.Failure? {
        return Failure(view.error);
      }
      r := Success(Some(view.value));
    }

    /** `getFullWeather()`: the loaded entry, unchanged. */
    method GetFullWeather(fs: FileSystem, fault: Option<OsError>) returns (r: Result<Option<CacheEntry>, Error>)
      ensures r == LoadSpec(fs.State(), cacheFile, fault)
    {
      r := LoadWeatherDataFromCache(fs, cacheFile, fault);
    }

    /** `updateCache()`: refresh the cache for the configured coordinate.
        The key it also passes is ignored by `updateWeatherCache`. */
    method UpdateCache(fs: FileSystem, fetch: LatLon<real> -> Result<Payload, Error>, now: int,
                       faults: CommitFaults) returns (r: Result<Payload, Error>)
      modifies fs
      ensures (r, fs.State()) == RefreshSpec(old(fs.State()), updater.dataDir, updater.location,
                                             fetch(LatLon(config.location.latitude, config.location.longitude)),
                                             now, faults)
    {
      var coord := LatLon(config.location.latitude, config.location.longitude);
      r := UpdateWeatherCache(fs, updater, coord, fetch, now, faults);
    }

    /** `getConfig()`. */
    method GetConfig() returns (c: Config)
      ensures c == config
    {
      c := config;
    }
  }
}
