/** `vercel-deploy/api/index.js`: the serverless build, which keeps its own
    copies of the cache functions under `/tmp` and answers `/api/` and
    `/api/full` from one request handler that refreshes the cache when it
    is missing or stale. */
module Serverless {
  import opened Wrappers
  import opened Errors
  import opened Js
  import opened Weather
  import opened FileSystem
  import CacheStore
  import opened Simplify

  const CACHE_DIR := "/tmp/weather-cache"
  const CACHE_FILE := Path(CACHE_DIR, "weatherData.json")

  /** `ms` of age beyond which load warns, and beyond which the handler refreshes. */
  const WARN_AGE := 10 * 60 * 1000
  const REFRESH_AGE := 15 * 60 * 1000

  /** A truthy `timestamp.lastUpdated`, if the entry has one. */
  function LastUpdated(entry: CacheEntry): Option<int> {
    if entry.timestamp.Some? && entry.timestamp.value.lastUpdated.Some?
       && entry.timestamp.value.lastUpdated.value != 0
    then entry.timestamp.value.lastUpdated
    else None
  }

  /** What this copy of `loadWeatherDataFromCache` returns: `null` when the
      file does not exist, when reading it meets ENOENT and when its
      contents do not parse (`JSON.parse` fails only with a SyntaxError);
      other errors are rethrown. */
  function LoadSpec(s: Fs, fault: Option<OsError>): (r: Result<Option<CacheEntry>, Error>)
    ensures r.Failure? ==> r.error.Os? && r.error.code != ENOENT
  {
    if CACHE_FILE !in s.files then Success(None)
    else match Read(s, CACHE_FILE, fault)
      case Failure(e) => if e == Os(ENOENT) then Success(None) else Failure(e)
      case Success(t) =>
        match Parse(t)
        case Success(entry) => Success(Some(entry))
        case Failure(_) => Success(None)
  }

  /** Whether load logs the age warning: `(now - lastUpdated) / 60000 > 10`. */
  predicate AgeWarning(entry: CacheEntry, now: int) {
    LastUpdated(entry).Some? && (now - LastUpdated(entry).value) as real / 60000.0 > 10.0
  }

  /** `loadWeatherDataFromCache()`; `warned` is whether it logged the age
      warning, which has no effect on the result. */
  method LoadWeatherDataFromCache(fs: FileSystem, fault: Option<OsError>, now: int)
    returns (r: Result<Option<CacheEntry>, Error>, warned: bool)
    ensures r == LoadSpec(fs.State(), fault)
    ensures warned <==> r.Success? && r.value.Some? && AgeWarning(r.value.value, now)
  {
    warned := false;
    var present := fs.FileExists(CACHE_FILE);
    if !present {
      return Success(None), false;
    }
    var read := fs.ReadFile(CACHE_FILE, fault);
    if read.Failure? {
      if read.error == Os(ENOENT) {
        return Success(None), false;
      }
      return Failure(read.error), false;
    }
    var parsed := Parse(read.value);
    if parsed.Failure? {
      return Success(None), false;
    }
    var entry := parsed.value;
    if LastUpdated(entry).Some? {
      var age := now - LastUpdated(entry).value;
      if age as real / 60000.0 > 10.0 {
        warned := true;
      }
    }
    r := Success(Some(entry));
  }

  /** This copy of `updateWeatherCache`: create the cache directory, then
      fetch and commit as the server build does, labelling the entry with
      `LOCATION_NAME` as it is at the time of the call. */
  function UpdateSpec(s: Fs, env: Env, fetched: Result<Payload, Error>, now: int,
                      faults: CacheStore.CommitFaults): (Result<Payload, Error>, Fs)
  {
    CacheStore.RefreshSpec(EnsureDir(s, CACHE_DIR), CACHE_DIR, Lookup(env, "LOCATION_NAME"), fetched, now, faults)
  }

  method UpdateWeatherCache(fs: FileSystem, env: Env, coord: LatLon<string>,
                            fetch: LatLon<string> -> Result<Payload, Error>, now: int,
                            faults: CacheStore.CommitFaults) returns (r: Result<Payload, Error>)
    modifies fs
    ensures (r, fs.State()) == UpdateSpec(old(fs.State()), env, fetch(coord), now, faults)
  {
    var present := fs.DirExists(CACHE_DIR);
    if !present {
      fs.MakeDirectory(CACHE_DIR);
    }
    var fetched := fetch(coord);
    r := CacheStore.Refresh(fs, CACHE_DIR, Lookup(env, "LOCATION_NAME"), fetched, now, faults);
  }

  /** The handler's refresh condition: no entry, or a truthy `lastUpdated`
      more than 15 minutes old. */
  predicate NeedsRefresh(data: Option<CacheEntry>, now: int) {
    data.None? || (LastUpdated(data.value).Some? && now - LastUpdated(data.value).value > REFRESH_AGE)
  }

  /** The failures a request's filesystem calls may meet. */
  datatype RequestFaults = RequestFaults(firstLoad: Option<OsError>, reload: Option<OsError>,
                                         commit: CacheStore.CommitFaults)

  /** Load, and refresh when needed; a refresh whose update or reload throws
      keeps the entry loaded first. An error of the first load is thrown. */
  function GetOrRefreshSpec(s: Fs, env: Env, fetched: Result<Payload, Error>, now: int,
                            faults: RequestFaults): (Result<Option<CacheEntry>, Error>, Fs)
  {
    match LoadSpec(s, faults.firstLoad)
    case Failure(e) => (Failure(e), s)
    case Success(data) =>
      if !NeedsRefresh(data, now) then (Success(data), s)
      else
        var (u, s1) := UpdateSpec(s, env, fetched, now, faults.commit);
        if u.Failure? then (Success(data), s1)
        else match LoadSpec(s1, faults.reload)
          case Failure(_) => (Success(data), s1)
          case Success(reloaded) => (Success(reloaded), s1)
  }

  method GetOrRefresh(fs: FileSystem, env: Env, fetch: LatLon<string> -> Result<Payload, Error>, now: int,
                      faults: RequestFaults) returns (r: Result<Option<CacheEntry>, Error>)
    requires "LATITUDE" in env && "LONGITUDE" in env
    modifies fs
    ensures (r, fs.State()) ==
              GetOrRefreshSpec(old(fs.State()), env, fetch(LatLon(env["LATITUDE"], env["LONGITUDE"])), now, faults)
  {
    var loaded, _ := LoadWeatherDataFromCache(fs, faults.firstLoad, now);
    if loaded.Failure? {
      return loaded;
    }
    var data := loaded.value;
    if NeedsRefresh(data, now) {
      var u := UpdateWeatherCache(fs, env, LatLon(env["LATITUDE"], env["LONGITUDE"]), fetch, now, faults.commit);
      if u.Success? {
        var reloaded, _ := LoadWeatherDataFromCache(fs, faults.reload, now);
        if reloaded.Success? {
          data := reloaded.value;
        }
      }
    }
    r := Success(data);
  }

  datatype Body = ErrorBody(error: string, message: string) | ViewBody(view: SimpleView) | EntryBody(entry: CacheEntry)

  datatype Response = Response(status: int, body: Body)

  const CONFIGURATION_ERROR := Response(500, ErrorBody("Configuration error", "Missing required environment variables"))
  const UNAVAILABLE := Response(503, ErrorBody("Weather data unavailable",
                                               "Weather cache is empty. Please try again in a few minutes."))
  const NOT_FOUND := Response(404, ErrorBody("Not found", "API endpoint not found"))
  const INTERNAL_ERROR := Response(500, ErrorBody("Internal server error", "Failed to process weather data"))

  /** Every variable the handler insists on is set and non-empty. */
  predicate Configured(env: Env) {
    && Truthy(Lookup(env, "OPENWEATHER_KEY")) && Truthy(Lookup(env, "LATITUDE"))
    && Truthy(Lookup(env, "LONGITUDE")) && Truthy(Lookup(env, "LOCATION_NAME"))
  }

  const REQUIRED := ["OPENWEATHER_KEY", "LATITUDE", "LONGITUDE", "LOCATION_NAME"]

  /** `vars.filter(v => !process.env[v])`: the unset or empty variables, in order. */
  function Missing(vars: seq<string>, env: Env): (missing: seq<string>)
    ensures forall v :: v in missing <==> v in vars && !Truthy(Lookup(env, v))
    ensures |missing| <= |vars|
    decreases |vars|
  {
    if vars == [] then []
    else (if Truthy(Lookup(env, vars[0])) then [] else [vars[0]]) + Missing(vars[1..], env)
  }

  /** Some required variable is missing exactly when the handler is not configured. */
  lemma MissingIffUnconfigured(env: Env)
    ensures |Missing(REQUIRED, env)| > 0 <==> !Configured(env)
  {
    var missing := Missing(REQUIRED, env);
    if |missing| > 0 {
      assert missing[0] in missing;
    } else {
      assert forall v :: v in REQUIRED ==> v !in missing;
      assert REQUIRED[0] in REQUIRED && REQUIRED[1] in REQUIRED;
      assert REQUIRED[2] in REQUIRED && REQUIRED[3] in REQUIRED;
    }
  }

  /** The response to a request and the filesystem afterwards. */
  function HandleSpec(s: Fs, httpMethod: string, pathname: string, env: Env,
                      fetch: LatLon<string> -> Result<Payload, Error>, now: int,
                      faults: RequestFaults): (Response, Fs)
  {
    if !Configured(env) then (CONFIGURATION_ERROR, s)
    else if httpMethod == "GET" && (pathname == "/api/" || pathname == "/api/full") then
      var (r, s1) := GetOrRefreshSpec(s, env, fetch(LatLon(env["LATITUDE"], env["LONGITUDE"])), now, faults);
      if r.Failure? then (INTERNAL_ERROR, s1)
      else if r.value.None? then (UNAVAILABLE, s1)
      else if pathname == "/api/full" then (Response(200, EntryBody(r.value.value)), s1)
      else match SimplifyWeatherData(r.value.value)
        case Success(view) => (Response(200, ViewBody(view)), s1)
        case Failure(_) => (INTERNAL_ERROR, s1)
    else (NOT_FOUND, s)
  }

  /** The exported handler, given the request's method and URL path. */
  method Handle(fs: FileSystem, httpMethod: string, pathname: string, env: Env,
                fetch: LatLon<string> -> Result<Payload, Error>, now: int, faults: RequestFaults)
    returns (response: Response)
    modifies fs
    ensures (response, fs.State()) == HandleSpec(old(fs.State()), httpMethod, pathname, env, fetch, now, faults)
  {
    var missing := Missing(REQUIRED, env);
    MissingIffUnconfigured(env);
    if |missing| > 0 {
      return CONFIGURATION_ERROR;
    }
    if httpMethod == "GET" && (pathname == "/api/" || pathname == "/api/full") {
      var r := GetOrRefresh(fs, env, fetch, now, faults);
      if r.Failure? {
        return INTERNAL_ERROR;
      }
      if r.value.None? {
        return UNAVAILABLE;
      }
      if pathname == "/api/full" {
        return Response(200, EntryBody(r.value.value));
      }
      var view := SimplifyWeatherData(r.value.value);
      if view.Failure? {
        return INTERNAL_ERROR;
      }
      response := Response(200, ViewBody(view.value));
    } else {
      response := NOT_FOUND;
    }
  }

  // ---------------------------------------------------------------------
  // Properties

  /** Load gives `null` for a missing file, an ENOENT read and corrupt
      contents, the parsed entry for a readable one, and rethrows only the
      other read errors. */
  lemma LoadOutcomes(s: Fs, fault: Option<OsError>)
    ensures CACHE_FILE !in s.files ==> LoadSpec(s, fault) == Success(None)
    ensures fault == Some(ENOENT) ==> LoadSpec(s, fault) == Success(None)
    ensures fault.None? && CACHE_FILE in s.files && s.files[CACHE_FILE].Unparsable? ==>
              LoadSpec(s, fault) == Success(None)
    ensures fault.None? && CACHE_FILE in s.files && s.files[CACHE_FILE].Serialized? ==>
              LoadSpec(s, fault) == Success(Some(s.files[CACHE_FILE].entry))
    ensures CACHE_FILE in s.files && fault.Some? && fault.value != ENOENT ==>
              LoadSpec(s, fault) == Failure(Os(fault.value))
  {
  }

  /** The age warning fires exactly for a truthy `lastUpdated` more than ten
      minutes before `now`. */
  lemma AgeWarningAfterTenMinutes(entry: CacheEntry, now: int)
    ensures AgeWarning(entry, now) <==> LastUpdated(entry).Some? && now - LastUpdated(entry).value > WARN_AGE
  {
    if LastUpdated(entry).Some? {
      var age := (now - LastUpdated(entry).value) as real;
      assert age / 60000.0 > 10.0 <==> age > 600000.0;
    }
  }

  /** Update creates the cache directory before fetching, so it exists
      afterwards even when the fetch fails, and a failed fetch writes no
      file. */
  lemma UpdateCreatesDirectory(s: Fs, env: Env, fetched: Result<Payload, Error>, now: int,
                               faults: CacheStore.CommitFaults)
    ensures CACHE_DIR in UpdateSpec(s, env, fetched, now, faults).1.dirs
    ensures fetched.Failure? ==> UpdateSpec(s, env, fetched, now, faults) == (Failure(fetched.error), EnsureDir(s, CACHE_DIR))
  {
    CacheStore.RefreshIsAtomic(EnsureDir(s, CACHE_DIR), CACHE_DIR, Lookup(env, "LOCATION_NAME"), fetched, now, faults);
  }

  /** A handler with a required variable unset or empty answers 500 and
      touches nothing. */
  lemma MissingVariableAnswers500(s: Fs, httpMethod: string, pathname: string, env: Env,
                                  fetch: LatLon<string> -> Result<Payload, Error>, now: int, faults: RequestFaults)
    requires !Truthy(Lookup(env, "OPENWEATHER_KEY")) || !Truthy(Lookup(env, "LATITUDE"))
             || !Truthy(Lookup(env, "LONGITUDE")) || !Truthy(Lookup(env, "LOCATION_NAME"))
    ensures HandleSpec(s, httpMethod, pathname, env, fetch, now, faults) == (CONFIGURATION_ERROR, s)
  {
  }

  /** An entry without a truthy `lastUpdated` is never refreshed; with one,
      it is refreshed exactly when it is more than 15 minutes old. */
  lemma RefreshRule(entry: CacheEntry, now: int)
    ensures LastUpdated(entry).None? ==> !NeedsRefresh(Some(entry), now)
    ensures LastUpdated(entry).Some? ==>
              (NeedsRefresh(Some(entry), now) <==> now - LastUpdated(entry).value > 15 * 60 * 1000)
    ensures NeedsRefresh(None, now)
  {
  }

  /** Without a refresh the filesystem is untouched and the loaded entry is
      used; with one, the filesystem is what the update left. */
  lemma RefreshOnlyWhenNeeded(s: Fs, env: Env, fetched: Result<Payload, Error>, now: int, faults: RequestFaults)
    requires LoadSpec(s, faults.firstLoad).Success?
    ensures var data := LoadSpec(s, faults.firstLoad).value;
      var (r, s') := GetOrRefreshSpec(s, env, fetched, now, faults);
      && (!NeedsRefresh(data, now) ==> r == Success(data) && s' == s)
      && (NeedsRefresh(data, now) ==> s' == UpdateSpec(s, env, fetched, now, faults.commit).1)
  {
  }

  /** A refresh whose update throws, or whose reload throws, keeps the entry
      loaded first, stale or not. */
  lemma FailedRefreshKeepsStaleEntry(s: Fs, env: Env, fetched: Result<Payload, Error>, now: int,
                                     faults: RequestFaults, entry: CacheEntry)
    requires LoadSpec(s, faults.firstLoad) == Success(Some(entry))
    requires var (u, s1) := UpdateSpec(s, env, fetched, now, faults.commit);
      u.Failure? || LoadSpec(s1, faults.reload).Failure?
    ensures GetOrRefreshSpec(s, env, fetched, now, faults).0 == Success(Some(entry))
  {
  }

  /** A successful update leaves a cache file that the reload reads back as
      the new entry unless the reload itself fails. */
  lemma UpdateThenLoad(s: Fs, env: Env, fetched: Result<Payload, Error>, now: int,
                       faults: CacheStore.CommitFaults)
    requires UpdateSpec(s, env, fetched, now, faults).0.Success?
    ensures var entry := CacheStore.BuildEntry(fetched.value, Lookup(env, "LOCATION_NAME"), now);
      && entry.Success?
      && LoadSpec(UpdateSpec(s, env, fetched, now, faults).1, None) == Success(Some(entry.value))
  {
    var s0 := EnsureDir(s, CACHE_DIR);
    CacheStore.RefreshIsAtomic(s0, CACHE_DIR, Lookup(env, "LOCATION_NAME"), fetched, now, faults);
    ParseStringify(CacheStore.BuildEntry(fetched.value, Lookup(env, "LOCATION_NAME"), now).value);
  }

  /** 503 means nothing was cached at the first load, unless a reload met
      ENOENT right after a successful refresh: that reload's `null`
      replaces the stale entry. */
  lemma UnavailableMeansNoEntry(s: Fs, httpMethod: string, pathname: string, env: Env,
                                fetch: LatLon<string> -> Result<Payload, Error>, now: int, faults: RequestFaults)
    requires faults.reload != Some(ENOENT)
    requires HandleSpec(s, httpMethod, pathname, env, fetch, now, faults).0 == UNAVAILABLE
    ensures LoadSpec(s, faults.firstLoad) == Success(None)
  {
    var fetched := fetch(LatLon(env["LATITUDE"], env["LONGITUDE"]));
    var data := LoadSpec(s, faults.firstLoad).value;
    if data.Some? && NeedsRefresh(data, now) {
      var (u, s1) := UpdateSpec(s, env, fetched, now, faults.commit);
      if u.Success? {
        UpdateThenLoad(s, env, fetched, now, faults.commit);
        RefreshIsAtomicOnUpdate(s, env, fetched, now, faults.commit);
      }
    }
  }

  /** After a successful update the cache file exists and holds the new entry. */
  lemma RefreshIsAtomicOnUpdate(s: Fs, env: Env, fetched: Result<Payload, Error>, now: int,
                                faults: CacheStore.CommitFaults)
    requires UpdateSpec(s, env, fetched, now, faults).0.Success?
    ensures var s1 := UpdateSpec(s, env, fetched, now, faults).1;
      && CACHE_FILE in s1.files
      && s1.files[CACHE_FILE] == Stringify(CacheStore.BuildEntry(fetched.value, Lookup(env, "LOCATION_NAME"), now).value)
  {
    CacheStore.RefreshIsAtomic(EnsureDir(s, CACHE_DIR), CACHE_DIR, Lookup(env, "LOCATION_NAME"), fetched, now, faults);
  }

  /** The stale entry is lost in exactly that case: a stale entry, a
      successful refresh and an ENOENT reload give 503. */
  lemma ReloadMissAfterRefresh(s: Fs, pathname: string, env: Env,
                               fetch: LatLon<string> -> Result<Payload, Error>, now: int,
                               faults: RequestFaults, entry: CacheEntry)
    requires Configured(env) && (pathname == "/api/" || pathname == "/api/full")
    requires LoadSpec(s, faults.firstLoad) == Success(Some(entry)) && NeedsRefresh(Some(entry), now)
    requires UpdateSpec(s, env, fetch(LatLon(env["LATITUDE"], env["LONGITUDE"])), now, faults.commit).0.Success?
    requires faults.reload == Some(ENOENT)
    ensures HandleSpec(s, "GET", pathname, env, fetch, now, faults).0 == UNAVAILABLE
  {
    RefreshIsAtomicOnUpdate(s, env, fetch(LatLon(env["LATITUDE"], env["LONGITUDE"])), now, faults.commit);
  }

  /** Routing: only `GET /api/` and `GET /api/full` reach the cache; the
      first serves the simplified view, the second the entry unchanged. */
  lemma Routes(s: Fs, httpMethod: string, pathname: string, env: Env,
               fetch: LatLon<string> -> Result<Payload, Error>, now: int, faults: RequestFaults)
    requires Configured(env)
    ensures !(httpMethod == "GET" && (pathname == "/api/" || pathname == "/api/full")) ==>
              HandleSpec(s, httpMethod, pathname, env, fetch, now, faults) == (NOT_FOUND, s)
    ensures var (r, _) := GetOrRefreshSpec(s, env, fetch(LatLon(env["LATITUDE"], env["LONGITUDE"])), now, faults);
      var response := HandleSpec(s, httpMethod, pathname, env, fetch, now, faults).0;
      && (httpMethod == "GET" && pathname == "/api/full" && r.Success? && r.value.Some? ==>
            response == Response(200, EntryBody(r.value.value)))
      && (httpMethod == "GET" && pathname == "/api/" && r.Success? && r.value.Some? ==>
            match SimplifyWeatherData(r.value.value)
            case Success(view) => response == Response(200, ViewBody(view))
            case Failure(_) => response == INTERNAL_ERROR)
  {
  }

  /** End to end: with nothing cached, a successful fetch and no faults,
      `/api/full` answers 200 with the entry just written. */
  lemma FirstRequestFillsCache(s: Fs, env: Env, fetch: LatLon<string> -> Result<Payload, Error>, now: int)
    requires Configured(env) && CACHE_FILE !in s.files
    requires var fetched := fetch(LatLon(env["LATITUDE"], env["LONGITUDE"]));
      fetched.Success? && fetched.value.current.Some?
    ensures var p := fetch(LatLon(env["LATITUDE"], env["LONGITUDE"])).value;
      var entry := CacheStore.BuildEntry(p, Lookup(env, "LOCATION_NAME"), now).value;
      HandleSpec(s, "GET", "/api/full", env, fetch, now, RequestFaults(None, None, CacheStore.NO_FAULTS)).0
        == Response(200, EntryBody(entry))
  {
    var fetched := fetch(LatLon(env["LATITUDE"], env["LONGITUDE"]));
    var faults := RequestFaults(None, None, CacheStore.NO_FAULTS);
    CacheStore.RefreshReplacesEntry(EnsureDir(s, CACHE_DIR), CACHE_DIR, Lookup(env, "LOCATION_NAME"),
                                    fetched.value, now);
    UpdateThenLoad(s, env, fetched, now, CacheStore.NO_FAULTS);
  }
}
