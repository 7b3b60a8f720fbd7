/** The cache store of the server build: `utils/updateWeatherCache.js` (build
    the entry, write it to a temporary file, rename it over the cache file)
    and `utils/loadWeatherDataFromCache.js` (read the file back). */
module CacheStore {
  import opened Wrappers
  import opened Errors
  import opened Js
  import opened Weather
  import opened FileSystem

  const CACHE_FILE_NAME := "weatherData.json"
  const TEMP_FILE_NAME := "weatherData.temp.json"
  const UNKNOWN_LOCATION := "Unknown Location"

  function CacheFile(dir: string): Path {
    Path(dir, CACHE_FILE_NAME)
  }

  function TempFile(dir: string): Path {
    Path(dir, TEMP_FILE_NAME)
  }

  /** What `updateWeatherCache.js` fixes when it is loaded: its cache
      directory and the `LOCATION_NAME` it read from the environment. */
  datatype Updater = Updater(dataDir: string, location: Option<string>)

  /** The failures the two filesystem calls of a commit may meet. */
  datatype CommitFaults = CommitFaults(write: Option<OsError>, rename: Option<OsError>)

  const NO_FAULTS := CommitFaults(None, None)

  /** Loading `updateWeatherCache.js`: create the cache directory if it is
      absent, then refuse a directory outside the project root. The
      directory is created before the check, so it exists either way. */
  method InitUpdater(fs: FileSystem, dataDir: string, projectRoot: string, env: Env)
    returns (r: Result<Updater, Error>)
    modifies fs
    ensures fs.State() == EnsureDir(old(fs.State()), dataDir)
    ensures r.Failure? <==> !StartsWith(dataDir, projectRoot)
    ensures r.Failure? ==> r.error == PathTraversal
    ensures r.Success? ==> r.value == Updater(dataDir, Lookup(env, "LOCATION_NAME"))
  {
    var present := fs.DirExists(dataDir);
    if !present {
      fs.MakeDirectory(dataDir);
    }
    if !StartsWith(dataDir, projectRoot) {
      return Failure(PathTraversal);
    }
    r := Success(Updater(dataDir, Lookup(env, "LOCATION_NAME")));
  }

  /** The directory the module uses, `<projectRoot>/cache`, always lies
      inside the project root, so `InitUpdater` never fails there. */
  lemma CacheDirInsideRoot(projectRoot: string)
    ensures StartsWith(projectRoot + "/cache", projectRoot)
  {
    assert (projectRoot + "/cache")[..|projectRoot|] == projectRoot;
  }

  /** Loading `loadWeatherDataFromCache.js`: create the cache directory if it
      is absent; the module then reads `<dir>/weatherData.json`. */
  method InitLoader(fs: FileSystem, cacheDir: string) returns (file: Path)
    modifies fs
    ensures fs.State() == EnsureDir(old(fs.State()), cacheDir)
    ensures file == CacheFile(cacheDir)
  {
    var present := fs.DirExists(cacheDir);
    if !present {
      fs.MakeDirectory(cacheDir);
    }
    file := CacheFile(cacheDir);
  }

  /** `location || "Unknown Location"`. */
  function LocationLabel(location: Option<string>): string {
    OrElse(location, UNKNOWN_LOCATION)
  }

  /** The entry wrapped around a fetched payload; reading `current.dt` throws
      a TypeError when the payload has no `current` block. */
  function BuildEntry(p: Payload, location: Option<string>, now: int): Result<CacheEntry, Error> {
    if p.current.None? then Failure(TypeError)
    else
      var ms := p.current.value.dt * 1000;
      Success(CacheEntry(Some(Timestamp(DisplayDate(ms, p.timezone), IsoDate(ms), Some(now))),
                         LocationLabel(location), Some(p)))
  }

  /** Write the text to the temporary file, then rename it onto the cache file. */
  function Commit(s: Fs, dir: string, t: Text, faults: CommitFaults): (Outcome<Error>, Fs) {
    var (w, s1) := Write(s, TempFile(dir), t, faults.write);
    if w.Fail? then (w, s1)
    else Rename(s1, TempFile(dir), CacheFile(dir), faults.rename)
  }

  /** Everything `updateWeatherCache` does once the fetch has settled: the
      result it returns or throws, and the filesystem afterwards. */
  function RefreshSpec(s: Fs, dir: string, location: Option<string>, fetched: Result<Payload, Error>,
                       now: int, faults: CommitFaults): (Result<Payload, Error>, Fs)
  {
    match fetched
    case Failure(e) => (Failure(e), s)
    case Success(p) =>
      match BuildEntry(p, location, now)
      case Failure(e) => (Failure(e), s)
      case Success(entry) =>
        var (o, s') := Commit(s, dir, Stringify(entry), faults);
        (if o.Pass? then Success(p) else Failure(o.error), s')
  }

  /** The body of `updateWeatherCache` after the fetch (shared with the
      serverless copy). */
  method Refresh(fs: FileSystem, dir: string, location: Option<string>, fetched: Result<Payload, Error>,
                 now: int, faults: CommitFaults) returns (r: Result<Payload, Error>)
    modifies fs
    ensures (r, fs.State()) == RefreshSpec(old(fs.State()), dir, location, fetched, now, faults)
  {
    if fetched.Failure? {
      return Failure(fetched.error);
    }
    var payload := fetched.value;
    var built := BuildEntry(payload, location, now);
    if built.Failure? {
      return Failure(built.error);
    }
    var w := fs.WriteFile(TempFile(dir), Stringify(built.value), faults.write);
    if w.Fail? {
      return Failure(w.error);
    }
    var m := fs.RenameFile(TempFile(dir), CacheFile(dir), faults.rename);
    if m.Fail? {
      return Failure(m.error);
    }
    r := Success(payload);
  }

  /** `updateWeatherCache({lat, lon})`: fetch the weather for the coordinate
      and commit the new entry; any error is rethrown unchanged. */
  method UpdateWeatherCache<C>(fs: FileSystem, u: Updater, coord: LatLon<C>,
                               fetch: LatLon<C> -> Result<Payload, Error>, now: int, faults: CommitFaults)
    returns (r: Result<Payload, Error>)
    modifies fs
    ensures (r, fs.State()) == RefreshSpec(old(fs.State()), u.dataDir, u.location, fetch(coord), now, faults)
  {
    var fetched := fetch(coord);
    r := Refresh(fs, u.dataDir, u.location, fetched, now, faults);
  }

  /** What `loadWeatherDataFromCache` returns: `null` for a missing file, the
      parsed entry otherwise; every other error, a SyntaxError included, is
      rethrown. */
  function LoadSpec(s: Fs, file: Path, fault: Option<OsError>): Result<Option<CacheEntry>, Error> {
    match Read(s, file, fault)
    case Failure(e) => if e == Os(ENOENT) then Success(None) else Failure(e)
    case Success(t) =>
      match Parse(t)
      case Success(entry) => Success(Some(entry))
      case Failure(e) => Failure(e)
  }

  /** `loadWeatherDataFromCache()`; it reads the filesystem and changes nothing. */
  method LoadWeatherDataFromCache(fs: FileSystem, file: Path, fault: Option<OsError>)
    returns (r: Result<Option<CacheEntry>, Error>)
    ensures r == LoadSpec(fs.State(), file, fault)
  {
    var read := fs.ReadFile(file, fault);
    if read.Failure? {
      if read.error == Os(ENOENT) {
        return Success(None);
      }
      return Failure(read.error);
    }
    var parsed := Parse(read.value);
    if parsed.Failure? {
      return Failure(parsed.error);
    }
    r := Success(Some(parsed.value));
  }

  // ---------------------------------------------------------------------
  // Properties of the refresh path

  /** A successful refresh returns the fetched payload itself, leaves no
      temporary file and makes the cache file hold exactly the new entry
      `{timestamp, location, data}`, whatever it held before; no other file
      and no directory changes. */
  lemma RefreshReplacesEntry(s: Fs, dir: string, location: Option<string>, p: Payload, now: int)
    requires p.current.Some? && dir in s.dirs
    ensures var (r, s') := RefreshSpec(s, dir, location, Success(p), now, NO_FAULTS);
      var ms := p.current.value.dt * 1000;
      var entry := CacheEntry(Some(Timestamp(DisplayDate(ms, p.timezone), IsoDate(ms), Some(now))),
                              LocationLabel(location), Some(p));
      && r == Success(p)
      && s'.dirs == s.dirs
      && s'.files == (s.files - {TempFile(dir)})[CacheFile(dir) := Stringify(entry)]
      && TempFile(dir) !in s'.files
  {
  }

  /** An unset or empty `LOCATION_NAME` is stored as "Unknown Location". */
  lemma LocationDefault(location: Option<string>)
    ensures !Truthy(location) ==> LocationLabel(location) == "Unknown Location"
    ensures Truthy(location) ==> LocationLabel(location) == location.value
  {
  }

  /** Atomicity: a failed refresh leaves the cache file exactly as it was
      (present with the same contents, or absent), and a successful one
      leaves the complete new entry in it. */
  lemma RefreshIsAtomic(s: Fs, dir: string, location: Option<string>, fetched: Result<Payload, Error>,
                        now: int, faults: CommitFaults)
    ensures var (r, s') := RefreshSpec(s, dir, location, fetched, now, faults);
      && s'.dirs == s.dirs
      && (r.Failure? ==> (CacheFile(dir) in s'.files <==> CacheFile(dir) in s.files))
      && (r.Failure? && CacheFile(dir) in s.files ==> s'.files[CacheFile(dir)] == s.files[CacheFile(dir)])
      && (r.Success? ==>
            && fetched.Success? && r.value == fetched.value
            && BuildEntry(fetched.value, location, now).Success?
            && s'.files[CacheFile(dir)] == Stringify(BuildEntry(fetched.value, location, now).value))
  {
  }

  /** A failure after the temporary file was written and before the rename
      leaves the cache file's previous contents in place; the new text is
      left behind in the temporary file. */
  lemma CrashBeforeRename(s: Fs, dir: string, location: Option<string>, p: Payload, now: int, e: OsError)
    requires p.current.Some? && dir in s.dirs
    ensures var (r, s') := RefreshSpec(s, dir, location, Success(p), now, CommitFaults(None, Some(e)));
      && r == Failure(Os(e))
      && s'.files == s.files[TempFile(dir) := Stringify(BuildEntry(p, location, now).value)]
      && LoadSpec(s', CacheFile(dir), None) == LoadSpec(s, CacheFile(dir), None)
  {
  }

  /** A failed fetch writes nothing and rethrows the same error. */
  lemma FetchFailureWritesNothing(s: Fs, dir: string, location: Option<string>, e: Error, now: int,
                                  faults: CommitFaults)
    ensures RefreshSpec(s, dir, location, Failure(e), now, faults) == (Failure(e), s)
  {
  }

  /** Round trip: once a refresh has succeeded, loading the same cache file
      returns the entry it wrote. */
  lemma RefreshThenLoad(s: Fs, dir: string, location: Option<string>, fetched: Result<Payload, Error>,
                        now: int, faults: CommitFaults)
    requires RefreshSpec(s, dir, location, fetched, now, faults).0.Success?
    ensures LoadSpec(RefreshSpec(s, dir, location, fetched, now, faults).1, CacheFile(dir), None)
            == Success(Some(BuildEntry(fetched.value, location, now).value))
  {
    RefreshIsAtomic(s, dir, location, fetched, now, faults);
    ParseStringify(BuildEntry(fetched.value, location, now).value);
  }

  // ---------------------------------------------------------------------
  // Properties of the load path

  /** A missing cache file gives `null`, not an error; a present one gives
      its parsed contents unchanged; unparsable contents and every other
      read failure are rethrown. */
  lemma LoadOutcomes(s: Fs, file: Path, fault: Option<OsError>)
    ensures fault.None? && file !in s.files ==> LoadSpec(s, file, fault) == Success(None)
    ensures fault.None? && file in s.files && s.files[file].Serialized? ==>
              LoadSpec(s, file, fault) == Success(Some(s.files[file].entry))
    ensures fault.None? && file in s.files && s.files[file].Unparsable? ==>
              LoadSpec(s, file, fault) == Failure(SyntaxError)
    ensures fault.Some? && fault.value != ENOENT ==> LoadSpec(s, file, fault) == Failure(Os(fault.value))
    ensures LoadSpec(s, file, fault) == Success(None) ==> file !in s.files || fault == Some(ENOENT)
  {
  }
}
