# weather-api-v2, modelled in Dafny

weather-api-v2 serves OpenWeather One Call data from a local cache file. A
refresh fetches a payload and wraps it in a cache entry
`{timestamp, location, data}`. It writes the entry to a temporary file and
renames that file over `weatherData.json`. Readers load the file and serve
either the whole entry or a simplified view. The repository ships the same
logic in three forms:

- a library (`index.js`, the `WeatherAPI` class);
- a command line (`bin/cli.js`);
- a serverless handler (`vercel-deploy/api/index.js`). It keeps its own
  copies of the cache functions under `/tmp` and refreshes the cache when
  the entry is missing or older than 15 minutes.

Around these sit the configuration loaders (`config.js`,
`utils/securityConfig.js`), the API-key middleware and the start-up checks
on the coordinate.

This project models that core and proves properties of the model. The
modules follow the source files:

| module | file | models |
|---|---|---|
| `Wrappers`, `Errors` | wrappers.dfy, errors.dfy | `Option`/`Result`/`Outcome`; every error the code throws or meets |
| `Js` | js.dfy | the JavaScript string builtins the code uses: `process.env` lookup, truthiness and `\|\|`, `args[k]`, `indexOf`, `trim`, `split` |
| `JsNumber` | js_number.dfy | `parseInt`, `parseFloat`, ToNumber (string-to-number comparison), `Math.round` |
| `Weather` | weather.dfy | the payload, the cache entry, and the JSON text of an entry with `JSON.stringify`/`JSON.parse` |
| `FileSystem` | file_system.dfy | the synchronous `fs` calls, as a `FileSystem` class over a snapshot `Fs` |
| `CacheStore` | cache_store.dfy | `utils/updateWeatherCache.js`, `utils/loadWeatherDataFromCache.js` |
| `Simplify` | simplify.dfy | `simplifyWeatherData` (both copies) |
| `ParseWeather` | parse_weather.dfy | `utils/parseWeather.js` |
| `SecurityConfig` | security_config.dfy | `utils/securityConfig.js` |
| `AppConfig` | app_config.dfy | `config.js` |
| `WeatherApi` | weather_api.dfy | `index.js` |
| `Auth` | auth.dfy | `middleware/auth.js` |
| `Coordinates` | coordinates.dfy | `data/coordinates.js`, `data/env_variables.js` |
| `Cli` | cli.dfy | `bin/cli.js` |
| `Serverless` | serverless.dfy | `vercel-deploy/api/index.js` |

How the model is built:

- **Code that changes state is imperative.** The `fs` calls themselves are
  methods of the `FileSystem` class. The operations built on them
  (`CacheStore.Refresh`, `Serverless.Handle` and the rest) are module-level
  methods that take the shared `fs: FileSystem` object as a parameter and
  declare that they modify it. Each postcondition ties the
  result and the new filesystem to a spec function of the old snapshot
  (`RefreshSpec`, `LoadSpec`, `UpdateSpec`, `GetOrRefreshSpec`,
  `HandleSpec`). The properties are lemmas about those functions.
- **Configuration code is pure.** It becomes functions of the environment,
  a `map<string, string>`.
- **`getSecurityConfig` and `validateSecurityConfig` are methods.** They
  update a copied configuration field by field, and push warnings in turn.
- **Outside inputs are parameters.** Each filesystem call takes the OS
  error it may meet as a parameter (`None`: no fault), so every `catch`
  branch of the source is reachable. The weather fetch is an injected
  function from the coordinate to a payload or an error. The clock is an
  integer `now`.
- **Unrendered values stay symbolic.** A date rendering is recorded as the
  formatter applied to an instant (`DisplayDate`, `IsoDate`,
  `LocaleString`, `LocaleDateString`). The JSON text of an entry is a
  `Text` value that `Parse` reads back, or `Unparsable` contents.

## Behaviour worth knowing

- **Corrupt contents of the server build's cache file are rethrown.**
  `utils/loadWeatherDataFromCache.js` rethrows the SyntaxError. Only the
  serverless copy turns corrupt contents into `null`.
- **`simplifyWeatherData` copies the `current` values without rounding.**
  Only `parseWeather` rounds.
- **There is no coalescing of concurrent refreshes.** The code keeps no
  in-flight state.
- **The two loaders pick the profile differently.** `getSecurityConfig`
  uses `SECURITY_PROFILE || NODE_ENV || 'development'`. `loadConfig` uses
  `SECURITY_PROFILE || "development"`. `AppConfig.ProfileSelectionsDiffer`
  shows an environment on which they disagree.
- **The serverless handler can answer 503 after a successful refresh.** It
  reassigns `weatherData` to the reload's result. A reload that gives
  `null` (a read meeting ENOENT) right after a successful refresh therefore
  replaces the stale entry the handler held in memory, although the disk
  then holds the new entry (`Serverless.RefreshIsAtomicOnUpdate`). With any
  other reload outcome, 503 means
  nothing was cached (`Serverless.UnavailableMeansNoEntry`,
  `Serverless.ReloadMissAfterRefresh`).

## Model

| member | source | states |
|---|---|---|
| Js.IndexOf | bin/cli.js:41-42 | `indexOf` is -1 exactly when the value is absent; otherwise it is the first position holding the value |
| Js.Split | utils/securityConfig.js:79 | the pieces of `split(',')` contain no comma, and joining them with commas gives back the string |
| Js.SplitCount | utils/securityConfig.js:79 | splitting yields one piece more than there are commas |
| Js.TrimIsSlice | utils/securityConfig.js:79 | `trim` keeps one contiguous part of the string and drops only white space on either side |
| Js.TrimStartSkipsWhite | config.js:79 | leading white space makes no difference to `trimStart` |
| JsNumber.ParseIntOfNumeral | config.js:79 | `parseInt` of a decimal numeral, with or without a minus sign, is its value |
| JsNumber.ParseInt | config.js:79 | `parseInt` is NaN unless the text, after leading white space, starts with a digit or a sign |
| JsNumber.ParseFloat | config.js:85-86 | `parseFloat` is NaN unless the text, after leading white space, starts with a digit, a sign or a point |
| JsNumber.ParseFloatOfDecimal | config.js:85-86 | `parseFloat` of a decimal literal `d.f` followed by a character that cannot continue it (no digit, no `e`) is the literal's value, so `"38.8977abc"` reads as 38.8977 |
| JsNumber.ParseFloatOfNegativeDecimal | config.js:85-86 | the same with a minus sign in front gives the negated value |
| JsNumber.ParseFloatOfInteger | config.js:85-86 | `parseFloat` of a digit string followed by a character that cannot continue a literal is the integer's value |
| JsNumber.ParseIntIgnoresTail | config.js:95-98 | `parseInt` of a decimal numeral stops at the first non-digit (`"15min"` reads as 15), unless a lone `0` is followed by `x` |
| JsNumber.ParseIntOfHex | config.js:95-98 | after `0x`, `parseInt` reads the hexadecimal digits up to the first character that is not one |
| JsNumber.ParseSkipsLeadingWhite | config.js:85-86 | leading white space never changes what `parseInt` or `parseFloat` read |
| JsNumber.Round | utils/parseWeather.js:12-15 | `Math.round` gives the integer within one half of its argument, with halves going up |
| JsNumber.ToNumber | data/coordinates.js:11 | a blank string converts to 0, and only a trimmed `Infinity`, `+Infinity` or `-Infinity` converts to an infinity |
| JsNumber.ToNumberOfBlank | data/coordinates.js:11 | an empty or blank string converts to 0 in a comparison |
| JsNumber.ToNumberOfDecimal | data/coordinates.js:11 | a decimal literal `d.f` converts to its value, and `-d.f` to the negated value |
| JsNumber.ToNumberOfInteger | data/coordinates.js:11 | a digit string converts to its value, and with a minus sign to the negated value |
| JsNumber.ToNumberOfHex | data/coordinates.js:11 | `0x` and hexadecimal digits convert to their value, while `-0x...` is NaN |
| JsNumber.ToNumberSkipsWhite | data/coordinates.js:11 | white space around the text never changes its conversion |
| JsNumber.DecimalValue | config.js:85-86 | the value of `d.f` lies in [d, d + 1): the digits before the point are its whole part |
| Weather.ParseStringify | utils/loadWeatherDataFromCache.js:16 | `JSON.parse` of the text `JSON.stringify` wrote gives back the same entry |
| Weather.Parse | utils/loadWeatherDataFromCache.js:16 | parsing fails only with a SyntaxError |
| FileSystem.Read | utils/loadWeatherDataFromCache.js:15 | a read succeeds exactly when there is no fault and the file exists; it then gives the file's contents; otherwise it gives the fault or ENOENT |
| FileSystem.Write | utils/updateWeatherCache.js:50 | a write succeeds exactly when there is no fault and the directory exists; it then replaces that one file; a failed write changes nothing |
| FileSystem.Rename | utils/updateWeatherCache.js:51 | a rename moves the source's contents onto the target in one step, replacing what the target held; a failed rename changes nothing |
| FileSystem.EnsureDir | utils/updateWeatherCache.js:6-8 | afterwards the directory exists and no file has changed |
| FileSystem.FileSystem.ReadFile | utils/loadWeatherDataFromCache.js:15 | returns what `Read` gives on the current state |
| FileSystem.FileSystem.WriteFile | utils/updateWeatherCache.js:50 | the outcome and the new state are those of `Write` on the old state |
| FileSystem.FileSystem.RenameFile | utils/updateWeatherCache.js:51 | the outcome and the new state are those of `Rename` on the old state |
| FileSystem.FileSystem.MakeDirectory | utils/updateWeatherCache.js:7 | adds the directory and leaves the files alone |
| FileSystem.FileSystem.FileExists | vercel-deploy/api/index.js:10 | true exactly when the file exists |
| FileSystem.FileSystem.DirExists | utils/updateWeatherCache.js:6 | true exactly when the directory exists |
| CacheStore.CacheDirInsideRoot | utils/updateWeatherCache.js:5-14 | `<projectRoot>/cache` starts with the project root, so the path-traversal throw of `InitUpdater` cannot happen for the directory the module uses |
| CacheStore.InitUpdater | utils/updateWeatherCache.js:5-16 | the cache directory exists afterwards, even when the path-traversal check then throws; the check fails exactly when the directory is outside the project root; `LOCATION_NAME` is captured at load time |
| CacheStore.InitLoader | utils/loadWeatherDataFromCache.js:5-11 | the cache directory exists afterwards, and the loader reads `<dir>/weatherData.json` |
| CacheStore.Refresh | utils/updateWeatherCache.js:21-58 | the result and the new state are those of `RefreshSpec`: build the entry, write the temporary file, rename it onto the cache file, and rethrow any error |
| CacheStore.UpdateWeatherCache | utils/updateWeatherCache.js:18-20 | refreshes with what the fetch returns for the given coordinate |
| CacheStore.LoadWeatherDataFromCache | utils/loadWeatherDataFromCache.js:13-24 | returns `LoadSpec`: `null` for ENOENT, the parsed entry for a readable file, and every other error, a SyntaxError included, rethrown |
| CacheStore.RefreshReplacesEntry | utils/updateWeatherCache.js:24-54 | a fault-free refresh returns the fetched payload; the cache file then holds exactly `{timestamp, location, data}` with `lastUpdated = now`; no temporary file is left and nothing else changes |
| CacheStore.LocationDefault | utils/updateWeatherCache.js:42 | an unset or empty `LOCATION_NAME` is stored as "Unknown Location" |
| CacheStore.RefreshIsAtomic | utils/updateWeatherCache.js:49-51 | a failed refresh leaves the cache file exactly as it was (same contents, or still absent); a successful one leaves the complete new entry in it and returns the fetched payload |
| CacheStore.CrashBeforeRename | utils/updateWeatherCache.js:50-51 | a rename failure leaves the old cache contents readable and the new text behind in the temporary file |
| CacheStore.FetchFailureWritesNothing | utils/updateWeatherCache.js:55-58 | a failed fetch changes nothing and rethrows the same error |
| CacheStore.RefreshThenLoad | utils/loadWeatherDataFromCache.js:15-16 | after a successful refresh, loading returns the entry just written |
| CacheStore.LoadOutcomes | utils/loadWeatherDataFromCache.js:14-23 | a missing file gives `null`; a readable one gives its entry; corrupt contents give a SyntaxError; other read failures are rethrown; `null` means missing or ENOENT |
| Simplify.SimplifyWeatherData | utils/simplifyWeatherData.js:3-43 | succeeds exactly when `data`, `data.current` and `data.current.weather` exist; otherwise throws a TypeError; the timestamp passes through unchanged |
| Simplify.SimplifyCopiesFields | utils/simplifyWeatherData.js:6-24 | `lat`, `lon`, `timezone`, `timezone_offset` and the listed `current` fields are copied verbatim; `weather` is the first condition, or undefined for an empty list |
| Simplify.SimplifyKeepsAlerts | utils/simplifyWeatherData.js:32-39 | absent alerts give `[]`; present ones keep length and order, copy `event`/`description`, and format `start*1000`/`end*1000` |
| ParseWeather.FirstDescription | utils/parseWeather.js:16 | `weather[0].description` when there is a first condition, a TypeError otherwise |
| ParseWeather.SummarizeDays | utils/parseWeather.js:19-26 | succeeds exactly when every day does; the result has one summary per day, in order; a failure is a TypeError |
| ParseWeather.ParseWeatherData | utils/parseWeather.js:6-28 | every failure is a TypeError |
| ParseWeather.CurrentFromFirstHour | utils/parseWeather.js:7-18 | current comes from `hourly[0]`: `temp`/`feelsLike`/`windSpeed` rounded, `humidity` copied, `rain` is `rain["1h"]` or 0, conditions from the first weather |
| ParseWeather.DailyKeepsDays | utils/parseWeather.js:19-26 | same length and order as `daily`; rounded max/min; first description; rain/snow default to 0; date is the local date of `dt*1000` |
| ParseWeather.ParseWeatherSucceeds | utils/parseWeather.js:6-28 | succeeds exactly when there is a first hourly block with a condition, a daily list, and a condition for every day |
| SecurityConfig.SelectedPreset | utils/securityConfig.js:57 | the named preset, or the development preset for an unknown name |
| SecurityConfig.ProfileFallback | utils/securityConfig.js:53-54 | the profile is `SECURITY_PROFILE`, else `NODE_ENV`, else development |
| SecurityConfig.OverrideRateLimit | utils/securityConfig.js:60-70 | each `RATE_LIMIT_*` variable overrides its field exactly when set: the window in minutes times 60000, the max and the window NaN when unparsable, the message as given |
| SecurityConfig.OverrideCors | utils/securityConfig.js:72-85 | `CORS_ENABLED==='false'` disables CORS whatever `CORS_ORIGIN` says, and only then; otherwise `credentials` is the preset's and the origin rule comes from `CORS_ORIGIN` when set |
| SecurityConfig.GetSecurityConfig | utils/securityConfig.js:52-92 | each override applies exactly when its variable is set: window in minutes times 60000, max and message even when unparsable (NaN), the origin rule; `CORS_ENABLED==='false'` disables CORS whatever the origin; `HELMET_ENABLED==='false'` disables Helmet; otherwise the preset's values |
| SecurityConfig.OriginListShape | utils/securityConfig.js:72-81 | an origin list has one trimmed, comma-free entry per comma-separated piece |
| SecurityConfig.ValidateSecurityConfig | utils/securityConfig.js:94-112 | exactly the warnings whose condition holds, in source order; the all-origins and disabled-in-production warnings exclude each other, so at most two |
| AppConfig.IntOr | config.js:79 | `parseInt(v) \|\| d` is the parse of v when that is a non-zero integer, and the fallback when v is unset, NaN or 0 |
| AppConfig.RealOr | config.js:85-86 | `parseFloat(v) \|\| d` is the parse of v when that is a non-zero number, and the fallback when v is unset, NaN or 0 |
| AppConfig.LoadConfig | config.js:65-116 | the API key is `OPENWEATHER_KEY` as given; `nodeEnv` and the reported profile default to "development"; the port and both coordinates are never 0 |
| AppConfig.PortRule | config.js:79 | the port is `PORT` when it parses to a non-zero integer, 4000 otherwise, so never 0 |
| AppConfig.PortExamples | config.js:79 | `"8080"` gives 8080; `"abc"` and `"0"` give 4000 |
| AppConfig.DecimalLocation | config.js:85-86 | a non-zero `LATITUDE="a.b"` and `LONGITUDE="-c.e"` configure exactly the values a.b and -c.e |
| AppConfig.LocationRule | config.js:84-88 | latitude and longitude are `LATITUDE` and `LONGITUDE` when those parse to a non-zero number, else the Washington, DC coordinate, so never 0; the name defaults to "Washington, DC" |
| AppConfig.RateLimitRule | config.js:93-100 | the window and the maximum are their variables when those parse to a non-zero integer, else the selected profile's; the message is `RATE_LIMIT_MESSAGE` when truthy, else the profile's |
| AppConfig.SwitchesRule | config.js:102-113 | CORS and Helmet are disabled exactly when their variable is "false" (every profile enables both) |
| AppConfig.UnknownProfileFallsBack | config.js:68-71 | an unknown profile name is reported as given, yet the development settings are used |
| AppConfig.OriginsRule | config.js:104-108 | `"*"` allows all origins; another value is the trimmed comma split; unset uses the profile's origins |
| AppConfig.ProfileSelectionsDiffer | config.js:68 | with only `NODE_ENV=production`, `loadConfig` reports development (1000 requests) while `getSecurityConfig` picks production (100) |
| WeatherApi.AssignLocationShallow | index.js:12 | a supplied `location` key replaces its value and the others stay; assigning twice equals assigning once |
| WeatherApi.AssignSecurityShallow | index.js:13 | a supplied `security` key replaces the whole nested object, with no deep merge; assigning twice equals assigning once |
| WeatherApi.WeatherAPI.constructor | index.js:7-14 | `openWeatherKey` is overridden only by a truthy option; `location` and `security` are merged shallowly; `server` is what `loadConfig` gives |
| WeatherApi.WeatherAPI.GetWeather | index.js:20-23 | `null` exactly when the load gives `null`; otherwise the simplified view of the loaded entry; errors propagate |
| WeatherApi.WeatherAPI.GetFullWeather | index.js:29-31 | the loaded value, unchanged |
| WeatherApi.WeatherAPI.UpdateCache | index.js:37-44 | refreshes for the configured latitude and longitude; the key is not used |
| WeatherApi.WeatherAPI.GetConfig | index.js:50-52 | the instance's configuration |
| Auth.TimingSafeEqual | middleware/auth.js:14-17 | throws exactly when the lengths differ; otherwise true exactly for equal bytes |
| Auth.Utf8Injective | middleware/auth.js:15-16 | different strings have different UTF-8 encodings |
| Auth.SameBytesSameKey | middleware/auth.js:14-19 | a byte-equal comparison means the keys are the same string |
| Auth.Utf8 | middleware/auth.js:15-16 | `Buffer.from` gives one to four bytes per character |
| Auth.AuthenticateApiKey | middleware/auth.js:4-33 | missing or empty key gives 401 "required"; `next` exactly when the key equals `API_KEY`; 500 exactly when `API_KEY` is unset or the encodings differ in length; 401 "invalid" exactly for a different key of equal length |
| Auth.AcceptsOnlyTheKey | middleware/auth.js:14-25 | the configured key passes and any other key does not |
| Coordinates.CheckCoordinates | data/coordinates.js:1-17 | on success it exports the two environment strings unconverted |
| Coordinates.MissingIsRejected | data/coordinates.js:4-8 | an unset or empty coordinate throws the "must be set" error, and only then |
| Coordinates.RangeIsInclusive | data/coordinates.js:11-15 | for numeric values, exactly the closed ranges [-90, 90] and [-180, 180] pass |
| Coordinates.DecimalCoordinatesRange | data/coordinates.js:11-15 | a latitude `a.b` and a longitude `-c.e` pass exactly when a.b is at most 90 and c.e at most 180 |
| Coordinates.NonNumbersPass | data/coordinates.js:11 | a value that does not convert to a number is never out of range |
| Coordinates.BlankCoordinatesPass | data/coordinates.js:4-15 | a blank but non-empty value converts to 0 and passes both checks |
| Coordinates.CheckEnvVariables | data/env_variables.js:1-22 | on success `location` is `LOCATION` as given, possibly undefined |
| Coordinates.EnvVariablesAgree | data/env_variables.js:5-20 | same decision and values as `data/coordinates.js`; the `LOCATION_LABEL` error can never be thrown |
| Cli.CommandName | bin/cli.js:34 | `args[0]` when non-empty, else `weather` |
| Cli.ServerPort | bin/cli.js:41-43 | undefined with neither flag; any port it reads is one of the arguments, and the lemmas below fix which one |
| Cli.ServerEnv | bin/cli.js:45-47 | `PORT` is set exactly when the port is truthy; otherwise the environment is unchanged |
| Cli.LongFlagGivesPort | bin/cli.js:42 | a non-empty value after `--port` is the port |
| Cli.ShortFlagAfterEmptyLong | bin/cli.js:41-43 | with either flag present and the value after `--port` empty or missing (also when `--port` is absent or last), the value after `-p` is read: none when `-p` is last, `args[0]` when `-p` is absent |
| Cli.ShortFlagReadsCommandWord | bin/cli.js:41-43 | with only `-p`, the port read is `args[0]`: `server -p 3000` sets `PORT` to "server" |
| Cli.TrailingLongFlagReadsCommandWord | bin/cli.js:41-43 | a trailing `--port` with no `-p` also reads the command word |
| Cli.RunCli | bin/cli.js:5-95 | help anywhere returns first; `server` starts with the port rule; `weather`/`full` print or exit 1 with no data or an error; `update` refreshes, exiting 1 on error; `config` prints `loadConfig()`; unknown commands exit 1; only `update` touches the filesystem once `main` runs |
| Serverless.LoadSpec | vercel-deploy/api/index.js:8-36 | the only thing rethrown is an OS error other than ENOENT |
| Serverless.LoadWeatherDataFromCache | vercel-deploy/api/index.js:8-36 | returns `LoadSpec`; the age warning fires exactly for a loaded entry with a truthy, old `lastUpdated`, and it does not affect the result |
| Serverless.LoadOutcomes | vercel-deploy/api/index.js:10-34 | `null` for a missing file, an ENOENT read or corrupt contents; the entry for a readable file; other read errors rethrown |
| Serverless.AgeWarningAfterTenMinutes | vercel-deploy/api/index.js:17-22 | the warning fires exactly when `lastUpdated` is truthy and more than 600000 ms old |
| Serverless.UpdateWeatherCache | vercel-deploy/api/index.js:77-121 | the result and the new state are those of `UpdateSpec`: ensure `/tmp/weather-cache`, then fetch and commit as the server build does |
| Serverless.UpdateCreatesDirectory | vercel-deploy/api/index.js:80-84 | the cache directory exists afterwards even when the fetch fails, and a failed fetch writes no file |
| Serverless.UpdateThenLoad | vercel-deploy/api/index.js:112-113 | after a successful update, a fault-free load reads the new entry back |
| Serverless.RefreshIsAtomicOnUpdate | vercel-deploy/api/index.js:111-113 | after a successful update the cache file holds the new entry |
| Serverless.RefreshRule | vercel-deploy/api/index.js:181-183 | no entry, or a truthy `lastUpdated` more than 15 minutes old, triggers a refresh; an entry without one never does |
| Serverless.GetOrRefresh | vercel-deploy/api/index.js:178-194 | the result and the new state are those of `GetOrRefreshSpec` |
| Serverless.RefreshOnlyWhenNeeded | vercel-deploy/api/index.js:181-194 | without a refresh nothing changes; with one, the state is what the update left |
| Serverless.FailedRefreshKeepsStaleEntry | vercel-deploy/api/index.js:184-193 | a refresh whose update or reload throws keeps the first-loaded entry |
| Serverless.Missing | vercel-deploy/api/index.js:160-161 | a variable is reported missing exactly when it is one of those checked and is unset or empty |
| Serverless.MissingIffUnconfigured | vercel-deploy/api/index.js:160-163 | the missing list is non-empty exactly when one of the four required variables is unset or empty |
| Serverless.Handle | vercel-deploy/api/index.js:158-251 | the response and the new state are those of `HandleSpec` |
| Serverless.MissingVariableAnswers500 | vercel-deploy/api/index.js:160-169 | a missing required variable gives the 500 configuration error before the cache is touched |
| Serverless.UnavailableMeansNoEntry | vercel-deploy/api/index.js:196-201 | unless a reload met ENOENT, 503 means the first load found no entry |
| Serverless.ReloadMissAfterRefresh | vercel-deploy/api/index.js:189-201 | a stale entry, a successful refresh and an ENOENT reload give 503 |
| Serverless.Routes | vercel-deploy/api/index.js:176-242 | only `GET /api/` and `GET /api/full` reach the cache; `/api/` serves the simplified view, or 500 if simplifying throws; `/api/full` serves the entry unchanged; anything else is 404 |
| Serverless.FirstRequestFillsCache | vercel-deploy/api/index.js:208-234 | with nothing cached and a successful fetch, `/api/full` answers 200 with the entry just written |

## Left out

- Outbound HTTP (`utils/getWeather.js`, `getWeather` in the serverless file) is replaced by an injected fetch result. Its timeout and response handling are not modelled.
- utils/getGeo.js, utils/saveGeo.js and utils/getWeatherFromSavedGeo.js (Geocodio calls) are not part of this model. Neither are server.js (Express wiring, cron, key generation), ecosystem.config.js (static deployment data) or `logSecurityConfig`. All are glue or logging.
- Console output is not modelled. The serverless age warning is kept only as a returned flag.
- `Date.now()` is one `now` parameter per call, where the source may read the clock more than once.
- `Intl.DateTimeFormat`, `toISOString`, `toLocaleString` and `toLocaleDateString` are symbolic. Time zones and the rendered text are not modelled.
- The JSON text of an entry is abstract. Pretty-printing, key order, and files holding JSON that is not an object are not modelled. Weather payload fields that the code only copies are exact reals, and the absence of such a field is not modelled.
- BuildEntry: a `current` block without `dt` is not modelled. In the source, `new Date(undefined * 1000)` is an Invalid Date, and formatting it with `Intl.DateTimeFormat` or `toISOString()` throws a RangeError (utils/updateWeatherCache.js:24-36; vercel-deploy/api/index.js:87-99). The model's `dt` is always a number, so `BuildEntry` fails only when `current` itself is missing.
- Numbers are exact integers and reals, with no IEEE rounding or overflow. `parseFloat` does not read an `Infinity` literal. ToNumber does read `Infinity`, so the coordinate range check handles it.
- Request URL parsing (`new URL(url, host).pathname`) is not modelled. The handler takes the method and the path directly.
- A profile name that is a property of `Object.prototype` (for example `"constructor"`) would be found by the preset lookup in the source. The model treats it as unknown.
- `mkdirSync` is assumed not to fail. The filesystem is one directory level deep, with no permission model beyond the injected faults.
- Option values passed to `new WeatherAPI(options)` are typed. A key that is present but set to `undefined`, or a value of another type, is not modelled.
- `crypto.timingSafeEqual` is modelled by its result and its throw. Its constant running time is not modelled.
- `Auth.Utf8`: Dafny strings hold Unicode scalar values, so the replacement of lone UTF-16 surrogates during encoding is not modelled.
- `startServer` (index.js:59-64) loads server.js, which is not part of this model. The CLI's `server` command reports the environment it would start with.
- The top-level `getWeather`/`getFullWeather` helpers and `createWeatherAPI` (index.js:72-92) are not modelled separately. Each only constructs a `WeatherAPI` with no options and calls the method of the same name, which is modelled.
- `require("dotenv").config()` (config.js:66) merges a `.env` file into the environment. The model takes the environment as given, with no `.env` merging.
- Loading `../index` (bin/cli.js:3) first loads the cache modules, which run their `mkdirSync` and path-traversal check (`CacheStore.InitUpdater`, `CacheStore.InitLoader`) before `main`. `Cli.RunCli` starts after that loading, so its claim that only `update` touches the filesystem covers `main` only.
