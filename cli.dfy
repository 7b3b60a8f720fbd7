/** `bin/cli.js`: the `weather-api` command line. Printing is replaced by
    the outcome it reports, and `process.exit(1)` by an `Exit` outcome. */
module Cli {
  import opened Wrappers
  import opened Errors
  import opened Js
  import opened Weather
  import opened FileSystem
  import opened CacheStore
  import opened Simplify
  import opened AppConfig
  import opened WeatherApi

  /** `--help` or `-h` anywhere among the arguments. */
  predicate WantsHelp(args: seq<string>) {
    "--help" in args || "-h" in args
  }

  /** `args[0] || 'weather'`. */
  function CommandName(args: seq<string>): (name: string)
    ensures name == if args != [] && args[0] != "" then args[0] else "weather"
  {
    OrElse(At(args, 0), "weather")
  }

  /** The `port` expression of the `server` command:
      `args[args.indexOf('--port') + 1] || args[args.indexOf('-p') + 1]`
      when either flag is present. A missing flag has index -1, so its
      "following argument" is `args[0]`. */
  function ServerPort(args: seq<string>): (p: Option<string>)
    ensures !("--port" in args || "-p" in args) ==> p.None?
    ensures p.Some? ==> p.value in args
  {
    if "--port" in args || "-p" in args then
      var long := At(args, IndexOf(args, "--port") + 1);
      if Truthy(long) then long else At(args, IndexOf(args, "-p") + 1)
    else None
  }

  /** `if (port) process.env.PORT = port`. */
  function ServerEnv(env: Env, args: seq<string>): (e: Env)
    ensures Truthy(ServerPort(args)) ==> e == env["PORT" := ServerPort(args).value]
    ensures !Truthy(ServerPort(args)) ==> e == env
  {
    var port := ServerPort(args);
    if Truthy(port) then env["PORT" := port.value] else env
  }

  /** The value after `--port` is the port when it is non-empty. */
  lemma LongFlagGivesPort(args: seq<string>)
    requires "--port" in args
    requires IndexOf(args, "--port") + 1 < |args| && args[IndexOf(args, "--port") + 1] != ""
    ensures ServerPort(args) == Some(args[IndexOf(args, "--port") + 1])
  {
  }

  /** When either flag is present and the value after `--port` is empty or
      missing (including when `--port` is absent or last), the value after
      `-p` is read: nothing when `-p` is last, and `args[0]` when `-p` is
      absent, since its index is then -1. */
  lemma ShortFlagAfterEmptyLong(args: seq<string>)
    requires "--port" in args || "-p" in args
    requires !Truthy(At(args, IndexOf(args, "--port") + 1))
    ensures ServerPort(args) == At(args, IndexOf(args, "-p") + 1)
  {
    var long := At(args, IndexOf(args, "--port") + 1);
    assert !Truthy(long);
  }

  /** With only `-p`, the long flag's index is -1 and the port read is the
      command word: `server -p 3000` sets `PORT` to "server". */
  lemma ShortFlagReadsCommandWord(env: Env, args: seq<string>)
    requires "-p" in args && "--port" !in args && args[0] == "server"
    ensures ServerPort(args) == Some("server")
    ensures ServerEnv(env, args) == env["PORT" := "server"]
  {
  }

  /** A trailing `--port` with no `-p` reads the command word as well. */
  lemma TrailingLongFlagReadsCommandWord(args: seq<string>)
    requires |args| >= 2 && args[|args| - 1] == "--port" && "--port" !in args[..|args| - 1]
    requires "-p" !in args && args[0] == "server"
    ensures ServerPort(args) == Some("server")
  {
    assert IndexOf(args, "--port") == |args| - 1;
  }

  /** What the command reports instead of printing, and what it exits with. */
  datatype ExitReason = NoData | UnknownCommand(name: string) | Thrown(error: Error)

  datatype CliOutcome =
    | ShowHelp
    | StartServer(env: Env)
    | PrintWeather(view: SimpleView)
    | PrintFull(entry: CacheEntry)
    | CacheUpdated
    | PrintConfig(config: Config)
    | Exit(reason: ExitReason)
  {
    /** `process.exit(1)` on every failure, normal termination otherwise. */
    function Status(): int {
      if Exit? then 1 else 0
    }
  }

  /** `main()` for the arguments after the script name. The caller supplies
      the cache modules as loaded, the fetch, the clock and the faults the
      filesystem calls meet. With help present nothing else happens; a
      missing entry or an unknown command exits with status 1, and so does
      any thrown error; only `update` changes the filesystem. */
  method RunCli(args: seq<string>, env: Env, fs: FileSystem, updater: Updater, cacheFile: Path,
                fetch: LatLon<real> -> Result<Payload, Error>, now: int, loadFault: Option<OsError>,
                faults: CommitFaults) returns (o: CliOutcome)
    modifies fs
    ensures WantsHelp(args) ==> o == ShowHelp
    ensures CommandName(args) != "update" || WantsHelp(args) ==> fs.State() == old(fs.State())
    ensures !WantsHelp(args) && CommandName(args) == "server" ==> o == StartServer(ServerEnv(env, args))
    ensures !WantsHelp(args) && CommandName(args) == "weather" ==>
              match LoadSpec(old(fs.State()), cacheFile, loadFault)
              case Failure(e) => o == Exit(Thrown(e))
              case Success(None) => o == Exit(NoData)
              case Success(Some(entry)) =>
                match SimplifyWeatherData(entry)
                case Success(v) => o == PrintWeather(v)
                case Failure(e) => o == Exit(Thrown(e))
    ensures !WantsHelp(args) && CommandName(args) == "full" ==>
              match LoadSpec(old(fs.State()), cacheFile, loadFault)
              case Failure(e) => o == Exit(Thrown(e))
              case Success(None) => o == Exit(NoData)
              case Success(Some(entry)) => o == PrintFull(entry)
    ensures !WantsHelp(args) && CommandName(args) == "update" ==>
              var location := LoadConfig(env).location;
              var (r, s') := RefreshSpec(old(fs.State()), updater.dataDir, updater.location,
                                         fetch(LatLon(location.latitude, location.longitude)), now, faults);
              && fs.State() == s'
              && o == if r.Success? then CacheUpdated else Exit(Thrown(r.error))
    ensures !WantsHelp(args) && CommandName(args) == "config" ==> o == PrintConfig(LoadConfig(env))
    ensures !WantsHelp(args) && CommandName(args) !in {"server", "weather", "full", "update", "config"} ==>
              o == Exit(UnknownCommand(CommandName(args)))
  {
    if WantsHelp(args) {
      return ShowHelp;
    }
    var command := CommandName(args);
    var api := new WeatherAPI(env, NO_OPTIONS, updater, cacheFile);
    if command == "server" {
      o := StartServer(ServerEnv(env, args));
    } else if command == "weather" {
      var weather := api.GetWeather(fs, loadFault);
      if weather.Failure? {
        o := Exit(Thrown(weather.error));
      } else if weather.value.None? {
        o := Exit(NoData);
      } else {
        o := PrintWeather(weather.value.value);
      }
    } else if command == "full" {
      var full := api.GetFullWeather(fs, loadFault);
      if full.Failure? {
        o := Exit(Thrown(full.error));
      } else if full.value.None? {
        o := Exit(NoData);
      } else {
        o := PrintFull(full.value.value);
      }
    } else if command == "update" {
      var updated := api.UpdateCache(fs, fetch, now, faults);
      o := if updated.Success? then CacheUpdated else Exit(Thrown(updated.error));
    } else if command == "config" {
      var config := api.GetConfig();
      o := PrintConfig(config);
    } else {
      o := Exit(UnknownCommand(command));
    }
  }
}
