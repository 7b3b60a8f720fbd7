/** The provider's One Call payload, the cache entry built around it, and the
    JSON text the cache file holds. A field is `Option` where the modelled
    code tests for its absence or where its absence makes the code throw;
    the provider's plain numeric fields are modelled as always present. */
module Weather {
  import opened Wrappers
  import opened Errors

  /** A coordinate as handed to the weather fetch; `T` is whatever the
      caller passes (environment strings, or parsed numbers). */
  datatype LatLon<T> = LatLon(lat: T, lon: T)

  /** One element of a `weather` array. */
  datatype Condition = Condition(id: int, main: string, description: string, icon: string)

  /** The `rain` object of a current or hourly block. */
  datatype Rain = Rain(oneHour: Option<real>)

  datatype Current = Current(
    dt: int, sunrise: int, sunset: int,
    temp: real, feelsLike: real, pressure: real, humidity: real, dewPoint: real,
    uvi: real, clouds: real, visibility: real, windSpeed: real, windDeg: real,
    weather: Option<seq<Condition>>)

  datatype Hourly = Hourly(
    dt: int, temp: real, feelsLike: real, humidity: real, windSpeed: real,
    weather: Option<seq<Condition>>, rain: Option<Rain>)

  datatype DailyTemp = DailyTemp(min: real, max: real)

  datatype Daily = Daily(
    dt: int, temp: DailyTemp, weather: Option<seq<Condition>>,
    rain: Option<real>, snow: Option<real>)

  datatype Alert = Alert(event: string, description: string, start: int, end: int)

  /** The provider's response. */
  datatype Payload = Payload(
    lat: real, lon: real, timezone: string, timezoneOffset: int,
    current: Option<Current>, hourly: Option<seq<Hourly>>,
    daily: Option<seq<Daily>>, alerts: Option<seq<Alert>>)

  /** A formatted instant. The formatters (`Intl.DateTimeFormat`,
      `toISOString`, `toLocaleString`, `toLocaleDateString`) are kept
      uninterpreted: the text records which one was applied to which
      epoch-millisecond instant. */
  datatype DateText =
    | DisplayDate(epochMs: int, timeZone: string)
    | IsoDate(epochMs: int)
    | LocaleString(epochMs: int)
    | LocaleDateString(epochMs: int)

  datatype Timestamp = Timestamp(display: DateText, iso: DateText, lastUpdated: Option<int>)

  /** The cached snapshot `{timestamp, location, data}`, as written by the
      refresh path or as read back from the cache file. */
  datatype CacheEntry = CacheEntry(timestamp: Option<Timestamp>, location: string, data: Option<Payload>)

  /** The contents of a cache file: the JSON text of an entry, or text that
      `JSON.parse` rejects. */
  datatype Text = Serialized(entry: CacheEntry) | Unparsable(raw: string)

  /** `JSON.stringify(entry, null, 2)`. */
  function Stringify(entry: CacheEntry): (t: Text)
    ensures t.Serialized?
  {
    Serialized(entry)
  }

  /** `JSON.parse(text)`: the entry the text denotes, or a SyntaxError. */
  function Parse(t: Text): (r: Result<CacheEntry, Error>)
    ensures r.Failure? ==> r.error == SyntaxError
  {
    match t
    case Serialized(e) => Success(e)
    case Unparsable(_) => Failure(SyntaxError)
  }

  /** Parsing what was stringified gives the entry back. */
  lemma ParseStringify(entry: CacheEntry)
    ensures Parse(Stringify(entry)) == Success(entry)
  {
  }
}
