/** `simplifyWeatherData`: the reduced view served by `/api/`. The same
    function appears in `utils/simplifyWeatherData.js` and, copied
    verbatim, in `vercel-deploy/api/index.js`; it is modelled once. */
module Simplify {
  import opened Wrappers
  import opened Errors
  import opened Weather

  datatype SimpleCurrent = SimpleCurrent(
    dt: int, sunrise: int, sunset: int,
    temp: real, feelsLike: real, pressure: real, humidity: real, dewPoint: real,
    uvi: real, clouds: real, visibility: real, windSpeed: real, windDeg: real,
    weather: Option<Condition>)

  datatype SimpleAlert = SimpleAlert(event: string, description: string, start: DateText, end: DateText)

  datatype SimpleData = SimpleData(
    lat: real, lon: real, timezone: string, timezoneOffset: int,
    current: SimpleCurrent, alerts: seq<SimpleAlert>)

  datatype SimpleView = SimpleView(timestamp: Option<Timestamp>, data: SimpleData)

  /** `ws[0]`, which is `undefined` for an empty array. */
  function First(ws: seq<Condition>): Option<Condition> {
    if ws == [] then None else Some(ws[0])
  }

  /** One alert with its epoch-second bounds rendered by `toLocaleString`. */
  function SimplifyAlert(a: Alert): SimpleAlert {
    SimpleAlert(a.event, a.description, LocaleString(a.start * 1000), LocaleString(a.end * 1000))
  }

  /** `alerts ? alerts.map(...) : []`. */
  function SimplifyAlerts(alerts: Option<seq<Alert>>): seq<SimpleAlert> {
    match alerts
    case None => []
    case Some(xs) => seq(|xs|, i requires 0 <= i < |xs| => SimplifyAlert(xs[i]))
  }

  /** The view of an entry; reading a field of a missing `data`, `current` or
      `current.weather` throws a TypeError, so there is no partial result. */
  function SimplifyWeatherData(entry: CacheEntry): (r: Result<SimpleView, Error>)
    ensures r.Success? <==>
              entry.data.Some? && entry.data.value.current.Some? && entry.data.value.current.value.weather.Some?
    ensures r.Failure? ==> r.error == TypeError
    ensures r.Success? ==> r.value.timestamp == entry.timestamp
  {
    if entry.data.None? then Failure(TypeError)
    else
      var d := entry.data.value;
      if d.current.None? then Failure(TypeError)
      else
        var c := d.current.value;
        if c.weather.None? then Failure(TypeError)
        else
          var current := SimpleCurrent(c.dt, c.sunrise, c.sunset, c.temp, c.feelsLike, c.pressure,
                                       c.humidity, c.dewPoint, c.uvi, c.clouds, c.visibility,
                                       c.windSpeed, c.windDeg, First(c.weather.value));
          Success(SimpleView(entry.timestamp,
                             SimpleData(d.lat, d.lon, d.timezone, d.timezoneOffset, current,
                                        SimplifyAlerts(d.alerts))))
  }

  /** The listed fields are copied without rounding or conversion, and the
      weather is the first element of `current.weather`. */
  lemma SimplifyCopiesFields(entry: CacheEntry)
    requires SimplifyWeatherData(entry).Success?
    ensures var v := SimplifyWeatherData(entry).value.data;
      var d := entry.data.value;
      var c := d.current.value;
      && v.lat == d.lat && v.lon == d.lon && v.timezone == d.timezone
      && v.timezoneOffset == d.timezoneOffset
      && v.current.dt == c.dt && v.current.sunrise == c.sunrise && v.current.sunset == c.sunset
      && v.current.temp == c.temp && v.current.feelsLike == c.feelsLike
      && v.current.pressure == c.pressure && v.current.humidity == c.humidity
      && v.current.dewPoint == c.dewPoint && v.current.uvi == c.uvi && v.current.clouds == c.clouds
      && v.current.visibility == c.visibility && v.current.windSpeed == c.windSpeed
      && v.current.windDeg == c.windDeg
      && (c.weather.value == [] ==> v.current.weather.None?)
      && (c.weather.value != [] ==> v.current.weather == Some(c.weather.value[0]))
  {
  }

  /** Absent alerts give an empty list; present ones keep their length and
      order, with `event`/`description` copied and the bounds formatted from
      `start * 1000` and `end * 1000`. */
  lemma SimplifyKeepsAlerts(entry: CacheEntry)
    requires SimplifyWeatherData(entry).Success?
    ensures var alerts := SimplifyWeatherData(entry).value.data.alerts;
      var source := entry.data.value.alerts;
      && (source.None? ==> alerts == [])
      && (source.Some? ==> |alerts| == |source.value|)
      && (source.Some? ==> forall i :: 0 <= i < |alerts| ==>
            && alerts[i].event == source.value[i].event
            && alerts[i].description == source.value[i].description
            && alerts[i].start == LocaleString(source.value[i].start * 1000)
            && alerts[i].end == LocaleString(source.value[i].end * 1000))
  {
  }
}
