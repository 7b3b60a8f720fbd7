/** `parseWeatherData` (`utils/parseWeather.js`): current conditions from
    the first hourly block, and one summary per daily block. */
module ParseWeather {
  import opened Wrappers
  import opened Errors
  import opened JsNumber
  import opened Weather

  datatype CurrentSummary = CurrentSummary(
    temp: int, feelsLike: int, humidity: real, windSpeed: int, conditions: string,
    rain: Option<real>)

  datatype DaySummary = DaySummary(
    date: DateText, high: int, low: int, conditions: string, rain: real, snow: real)

  datatype Summary = Summary(current: CurrentSummary, daily: seq<DaySummary>)

  /** `weather[0].description`: a TypeError for a missing or empty array. */
  function FirstDescription(weather: Option<seq<Condition>>): (r: Result<string, Error>)
    ensures r.Success? <==> weather.Some? && weather.value != []
    ensures r.Success? ==> r.value == weather.value[0].description
    ensures r.Failure? ==> r.error == TypeError
  {
    if weather.None? || weather.value == [] then Failure(TypeError)
    else Success(weather.value[0].description)
  }

  function SummarizeCurrent(h: Hourly): Result<CurrentSummary, Error> {
    var conditions :- FirstDescription(h.weather);
    Success(CurrentSummary(Round(h.temp), Round(h.feelsLike), h.humidity, Round(h.windSpeed),
                           conditions, if h.rain.Some? then h.rain.value.oneHour else Some(0.0)))
  }

  /** One day; `day.rain || 0` and `day.snow || 0` default to 0. */
  function SummarizeDay(d: Daily): Result<DaySummary, Error> {
    var conditions :- FirstDescription(d.weather);
    Success(DaySummary(LocaleDateString(d.dt * 1000), Round(d.temp.max), Round(d.temp.min),
                       conditions, d.rain.GetOr(0.0), d.snow.GetOr(0.0)))
  }

  /** `daily.map(...)`: throws as soon as one day throws; otherwise one
      summary per day, in order. */
  function SummarizeDays(days: seq<Daily>): (r: Result<seq<DaySummary>, Error>)
    ensures r.Success? <==> forall i :: 0 <= i < |days| ==> SummarizeDay(days[i]).Success?
    ensures r.Success? ==> |r.value| == |days|
    ensures r.Success? ==> forall i :: 0 <= i < |days| ==> r.value[i] == SummarizeDay(days[i]).value
    ensures r.Failure? ==> r.error == TypeError
  {
    if days == [] then Success([])
    else
      var first :- SummarizeDay(days[0]);
      var rest :- SummarizeDays(days[1..]);
      assert forall i :: 1 <= i < |days| ==> days[i] == days[1..][i - 1];
      Success([first] + rest)
  }

  /** `parseWeatherData(data)`. `data.hourly[0]` of a missing or empty array
      and `data.daily.map` of a missing one throw TypeErrors. */
  function ParseWeatherData(data: Payload): (r: Result<Summary, Error>)
    ensures r.Failure? ==> r.error == TypeError
  {
    if data.hourly.None? || data.hourly.value == [] then Failure(TypeError)
    else
      var current :- SummarizeCurrent(data.hourly.value[0]);
      if data.daily.None? then Failure(TypeError)
      else
        var daily :- SummarizeDays(data.daily.value);
        Success(Summary(current, daily))
  }

  /** The current block is the first hourly block, with `temp`, `feelsLike`
      and `windSpeed` rounded, `humidity` copied, `rain` read from
      `rain["1h"]` or 0, and the first weather description. */
  lemma CurrentFromFirstHour(data: Payload)
    requires ParseWeatherData(data).Success?
    ensures var c := ParseWeatherData(data).value.current;
      var h := data.hourly.value[0];
      && c.temp == Round(h.temp) && c.feelsLike == Round(h.feelsLike)
      && c.windSpeed == Round(h.windSpeed) && c.humidity == h.humidity
      && c.conditions == h.weather.value[0].description
      && c.rain == (if h.rain.Some? then h.rain.value.oneHour else Some(0.0))
  {
  }

  /** One summary per day, in order: rounded `temp.max`/`temp.min`, the first
      weather description, and rain and snow defaulting to 0. */
  lemma DailyKeepsDays(data: Payload)
    requires ParseWeatherData(data).Success?
    ensures var daily := ParseWeatherData(data).value.daily;
      var days := data.daily.value;
      && |daily| == |days|
      && forall i :: 0 <= i < |days| ==>
           && daily[i].high == Round(days[i].temp.max) && daily[i].low == Round(days[i].temp.min)
           && daily[i].conditions == days[i].weather.value[0].description
           && daily[i].rain == (if days[i].rain.Some? then days[i].rain.value else 0.0)
           && daily[i].snow == (if days[i].snow.Some? then days[i].snow.value else 0.0)
           && daily[i].date == LocaleDateString(days[i].dt * 1000)
  {
    var days := data.daily.value;
    forall i | 0 <= i < |days|
      ensures SummarizeDay(days[i]).Success?
    {
    }
  }

  /** The projection succeeds exactly when there is a first hourly block and
      a daily list, and every one of them has a weather description. */
  lemma ParseWeatherSucceeds(data: Payload)
    ensures ParseWeatherData(data).Success? <==>
      && data.hourly.Some? && data.hourly.value != []
      && data.hourly.value[0].weather.Some? && data.hourly.value[0].weather.value != []
      && data.daily.Some?
      && forall i :: 0 <= i < |data.daily.value| ==>
           data.daily.value[i].weather.Some? && data.daily.value[i].weather.value != []
  {
  }
}
