/**
 * The farmer weather route: it rejects a request without coordinates, asks the
 * forecast service, and reshapes the answer, naming each WMO weather code with one
 * of eight condition labels. The forecast service is a function parameter.
 */
module WeatherRoute {
  import opened Wrappers

  /** `weatherCodeDesc`: the first threshold the code does not exceed names it. */
  function WeatherCodeDesc(code: real): (desc: string)
    ensures code == 0.0 ==> desc == "Clear sky"
    ensures code != 0.0 && code <= 3.0 ==> desc == "Partly cloudy"
    ensures 3.0 < code <= 49.0 ==> desc == "Foggy"
    ensures 49.0 < code <= 67.0 ==> desc == "Rainy"
    ensures 67.0 < code <= 77.0 ==> desc == "Snow / Sleet"
    ensures 77.0 < code <= 82.0 ==> desc == "Rain showers"
    ensures 82.0 < code <= 99.0 ==> desc == "Thunderstorm"
    ensures 99.0 < code ==> desc == "Unknown"
  {
    if code == 0.0 then "Clear sky"
    else if code <= 3.0 then "Partly cloudy"
    else if code <= 49.0 then "Foggy"
    else if code <= 67.0 then "Rainy"
    else if code <= 77.0 then "Snow / Sleet"
    else if code <= 82.0 then "Rain showers"
    else if code <= 99.0 then "Thunderstorm"
    else "Unknown"
  }

  const Labels: seq<string> :=
    ["Clear sky", "Partly cloudy", "Foggy", "Rainy", "Snow / Sleet", "Rain showers", "Thunderstorm", "Unknown"]

  /** The band a code falls in, as an index into `Labels`, from the thresholds alone. */
  function Band(code: real): (b: nat)
    ensures b < |Labels|
  {
    if code == 0.0 then 0
    else if code <= 3.0 then 1
    else if code <= 49.0 then 2
    else if code <= 67.0 then 3
    else if code <= 77.0 then 4
    else if code <= 82.0 then 5
    else if code <= 99.0 then 6
    else 7
  }

  /**
   * Every code gets exactly one of the eight labels: the labels are distinct, so the
   * label determines the band, and negative codes count as partly cloudy.
   */
  lemma WeatherCodeDescExclusive(code: real)
    ensures WeatherCodeDesc(code) == Labels[Band(code)]
    ensures forall k :: 0 <= k < |Labels| && Labels[k] == WeatherCodeDesc(code) ==> k == Band(code)
    ensures code < 0.0 ==> WeatherCodeDesc(code) == "Partly cloudy"
  {
  }

  /** The `current` block of the forecast service's answer; absent fields are `None`. */
  datatype CurrentIn = CurrentIn(
    temperature: Option<real>, humidity: Option<real>, precipitation: Option<real>,
    windSpeed: Option<real>, cloudCover: Option<real>, weatherCode: Option<real>)

  /** The `daily` block: parallel series, each possibly absent, with possibly missing values. */
  datatype DailyIn = DailyIn(
    time: Option<seq<string>>, maxTemp: Option<seq<Option<real>>>, minTemp: Option<seq<Option<real>>>,
    precipitation: Option<seq<Option<real>>>, evapotranspiration: Option<seq<Option<real>>>,
    weatherCode: Option<seq<Option<real>>>)

  datatype Forecast = Forecast(current: Option<CurrentIn>, daily: Option<DailyIn>)

  /** The service's HTTP status and the parsed body. */
  datatype Upstream = Upstream(ok: bool, data: Forecast)

  datatype CurrentOut = CurrentOut(
    temperature: Option<real>, humidity: Option<real>, precipitation: Option<real>,
    windSpeed: Option<real>, cloudCover: Option<real>, condition: string, weatherCode: Option<real>)

  datatype DailyOut = DailyOut(
    date: string, maxTemp: Option<real>, minTemp: Option<real>, precipitation: Option<real>,
    evapotranspiration: Option<real>, condition: string)

  datatype Response =
    | Weather(current: CurrentOut, daily: seq<DailyOut>)
    | Error(status: nat, message: string)

  /** `series?.[i]`. */
  function At(series: Option<seq<Option<real>>>, i: nat): Option<real> {
    if series.Some? && i < |series.value| then series.value[i] else None
  }

  /** `data.current ?? {}` reshaped; a missing code counts as 0. */
  function ShapeCurrent(current: Option<CurrentIn>): (out: CurrentOut)
    ensures var c := current.GetOr(CurrentIn(None, None, None, None, None, None));
            out.temperature == c.temperature && out.humidity == c.humidity &&
            out.precipitation == c.precipitation && out.windSpeed == c.windSpeed &&
            out.cloudCover == c.cloudCover && out.weatherCode == c.weatherCode &&
            out.condition == WeatherCodeDesc(c.weatherCode.GetOr(0.0))
    ensures current.None? || current.value.weatherCode.None? ==> out.condition == "Clear sky"
  {
    var c := current.GetOr(CurrentIn(None, None, None, None, None, None));
    CurrentOut(c.temperature, c.humidity, c.precipitation, c.windSpeed, c.cloudCover,
               WeatherCodeDesc(c.weatherCode.GetOr(0.0)), c.weatherCode)
  }

  /** The service fields a shaped `current` object carries, read back. */
  function CurrentFields(out: CurrentOut): CurrentIn {
    CurrentIn(out.temperature, out.humidity, out.precipitation, out.windSpeed, out.cloudCover, out.weatherCode)
  }

  /**
   * Shaping loses nothing the service sent: every field can be read back, and the
   * added condition is the label of the code that was sent.
   */
  lemma ShapeCurrentKeepsFields(current: CurrentIn)
    ensures CurrentFields(ShapeCurrent(Some(current))) == current
    ensures ShapeCurrent(Some(current)).condition == WeatherCodeDesc(current.weatherCode.GetOr(0.0))
  {
  }

  /** `(daily.time ?? []).map((date, i) => ...)`. */
  function ShapeDaily(daily: Option<DailyIn>): (out: seq<DailyOut>)
    ensures var d := daily.GetOr(DailyIn(None, None, None, None, None, None));
            |out| == |d.time.GetOr([])|
  {
    var d := daily.GetOr(DailyIn(None, None, None, None, None, None));
    var time := d.time.GetOr([]);
    seq(|time|, i requires 0 <= i < |time| =>
      DailyOut(time[i], At(d.maxTemp, i), At(d.minTemp, i), At(d.precipitation, i),
               At(d.evapotranspiration, i), WeatherCodeDesc(At(d.weatherCode, i).GetOr(0.0))))
  }

  /**
   * Entry `i` of the daily output takes element `i` of every series; where the code
   * series is absent, too short or holds null at `i`, the condition is "Clear sky".
   */
  lemma DailyEntries(daily: Option<DailyIn>, i: nat)
    requires i < |ShapeDaily(daily)|
    ensures var d := daily.GetOr(DailyIn(None, None, None, None, None, None));
            var e := ShapeDaily(daily)[i];
            d.time.Some? && i < |d.time.value| && e.date == d.time.value[i] &&
            e.maxTemp == At(d.maxTemp, i) && e.minTemp == At(d.minTemp, i) &&
            e.precipitation == At(d.precipitation, i) &&
            e.evapotranspiration == At(d.evapotranspiration, i) &&
            e.condition == WeatherCodeDesc(At(d.weatherCode, i).GetOr(0.0)) &&
            (At(d.weatherCode, i).None? ==> e.condition == "Clear sky") &&
            (d.weatherCode.Some? && i < |d.weatherCode.value| && d.weatherCode.value[i].Some? ==>
               e.condition == WeatherCodeDesc(d.weatherCode.value[i].value))
  {
  }

  /** The `GET` handler; `fetchForecast(lat, lon)` stands for the request to the forecast service. */
  function Get(lat: Option<string>, lon: Option<string>, fetchForecast: (string, string) -> Outcome<Upstream>):
    (r: Response)
    ensures lat.None? || lat == Some("") || lon.None? || lon == Some("") <==>
            r == Error(400, "lat and lon are required")
    ensures r.Weather? ==>
              var answer := fetchForecast(lat.value, lon.value);
              answer.Received? && answer.body.ok &&
              r.current == ShapeCurrent(answer.body.data.current) && r.daily == ShapeDaily(answer.body.data.daily)
    ensures r.Error? && r.status != 400 ==> r == Error(500, "Failed to fetch weather data")
  {
    if lat.None? || lat == Some("") || lon.None? || lon == Some("") then Error(400, "lat and lon are required")
    else
      match fetchForecast(lat.value, lon.value)
      case Failed(_) => Error(500, "Failed to fetch weather data")
      case Received(answer) =>
        if !answer.ok then Error(500, "Failed to fetch weather data")
        else Weather(ShapeCurrent(answer.data.current), ShapeDaily(answer.data.daily))
  }

  /** Without both coordinates the answer does not depend on the forecast service: it is never asked. */
  lemma MissingCoordinatesNeverFetch(lat: Option<string>, lon: Option<string>,
                                     f: (string, string) -> Outcome<Upstream>,
                                     g: (string, string) -> Outcome<Upstream>)
    requires lat.None? || lat == Some("") || lon.None? || lon == Some("")
    ensures Get(lat, lon, f) == Get(lat, lon, g)
  {
  }

  /** With both coordinates, a failed or refused forecast request yields the 500 answer. */
  lemma UpstreamFailure(lat: string, lon: string, f: (string, string) -> Outcome<Upstream>)
    requires lat != "" && lon != ""
    ensures Get(Some(lat), Some(lon), f).Weather? <==> f(lat, lon).Received? && f(lat, lon).body.ok
  {
  }
}
