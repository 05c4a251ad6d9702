/** The weather route (`GET /api/weather`): it reduces the provider's daily
    forecast to seven days, totals their rain, measures the total against a
    30 mm weekly average and raises a low-rainfall alert, falling back to the
    mock record whenever the live provider is not used or fails. */
module WeatherRoute {
  import opened Http
  import opened Types

  const FORECAST_DAYS: nat := 7
  const WEEKLY_AVERAGE_MM: real := 30.0
  const LOW_RAINFALL_THRESHOLD: real := -10.0
  const LOW_RAINFALL_ALERT: string := "Low rainfall expected next 7 days"
  const NORMAL_RAINFALL_ALERT: string := "Normal rainfall expected"
  const LOCATION: string := "Austin, TX"
  const FAILURE_MESSAGE: string := "Failed to fetch weather data"

  /** One entry of the provider's `daily` array. The date is already formatted
      and the day temperature already rounded; `rain` is absent on dry days. */
  datatype ProviderDay = ProviderDay(date: string, temp: int, weather: Condition, rain: Option<real>)

  function Min(a: nat, b: nat): nat
  {
    if a <= b then a else b
  }

  /** `day.rain ? day.rain : 0`: an absent (or zero) rain value becomes 0. */
  function DayRain(rain: Option<real>): (r: real)
    ensures rain.None? ==> r == 0.0
    ensures rain.Some? ==> r == rain.value
  {
    if rain.Some? && rain.value != 0.0 then rain.value else 0.0
  }

  /** One provider day as a forecast day: its fields are copied and a
      missing rain reading becomes 0. */
  function ToForecastDay(d: ProviderDay): (w: WeatherDay)
    ensures w.date == d.date && w.temp == d.temp && w.weather == d.weather
    ensures d.rain.None? ==> w.rain == 0.0
    ensures d.rain.Some? ==> w.rain == d.rain.value
  {
    WeatherDay(d.date, d.temp, d.weather, DayRain(d.rain))
  }

  /** `daily.slice(0, 7).map(...)`. */
  function ProcessForecast(daily: seq<ProviderDay>): (f: seq<WeatherDay>)
    ensures |f| == Min(FORECAST_DAYS, |daily|)
    ensures forall i :: 0 <= i < |f| ==> f[i] == ToForecastDay(daily[i])
  {
    var kept := daily[..Min(FORECAST_DAYS, |daily|)];
    seq(|kept|, i requires 0 <= i < |kept| => ToForecastDay(kept[i]))
  }

  /** `forecast.reduce((sum, day) => sum + day.rain, 0)`, a left fold. */
  function RainTotal(f: seq<WeatherDay>): (t: real)
    ensures f == [] ==> t == 0.0
    ensures (forall i :: 0 <= i < |f| ==> f[i].rain >= 0.0) ==> t >= 0.0
  {
    if f == [] then 0.0 else RainTotal(f[..|f| - 1]) + f[|f| - 1].rain
  }

  /** The rain the provider reports over some days, an absent value counting as 0. */
  function ReportedRain(daily: seq<ProviderDay>): real
  {
    if daily == [] then 0.0
    else ReportedRain(daily[..|daily| - 1])
         + (match daily[|daily| - 1].rain case None => 0.0 case Some(v) => v)
  }

  function Alert(deficit: real): (a: string)
    ensures a in {LOW_RAINFALL_ALERT, NORMAL_RAINFALL_ALERT}
    ensures a == LOW_RAINFALL_ALERT <==> deficit < LOW_RAINFALL_THRESHOLD
  {
    if deficit < LOW_RAINFALL_THRESHOLD then LOW_RAINFALL_ALERT else NORMAL_RAINFALL_ALERT
  }

  /** The `weatherData` record the live path builds from the provider's forecast. */
  function BuildWeatherData(daily: seq<ProviderDay>): (w: WeatherData)
    ensures w.location == LOCATION
    ensures w.forecast == ProcessForecast(daily)
    ensures w.rainfallTotal == RainTotal(w.forecast)
    ensures w.rainfallDeficit == w.rainfallTotal - WEEKLY_AVERAGE_MM
    ensures w.alert == LOW_RAINFALL_ALERT <==> w.rainfallDeficit < -10.0
  {
    var forecast := ProcessForecast(daily);
    var total := RainTotal(forecast);
    var deficit := total - WEEKLY_AVERAGE_MM;
    WeatherData(LOCATION, forecast, total, deficit, Alert(deficit))
  }

  /** The whole handler. `live` is the result of the provider request; it is
      only consulted when the API key is configured. A provider payload that
      cannot be processed is a `Threw`: the inner `catch` sends it to the mock. */
  function Get(req: Request, apiKey: Option<string>, live: Fetch<seq<ProviderDay>>,
               mock: WeatherData): (r: Response<WeatherData>)
    ensures r.success <==> req.url.Some?
    ensures r.success ==> r.status == 200 && r.data.Some? && r.error.None?
    ensures !r.success ==> r.status == 500 && r.data.None? && r.error == Some(FAILURE_MESSAGE)
    ensures req.url.Some? && Configured(apiKey) && live.Ok? ==> r.data == Some(BuildWeatherData(live.body))
    ensures req.url.Some? && !(Configured(apiKey) && live.Ok?) ==> r.data == Some(mock)
  {
    if req.url.None? then Failure(500, FAILURE_MESSAGE)
    else if Configured(apiKey) && live.Ok? then Success(BuildWeatherData(live.body))
    else Success(mock)
  }

  // ---------------------------------------------------------------------
  // Properties of the forecast processing

  lemma {:induction false} RainTotalOfMapped(daily: seq<ProviderDay>)
    ensures RainTotal(seq(|daily|, i requires 0 <= i < |daily| => ToForecastDay(daily[i])))
            == ReportedRain(daily)
  {
    var f := seq(|daily|, i requires 0 <= i < |daily| => ToForecastDay(daily[i]));
    if daily != [] {
      var init := daily[..|daily| - 1];
      var g := seq(|init|, i requires 0 <= i < |init| => ToForecastDay(init[i]));
      assert f[..|f| - 1] == g;
      RainTotalOfMapped(init);
    }
  }

  /** The live record's total is the rain reported for the first min(7, n)
      days, each absent value counting as 0. */
  lemma TotalIsKeptRain(daily: seq<ProviderDay>)
    ensures BuildWeatherData(daily).rainfallTotal == ReportedRain(daily[..Min(FORECAST_DAYS, |daily|)])
  {
    var kept := daily[..Min(FORECAST_DAYS, |daily|)];
    assert ProcessForecast(daily) == seq(|kept|, i requires 0 <= i < |kept| => ToForecastDay(kept[i]));
    RainTotalOfMapped(kept);
  }

  /** The deficit is the total measured against the weekly average, and the
      alert is the low-rainfall text exactly when the deficit is below -10. */
  lemma DeficitAndAlert(daily: seq<ProviderDay>)
    ensures BuildWeatherData(daily).rainfallDeficit + 30.0 == BuildWeatherData(daily).rainfallTotal
    ensures BuildWeatherData(daily).alert == LOW_RAINFALL_ALERT
            <==> BuildWeatherData(daily).rainfallDeficit < -10.0
    ensures BuildWeatherData(daily).alert == NORMAL_RAINFALL_ALERT
            <==> BuildWeatherData(daily).rainfallDeficit >= -10.0
  {
  }

  lemma {:induction false} ReportedRainNonNegative(daily: seq<ProviderDay>)
    requires forall i :: 0 <= i < |daily| && daily[i].rain.Some? ==> daily[i].rain.value >= 0.0
    ensures ReportedRain(daily) >= 0.0
  {
    if daily != [] {
      ReportedRainNonNegative(daily[..|daily| - 1]);
    }
  }

  /** With non-negative rain amounts the total is never negative, so the
      deficit never falls below minus the weekly average. */
  lemma DeficitBoundedBelow(daily: seq<ProviderDay>)
    requires forall i :: 0 <= i < |daily| && daily[i].rain.Some? ==> daily[i].rain.value >= 0.0
    ensures BuildWeatherData(daily).rainfallTotal >= 0.0
    ensures BuildWeatherData(daily).rainfallDeficit >= -30.0
  {
    var kept := daily[..Min(FORECAST_DAYS, |daily|)];
    TotalIsKeptRain(daily);
    ReportedRainNonNegative(kept);
  }

  /** Days after the seventh never influence the live record. */
  lemma OnlyFirstWeekMatters(daily: seq<ProviderDay>, later: seq<ProviderDay>)
    requires |daily| >= FORECAST_DAYS
    ensures BuildWeatherData(daily + later) == BuildWeatherData(daily)
  {
    assert (daily + later)[..FORECAST_DAYS] == daily[..FORECAST_DAYS];
  }
}
