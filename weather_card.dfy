/** The weather panel: it maps each forecast day's provider icon code to an
    emoji, shows a rainfall banner when the weekly deficit is below -10,
    marks rainy days, and prints the deficit with a sign and a colour. The
    rendered card is modelled as a `CardView` value; date formatting and the
    number-to-text conversion of amounts are left to the view. */
module WeatherCard {
  import opened Http
  import opened Types

  const FALLBACK_ICON: string := "🌤️"

  const ICON_MAP: map<string, string> := map[
    "01d" := "☀️", "01n" := "🌙",
    "02d" := "⛅", "02n" := "☁️",
    "03d" := "☁️", "03n" := "☁️",
    "04d" := "☁️", "04n" := "☁️",
    "09d" := "🌧️", "09n" := "🌧️",
    "10d" := "🌦️", "10n" := "🌧️",
    "11d" := "⛈️", "11n" := "⛈️",
    "13d" := "❄️", "13n" := "❄️",
    "50d" := "🌫️", "50n" := "🌫️"
  ]

  const ICON_CODES: set<string> := {
    "01d", "01n", "02d", "02n", "03d", "03n", "04d", "04n", "09d", "09n",
    "10d", "10n", "11d", "11n", "13d", "13n", "50d", "50n" }

  /** `iconMap[icon] || '🌤️'`: a missing entry (undefined) and an empty one are
      both falsy. */
  function GetWeatherIcon(icon: string): (e: string)
    ensures icon in ICON_MAP ==> e == ICON_MAP[icon]
    ensures icon !in ICON_MAP ==> e == FALLBACK_ICON
    ensures e != ""
  {
    var entry := if icon in ICON_MAP then ICON_MAP[icon] else "";
    if entry != "" then entry else FALLBACK_ICON
  }

  datatype DayRow = DayRow(icon: string, date: string, main: string, temp: int, rainIndicator: Option<real>)

  /** The "vs. Average" line: sign prefix, colour class and the amount. */
  datatype DeficitLine = DeficitLine(sign: string, colour: string, amount: real)

  datatype CardView =
    | Skeleton
    | Card(location: string, banner: Option<string>, rows: seq<DayRow>, weeklyRainfall: real, deficit: DeficitLine)

  /** Whether the low-rainfall banner is shown; a shown banner always goes
      with a red deficit line. */
  function HasRainfallAlert(data: WeatherData): (alert: bool)
    ensures alert <==> data.rainfallDeficit < -10.0
    ensures alert ==> DeficitColour(data.rainfallDeficit) == "text-red-600" && DeficitSign(data.rainfallDeficit) == ""
  {
    data.rainfallDeficit < -10.0
  }

  /** The sign prefix: '+' for a surplus only; zero and deficits get none
      (a negative amount carries its own '-'). */
  function DeficitSign(deficit: real): (sign: string)
    ensures sign == "+" <==> deficit > 0.0
    ensures sign == "" <==> deficit <= 0.0
  {
    if deficit > 0.0 then "+" else ""
  }

  /** Red for a shortfall, green otherwise, zero included. */
  function DeficitColour(deficit: real): (colour: string)
    ensures colour in {"text-red-600", "text-green-600"}
    ensures colour == "text-red-600" <==> deficit < 0.0
    ensures deficit == 0.0 ==> colour == "text-green-600"
  {
    if deficit < 0.0 then "text-red-600" else "text-green-600"
  }

  /** One forecast row; the rain indicator is present only for a positive amount. */
  function RenderDay(day: WeatherDay): (row: DayRow)
    ensures row.icon == GetWeatherIcon(day.weather.icon)
    ensures row.date == day.date && row.main == day.weather.main && row.temp == day.temp
    ensures row.rainIndicator.Some? <==> day.rain > 0.0
    ensures row.rainIndicator.Some? ==> row.rainIndicator.value == day.rain
  {
    DayRow(GetWeatherIcon(day.weather.icon), day.date, day.weather.main, day.temp,
           if day.rain > 0.0 then Some(day.rain) else None)
  }

  function Render(data: WeatherData, loading: bool): (v: CardView)
    ensures loading <==> v.Skeleton?
    ensures v.Card? ==> |v.rows| == |data.forecast| && v.location == data.location
                        && v.weeklyRainfall == data.rainfallTotal && v.deficit.amount == data.rainfallDeficit
  {
    if loading then Skeleton
    else Card(data.location,
              if HasRainfallAlert(data) then Some(data.alert) else None,
              seq(|data.forecast|, i requires 0 <= i < |data.forecast| => RenderDay(data.forecast[i])),
              data.rainfallTotal,
              DeficitLine(DeficitSign(data.rainfallDeficit), DeficitColour(data.rainfallDeficit), data.rainfallDeficit))
  }

  // ---------------------------------------------------------------------
  // Properties of the panel

  /** The table has exactly the 18 listed codes, none of them mapped to an
      empty string, so a listed code shows its own entry and any other code
      the fallback. */
  lemma IconLookup(icon: string)
    ensures ICON_MAP.Keys == ICON_CODES
    ensures icon in ICON_CODES ==> GetWeatherIcon(icon) == ICON_MAP[icon]
    ensures icon !in ICON_CODES ==> GetWeatherIcon(icon) == FALLBACK_ICON
    ensures GetWeatherIcon(icon) != ""
  {
  }

  /** The banner appears exactly when the deficit is below -10, and then it
      carries the record's alert text. */
  lemma BannerIffLowRainfall(data: WeatherData)
    ensures Render(data, false).banner.Some? <==> data.rainfallDeficit < -10.0
    ensures Render(data, false).banner.Some? ==> Render(data, false).banner.value == data.alert
  {
  }

  /** A '+' only for a surplus (zero gets no sign); red exactly for a shortfall,
      green otherwise, zero included. */
  lemma DeficitFormatting(data: WeatherData)
    ensures Render(data, false).deficit.sign == "+" <==> data.rainfallDeficit > 0.0
    ensures Render(data, false).deficit.sign == "" <==> data.rainfallDeficit <= 0.0
    ensures Render(data, false).deficit.colour == "text-red-600" <==> data.rainfallDeficit < 0.0
    ensures Render(data, false).deficit.colour == "text-green-600" <==> data.rainfallDeficit >= 0.0
  {
  }

  /** Each row shows a rain indicator, with that day's amount, exactly when
      the day's rain is positive. */
  lemma RainIndicator(data: WeatherData, i: nat)
    requires i < |data.forecast|
    ensures Render(data, false).rows[i].rainIndicator.Some? <==> data.forecast[i].rain > 0.0
    ensures Render(data, false).rows[i].rainIndicator.Some? ==>
              Render(data, false).rows[i].rainIndicator.value == data.forecast[i].rain
    ensures Render(data, false).rows[i].icon == GetWeatherIcon(data.forecast[i].weather.icon)
  {
  }

  /** While loading, the card does not depend on the data. */
  lemma LoadingIgnoresData(d1: WeatherData, d2: WeatherData)
    ensures Render(d1, true) == Render(d2, true)
  {
  }
}
