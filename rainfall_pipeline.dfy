/** The rainfall-deficit pipeline across its three files: the weather route
    computes total, deficit and alert from a forecast; the scenario switcher
    goes the other way, from a deficit to a synthetic forecast; the weather
    panel renders either record. These lemmas check that the three agree. */
module RainfallPipeline {
  import opened Http
  import opened Types
  import WeatherRoute
  import ScenarioSwitcher
  import WeatherCard

  lemma RainTotalSnoc(f: seq<WeatherDay>, day: WeatherDay)
    ensures WeatherRoute.RainTotal(f + [day]) == WeatherRoute.RainTotal(f) + day.rain
  {
    assert (f + [day])[..|f|] == f;
  }

  /** The panel shows its banner for a live record exactly when the route
      chose the low-rainfall alert, and the banner carries that text. */
  lemma RouteBannerMatchesAlert(daily: seq<WeatherRoute.ProviderDay>)
    ensures var card := WeatherCard.Render(WeatherRoute.BuildWeatherData(daily), false);
            (card.banner.Some? <==> WeatherRoute.BuildWeatherData(daily).alert == WeatherRoute.LOW_RAINFALL_ALERT)
            && (card.banner.Some? ==> card.banner.value == WeatherRoute.LOW_RAINFALL_ALERT)
  {
    WeatherRoute.DeficitAndAlert(daily);
    WeatherCard.BannerIffLowRainfall(WeatherRoute.BuildWeatherData(daily));
  }

  /** The switcher's alert is the route's rule applied to the scenario deficit. */
  lemma ScenarioAlertMatchesRoute(s: ScenarioSwitcher.Scenario)
    ensures ScenarioSwitcher.WeatherRecord(s).alert == WeatherRoute.Alert(s.rainfallDeficit)
  {
  }

  /** The route's identity total == deficit + 30 holds of a scenario record
      exactly when the clamp to 0 does not bite, that is for deficits from -30 up. */
  lemma ScenarioDeficitIdentity(s: ScenarioSwitcher.Scenario)
    ensures var w := ScenarioSwitcher.WeatherRecord(s);
            w.rainfallTotal == w.rainfallDeficit + 30.0 <==> s.rainfallDeficit >= -30.0
  {
  }

  /** The rain of the seven synthetic days adds up to one of three amounts. */
  lemma ScenarioForecastRain(d: real)
    ensures WeatherRoute.RainTotal(ScenarioSwitcher.SyntheticForecast(d))
            == if d < -15.0 then 1.5 else if d < -10.0 then 4.0 else 7.4
  {
    var f := ScenarioSwitcher.SyntheticForecast(d);
    assert f == [] + [f[0]] + [f[1]] + [f[2]] + [f[3]] + [f[4]] + [f[5]] + [f[6]];
    RainTotalSnoc([], f[0]);
    RainTotalSnoc([] + [f[0]], f[1]);
    RainTotalSnoc([] + [f[0]] + [f[1]], f[2]);
    RainTotalSnoc([] + [f[0]] + [f[1]] + [f[2]], f[3]);
    RainTotalSnoc([] + [f[0]] + [f[1]] + [f[2]] + [f[3]], f[4]);
    RainTotalSnoc([] + [f[0]] + [f[1]] + [f[2]] + [f[3]] + [f[4]], f[5]);
    RainTotalSnoc([] + [f[0]] + [f[1]] + [f[2]] + [f[3]] + [f[4]] + [f[5]], f[6]);
  }

  /** A scenario record satisfies the route's own invariant (total equals the
      summed forecast rain) for one deficit only, -28.5 mm; every other demo
      scenario shows a weekly total that its seven days do not add up to. */
  lemma ScenarioTotalMatchesForecastOnlyAt(s: ScenarioSwitcher.Scenario)
    ensures var w := ScenarioSwitcher.WeatherRecord(s);
            w.rainfallTotal == WeatherRoute.RainTotal(w.forecast) <==> s.rainfallDeficit == -28.5
  {
    ScenarioForecastRain(s.rainfallDeficit);
  }

  /** Every synthetic day uses an icon code from the panel's table, so the
      panel never shows the fallback icon for a scenario. */
  lemma ScenarioIconsKnown(d: real, i: nat)
    requires i < 7
    ensures ScenarioSwitcher.SyntheticForecast(d)[i].weather.icon in WeatherCard.ICON_CODES
    ensures WeatherCard.GetWeatherIcon(ScenarioSwitcher.SyntheticForecast(d)[i].weather.icon)
            != WeatherCard.FALLBACK_ICON
  {
    WeatherCard.IconLookup(ScenarioSwitcher.SyntheticForecast(d)[i].weather.icon);
  }

  /** On a scenario record the panel marks days 1 and 5 as rainy always,
      day 2 from a deficit of -10 up, day 4 from -15 up, and days 3, 6 and 7 never. */
  lemma ScenarioRainIndicators(s: ScenarioSwitcher.Scenario)
    ensures var rows := WeatherCard.Render(ScenarioSwitcher.WeatherRecord(s), false).rows;
            |rows| == 7
            && rows[0].rainIndicator.Some? && rows[4].rainIndicator.Some?
            && (rows[1].rainIndicator.Some? <==> s.rainfallDeficit >= -10.0)
            && (rows[3].rainIndicator.Some? <==> s.rainfallDeficit >= -15.0)
            && rows[2].rainIndicator.None? && rows[5].rainIndicator.None? && rows[6].rainIndicator.None?
  {
    var w := ScenarioSwitcher.WeatherRecord(s);
    var d := s.rainfallDeficit;
    ScenarioSwitcher.ForecastSwitches(d);
    forall i | 0 <= i < 7
      ensures WeatherCard.Render(w, false).rows[i].rainIndicator.Some? <==> w.forecast[i].rain > 0.0
    {
      WeatherCard.RainIndicator(w, i);
    }
  }

  /** The scenario banner and the switcher's alert agree: shown exactly for
      the low-rainfall text. */
  lemma ScenarioBannerMatchesAlert(s: ScenarioSwitcher.Scenario)
    ensures var card := WeatherCard.Render(ScenarioSwitcher.WeatherRecord(s), false);
            card.banner.Some? <==> ScenarioSwitcher.WeatherRecord(s).alert == WeatherRoute.LOW_RAINFALL_ALERT
  {
  }
}
