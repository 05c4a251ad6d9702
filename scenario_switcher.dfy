/** The demo-scenario switcher: from a scenario triple (vegetation index,
    rainfall deficit, balance, plus a health label) it synthesises the three
    records the dashboard normally fetches and hands them to the caller's
    `onScenarioChange` callback, once. The callback's single invocation is
    modelled as the value `HandleScenarioChange` returns. */
module ScenarioSwitcher {
  import opened Types

  /** One entry of the demo scenario table (kept outside this component). */
  datatype Scenario = Scenario(ndvi: real, health: Health, rainfallDeficit: real, balance: real)

  /** The argument of the one `onScenarioChange` call. */
  datatype ScenarioRecords = ScenarioRecords(ndvi: NdviData, weather: WeatherData, financial: FinancialData)

  const FARM_RING: Ring := [(-97.75, 30.25), (-97.74, 30.25), (-97.74, 30.24), (-97.75, 30.24), (-97.75, 30.25)]

  function Max(a: real, b: real): real
  {
    if a >= b then a else b
  }

  /** `Math.max(0, 30 + deficit)`. */
  function RainfallTotal(deficit: real): (t: real)
    ensures t >= 0.0
    ensures deficit >= -30.0 ==> t == 30.0 + deficit
    ensures deficit <= -30.0 ==> t == 0.0
  {
    Max(0.0, 30.0 + deficit)
  }

  /** The NDVI record: the scenario's index and health over the fixed demo farm. */
  function NdviRecord(s: Scenario): (r: NdviData)
    ensures r.ndvi == s.ndvi && r.health == s.health
    ensures r.farmId == "demo1" && r.geometry == [FARM_RING] && r.areaHectares == 12.5
  {
    NdviData("demo1", s.ndvi, s.health, [FARM_RING], 12.5)
  }

  /** The seven synthetic forecast days; the wet days grow drier below a
      deficit of -10 (days 2 and 5) or of -15 (days 1 and 4). */
  function SyntheticForecast(d: real): (f: seq<WeatherDay>)
    ensures |f| == 7
    ensures forall i :: 0 <= i < |f| ==> f[i].rain >= 0.0 && f[i].weather.icon in {"10d", "01d", "02d"}
  {
    [ WeatherDay("2025-10-19", 78, Condition("Rain", "10d"), if d < -15.0 then 0.5 else 2.5),
      WeatherDay("2025-10-20", 82, if d < -10.0 then Condition("Clear", "01d") else Condition("Clouds", "02d"),
                 if d < -10.0 then 0.0 else 1.2),
      WeatherDay("2025-10-21", 85, Condition("Clear", "01d"), 0.0),
      WeatherDay("2025-10-22", 79, if d < -15.0 then Condition("Clear", "01d") else Condition("Clouds", "02d"),
                 if d < -15.0 then 0.0 else 0.5),
      WeatherDay("2025-10-23", 77, Condition("Rain", "10d"), if d < -10.0 then 1.0 else 3.2),
      WeatherDay("2025-10-24", 80, Condition("Clear", "01d"), 0.0),
      WeatherDay("2025-10-25", 83, Condition("Clear", "01d"), 0.0) ]
  }

  function WeatherRecord(s: Scenario): (w: WeatherData)
    ensures w.location == "Austin, TX"
    ensures w.forecast == SyntheticForecast(s.rainfallDeficit)
    ensures w.rainfallTotal == RainfallTotal(s.rainfallDeficit)
    ensures w.rainfallDeficit == s.rainfallDeficit
    ensures w.alert == "Low rainfall expected next 7 days" <==> s.rainfallDeficit < -10.0
  {
    WeatherData("Austin, TX", SyntheticForecast(s.rainfallDeficit), RainfallTotal(s.rainfallDeficit),
                s.rainfallDeficit,
                if s.rainfallDeficit < -10.0 then "Low rainfall expected next 7 days" else "Normal rainfall expected")
  }

  const DEMO_TRANSACTIONS: seq<Transaction> :=
    [ Transaction("2025-10-15", "Fertilizer Supply Co", -45.00),
      Transaction("2025-10-14", "Equipment Rental", -120.00),
      Transaction("2025-10-13", "Seed Purchase", -230.00) ]

  /** The financial record: the scenario's balance with the three fixed
      demo transactions, every one a debit. */
  function FinancialRecord(s: Scenario): (r: FinancialData)
    ensures r.balance == s.balance
    ensures r.transactions == DEMO_TRANSACTIONS
    ensures forall i :: 0 <= i < |r.transactions| ==> r.transactions[i].amount < 0.0
  {
    FinancialData("demo123", "67890", "Farm Savings Account", s.balance, DEMO_TRANSACTIONS)
  }

  function HandleScenarioChange(s: Scenario): (r: ScenarioRecords)
    ensures r.ndvi == NdviRecord(s) && r.weather == WeatherRecord(s) && r.financial == FinancialRecord(s)
    ensures r.ndvi.ndvi == s.ndvi && r.ndvi.health == s.health
    ensures r.weather.rainfallDeficit == s.rainfallDeficit
    ensures r.financial.balance == s.balance
    ensures r.weather.rainfallTotal == Max(0.0, 30.0 + s.rainfallDeficit) && r.weather.rainfallTotal >= 0.0
    ensures |r.weather.forecast| == 7
    ensures r.financial.transactions == DEMO_TRANSACTIONS && |r.financial.transactions| == 3
    ensures forall i :: 0 <= i < |r.financial.transactions| ==> r.financial.transactions[i].amount < 0.0
  {
    ScenarioRecords(NdviRecord(s), WeatherRecord(s), FinancialRecord(s))
  }

  // ---------------------------------------------------------------------
  // Properties of the synthetic records

  /** The alert is the low-rainfall text exactly when the deficit is below -10. */
  lemma AlertThreshold(s: Scenario)
    ensures WeatherRecord(s).alert == "Low rainfall expected next 7 days" <==> s.rainfallDeficit < -10.0
  {
  }

  /** Days 3, 6 and 7 are always dry; days 2 and 5 switch at -10, days 1 and 4 at -15. */
  lemma ForecastSwitches(d: real)
    ensures |SyntheticForecast(d)| == 7
    ensures SyntheticForecast(d)[2].rain == 0.0 && SyntheticForecast(d)[5].rain == 0.0
            && SyntheticForecast(d)[6].rain == 0.0
    ensures SyntheticForecast(d)[1].rain == (if d < -10.0 then 0.0 else 1.2)
    ensures SyntheticForecast(d)[4].rain == (if d < -10.0 then 1.0 else 3.2)
    ensures SyntheticForecast(d)[0].rain == (if d < -15.0 then 0.5 else 2.5)
    ensures SyntheticForecast(d)[3].rain == (if d < -15.0 then 0.0 else 0.5)
  {
  }

  /** Drier scenarios never get more rain on any synthetic day. */
  lemma ForecastMonotone(d1: real, d2: real, i: nat)
    requires d1 <= d2 && i < 7
    ensures SyntheticForecast(d1)[i].rain <= SyntheticForecast(d2)[i].rain
  {
  }
}
