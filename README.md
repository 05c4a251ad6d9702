# AgriSight decision logic and road-view walks, in Dafny

AgriSight is a farm dashboard. It combines a vegetation index (NDVI), a
seven-day weather forecast and a bank balance into recommendations. This
project models the logic in its API routes and panels that can be checked:

- the rainfall-deficit pipeline: the weather route's seven-day total, deficit
  and alert, the demo-scenario switcher that runs the other way, and the
  weather panel that renders either record;
- the threshold classifiers of the farm-insights panel;
- the validation, defaulting and status outcomes of the recommendation
  endpoint, with the recommendation engine left abstract;
- the live-or-mock choice and the transaction mapping of the financial route;
- the select/deselect state of the farm map;
- the index walks of the Python forward-road renderer: nearest sample,
  fixed and until-turn lookahead walks, tangent neighbours, road-polygon
  assembly, and polyline sampling with its dedupe pass.

One Dafny module per source file:

| module | file | source |
|---|---|---|
| `Http` | `http.dfy` | request/response plumbing shared by the three routes |
| `Types` | `types.dfy` | `agrisight/src/types/index.ts` records |
| `WeatherRoute` | `weather_route.dfy` | `agrisight/src/app/api/weather/route.ts` |
| `ScenarioSwitcher` | `scenario_switcher.dfy` | `agrisight/src/components/ScenarioSwitcher.tsx` |
| `WeatherCard` | `weather_card.dfy` | `agrisight/src/components/panels/WeatherCard.tsx` |
| `RainfallPipeline` | `rainfall_pipeline.dfy` | lemmas relating the three files above |
| `FarmInsights` | `farm_insights.dfy` | `agrisight/src/components/FarmInsights.tsx` |
| `RecommendationRoute` | `recommendation_route.dfy` | `agrisight/src/app/api/recommendation/route.ts` |
| `FinancialRoute` | `financial_route.dfy` | `agrisight/src/app/api/financial/route.ts` |
| `FarmMap` | `farm_map.dfy` | `agrisight/src/components/FarmMap.tsx` |
| `RoadView` | `road_view.dfy` | `PythonTesting/Main.py` |

Modelling conventions:

- JavaScript and Python numbers are `real`.
- Optional values are an `Option`.
- The JavaScript `a || b` default treats a missing value and `""` alike.
- Each route takes its environment as parameters:
  - the API key as `Option<string>`;
  - each `fetch` outcome as `Fetch` (`Threw`, `NotOk` or `Ok(body)`);
  - a URL that fails to parse as `Request(None)`;
  - the mock records, `parseFloat` and the recommendation engine as given
    values and functions.
- A handler's outcome is a `Response` (status, success, data, error).
- The recommendation handlers also return the list of engine calls they
  made, which is how "called only after validation" is stated.
- The farm map's React state is a `FarmMapView` object whose `selected`
  field the click and close methods update.
- The Python loops are methods with loop invariants. Each is specified
  exactly by a function or predicate, and the properties are lemmas about
  those.
- An `IndexError` or `ZeroDivisionError` of the Python code is a result
  value, not a precondition.
- The renderer's floating-point geometry is a `Geometry` parameter: `dist`,
  `math.hypot`, the tangent angle, the camera transform and the projection.

## Model

| member | source | states |
|---|---|---|
| Http.ParamOr | agrisight/src/app/api/financial/route.ts:7 | the query default: the fallback when the key is absent or empty, the given value otherwise; a non-empty fallback never yields "" |
| Http.Configured | agrisight/src/app/api/weather/route.ts:16-18 | a key counts as configured iff it is set and not empty, as the `if (process.env.X)` truthiness test does |
| WeatherRoute.DayRain | agrisight/src/app/api/weather/route.ts:33 | a day without a rain value contributes 0, a day with one contributes that value |
| WeatherRoute.ToForecastDay | agrisight/src/app/api/weather/route.ts:29-34 | a provider day keeps its date, temperature and condition, and its rain is the reading or 0 when there is none |
| WeatherRoute.ProcessForecast | agrisight/src/app/api/weather/route.ts:29-34 | the forecast is the first min(7, n) provider days, in order, each mapped to a forecast day |
| WeatherRoute.RainTotal | agrisight/src/app/api/weather/route.ts:36 | the reduce starts at 0; with non-negative daily rain the total is non-negative |
| WeatherRoute.Alert | agrisight/src/app/api/weather/route.ts:44 | one of the two alert texts, the low-rainfall one iff the deficit is below -10 |
| WeatherRoute.BuildWeatherData | agrisight/src/app/api/weather/route.ts:29-46 | the live record: fixed location, the processed forecast, total = its summed rain, deficit = total - 30, low-rainfall alert iff deficit < -10 |
| WeatherRoute.Get | agrisight/src/app/api/weather/route.ts:4-81 | success exactly when the URL parses; success is 200 with data, failure is 500 with the fixed message; the live record when the key is set and the provider answered ok, the mock record otherwise |
| WeatherRoute.RainTotalOfMapped | agrisight/src/app/api/weather/route.ts:29-36 | folding the mapped days' rain gives the provider's reported rain with absent values as 0 |
| WeatherRoute.TotalIsKeptRain | agrisight/src/app/api/weather/route.ts:29-42 | `rainfall_total` is the reported rain of the first min(7, n) days |
| WeatherRoute.DeficitAndAlert | agrisight/src/app/api/weather/route.ts:36-44 | deficit + 30 = total; the alert is the low-rainfall text iff deficit < -10, the normal text iff deficit >= -10 |
| WeatherRoute.ReportedRainNonNegative | agrisight/src/app/api/weather/route.ts:33-36 | non-negative daily amounts give a non-negative total |
| WeatherRoute.DeficitBoundedBelow | agrisight/src/app/api/weather/route.ts:36-43 | with non-negative rain the total is >= 0 and the deficit >= -30 |
| WeatherRoute.OnlyFirstWeekMatters | agrisight/src/app/api/weather/route.ts:29 | days after the seventh never change the live record |
| ScenarioSwitcher.RainfallTotal | agrisight/src/components/ScenarioSwitcher.tsx:38 | `max(0, 30 + deficit)` is never negative, equals 30 + deficit from -30 up and 0 from -30 down |
| ScenarioSwitcher.NdviRecord | agrisight/src/components/ScenarioSwitcher.tsx:19-35 | the NDVI record carries the scenario's index and health over the fixed demo farm, outline and 12.5 ha |
| ScenarioSwitcher.FinancialRecord | agrisight/src/components/ScenarioSwitcher.tsx:57-80 | the financial record carries the scenario's balance and the three fixed demo transactions, each a debit |
| ScenarioSwitcher.SyntheticForecast | agrisight/src/components/ScenarioSwitcher.tsx:42-50 | seven days, none with negative rain, each with icon 10d, 01d or 02d |
| ScenarioSwitcher.WeatherRecord | agrisight/src/components/ScenarioSwitcher.tsx:40-55 | Austin, TX; the synthetic forecast; total max(0, 30 + deficit); the deficit copied; low-rainfall alert iff deficit < -10 |
| ScenarioSwitcher.HandleScenarioChange | agrisight/src/components/ScenarioSwitcher.tsx:15-83 | the one callback argument is exactly the NDVI, weather and financial records built from the scenario; it copies the scenario's ndvi, health, deficit and balance, a total of exactly max(0, 30 + deficit), hence non-negative, seven forecast days, and always the same three demo transactions, all negative |
| ScenarioSwitcher.AlertThreshold | agrisight/src/components/ScenarioSwitcher.tsx:53 | the alert is the low-rainfall text iff the deficit is below -10 |
| ScenarioSwitcher.ForecastSwitches | agrisight/src/components/ScenarioSwitcher.tsx:42-50 | seven days; days 3, 6, 7 dry; days 2 and 5 switch at -10 (0 / 1.2, 1.0 / 3.2), days 1 and 4 at -15 (0.5 / 2.5, 0 / 0.5) |
| ScenarioSwitcher.ForecastMonotone | agrisight/src/components/ScenarioSwitcher.tsx:43-47 | a drier scenario never has more rain on any day |
| WeatherCard.Render | agrisight/src/components/panels/WeatherCard.tsx:29-127 | loading iff the skeleton is shown; the card has one row per forecast day and carries the location, weekly total and deficit |
| WeatherCard.GetWeatherIcon | agrisight/src/components/panels/WeatherCard.tsx:13-27 | a code in the table shows its entry, any other code the fallback; the icon is never empty |
| WeatherCard.HasRainfallAlert | agrisight/src/components/panels/WeatherCard.tsx:53 | the banner is due iff the deficit is below -10, and then the deficit line is red with no '+' |
| WeatherCard.DeficitSign | agrisight/src/components/panels/WeatherCard.tsx:124 | '+' iff the deficit is positive; zero and shortfalls get no prefix |
| WeatherCard.DeficitColour | agrisight/src/components/panels/WeatherCard.tsx:123 | red iff the deficit is negative, otherwise green, zero included |
| WeatherCard.RenderDay | agrisight/src/components/panels/WeatherCard.tsx:84-106 | a row shows the day's mapped icon, date, condition and temperature, and a rain indicator iff its rain is positive, showing that amount |
| WeatherCard.IconLookup | agrisight/src/components/panels/WeatherCard.tsx:13-27 | the table's keys are the 18 listed codes; a listed code shows its entry, any other one the fallback; the icon is never empty |
| WeatherCard.BannerIffLowRainfall | agrisight/src/components/panels/WeatherCard.tsx:53-78 | the banner is shown iff the deficit is below -10, and then shows the record's alert |
| WeatherCard.DeficitFormatting | agrisight/src/components/panels/WeatherCard.tsx:123-124 | '+' iff the deficit is > 0 (zero unsigned); red iff < 0, green iff >= 0 |
| WeatherCard.RainIndicator | agrisight/src/components/panels/WeatherCard.tsx:84-106 | a row has a rain indicator, with that day's amount, iff the day's rain is > 0; its icon is the looked-up one |
| WeatherCard.LoadingIgnoresData | agrisight/src/components/panels/WeatherCard.tsx:30-51 | while loading the output does not depend on the data |
| RainfallPipeline.RainTotalSnoc | agrisight/src/app/api/weather/route.ts:36 | the reduce adds each day's rain once, in order |
| RainfallPipeline.RouteBannerMatchesAlert | agrisight/src/components/panels/WeatherCard.tsx:53-78 | on a live route record the panel's banner appears iff the route chose the low-rainfall alert, and shows that text |
| RainfallPipeline.ScenarioAlertMatchesRoute | agrisight/src/components/ScenarioSwitcher.tsx:53 | the switcher's alert is the route's alert rule applied to the scenario deficit |
| RainfallPipeline.ScenarioDeficitIdentity | agrisight/src/components/ScenarioSwitcher.tsx:38-52 | the route's identity total = deficit + 30 holds of a scenario record iff the deficit is >= -30 |
| RainfallPipeline.ScenarioForecastRain | agrisight/src/components/ScenarioSwitcher.tsx:42-50 | the seven synthetic days add up to 1.5, 4.0 or 7.4 mm depending on the deficit band |
| RainfallPipeline.ScenarioTotalMatchesForecastOnlyAt | agrisight/src/components/ScenarioSwitcher.tsx:38-51 | a scenario's weekly total equals the sum of its own forecast days iff the deficit is -28.5 |
| RainfallPipeline.ScenarioIconsKnown | agrisight/src/components/ScenarioSwitcher.tsx:43-49 | every synthetic icon code is in the panel's table, so the fallback icon is never shown |
| RainfallPipeline.ScenarioRainIndicators | agrisight/src/components/panels/WeatherCard.tsx:101-106 | on a scenario record the panel marks days 1 and 5 always, day 2 from -10 up, day 4 from -15 up, days 3, 6, 7 never |
| RainfallPipeline.ScenarioBannerMatchesAlert | agrisight/src/components/ScenarioSwitcher.tsx:53 | on a scenario record the banner appears iff the switcher's alert is the low-rainfall text |
| FarmInsights.ToLower | agrisight/src/components/FarmInsights.tsx:80 | lower-casing keeps the length and maps each ASCII letter to its lower case |
| FarmInsights.QuickTips | agrisight/src/components/FarmInsights.tsx:167-191 | at most four tips: soil testing iff ndvi < 0.4, irrigation iff moisture < 50, pest management iff the risk is 'high', and 'maintain practices' iff ndvi > 0.6 and moisture > 60 |
| FarmInsights.Capitalise | agrisight/src/components/FarmInsights.tsx:133 | the first character is upper-cased and the rest kept |
| FarmInsights.GetNdviStatus | agrisight/src/components/FarmInsights.tsx:60-65 | one of the four statuses: Excellent iff > 0.6, Poor iff <= 0.2 |
| FarmInsights.GetPestRiskColor | agrisight/src/components/FarmInsights.tsx:38-49 | one of the four badge classes, the gray default iff the risk is not low, medium or high |
| FarmInsights.SoilMoistureMessage | agrisight/src/components/FarmInsights.tsx:120-122 | one of the three messages, the irrigation advice iff moisture <= 40 |
| FarmInsights.Render | agrisight/src/components/FarmInsights.tsx:16-191 | absent props take 0.52, 65 and 'low'; the status follows the NDVI; the NDVI badge is always gray; the moisture message is the message for the defaulted moisture; the pest badge is the colour of the defaulted risk and its label the capitalised risk, so with no risk prop it is green and reads 'Low'; the tips follow the defaulted props |
| FarmInsights.NdviBands | agrisight/src/components/FarmInsights.tsx:60-65 | Excellent iff > 0.6, Good iff in (0.4, 0.6], Fair iff in (0.2, 0.4], Poor iff <= 0.2 |
| FarmInsights.NdviStatusMonotone | agrisight/src/components/FarmInsights.tsx:60-65 | a larger NDVI never yields a worse status |
| FarmInsights.PestRiskColours | agrisight/src/components/FarmInsights.tsx:38-49 | green iff 'low', yellow iff 'medium', red iff 'high', gray iff anything else |
| FarmInsights.NdviBadgeAlwaysGray | agrisight/src/components/FarmInsights.tsx:80 | the NDVI badge is always gray, since no lower-cased status is low, medium or high |
| FarmInsights.MoistureMessages | agrisight/src/components/FarmInsights.tsx:120-122 | optimal iff > 70, adequate iff in (40, 70], irrigation advice iff <= 40 |
| FarmInsights.TipConditions | agrisight/src/components/FarmInsights.tsx:168-186 | each tip appears iff its condition holds; soil testing and irrigation never appear with the excellent-conditions tip |
| FarmInsights.DefaultPanel | agrisight/src/components/FarmInsights.tsx:16-24 | with every prop absent: Good status, adequate moisture, green 'Low' pest badge, no tips |
| RecommendationRoute.NumberField | agrisight/src/app/api/recommendation/route.ts:10 | `typeof body.key === 'number'` holds iff the body is an object whose field is a number, and then gives that number |
| RecommendationRoute.Field | agrisight/src/app/api/recommendation/route.ts:10 | a field is present iff the body is an object that has the key, and then it is that member |
| RecommendationRoute.Valid | agrisight/src/app/api/recommendation/route.ts:10 | valid iff the body is an object whose ndvi, rainfallDeficit and balance fields all exist and are numbers |
| RecommendationRoute.GetArgTexts | agrisight/src/app/api/recommendation/route.ts:51-53 | each text is non-empty and is either the query's value or its default |
| RecommendationRoute.Dispatch | agrisight/src/app/api/recommendation/route.ts:22-33 | the engine is called once with the given arguments; its result is a 200 success, its exception a 500 |
| RecommendationRoute.Post | agrisight/src/app/api/recommendation/route.ts:4-45 | 400 with the fixed message iff a parsed, non-null body fails validation; the engine is called only on a valid body; status is 200, 400 or 500; success iff 200 |
| RecommendationRoute.Get | agrisight/src/app/api/recommendation/route.ts:48-73 | an unparsable URL is a 500 with no engine call; GET never answers 400 |
| RecommendationRoute.PostDispatchesValidBody | agrisight/src/app/api/recommendation/route.ts:22-33 | three numbers make one engine call with (ndvi, rainfallDeficit, balance) in that order, answered with its result |
| RecommendationRoute.PostRejectsNonNumber | agrisight/src/app/api/recommendation/route.ts:10-19 | a missing or non-number field gives the 400 and no engine call |
| RecommendationRoute.PostFailures | agrisight/src/app/api/recommendation/route.ts:34-44 | an unparsable or null body is a 500 without an engine call; on a valid body 500 iff the engine threw |
| RecommendationRoute.GetDefaults | agrisight/src/app/api/recommendation/route.ts:51-53 | a missing or empty parameter becomes 0.52, -12.5 or 1250.50; any other value is kept |
| RecommendationRoute.GetAlwaysDispatches | agrisight/src/app/api/recommendation/route.ts:50-61 | every parsed URL calls the engine once on the parsed texts; a returned result is a 200 |
| FinancialRoute.MapTransactions | agrisight/src/app/api/financial/route.ts:35-39 | min(3, n) transactions, each copying the purchase's date and description and negating its amount |
| FinancialRoute.ToTransaction | agrisight/src/app/api/financial/route.ts:35-39 | the date and description are copied and the amount is negated, so a positive purchase becomes a debit |
| FinancialRoute.LiveTransactions | agrisight/src/app/api/financial/route.ts:32-40 | at most three transactions; none when the purchases request is not ok; otherwise the leading purchases mapped in order |
| FinancialRoute.UsesLiveData | agrisight/src/app/api/financial/route.ts:16-40 | the live path is not taken without a key, when either request throws, when the account request is not ok, or when there is no first account |
| FinancialRoute.Nickname | agrisight/src/app/api/financial/route.ts:45 | the account's non-empty nickname, otherwise "Farm Savings Account" |
| FinancialRoute.Get | agrisight/src/app/api/financial/route.ts:4-86 | success iff the URL parses, with status 200 and the echoed customer id; failure is the fixed 500; the mock record whenever the live path is not taken |
| FinancialRoute.TransactionsArePrefix | agrisight/src/app/api/financial/route.ts:35-39 | at most three transactions, the first purchases in order; a positive purchase becomes a negative amount |
| FinancialRoute.TransactionsIgnoreTail | agrisight/src/app/api/financial/route.ts:35 | purchases after the third never change the transactions |
| FinancialRoute.LiveRecord | agrisight/src/app/api/financial/route.ts:32-55 | the live record takes the first account's id and balance, the nickname default and the echoed customer id; no transactions when the purchases request is not ok |
| FinancialRoute.MockFallback | agrisight/src/app/api/financial/route.ts:14-74 | without a key, an ok account list with a first account, or with a throwing purchases request, the answer is the mock record with the requested customer id |
| FarmMap.FarmMapView.constructor | agrisight/src/components/FarmMap.tsx:29 | nothing is selected at first |
| FarmMap.FarmMapView.ClickNode | agrisight/src/components/FarmMap.tsx:95 | the new selection is the toggle of the old one by the clicked farm's id |
| FarmMap.FarmMapView.CloseDetails | agrisight/src/components/FarmMap.tsx:223 | the close button clears the selection from any state |
| FarmMap.FarmMapView.DetailsPanel | agrisight/src/components/FarmMap.tsx:213-265 | the panel is rendered iff a farm is selected; it shows that farm's name, NDVI, area and its health's label and colour |
| FarmMap.HealthStatus | agrisight/src/components/FarmMap.tsx:22-26 | the fixed table: healthy gives OPTIMAL in #00FF41, moderate gives MODERATE in #FFB800, stressed gives CRITICAL in #FF3864 |
| FarmMap.AfterNodeClick | agrisight/src/components/FarmMap.tsx:95 | the selection is cleared iff the clicked farm has the selected farm's id; otherwise the clicked farm is selected |
| FarmMap.ClickToggles | agrisight/src/components/FarmMap.tsx:95 | clicking the selected farm's node clears the selection; with nothing or another farm selected it selects the clicked farm |
| FarmMap.DoubleClickDeselects | agrisight/src/components/FarmMap.tsx:95 | two clicks on one node from an empty selection end empty |
| FarmMap.DoubleClickForgetsOther | agrisight/src/components/FarmMap.tsx:95 | two clicks on one node with another farm selected end empty, not back at the other farm |
| FarmMap.FarmIdsDistinct | agrisight/src/components/FarmMap.tsx:14-20 | the five farms have distinct ids, so clicking another farm's node always selects it |
| FarmMap.HealthStatusDistinct | agrisight/src/components/FarmMap.tsx:22-26 | the three health classes have distinct labels and colours |
| RoadView.FindClosestIndex | PythonTesting/Main.py:77-85 | an empty list gives (0, inf); otherwise the index of a sample at minimal distance, before which every sample is strictly farther, with that distance |
| RoadView.ForwardFixedDistance | PythonTesting/Main.py:139-152 | IndexError iff the start is past the end; otherwise the consecutive indices from the start up to the first one whose walked distance reaches the lookahead, or to the last sample |
| RoadView.Walked | PythonTesting/Main.py:142-147 | the walk's `cum` is dist(p, p) at its start and never negative when distances are not |
| RoadView.TangentNeighbours | PythonTesting/Main.py:88-98 | defined iff idx < n and n >= 2; one-sided (0, 1) and (n-2, n-1) at the ends, (idx-1, idx+1) inside |
| RoadView.TangentAt | PythonTesting/Main.py:88-103 | the tangent exists iff the index and a second sample exist |
| RoadView.ForwardUntilTurn | PythonTesting/Main.py:115-136 | IndexError iff the start is past the end or there are fewer than two samples; otherwise the walk stops at the first index reaching the distance limit or turning after start+2; before start+3 only the limit or the end stops it |
| RoadView.TangentOfCoincidentNeighbours | PythonTesting/Main.py:99-102 | coinciding neighbours give the tangent (1, 0) |
| RoadView.WalkedMonotone | PythonTesting/Main.py:144-147 | with non-negative distances the walked distance never decreases along the walk |
| RoadView.Step | PythonTesting/Main.py:121-124 | the first step adds dist(p, p) for the start sample, each later one the distance from the previous sample; never negative when `dist` is not |
| RoadView.TurnAt | PythonTesting/Main.py:128-135 | after the start, a turn iff the absolute angle between the previous and the current tangent reaches the threshold; with a threshold of 0 or less every sample is a turn |
| RoadView.StartAddsNothing | PythonTesting/Main.py:143-147 | the start sample adds dist(p, p) = 0, so a positive lookahead never stops the walk at its start |
| RoadView.EdgePoints | PythonTesting/Main.py:182-188 | the left and right edge points lie either side of the sample, which is their midpoint |
| RoadView.EdgeAt | PythonTesting/Main.py:182-200 | a sample is skipped iff both edge points are behind the camera; otherwise it contributes the projections of both |
| RoadView.KeptEdges | PythonTesting/Main.py:181-200 | at most one edge pair per walked index |
| RoadView.AssemblePolygon | PythonTesting/Main.py:206-214 | length 2k + 2: the left points reversed, the two bottom points at y = screen_h under the nearest left and right x, then the right points |
| RoadView.BuildRoadPolygon | PythonTesting/Main.py:178-216 | IndexError iff some index is out of range, or some index is given while there are fewer than two samples; [] when every sample is behind the camera; otherwise the assembled polygon of the kept edges, with equally long left and right lists |
| RoadView.KeptEdgesAllInFront | PythonTesting/Main.py:193-200 | when no sample is entirely behind the camera every walked index keeps its edges |
| RoadView.Segments | PythonTesting/Main.py:47-52 | one segment per consecutive pair, plus the closing one for a closed polyline, each with its length |
| RoadView.TotalLength | PythonTesting/Main.py:46-52 | the total of no segments is 0; with non-negative lengths it is non-negative |
| RoadView.Lerp | PythonTesting/Main.py:37-38 | t = 0 gives the first point, t = 1 the second |
| RoadView.Locate | PythonTesting/Main.py:57-64 | no segments finds nothing; a ZeroDivisionError happens only on a segment of length 0 |
| RoadView.Emit | PythonTesting/Main.py:55-65 | nothing is emitted once the distance passes the window; at most one sample per remaining step |
| RoadView.Dedupe | PythonTesting/Main.py:67-72 | never longer than its input, and a non-empty input keeps its first sample |
| RoadView.SampledPolyline | PythonTesting/Main.py:41-74 | fewer than two points are returned unchanged; with a step above 1e-9 no ZeroDivisionError occurs |
| RoadView.EmitNeverFailsFromStep | PythonTesting/Main.py:55-65 | emission from the first step never fails when the step is above 1e-9 |
| RoadView.SuccIsModulo | PythonTesting/Main.py:49 | the successor index is `(i + 1) % len(points)` |
| RoadView.LocateSample | PythonTesting/Main.py:57-64 | the segment scan agrees with its specification, including ZeroDivisionError and the case where no segment is found |
| RoadView.BuildSegments | PythonTesting/Main.py:44-52 | the loop builds exactly the segments and their total length |
| RoadView.EmitSamples | PythonTesting/Main.py:55-65 | the emission loop produces exactly the specified interior samples, or ZeroDivisionError |
| RoadView.DedupeSamples | PythonTesting/Main.py:67-72 | the dedupe loop produces exactly the specified deduplicated list |
| RoadView.SamplePolyline | PythonTesting/Main.py:41-74 | fewer than two points are returned unchanged; otherwise the deduplicated first point, interior samples and last point |
| RoadView.DedupeProperties | PythonTesting/Main.py:67-72 | the dedupe keeps only input samples and leaves no two consecutive points within 1e-6 |
| RoadView.DedupeKeepsSeparated | PythonTesting/Main.py:67-72 | an already separated list passes unchanged |
| RoadView.DedupeIdempotent | PythonTesting/Main.py:67-72 | deduplicating twice is deduplicating once |
| RoadView.LocateNeverDivides | PythonTesting/Main.py:59-61 | a scan that starts more than 1e-9 short of the sample distance never divides by a zero length |
| RoadView.EmitNeverFails | PythonTesting/Main.py:55-65 | with a step above 1e-9 sampling never raises ZeroDivisionError |
| RoadView.SampledPolylineShape | PythonTesting/Main.py:41-74 | with the usual step, two or more points sample to a list that starts at the first point with no two consecutive samples within 1e-6 |
| RoadView.LocateMisses | PythonTesting/Main.py:56-64 | with non-negative lengths the scan finds no segment iff the distance is more than 1e-9 past the total length, so the last 1e-6 of the loop's window emits nothing |

## Left out

- The recommendation engine, `mockData` and the `utils` helpers are not
  part of this model. The engine and the mock records are parameters.
- `fetch`, `process.env`, `NextResponse` and `request.json()` are not
  modelled. Their outcomes are parameters (`Fetch`, `Option<string>`,
  `Request`, `PostRequest`), and only the branching on them is modelled.
- The `lat`/`lon` parameters and the provider URL of the weather route only
  feed the `fetch`, so they are left out.
- Timestamps, `toISOString`, `formatDate`, `toFixed` and `toLocaleString`
  are wall-clock or locale formatting. Dates arrive as strings.
- `Math.round` of the temperature is not modelled; the provider day takes
  an already rounded integer.
- `parseFloat` is a function parameter.
- Numbers are exact reals. NaN, Infinity, signed zero and floating-point
  rounding are not modelled. This covers `s += step` in the sampling loop,
  whose distances are exact multiples of the step here.
- WeatherRoute.DayRain: a provider rain value of NaN would also become 0
  in the source; the model has no NaN.
- WeatherCard.GetWeatherIcon: a code that names an `Object.prototype`
  property such as "constructor" would look up that property in the
  source. The model treats every code outside the table as missing.
- FarmInsights.ToLower: only ASCII letters are case-mapped. All the
  statuses are ASCII.
- FarmInsights.Capitalise: only an ASCII first letter is upper-cased; the
  risk levels the panel expects are ASCII.
- The `console.warn` and `console.error` logging in the three routes is
  output only and is not modelled.
- The display-only props of the insights panel are not modelled: area,
  last harvest, expected yield, and the fixed disease and weather risk
  badges. Neither is the commented-out health colour function.
- FarmMap's random pulse timer (`setInterval`, `Math.random`) is timing and
  randomness.
- React's asynchronous state updates are not modelled. A click takes
  effect at once.
- The scenario table `demoScenarios` is not part of this model. A scenario
  is a parameter.
- The `onScenarioChange` call is the handler's return value.
- The pygame main loop, event handling and drawing, `make_example_track`
  and `print(out)` are UI and I/O.
- The trigonometric and square-root geometry is the `Geometry` parameter:
  `dist`, `math.hypot`, `angle_between_deg`, `to_camera_frame` and
  `project_point` (including its `int()` truncation). `lerp` and the
  tangent's division by its length are modelled.
- RoadView.SamplePolyline requires a positive step. With a step of 0 or
  less the source's emission loop never ends, or, when the first segment
  has zero length, raises ZeroDivisionError on its first pass.
