/** The farm-insights panel: NDVI status bands, the badge colour for a risk
    level, the soil-moisture message and the quick recommendations, each a
    threshold rule over the panel's props. The rendered panel is modelled as
    an `InsightsView` value. */
module FarmInsights {
  import opened Http

  datatype NdviStatus = NdviStatus(status: string, colour: string)

  const EXCELLENT := NdviStatus("Excellent", "text-green-600")
  const GOOD := NdviStatus("Good", "text-yellow-600")
  const FAIR := NdviStatus("Fair", "text-orange-600")
  const POOR := NdviStatus("Poor", "text-red-600")

  const LOW_BADGE := "bg-green-100 text-green-800 border-green-200"
  const MEDIUM_BADGE := "bg-yellow-100 text-yellow-800 border-yellow-200"
  const HIGH_BADGE := "bg-red-100 text-red-800 border-red-200"
  const DEFAULT_BADGE := "bg-gray-100 text-gray-800 border-gray-200"

  const OPTIMAL_MOISTURE := "Optimal moisture levels"
  const ADEQUATE_MOISTURE := "Adequate moisture"
  const LOW_MOISTURE := "Low moisture - consider irrigation"

  datatype Tip = SoilTesting | Irrigation | PestManagement | MaintainPractices

  function GetNdviStatus(ndvi: real): (r: NdviStatus)
    ensures r in {EXCELLENT, GOOD, FAIR, POOR}
    ensures r == EXCELLENT <==> ndvi > 0.6
    ensures r == POOR <==> ndvi <= 0.2
  {
    if ndvi > 0.6 then EXCELLENT
    else if ndvi > 0.4 then GOOD
    else if ndvi > 0.2 then FAIR
    else POOR
  }

  /** Rank of a status, 3 for the best; used to compare statuses. */
  function Rank(s: NdviStatus): int
  {
    if s == EXCELLENT then 3 else if s == GOOD then 2 else if s == FAIR then 1 else 0
  }

  function GetPestRiskColor(risk: string): (c: string)
    ensures c in {LOW_BADGE, MEDIUM_BADGE, HIGH_BADGE, DEFAULT_BADGE}
    ensures c == DEFAULT_BADGE <==> risk !in {"low", "medium", "high"}
  {
    if risk == "low" then LOW_BADGE
    else if risk == "medium" then MEDIUM_BADGE
    else if risk == "high" then HIGH_BADGE
    else DEFAULT_BADGE
  }

  function LowerChar(c: char): char
  {
    if 'A' <= c <= 'Z' then (c as int + 32) as char else c
  }

  /** `toLowerCase()` on ASCII text (all the statuses are ASCII). */
  function ToLower(s: string): (r: string)
    ensures |r| == |s|
    ensures forall i :: 0 <= i < |s| ==> r[i] == LowerChar(s[i])
  {
    seq(|s|, i requires 0 <= i < |s| => LowerChar(s[i]))
  }

  function SoilMoistureMessage(moisture: real): (m: string)
    ensures m in {OPTIMAL_MOISTURE, ADEQUATE_MOISTURE, LOW_MOISTURE}
    ensures m == LOW_MOISTURE <==> moisture <= 40.0
  {
    if moisture > 70.0 then OPTIMAL_MOISTURE
    else if moisture > 40.0 then ADEQUATE_MOISTURE
    else LOW_MOISTURE
  }

  /** The quick recommendations, in the order the panel lists them. */
  function QuickTips(ndvi: real, moisture: real, pestRisk: string): (tips: seq<Tip>)
    ensures |tips| <= 4
    ensures SoilTesting in tips <==> ndvi < 0.4
    ensures Irrigation in tips <==> moisture < 50.0
    ensures PestManagement in tips <==> pestRisk == "high"
    ensures MaintainPractices in tips <==> ndvi > 0.6 && moisture > 60.0
  {
    (if ndvi < 0.4 then [SoilTesting] else [])
    + (if moisture < 50.0 then [Irrigation] else [])
    + (if pestRisk == "high" then [PestManagement] else [])
    + (if ndvi > 0.6 && moisture > 60.0 then [MaintainPractices] else [])
  }

  /** The optional props; `None` is an absent prop, which takes its default. */
  datatype Props = Props(ndvi: Option<real>, soilMoisture: Option<real>, pestRisk: Option<string>)

  datatype InsightsView = InsightsView(
    status: NdviStatus, ndviBadge: string, moistureMessage: string,
    pestBadge: string, pestLabel: string, tips: seq<Tip>)

  function OrElse<T>(o: Option<T>, dflt: T): T
  {
    if o.Some? then o.value else dflt
  }

  function UpperChar(c: char): char
  {
    if 'a' <= c <= 'z' then (c as int - 32) as char else c
  }

  /** `risk.charAt(0).toUpperCase() + risk.slice(1)`. */
  function Capitalise(s: string): (r: string)
    ensures |r| == |s|
    ensures s != [] ==> r[0] == UpperChar(s[0]) && r[1..] == s[1..]
  {
    if s == [] then "" else [UpperChar(s[0])] + s[1..]
  }

  /** The panel: an absent prop takes its default, the NDVI badge is always
      gray, and the pest badge and label follow the (defaulted) risk. */
  function Render(p: Props): (v: InsightsView)
    ensures v.status == GetNdviStatus(OrElse(p.ndvi, 0.52))
    ensures v.ndviBadge == DEFAULT_BADGE
    ensures p.pestRisk.None? ==> v.pestBadge == LOW_BADGE && v.pestLabel == "Low"
    ensures v.moistureMessage == SoilMoistureMessage(OrElse(p.soilMoisture, 65.0))
    ensures v.pestBadge == GetPestRiskColor(OrElse(p.pestRisk, "low"))
    ensures v.pestLabel == Capitalise(OrElse(p.pestRisk, "low"))
    ensures v.tips == QuickTips(OrElse(p.ndvi, 0.52), OrElse(p.soilMoisture, 65.0), OrElse(p.pestRisk, "low"))
  {
    NdviBadgeAlwaysGray(OrElse(p.ndvi, 0.52));
    assert Capitalise("low") == "Low";
    var ndvi := OrElse(p.ndvi, 0.52);
    var moisture := OrElse(p.soilMoisture, 65.0);
    var risk := OrElse(p.pestRisk, "low");
    var status := GetNdviStatus(ndvi);
    InsightsView(status, GetPestRiskColor(ToLower(status.status)), SoilMoistureMessage(moisture),
                 GetPestRiskColor(risk), Capitalise(risk), QuickTips(ndvi, moisture, risk))
  }

  // ---------------------------------------------------------------------
  // Properties of the panel

  /** The four NDVI bands; 0.6, 0.4 and 0.2 themselves fall into the lower band. */
  lemma NdviBands(ndvi: real)
    ensures GetNdviStatus(ndvi).status == "Excellent" <==> ndvi > 0.6
    ensures GetNdviStatus(ndvi).status == "Good" <==> 0.4 < ndvi <= 0.6
    ensures GetNdviStatus(ndvi).status == "Fair" <==> 0.2 < ndvi <= 0.4
    ensures GetNdviStatus(ndvi).status == "Poor" <==> ndvi <= 0.2
  {
  }

  /** A larger NDVI never yields a worse status. */
  lemma NdviStatusMonotone(a: real, b: real)
    requires a <= b
    ensures Rank(GetNdviStatus(a)) <= Rank(GetNdviStatus(b))
  {
  }

  /** low, medium and high get green, yellow and red; any other text gray. */
  lemma PestRiskColours(risk: string)
    ensures GetPestRiskColor(risk) == LOW_BADGE <==> risk == "low"
    ensures GetPestRiskColor(risk) == MEDIUM_BADGE <==> risk == "medium"
    ensures GetPestRiskColor(risk) == HIGH_BADGE <==> risk == "high"
    ensures GetPestRiskColor(risk) == DEFAULT_BADGE <==> risk !in {"low", "medium", "high"}
  {
  }

  /** The NDVI badge reuses the risk colouring on the lower-cased status, which
      is never low, medium or high: it is always gray. */
  lemma NdviBadgeAlwaysGray(ndvi: real)
    ensures GetPestRiskColor(ToLower(GetNdviStatus(ndvi).status)) == DEFAULT_BADGE
  {
    var s := GetNdviStatus(ndvi).status;
    var l := ToLower(s);
    assert l != "low" && l != "medium" && l != "high" by {
      if s == "Good" || s == "Fair" || s == "Poor" {
        assert l[0] != 'h' && |l| == 4;
      } else {
        assert |l| == 9;
      }
    }
  }

  lemma MoistureMessages(moisture: real)
    ensures SoilMoistureMessage(moisture) == OPTIMAL_MOISTURE <==> moisture > 70.0
    ensures SoilMoistureMessage(moisture) == ADEQUATE_MOISTURE <==> 40.0 < moisture <= 70.0
    ensures SoilMoistureMessage(moisture) == LOW_MOISTURE <==> moisture <= 40.0
  {
  }

  /** Each tip's condition, and the pairs of tips that can never appear together. */
  lemma TipConditions(ndvi: real, moisture: real, risk: string)
    ensures SoilTesting in QuickTips(ndvi, moisture, risk) <==> ndvi < 0.4
    ensures Irrigation in QuickTips(ndvi, moisture, risk) <==> moisture < 50.0
    ensures PestManagement in QuickTips(ndvi, moisture, risk) <==> risk == "high"
    ensures MaintainPractices in QuickTips(ndvi, moisture, risk) <==> ndvi > 0.6 && moisture > 60.0
    ensures !(SoilTesting in QuickTips(ndvi, moisture, risk) && MaintainPractices in QuickTips(ndvi, moisture, risk))
    ensures !(Irrigation in QuickTips(ndvi, moisture, risk) && MaintainPractices in QuickTips(ndvi, moisture, risk))
  {
  }

  /** With all props absent the panel shows the defaults 0.52, 65 and 'low':
      a Good status, adequate moisture, a green pest badge and no tips. */
  lemma DefaultPanel()
    ensures Render(Props(None, None, None)).status == GOOD
    ensures Render(Props(None, None, None)).moistureMessage == ADEQUATE_MOISTURE
    ensures Render(Props(None, None, None)).pestBadge == LOW_BADGE
    ensures Render(Props(None, None, None)).pestLabel == "Low"
    ensures Render(Props(None, None, None)).tips == []
  {
    assert Capitalise("low") == "Low";
  }
}
