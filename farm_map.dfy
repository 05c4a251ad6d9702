/** The farm map: five fixed farm nodes coloured by health, and a details
    panel for the selected farm. Clicking a node toggles the selection,
    comparing farms by id; the panel's close button clears it. The React
    state `selectedFarm` is the field `selected` of a `FarmMapView` object. */
module FarmMap {
  import opened Http
  import opened Types

  datatype Farm = Farm(id: string, name: string, ndvi: real, health: Health, area: real, x: int, y: int)

  const FARMS: seq<Farm> := [
    Farm("1", "ABY-01", 0.52, Moderate, 45.0, 25, 30),
    Farm("2", "BAY-02", 0.72, Healthy, 62.0, 55, 45),
    Farm("3", "CED-03", 0.38, Stressed, 38.0, 35, 60),
    Farm("4", "DEL-04", 0.68, Healthy, 51.0, 65, 25),
    Farm("5", "ECH-05", 0.45, Moderate, 43.0, 45, 50)
  ]

  datatype StatusStyle = StatusStyle(colour: string, statusLabel: string)

  /** The `healthStatus` table. */
  function HealthStatus(h: Health): (st: StatusStyle)
    ensures st.statusLabel in {"OPTIMAL", "MODERATE", "CRITICAL"}
    ensures st.statusLabel == "CRITICAL" <==> h == Stressed
    ensures st.statusLabel == "OPTIMAL" <==> h == Healthy
    ensures h == Healthy ==> st == StatusStyle("#00FF41", "OPTIMAL")
    ensures h == Moderate ==> st == StatusStyle("#FFB800", "MODERATE")
    ensures h == Stressed ==> st == StatusStyle("#FF3864", "CRITICAL")
  {
    match h
    case Healthy => StatusStyle("#00FF41", "OPTIMAL")
    case Moderate => StatusStyle("#FFB800", "MODERATE")
    case Stressed => StatusStyle("#FF3864", "CRITICAL")
  }

  /** The node click handler: `selectedFarm?.id === farm.id ? null : farm`. */
  function AfterNodeClick(selected: Option<Farm>, farm: Farm): (next: Option<Farm>)
    ensures next.None? <==> selected.Some? && selected.value.id == farm.id
    ensures next.Some? ==> next.value == farm
  {
    if selected.Some? && selected.value.id == farm.id then None else Some(farm)
  }

  /** What the details panel shows: name, NDVI, status label and colour, area. */
  datatype Details = Details(name: string, ndvi: real, statusLabel: string, colour: string, area: real)

  class FarmMapView {
    var selected: Option<Farm>

    constructor ()
      ensures selected == None
    {
      selected := None;
    }

    method ClickNode(farm: Farm)
      modifies this
      ensures selected == AfterNodeClick(old(selected), farm)
    {
      selected := AfterNodeClick(selected, farm);
    }

    method CloseDetails()
      modifies this
      ensures selected == None
    {
      selected := None;
    }

    /** The details panel, rendered exactly when a farm is selected. */
    function DetailsPanel(): (d: Option<Details>)
      reads this
      ensures d.Some? <==> selected.Some?
      ensures d.Some? ==> d.value.name == selected.value.name
                          && d.value.statusLabel == HealthStatus(selected.value.health).statusLabel
                          && d.value.colour == HealthStatus(selected.value.health).colour
                          && d.value.ndvi == selected.value.ndvi && d.value.area == selected.value.area
    {
      match selected
      case None => None
      case Some(f) => Some(Details(f.name, f.ndvi, HealthStatus(f.health).statusLabel, HealthStatus(f.health).colour, f.area))
    }
  }

  // ---------------------------------------------------------------------
  // Properties of the selection

  /** Clicking the selected farm's node clears the selection; clicking any
      node with nothing or another farm selected selects that node's farm. */
  lemma ClickToggles(selected: Option<Farm>, farm: Farm)
    ensures selected.Some? && selected.value.id == farm.id ==> AfterNodeClick(selected, farm) == None
    ensures (selected.None? || selected.value.id != farm.id) ==> AfterNodeClick(selected, farm) == Some(farm)
  {
  }

  /** Two clicks on one node from an empty selection return to it. */
  lemma DoubleClickDeselects(farm: Farm)
    ensures AfterNodeClick(AfterNodeClick(None, farm), farm) == None
  {
  }

  /** Two clicks on one node with another farm selected do not restore it:
      the selection ends empty. */
  lemma DoubleClickForgetsOther(other: Farm, farm: Farm)
    requires other.id != farm.id
    ensures AfterNodeClick(AfterNodeClick(Some(other), farm), farm) == None
  {
  }

  /** The five farms have distinct ids, so on the map a click clears the
      selection only when it hits the selected node itself. */
  lemma FarmIdsDistinct(i: nat, j: nat)
    requires i < |FARMS| && j < |FARMS| && i != j
    ensures FARMS[i].id != FARMS[j].id
    ensures AfterNodeClick(Some(FARMS[i]), FARMS[j]) == Some(FARMS[j])
  {
  }

  /** The three health classes get three distinct labels and colours. */
  lemma HealthStatusDistinct(a: Health, b: Health)
    requires a != b
    ensures HealthStatus(a).statusLabel != HealthStatus(b).statusLabel
    ensures HealthStatus(a).colour != HealthStatus(b).colour
  {
  }
}
