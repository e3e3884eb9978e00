/**
 * The EPA category of an AQI value and the card style the page shows for it
 * (public/app.js, getAQIColor).
 */
module AqiCategory {

  /** The six EPA categories, from best to worst. */
  datatype Category = Good | Moderate | UnhealthyForSensitiveGroups | Unhealthy | VeryUnhealthy | Hazardous
  {
    /** Position of the category, 0 (Good) to 5 (Hazardous). */
    function Index(): (i: nat)
      ensures i <= 5
    {
      match this
      case Good => 0
      case Moderate => 1
      case UnhealthyForSensitiveGroups => 2
      case Unhealthy => 3
      case VeryUnhealthy => 4
      case Hazardous => 5
    }

    /** The label shown for the category. */
    function Label(): string
    {
      match this
      case Good => "Good"
      case Moderate => "Moderate"
      case UnhealthyForSensitiveGroups => "Unhealthy for Sensitive Groups"
      case Unhealthy => "Unhealthy"
      case VeryUnhealthy => "Very Unhealthy"
      case Hazardous => "Hazardous"
    }

    /** The background colour class of the category's card. */
    function Background(): string
    {
      match this
      case Good => "bg-green-500"
      case Moderate => "bg-yellow-500"
      case UnhealthyForSensitiveGroups => "bg-orange-500"
      case Unhealthy => "bg-red-500"
      case VeryUnhealthy => "bg-purple-500"
      case Hazardous => "bg-red-800"
    }

    /** The health description shown under the label. */
    function Description(): string
    {
      DESCRIPTIONS[Index()]
    }
  }

  /** The health descriptions of the six categories, in category order. */
  const DESCRIPTIONS: seq<string> := [
    "Air quality is satisfactory, and air pollution poses little or no risk.",
    "Air quality is acceptable. However, there may be a risk for some people.",
    "Members of sensitive groups may experience health effects.",
    "Some members of the general public may experience health effects.",
    "Health alert: The risk of health effects is increased for everyone.",
    "Health warning of emergency conditions: everyone is more likely to be affected."
  ]

  /** The record getAQIColor returns: background class, text class, label (`labelText`, as `label` is a Dafny keyword) and description. */
  datatype Style = Style(bg: string, text: string, labelText: string, description: string)

  /** Inclusive upper AQI bounds of the first five categories; above the last is Hazardous. */
  const UPPER_BOUNDS: seq<int> := [50, 100, 150, 200, 300]

  /** Category k (0 to 5) covers (UPPER_BOUNDS[k - 1], UPPER_BOUNDS[k]], unbounded at both ends. */
  predicate InBand(k: nat, aqi: int)
    requires k <= 5
  {
    (k == 0 || UPPER_BOUNDS[k - 1] < aqi) && (k == 5 || aqi <= UPPER_BOUNDS[k])
  }

  /** Number of bounds in `bounds` strictly below `aqi`: an independent way to find the category index. */
  function CountBelow(bounds: seq<int>, aqi: int): (n: nat)
    ensures n <= |bounds|
  {
    if bounds == [] then 0
    else (if bounds[0] < aqi then 1 else 0) + CountBelow(bounds[1..], aqi)
  }

  /** The if-chain of getAQIColor, first test that holds wins. */
  function CategoryOf(aqi: int): (c: Category)
    ensures InBand(c.Index(), aqi)
  {
    if aqi <= 50 then Good
    else if aqi <= 100 then Moderate
    else if aqi <= 150 then UnhealthyForSensitiveGroups
    else if aqi <= 200 then Unhealthy
    else if aqi <= 300 then VeryUnhealthy
    else Hazardous
  }

  /** getAQIColor(aqi): every value gets exactly one of the six labels, by band. */
  function GetAQIColor(aqi: int): (s: Style)
    ensures s.text == "text-white"
    ensures s.labelText == "Good" <==> aqi <= 50
    ensures s.labelText == "Moderate" <==> 50 < aqi <= 100
    ensures s.labelText == "Unhealthy for Sensitive Groups" <==> 100 < aqi <= 150
    ensures s.labelText == "Unhealthy" <==> 150 < aqi <= 200
    ensures s.labelText == "Very Unhealthy" <==> 200 < aqi <= 300
    ensures s.labelText == "Hazardous" <==> 300 < aqi
  {
    var c := CategoryOf(aqi);
    LabelIs(c);
    Style(c.Background(), "text-white", c.Label(), c.Description())
  }

  /** An AQI value lies in exactly one band: the one of its category. */
  lemma BandUnique(k: nat, aqi: int)
    requires k <= 5
    requires InBand(k, aqi)
    ensures k == CategoryOf(aqi).Index()
  {
  }

  /** The category index is the number of category upper bounds the value exceeds. */
  lemma CategoryCountsBounds(aqi: int)
    ensures CategoryOf(aqi).Index() == CountBelow(UPPER_BOUNDS, aqi)
  {
    var b := UPPER_BOUNDS;
    assert b[1..] == [100, 150, 200, 300];
    assert b[1..][1..] == [150, 200, 300];
    assert b[1..][1..][1..] == [200, 300];
    assert b[1..][1..][1..][1..] == [300];
    assert CountBelow([300], aqi) == if 300 < aqi then 1 else 0 by {
      assert [300][1..] == [];
    }
    assert CountBelow([150, 200, 300], aqi)
      == (if 150 < aqi then 1 else 0) + (if 200 < aqi then 1 else 0) + CountBelow([300], aqi);
  }

  /** The category is monotone in the AQI value. */
  lemma CategoryMonotone(a: int, b: int)
    requires a <= b
    ensures CategoryOf(a).Index() <= CategoryOf(b).Index()
  {
  }

  /** Different categories have different labels, so the label identifies the category. */
  lemma LabelsDistinct(c: Category, d: Category)
    requires c.Label() == d.Label()
    ensures c == d
  {
  }

  /** Each of the six label strings names exactly one category. */
  lemma LabelIs(c: Category)
    ensures c.Label() == "Good" <==> c == Good
    ensures c.Label() == "Moderate" <==> c == Moderate
    ensures c.Label() == "Unhealthy for Sensitive Groups" <==> c == UnhealthyForSensitiveGroups
    ensures c.Label() == "Unhealthy" <==> c == Unhealthy
    ensures c.Label() == "Very Unhealthy" <==> c == VeryUnhealthy
    ensures c.Label() == "Hazardous" <==> c == Hazardous
  {
    if c.Label() == "Good" { LabelsDistinct(c, Good); }
    if c.Label() == "Moderate" { LabelsDistinct(c, Moderate); }
    if c.Label() == "Unhealthy for Sensitive Groups" { LabelsDistinct(c, UnhealthyForSensitiveGroups); }
    if c.Label() == "Unhealthy" { LabelsDistinct(c, Unhealthy); }
    if c.Label() == "Very Unhealthy" { LabelsDistinct(c, VeryUnhealthy); }
    if c.Label() == "Hazardous" { LabelsDistinct(c, Hazardous); }
  }

  /** Boundary values on either side of the first and last bound. */
  lemma Boundaries()
    ensures GetAQIColor(50).labelText == "Good"
    ensures GetAQIColor(51).labelText == "Moderate"
    ensures GetAQIColor(100).labelText == "Moderate"
    ensures GetAQIColor(150).labelText == "Unhealthy for Sensitive Groups"
    ensures GetAQIColor(200).labelText == "Unhealthy"
    ensures GetAQIColor(300).labelText == "Very Unhealthy"
    ensures GetAQIColor(301).labelText == "Hazardous"
  {
  }
}
