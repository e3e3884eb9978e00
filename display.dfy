/**
 * The values the results page shows for one response (public/app.js,
 * updateUI): the current and daily-average cards and the six pollutant
 * readings, with the page's fallbacks for a missing daily average and for
 * missing pollutants. Writing them into the page is not modelled.
 */
module Display {
  import opened Wrappers
  import opened Pollutants
  import opened AqiCategory

  /** The part of the `/api/aqi/:city` response body the page reads. */
  datatype Response = Response(city: string, currentAqi: int, dailyAverage: Option<int>, components: Option<Components>)

  /** What one update puts on the page. */
  datatype Panel = Panel(
    city: string,
    currentValue: int, currentStyle: Style,
    dailyValue: int, dailyStyle: Style,
    pollutants: seq<real>)

  /** The pollutant keys shown, in display order. */
  const SHOWN_POLLUTANTS: seq<string> := ["pm2_5", "pm10", "o3", "no2", "so2", "co"]

  /** JavaScript truthiness of a nullable number: null and 0 are falsy. */
  predicate Truthy(n: Option<int>)
    ensures n.None? ==> !Truthy(n)
    ensures n == Some(0) ==> !Truthy(n)
    ensures Truthy(n) ==> n.Some?
  {
    n.Some? && n.value != 0
  }

  /** `data.dailyAverage || currentAQI`: a null or zero average falls back to the current AQI. */
  function DailyValue(data: Response): (v: int)
    ensures Truthy(data.dailyAverage) ==> v == data.dailyAverage.value
    ensures !Truthy(data.dailyAverage) ==> v == data.currentAqi
  {
    if Truthy(data.dailyAverage) then data.dailyAverage.value else data.currentAqi
  }

  /** `(data.components || {})[key] || 0`: a missing pollutant, or a missing object, shows as 0. */
  function ShownComponent(data: Response, key: string): (v: real)
    ensures data.components.None? ==> v == 0.0
    ensures data.components.Some? && key !in data.components.value ==> v == 0.0
    ensures data.components.Some? && key in data.components.value ==> v == data.components.value[key]
  {
    Concentration(if data.components.Some? then data.components.value else map[], key)
  }

  /** The six pollutant readings, in display order. */
  function ShownComponents(data: Response): (vs: seq<real>)
    ensures |vs| == |SHOWN_POLLUTANTS|
    ensures forall i :: 0 <= i < |vs| ==> vs[i] == ShownComponent(data, SHOWN_POLLUTANTS[i])
  {
    seq(|SHOWN_POLLUTANTS|, i requires 0 <= i < |SHOWN_POLLUTANTS| => ShownComponent(data, SHOWN_POLLUTANTS[i]))
  }

  /** The values updateUI writes for a response. */
  function Render(data: Response): (p: Panel)
    ensures p.currentStyle.labelText == CategoryOf(data.currentAqi).Label()
    ensures p.dailyStyle.labelText == CategoryOf(p.dailyValue).Label()
    ensures |p.pollutants| == 6
    ensures p.city == data.city
    ensures p.currentValue == data.currentAqi && p.currentStyle == GetAQIColor(data.currentAqi)
    ensures p.dailyValue == DailyValue(data) && p.dailyStyle == GetAQIColor(p.dailyValue)
    ensures p.pollutants == ShownComponents(data)
  {
    var daily := DailyValue(data);
    Panel(data.city, data.currentAqi, GetAQIColor(data.currentAqi), daily, GetAQIColor(daily), ShownComponents(data))
  }

  /** With no usable daily average, the daily card repeats the current card. */
  lemma DailyCardFallsBack(data: Response)
    requires !Truthy(data.dailyAverage)
    ensures Render(data).dailyValue == Render(data).currentValue
    ensures Render(data).dailyStyle == Render(data).currentStyle
  {
  }

  /** A response without pollutant data shows all six readings as 0. */
  lemma NoComponentsShowsZeros(data: Response)
    requires data.components.None?
    ensures forall i :: 0 <= i < |Render(data).pollutants| ==> Render(data).pollutants[i] == 0.0
  {
  }
}
