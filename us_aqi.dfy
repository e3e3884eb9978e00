/**
 * Conversion of a PM2.5 concentration to the US AQI scale (server.js,
 * convertToUSAQI). The conversion is a six-band piecewise-linear curve that
 * approximates the PM2.5 breakpoints of the US EPA Air Quality Index
 * (40 CFR Part 58, Appendix G, Table 2) with the appendix's interpolation
 * equation, simplified: the bands are contiguous, the concentration is not
 * truncated, and the two top EPA bands are merged into one from 250.4 to 400.
 */
module UsAqi {
  import opened JsMath
  import opened Pollutants

  /** Concentration breakpoints (µg/m³) at the edges of the six bands. */
  const CONC_BREAKS: seq<real> := [0.0, 12.0, 35.4, 55.4, 150.4, 250.4, 400.0]

  /** The index value at each concentration breakpoint. */
  const INDEX_BREAKS: seq<int> := [0, 50, 100, 150, 200, 300, 500]

  /** The largest slope of the curve, that of the first band (50 index points per 12 µg/m³). */
  const MAX_SLOPE: real := 50.0 / 12.0

  /**
   * The EPA equation Ip = (IHi - ILo) / (BPHi - BPLo) * (Cp - BPLo) + ILo on
   * band k (1 to 6) of the table above.
   */
  function Interpolate(k: nat, cp: real): real
    requires 1 <= k <= 6
  {
    var bpLo, bpHi := CONC_BREAKS[k - 1], CONC_BREAKS[k];
    var iLo, iHi := INDEX_BREAKS[k - 1] as real, INDEX_BREAKS[k] as real;
    (iHi - iLo) / (bpHi - bpLo) * (cp - bpLo) + iLo
  }

  /** The band (1 to 6) whose formula the if-chain applies to a concentration. */
  function Band(pm25: real): (k: nat)
    ensures 1 <= k <= 6
    ensures k == 1 <==> pm25 <= CONC_BREAKS[1]
    ensures 1 < k < 6 ==> CONC_BREAKS[k - 1] < pm25 <= CONC_BREAKS[k]
    ensures k == 6 <==> CONC_BREAKS[5] < pm25
  {
    if pm25 <= 12.0 then 1
    else if pm25 <= 35.4 then 2
    else if pm25 <= 55.4 then 3
    else if pm25 <= 150.4 then 4
    else if pm25 <= 250.4 then 5
    else 6
  }

  /** The curve before Math.round, with the source's own constants. */
  function Unrounded(pm25: real): (aqi: real)
    ensures 0.0 <= pm25 <= 400.0 ==> 0.0 <= aqi <= 500.0
    ensures 400.0 < pm25 ==> 500.0 < aqi
  {
    if pm25 <= 12.0 then (pm25 / 12.0) * 50.0
    else if pm25 <= 35.4 then 50.0 + ((pm25 - 12.0) / 23.4) * 50.0
    else if pm25 <= 55.4 then 100.0 + ((pm25 - 35.4) / 20.0) * 50.0
    else if pm25 <= 150.4 then 150.0 + ((pm25 - 55.4) / 95.0) * 50.0
    else if pm25 <= 250.4 then 200.0 + ((pm25 - 150.4) / 100.0) * 100.0
    else 300.0 + ((pm25 - 250.4) / 149.6) * 200.0
  }

  /**
   * convertToUSAQI(owmAQI, components). Only `components.pm2_5` (absent
   * read as 0) is used; the provider index and pm10 play no part.
   */
  function ConvertToUSAQI(owmAqi: int, components: Components): (aqi: int)
    ensures Concentration(components, "pm2_5") == 0.0 ==> aqi == 0
    ensures 0.0 <= Concentration(components, "pm2_5") <= 400.0 ==> 0 <= aqi <= 500
    ensures 400.0 < Concentration(components, "pm2_5") ==> 500 <= aqi
  {
    Round(Unrounded(Concentration(components, "pm2_5")))
  }

  /** The source's formulas are the EPA equation on the band the if-chain picks. */
  lemma UnroundedIsInterpolation(pm25: real)
    ensures Unrounded(pm25) == Interpolate(Band(pm25), pm25)
  {
  }

  /** Each band maps its concentration range into its index range. */
  lemma BandRange(k: nat, pm25: real)
    requires 1 <= k <= 6
    requires if k == 1 then 0.0 <= pm25 <= CONC_BREAKS[1] else CONC_BREAKS[k - 1] < pm25 <= CONC_BREAKS[k]
    ensures Band(pm25) == k
    ensures k == 1 ==> 0.0 <= Unrounded(pm25) <= 50.0
    ensures k > 1 ==> INDEX_BREAKS[k - 1] as real < Unrounded(pm25) <= INDEX_BREAKS[k] as real
    ensures INDEX_BREAKS[k - 1] <= ConvertToUSAQI(0, map["pm2_5" := pm25]) <= INDEX_BREAKS[k]
  {
  }

  /** Adjacent band formulas agree at each inner breakpoint, on the breakpoint's index value. */
  lemma BreakpointsAgree(k: nat)
    requires 1 <= k <= 5
    ensures Interpolate(k, CONC_BREAKS[k]) == INDEX_BREAKS[k] as real
    ensures Interpolate(k + 1, CONC_BREAKS[k]) == INDEX_BREAKS[k] as real
    ensures Unrounded(CONC_BREAKS[k]) == INDEX_BREAKS[k] as real
  {
  }

  /**
   * The curve is increasing and continuous: between any two concentrations
   * it rises by at least 0 and at most MAX_SLOPE times their distance.
   */
  lemma UnroundedLipschitz(p: real, q: real)
    requires p <= q
    ensures 0.0 <= Unrounded(q) - Unrounded(p) <= MAX_SLOPE * (q - p)
  {
  }

  /** The curve is strictly increasing. */
  lemma UnroundedStrictlyIncreasing(p: real, q: real)
    requires p < q
    ensures Unrounded(p) < Unrounded(q)
  {
  }

  /** The rounded index is non-decreasing in pm2_5. */
  lemma ConvertMonotone(c1: Components, c2: Components)
    requires Concentration(c1, "pm2_5") <= Concentration(c2, "pm2_5")
    ensures ConvertToUSAQI(0, c1) <= ConvertToUSAQI(0, c2)
  {
    UnroundedLipschitz(Concentration(c1, "pm2_5"), Concentration(c2, "pm2_5"));
    RoundMonotone(Unrounded(Concentration(c1, "pm2_5")), Unrounded(Concentration(c2, "pm2_5")));
  }

  /** The result depends on pm2_5 alone: the provider index and every other pollutant are ignored. */
  lemma ConvertDependsOnlyOnPm25(owm1: int, c1: Components, owm2: int, c2: Components)
    requires Concentration(c1, "pm2_5") == Concentration(c2, "pm2_5")
    ensures ConvertToUSAQI(owm1, c1) == ConvertToUSAQI(owm2, c2)
  {
  }

  /** Boundary values of the rounded index. */
  lemma ConvertBreakpoints()
    ensures ConvertToUSAQI(0, map[]) == 0
    ensures ConvertToUSAQI(0, map["pm2_5" := 12.0]) == 50
    ensures ConvertToUSAQI(0, map["pm2_5" := 35.4]) == 100
    ensures ConvertToUSAQI(0, map["pm2_5" := 55.4]) == 150
    ensures ConvertToUSAQI(0, map["pm2_5" := 150.4]) == 200
    ensures ConvertToUSAQI(0, map["pm2_5" := 250.4]) == 300
    ensures ConvertToUSAQI(0, map["pm2_5" := 400.0]) == 500
  {
  }
}
