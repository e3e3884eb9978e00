/**
 * The cigarette equivalent of a PM2.5 exposure (server.js,
 * calculateCigaretteEquivalent): 22 µg/m³ breathed for 24 hours counts as
 * one cigarette.
 */
module Cigarettes {
  import opened Wrappers
  import opened JsMath

  /** Concentration (µg/m³) that, over a day, equals one cigarette. */
  const PM25_PER_CIGARETTE: real := 22.0

  /** The default exposure, a whole day, in hours. */
  const DEFAULT_HOURS: real := 24.0

  /**
   * calculateCigaretteEquivalent(pm25, hoursExposed): 0 for an absent, zero
   * or negative concentration, otherwise the rounded (pm25 / 22) * (hours / 24).
   */
  function CigaretteEquivalent(pm25: Option<real>, hoursExposed: real): (n: int)
    ensures pm25.None? || pm25.value <= 0.0 ==> n == 0
    ensures hoursExposed >= 0.0 ==> n >= 0
    ensures pm25.Some? && pm25.value > 0.0 ==>
      var exact := (pm25.value / PM25_PER_CIGARETTE) * (hoursExposed / DEFAULT_HOURS);
      n as real - 0.5 <= exact < n as real + 0.5
  {
    if pm25.None? || pm25.value <= 0.0 then 0
    else Round((pm25.value / 22.0) * (hoursExposed / 24.0))
  }

  /** With the default exposure of 24 hours the count is round(pm25 / 22). */
  lemma DefaultExposure(pm25: real)
    requires pm25 > 0.0
    ensures CigaretteEquivalent(Some(pm25), DEFAULT_HOURS) == Round(pm25 / PM25_PER_CIGARETTE)
  {
  }

  /** 25 µg/m³ is one cigarette a day and 44 µg/m³ is two. */
  lemma Examples()
    ensures CigaretteEquivalent(Some(25.0), DEFAULT_HOURS) == 1
    ensures CigaretteEquivalent(Some(44.0), DEFAULT_HOURS) == 2
    ensures CigaretteEquivalent(Some(0.0), DEFAULT_HOURS) == 0
    ensures CigaretteEquivalent(None, DEFAULT_HOURS) == 0
  {
  }

  /** For a non-negative exposure, the count is non-decreasing in the concentration. */
  lemma {:induction false} Monotone(p: real, q: real, hoursExposed: real)
    requires p <= q
    requires hoursExposed >= 0.0
    ensures CigaretteEquivalent(Some(p), hoursExposed) <= CigaretteEquivalent(Some(q), hoursExposed)
  {
    if p > 0.0 {
      var h := hoursExposed / 24.0;
      assert (p / 22.0) * h <= (q / 22.0) * h by {
        assert p / 22.0 <= q / 22.0;
        assert h >= 0.0;
      }
      RoundMonotone((p / 22.0) * h, (q / 22.0) * h);
    }
  }

  /** An absent concentration never counts for more than a present one. */
  lemma AbsentIsLeast(q: real, hoursExposed: real)
    requires hoursExposed >= 0.0
    ensures CigaretteEquivalent(None, hoursExposed) <= CigaretteEquivalent(Some(q), hoursExposed)
  {
  }
}
