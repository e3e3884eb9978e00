/**
 * The pollutant concentrations an air-pollution response carries
 * (`components`), as an open mapping from pollutant key to value.
 */
module Pollutants {

  /** Concentrations in µg/m³, keyed as the provider keys them ("pm2_5", "pm10", "o3", ...). */
  type Components = map<string, real>

  /**
   * `components[key] || 0`: an absent key reads as 0 (a present 0 is 0 as well,
   * so JavaScript's falsy fallback changes nothing else).
   */
  function Concentration(components: Components, key: string): (v: real)
    ensures key !in components ==> v == 0.0
    ensures key in components ==> v == components[key]
  {
    if key in components then components[key] else 0.0
  }
}
