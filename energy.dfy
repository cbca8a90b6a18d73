/** The solar-energy estimate attached to each forecast day. */
module Energy {

  /** Nominal panel power, in kW. */
  const PanelPowerKw: real := 2.5
  /** Overall system efficiency. */
  const SystemEfficiency: real := 0.2
  const SecondsPerHour: real := 3600.0

  /**
   * Estimated kWh for a day with `sunshineSec` seconds of sunshine: panel
   * power times sunshine hours times efficiency, i.e. half a kWh per hour.
   * No bound is placed on the input.
   */
  function CalculateEnergy(sunshineSec: real): (kwh: real)
    ensures kwh == sunshineSec / 7200.0
    ensures kwh * 2.0 == sunshineSec / SecondsPerHour
  {
    PanelPowerKw * (sunshineSec / SecondsPerHour) * SystemEfficiency
  }

  lemma EnergyExamples()
    ensures CalculateEnergy(0.0) == 0.0
    ensures CalculateEnergy(3600.0) == 0.5
    ensures CalculateEnergy(86400.0) == 12.0
  {
  }

  /** More sunshine never gives less energy, and no sunshine gives none. */
  lemma EnergyMonotone(a: real, b: real)
    requires a <= b
    ensures CalculateEnergy(a) <= CalculateEnergy(b)
    ensures a >= 0.0 ==> CalculateEnergy(a) >= 0.0
  {
  }
}
