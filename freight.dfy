/** The default freight estimate used to seed each option's freight figure. */
module FreightEstimate {

  /** Freight per kilogram by air. */
  const AIR_RATE_PER_KG: real := 8.5
  /** Freight per kilogram by any other mode (ocean). */
  const OCEAN_RATE_PER_KG: real := 0.5

  /** Baseline freight for a shipment weight: only the exact mode "Air" is
      charged the air rate; every other mode is charged the ocean rate. */
  function EstimateFreight(weight: real, mode: string): (r: real)
    ensures weight >= 0.0 ==> 0.0 <= weight * OCEAN_RATE_PER_KG <= r <= weight * AIR_RATE_PER_KG
  {
    if mode == "Air" then weight * AIR_RATE_PER_KG else weight * OCEAN_RATE_PER_KG
  }

  /** The per-mode rates: 8.50 per kilogram by air, 0.50 by every other mode. */
  lemma FreightRates(weight: real, mode: string)
    ensures EstimateFreight(weight, "Air") == 8.5 * weight
    ensures mode != "Air" ==> EstimateFreight(weight, mode) == 0.5 * weight
  {
  }

  /** Air freight is seventeen times ocean freight for the same weight, so,
      for a non-negative weight, never cheaper. */
  lemma AirSeventeenTimesOcean(weight: real, mode: string)
    requires mode != "Air"
    ensures EstimateFreight(weight, "Air") == 17.0 * EstimateFreight(weight, mode)
    ensures weight >= 0.0 ==> EstimateFreight(weight, mode) <= EstimateFreight(weight, "Air")
  {
  }

  /** The estimate is proportional to weight: non-negative and non-decreasing
      for non-negative weights, and additive over split shipments. */
  lemma FreightProportional(w1: real, w2: real, mode: string)
    ensures EstimateFreight(w1 + w2, mode) == EstimateFreight(w1, mode) + EstimateFreight(w2, mode)
    ensures 0.0 <= w1 <= w2 ==> 0.0 <= EstimateFreight(w1, mode) <= EstimateFreight(w2, mode)
  {
  }
}
