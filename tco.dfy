/** The landed-cost (total cost of ownership) engine: one sourcing option's
    commercial and logistics figures, under the duty regime its country label
    selects, become a six-field cost breakdown. Currency and rates are `real`,
    so every identity below holds exactly (no floating-point rounding). */
module Tco {

  /** Weeks per year, used to prorate the annual cost of capital. */
  const WEEKS_PER_YEAR: real := 52.0

  /** The duty regime a country label selects. */
  datatype CountryClass = ZeroDutyPreferential | ChinaSubjectTo301 | StandardMfn

  /** The landed-cost breakdown of one option: purchase price, freight, base
      duty, Section 301 penalty, inventory carrying cost and their total. */
  datatype Breakdown = Breakdown(
    fobPrice: real,
    freight: real,
    baseDuty: real,
    section301Penalty: real,
    inventoryCost: real,
    totalTco: real)

  /** The total of a breakdown is the sum of its five components. */
  predicate Consistent(b: Breakdown) {
    b.totalTco == b.fobPrice + b.freight + b.baseDuty + b.section301Penalty + b.inventoryCost
  }

  /** The label lookup: "Mexico" and "China" are recognised, every other label
      (a named alternate or an unknown one) is treated as standard. */
  function ClassOf(countryType: string): (c: CountryClass)
    ensures c == ZeroDutyPreferential <==> countryType == "Mexico"
    ensures c == ChinaSubjectTo301 <==> countryType == "China"
  {
    if countryType == "Mexico" then ZeroDutyPreferential
    else if countryType == "China" then ChinaSubjectTo301
    else StandardMfn
  }

  /** The (duty rate, Section 301 rate) pair a regime applies to the FOB price. */
  function AppliedRates(c: CountryClass, baseDuty: real, section301: real): (real, real) {
    match c
    case ZeroDutyPreferential => (0.0, 0.0)
    case ChinaSubjectTo301 => (baseDuty, section301)
    case StandardMfn => (baseDuty, 0.0)
  }

  /** Cost of capital tied up over the lead time: the annual rate prorated weekly. */
  function InventoryCost(fobPrice: real, interestRate: real, leadTimeWeeks: real): real {
    fobPrice * (interestRate / WEEKS_PER_YEAR) * leadTimeWeeks
  }

  /** The breakdown of one option. FOB price and freight are passed through,
      and the total is the exact sum of the components. */
  function CalculateTco(fobPrice: real, freight: real, leadTimeWeeks: real, interestRate: real,
                        baseDuty: real, section301: real, countryType: string): (r: Breakdown)
    ensures r.fobPrice == fobPrice && r.freight == freight
    ensures r.inventoryCost == InventoryCost(fobPrice, interestRate, leadTimeWeeks)
    ensures Consistent(r)
  {
    var (appliedDuty, tariff301) := AppliedRates(ClassOf(countryType), baseDuty, section301);
    var costDuty := fobPrice * appliedDuty;
    var cost301 := fobPrice * tariff301;
    var costInventory := InventoryCost(fobPrice, interestRate, leadTimeWeeks);
    var totalLandedCost := fobPrice + freight + costDuty + cost301 + costInventory;
    Breakdown(fobPrice, freight, costDuty, cost301, costInventory, totalLandedCost)
  }

  /** "Mexico" pays neither base duty nor the Section 301 tariff, whatever the rates. */
  lemma MexicoPaysNoDuty(fobPrice: real, freight: real, leadTimeWeeks: real, interestRate: real,
                         baseDuty: real, section301: real)
    ensures var r := CalculateTco(fobPrice, freight, leadTimeWeeks, interestRate, baseDuty, section301, "Mexico");
      r.baseDuty == 0.0 && r.section301Penalty == 0.0
      && r.totalTco == fobPrice + freight + InventoryCost(fobPrice, interestRate, leadTimeWeeks)
  {
  }

  /** "China" pays base duty and the Section 301 tariff, each on the FOB price. */
  lemma ChinaPaysDutyAndTariff(fobPrice: real, freight: real, leadTimeWeeks: real, interestRate: real,
                               baseDuty: real, section301: real)
    ensures var r := CalculateTco(fobPrice, freight, leadTimeWeeks, interestRate, baseDuty, section301, "China");
      r.baseDuty == fobPrice * baseDuty && r.section301Penalty == fobPrice * section301
  {
  }

  /** Every other label, known or not, pays base duty only. */
  lemma OtherLabelsPayBaseDutyOnly(fobPrice: real, freight: real, leadTimeWeeks: real, interestRate: real,
                                   baseDuty: real, section301: real, countryType: string)
    requires countryType != "Mexico" && countryType != "China"
    ensures var r := CalculateTco(fobPrice, freight, leadTimeWeeks, interestRate, baseDuty, section301, countryType);
      r.baseDuty == fobPrice * baseDuty && r.section301Penalty == 0.0
  {
  }

  /** No lead time carries no inventory cost; a full year of it costs the annual rate. */
  lemma InventoryCostProrated(fobPrice: real, interestRate: real)
    ensures InventoryCost(fobPrice, interestRate, 0.0) == 0.0
    ensures InventoryCost(fobPrice, interestRate, WEEKS_PER_YEAR) == fobPrice * interestRate
  {
  }

  /** With a non-negative price and rate, a longer lead time never costs less. */
  lemma InventoryCostMonotone(fobPrice: real, interestRate: real, shorter: real, longer: real)
    requires fobPrice >= 0.0 && interestRate >= 0.0 && shorter <= longer
    ensures InventoryCost(fobPrice, interestRate, shorter) <= InventoryCost(fobPrice, interestRate, longer)
  {
  }

  /** With all inputs non-negative, every component and the total are non-negative. */
  lemma TotalNonNegative(fobPrice: real, freight: real, leadTimeWeeks: real, interestRate: real,
                         baseDuty: real, section301: real, countryType: string)
    requires fobPrice >= 0.0 && freight >= 0.0 && leadTimeWeeks >= 0.0 && interestRate >= 0.0
    requires baseDuty >= 0.0 && section301 >= 0.0
    ensures var r := CalculateTco(fobPrice, freight, leadTimeWeeks, interestRate, baseDuty, section301, countryType);
      r.baseDuty >= 0.0 && r.section301Penalty >= 0.0 && r.inventoryCost >= 0.0 && r.totalTco >= 0.0
  {
  }

  /** For the same figures, the three regimes differ exactly by the levies they
      waive: China costs the Section 301 tariff more than a standard origin,
      which costs the base duty more than Mexico. */
  lemma RegimesOrdered(fobPrice: real, freight: real, leadTimeWeeks: real, interestRate: real,
                       baseDuty: real, section301: real, other: string)
    requires other != "Mexico" && other != "China"
    ensures var mexico := CalculateTco(fobPrice, freight, leadTimeWeeks, interestRate, baseDuty, section301, "Mexico");
      var standard := CalculateTco(fobPrice, freight, leadTimeWeeks, interestRate, baseDuty, section301, other);
      var china := CalculateTco(fobPrice, freight, leadTimeWeeks, interestRate, baseDuty, section301, "China");
      standard.totalTco - mexico.totalTco == fobPrice * baseDuty
      && china.totalTco - standard.totalTco == fobPrice * section301
      && (fobPrice >= 0.0 && baseDuty >= 0.0 && section301 >= 0.0 ==>
            mexico.totalTco <= standard.totalTco <= china.totalTco)
  {
  }
}
