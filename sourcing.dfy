/** How the page wires the engines together: option A is always priced as
    "China", option B as "Mexico" or "Standard" depending on the chosen
    origin, both for the same product record and cost of capital, and the
    savings handed to the insight engine are A's total minus B's. */
module Sourcing {
  import opened Tco
  import opened Insight

  /** The product record fields the engines read (rates already as fractions). */
  datatype Product = Product(unitPrice: real, baseDutyRate: real, section301Rate: real)

  /** The label option A is priced under. */
  const BASELINE_LABEL: string := "China"

  /** The label option B is priced under: an alternate origin other than
      Mexico never gets China's 301 treatment, even one literally named "China". */
  function ChallengerLabel(altOrigin: string): (countryType: string)
    ensures ClassOf(countryType) == if altOrigin == "Mexico" then ZeroDutyPreferential else StandardMfn
  {
    if altOrigin == "Mexico" then "Mexico" else "Standard"
  }

  function OptionA(p: Product, freight: real, leadTimeWeeks: real, interestRate: real): (r: Breakdown)
    ensures r.fobPrice == p.unitPrice && r.freight == freight
    ensures r.inventoryCost == InventoryCost(p.unitPrice, interestRate, leadTimeWeeks)
    ensures Consistent(r)
  {
    CalculateTco(p.unitPrice, freight, leadTimeWeeks, interestRate, p.baseDutyRate, p.section301Rate,
                 BASELINE_LABEL)
  }

  function OptionB(p: Product, freight: real, leadTimeWeeks: real, interestRate: real, altOrigin: string): (r: Breakdown)
    ensures r.fobPrice == p.unitPrice && r.freight == freight
    ensures r.inventoryCost == InventoryCost(p.unitPrice, interestRate, leadTimeWeeks)
    ensures Consistent(r)
  {
    CalculateTco(p.unitPrice, freight, leadTimeWeeks, interestRate, p.baseDutyRate, p.section301Rate,
                 ChallengerLabel(altOrigin))
  }

  /** Per-unit savings of moving from A to B; positive when B is cheaper. */
  function Savings(resA: Breakdown, resB: Breakdown): (r: real)
    ensures r > 0.0 <==> resB.totalTco < resA.totalTco
    ensures r == 0.0 <==> resB.totalTco == resA.totalTco
  {
    resA.totalTco - resB.totalTco
  }

  /** Option A always carries the product's duty and Section 301 tariff; option
      B never carries the 301 tariff, and carries base duty unless it is Mexico. */
  lemma OptionLevies(p: Product, fa: real, la: real, fb: real, lb: real, interestRate: real, altOrigin: string)
    ensures OptionA(p, fa, la, interestRate).baseDuty == p.unitPrice * p.baseDutyRate
    ensures OptionA(p, fa, la, interestRate).section301Penalty == p.unitPrice * p.section301Rate
    ensures OptionB(p, fb, lb, interestRate, altOrigin).section301Penalty == 0.0
    ensures OptionB(p, fb, lb, interestRate, altOrigin).baseDuty
            == if altOrigin == "Mexico" then 0.0 else p.unitPrice * p.baseDutyRate
  {
  }

  /** Swapping the two breakdowns negates the savings, so when they differ the
      verdict flips (the insight engine diversifies exactly when savings > 0). */
  lemma SavingsAntisymmetric(resA: Breakdown, resB: Breakdown)
    ensures Savings(resB, resA) == -Savings(resA, resB)
    ensures Savings(resA, resB) != 0.0 ==> (Savings(resA, resB) > 0.0 <==> !(Savings(resB, resA) > 0.0))
    ensures Savings(resA, resB) == 0.0 ==> !(Savings(resA, resB) > 0.0) && !(Savings(resB, resA) > 0.0)
  {
  }

  /** For consistent breakdowns of the same product, the savings are exactly
      what the three driver gaps account for. */
  lemma SavingsDecomposition(resA: Breakdown, resB: Breakdown)
    requires Consistent(resA) && Consistent(resB) && resA.fobPrice == resB.fobPrice
    ensures Savings(resA, resB)
            == TariffGap(resA, resB) - FreightGap(resA, resB) - InventoryGap(resA, resB)
  {
  }

  /** When the insight reports only the fallback entry, the two options are
      within three dead bands of each other; a larger saving or loss always
      comes with at least one reported driver. */
  lemma QuietMeansNearTie(resA: Breakdown, resB: Breakdown)
    requires Consistent(resA) && Consistent(resB) && resA.fobPrice == resB.fobPrice
    ensures DriversFor(resA, resB) == [NoSignificantDrivers] ==> Abs(Savings(resA, resB)) <= 3.0 * DEAD_BAND
    ensures Abs(Savings(resA, resB)) > 3.0 * DEAD_BAND ==> NoSignificantDrivers !in DriversFor(resA, resB)
  {
  }

  /** Equal lead times on both sides never report an inventory driver. */
  lemma SameLeadTimeNoInventoryDriver(p: Product, fa: real, fb: real, leadTimeWeeks: real,
                                      interestRate: real, altOrigin: string)
    ensures 2 !in Ranks(DriversFor(OptionA(p, fa, leadTimeWeeks, interestRate),
                                   OptionB(p, fb, leadTimeWeeks, interestRate, altOrigin)))
  {
  }

  /** Moving to Mexico with unchanged freight and lead time saves exactly the
      duty and 301 tariff, which for non-negative figures is never a loss. */
  lemma MexicoSavesTheLevies(p: Product, freight: real, leadTimeWeeks: real, interestRate: real)
    ensures Savings(OptionA(p, freight, leadTimeWeeks, interestRate),
                    OptionB(p, freight, leadTimeWeeks, interestRate, "Mexico"))
            == p.unitPrice * (p.baseDutyRate + p.section301Rate)
    ensures p.unitPrice >= 0.0 && p.baseDutyRate >= 0.0 && p.section301Rate >= 0.0 ==>
            Savings(OptionA(p, freight, leadTimeWeeks, interestRate),
                    OptionB(p, freight, leadTimeWeeks, interestRate, "Mexico")) >= 0.0
  {
    if p.unitPrice >= 0.0 && p.baseDutyRate >= 0.0 && p.section301Rate >= 0.0 {
      assert p.unitPrice * (p.baseDutyRate + p.section301Rate) >= 0.0;
    }
  }

  /** The product of the worked pair below: 800.00 per unit, 5% base duty and
      a 25% Section 301 tariff. */
  const EXAMPLE_PRODUCT := Product(800.0, 0.05, 0.25)

  lemma ExampleChinaBreakdown()
    ensures OptionA(EXAMPLE_PRODUCT, 5.0, 5.0, 0.12)
            == Breakdown(800.0, 5.0, 40.0, 200.0, 120.0 / 13.0, 13705.0 / 13.0)
  {
    assert InventoryCost(800.0, 0.12, 5.0) == 120.0 / 13.0;
  }

  lemma ExampleVietnamBreakdown()
    ensures OptionB(EXAMPLE_PRODUCT, 6.0, 7.0, 0.12, "Vietnam")
            == Breakdown(800.0, 6.0, 40.0, 0.0, 168.0 / 13.0, 11166.0 / 13.0)
  {
    assert ChallengerLabel("Vietnam") == "Standard";
    assert InventoryCost(800.0, 0.12, 7.0) == 168.0 / 13.0;
  }

  /** A worked pair at 12% cost of capital: China by ocean (freight 5,
      5 weeks) against Vietnam (freight 6, 7 weeks). */
  lemma VietnamExample()
    ensures var a := OptionA(EXAMPLE_PRODUCT, 5.0, 5.0, 0.12);
      var b := OptionB(EXAMPLE_PRODUCT, 6.0, 7.0, 0.12, "Vietnam");
      a.baseDuty == 40.0 && a.section301Penalty == 200.0 && a.inventoryCost == 120.0 / 13.0
      && b.baseDuty == 40.0 && b.section301Penalty == 0.0 && b.inventoryCost == 168.0 / 13.0
      && Savings(a, b) == 2539.0 / 13.0
      && DriversFor(a, b) == [TariffSaving(200.0), FreightIncrease(1.0), InventoryIncrease(48.0 / 13.0)]
  {
    ExampleChinaBreakdown();
    ExampleVietnamBreakdown();
    var a := Breakdown(800.0, 5.0, 40.0, 200.0, 120.0 / 13.0, 13705.0 / 13.0);
    var b := Breakdown(800.0, 6.0, 40.0, 0.0, 168.0 / 13.0, 11166.0 / 13.0);
    assert TariffEntry(TariffGap(a, b)) == [TariffSaving(200.0)];
    assert FreightEntry(FreightGap(a, b)) == [FreightIncrease(1.0)];
    assert InventoryEntry(InventoryGap(a, b)) == [InventoryIncrease(48.0 / 13.0)];
  }
}
