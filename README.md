# Sourcing analyst: landed-cost engine and insight engine

This project models the decision logic of a small sourcing dashboard. The dashboard compares buying one
product from China (option A) with buying it from an alternate origin (option B). Three parts are modelled:

- `Tco` (`tco.dfy`): the total-cost-of-ownership engine. One option becomes a breakdown with six fields:
  FOB price, freight, base duty, Section 301 penalty, inventory carrying cost and total.
  The country label picks the duty regime. "Mexico" pays no duty and no 301 tariff. "China" pays both.
  Every other label, known or unknown, pays base duty only. Inventory cost is the annual cost of capital
  prorated weekly (over 52 weeks) across the lead time.
- `Insight` (`insight.dfy`): the insight engine. From the two breakdowns and the signed savings it gives
  a verdict, a reason and an ordered list of cost drivers. The verdict is "diversify" only when
  savings > 0, so a tie means "remain". There are three driver rules: tariff, then freight, then
  inventory. Each rule has a strict dead band of 0.01. A single fallback entry is added when no rule fires.
  `GenerateInsight` is an imperative method that builds the list by appending, as the source does.
  It is proved equal to the reference function `DriversFor`. `DriversFor` is in turn proved to be the
  only list that meets a declarative description (`ExplainsGaps`): the entries are warranted by the gaps,
  there is one entry per active rule, and they come in rule order.
- `FreightEstimate` (`freight.dfy`): the default freight estimate. It charges 8.50 per kg for the exact
  mode "Air" and 0.50 per kg for any other mode.
- `Sourcing` (`sourcing.dfy`): the page's wiring. Option A is always priced as "China". Option B is
  priced as "Mexico" or "Standard", depending on the chosen origin. Savings are A's total minus B's.

Currency and rates are `real`, so every identity holds exactly. The 0.01 threshold is the exact rational 1/100.
The verdict, reason and drivers are datatype variants that carry the amount the text would show.
Idempotence needs no lemma: every engine is a function, so equal inputs give equal outputs.

Facts about the code that the model keeps:
- `GenerateInsight` takes the savings from its caller (app.py:181, app.py:213) and does not recompute them.
- Both options share the product's base duty rate and 301 rate (app.py:149-152, app.py:176-179).
  `Sourcing.Product` has one rate of each kind, and `OptionA` and `OptionB` read both from it.
- The verdict is a variant that carries the alternate origin's name (`Diversify(origin)`) or says the
  product stays in China (`RemainInChina`).

## Model

| member | source | states |
|---|---|---|
| `Tco.ClassOf` | app.py:33-41 | the zero-duty regime is chosen iff the label is exactly "Mexico" and the China regime iff it is exactly "China"; every other label falls to the standard regime |
| `Tco.CalculateTco` | app.py:29-56 | FOB price and freight are passed through unchanged; inventory cost is the weekly-prorated carrying cost; the total equals the sum of the five components exactly |
| `Tco.MexicoPaysNoDuty` | app.py:33-35 | the label "Mexico" gives zero base duty and zero 301 penalty for any rates, so the total is FOB + freight + inventory |
| `Tco.ChinaPaysDutyAndTariff` | app.py:36-38 | the label "China" gives duty = FOB × base rate and 301 penalty = FOB × 301 rate |
| `Tco.OtherLabelsPayBaseDutyOnly` | app.py:39-41 | any label other than "Mexico" and "China" gives duty = FOB × base rate and a 301 penalty of zero |
| `Tco.InventoryCostProrated` | app.py:45 | zero lead time costs nothing; 52 weeks of lead time cost FOB × annual rate |
| `Tco.InventoryCostMonotone` | app.py:45 | with a non-negative FOB price and rate, inventory cost does not decrease as lead time grows |
| `Tco.TotalNonNegative` | app.py:43-47 | with all inputs non-negative, duty, 301 penalty, inventory cost and total are all non-negative |
| `Tco.RegimesOrdered` | app.py:33-47 | for the same figures, standard minus Mexico is exactly the base duty and China minus standard is exactly the 301 penalty, so Mexico ≤ standard ≤ China when inputs are non-negative |
| `FreightEstimate.EstimateFreight` | app.py:129-131 | for a non-negative weight the estimate lies between the ocean rate and the air rate times the weight, so it is never negative |
| `FreightEstimate.FreightRates` | app.py:129-131 | "Air" costs 8.50 per kg and every other mode costs 0.50 per kg |
| `FreightEstimate.AirSeventeenTimesOcean` | app.py:129-131 | air freight is 17 times the freight of any other mode, so it is never cheaper for a non-negative weight |
| `FreightEstimate.FreightProportional` | app.py:129-131 | the estimate is additive over split weights and is non-negative and non-decreasing for non-negative weights |
| `Insight.DriversFor` | app.py:72-100 | the driver list has 1 to 3 entries; it contains the fallback iff no gap is outside the dead band, and then the fallback is its only entry |
| `Insight.DriversForExplainsGaps` | app.py:74-100 | ranks strictly increase along the list (tariff before freight before inventory, at most one entry per rule); every entry is warranted by its gap's sign and amount; exactly the rules with significant gaps speak, plus the fallback iff none does |
| `Insight.ExplanationUnique` | app.py:72-100 | any list that meets that description equals the reference list, so the order and content of the drivers are determined by the two breakdowns |
| `Insight.RuleFiresOutsideDeadBand` | app.py:79-96 | a rule reports iff the magnitude of its gap is > 0.01, so a gap of exactly ±0.01 reports nothing; the tariff gap is A − B, and the freight and inventory gaps are B − A |
| `Insight.DriverAmounts` | app.py:79-96 | every non-fallback entry carries the magnitude of its rule's gap, which is > 0.01 |
| `Insight.GenerateInsight` | app.py:59-102 | the verdict is "diversify to the alternate origin" iff savings > 0, so a tie remains; the reason is a net saving iff savings > 0 and otherwise a cost increase of the alternate origin, and its amount is \|savings\|; the appended driver list equals the reference list and meets the declarative description |
| `Insight.DriversSwap` | app.py:74-96 | swapping baseline and challenger reports the same rules, in the same order and with the same amounts, each in the opposite direction |
| `Sourcing.ChallengerLabel` | app.py:174 | option B is priced under zero-duty rules iff the origin is exactly "Mexico", and otherwise under standard rules; it never gets China's 301 treatment |
| `Sourcing.OptionA` | app.py:149-152 | option A is the breakdown of the product's unit price with A's freight, passed through unchanged; its inventory cost is carried over A's lead time, and its total is the exact sum of the parts |
| `Sourcing.OptionB` | app.py:176-179 | option B is the same for B's freight and lead time, on the same product's unit price and rates |
| `Sourcing.Savings` | app.py:181 | the savings are positive iff B's total is below A's, and zero iff the totals are equal |
| `Sourcing.OptionLevies` | app.py:149-179 | option A always pays FOB × base rate and FOB × 301 rate; option B never pays the 301 tariff, and pays base duty unless the origin is Mexico |
| `Sourcing.SavingsAntisymmetric` | app.py:181 | swapping the options negates the savings, so the verdict flips when the savings are non-zero and a tie remains in both directions |
| `Sourcing.SavingsDecomposition` | app.py:181 | for consistent breakdowns with the same FOB price, savings = tariff gap − freight gap − inventory gap |
| `Sourcing.QuietMeansNearTie` | app.py:98-100 | if only the fallback is reported, \|savings\| ≤ 0.03; any larger saving or loss comes with at least one reported driver |
| `Sourcing.SameLeadTimeNoInventoryDriver` | app.py:91-96 | if both options have the same lead time, no inventory driver is reported |
| `Sourcing.MexicoSavesTheLevies` | app.py:174-181 | moving to Mexico with unchanged freight and lead time saves exactly FOB × (base + 301 rate), and for non-negative figures this is never a loss |
| `Sourcing.VietnamExample` | app.py:149-181 | a worked pair (FOB 800, 5% duty, 25% tariff, 12% capital; freight 5 vs 6, lead time 5 vs 7 weeks): A's inventory cost is 120/13, B's is 168/13, savings are 2539/13, and the drivers are a tariff saving of 200, a freight increase of 1 and an inventory increase of 48/13 |

## Left out

- Page configuration, sidebar, inputs, metrics and markdown rendering (app.py:6, 104-128, 132-148, 153-173, 182-183, 211-220): these are user interface and have no decision logic.
- CSV loading and the percent-string normalisation in `load_data` (app.py:9-24): file I/O plus `pandas` and string-to-float parsing. The rates are taken as fractions already.
- The chart and the "exclude FOB" category filter (app.py:185-208): presentation only.
- Text wording and currency formatting (`:,.2f`) of the verdict, reason and drivers: each is a variant that carries its numeric amount. The alternate origin's name appears only where the verdict and reason embed it. The tariff-higher driver text also embeds it; the model leaves that out.
- IEEE floating-point rounding: currency is `real`, and the 0.01 threshold is exact.
- The unused `lead_time_diff` parameter of `generate_ai_insight` (app.py:59, app.py:213): it has no effect on the output.
- The default lead times (5, 1, 7, 2 weeks) and the default freight multipliers (1.2 and 1.1) that seed the inputs (app.py:138-166): the user can override them, and the engines never see them except through the figures passed in.
- NaN and negative inputs get no special handling, as in the source. The lemmas that need non-negative figures say so in their `requires`.
