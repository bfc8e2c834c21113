/** The comparative insight engine: given the breakdowns of the incumbent
    option A and the challenger B and the signed per-unit savings A - B, it
    derives a verdict, a reason and an ordered list of cost drivers. Texts
    are modelled as variants carrying the amount they would display. */
module Insight {
  import opened Tco

  /** Gaps whose magnitude is at most this are treated as noise. */
  const DEAD_BAND: real := 0.01

  datatype Verdict = Diversify(origin: string) | RemainInChina

  datatype Reason =
    | NetSaving(amount: real)
    | CostIncrease(origin: string, amount: real)

  /** One explanation line. The amount is always the magnitude of the gap. */
  datatype Driver =
    | TariffSaving(amount: real)       // A pays more duty and 301 tariff than B
    | TariffHigher(amount: real)       // B pays more
    | FreightIncrease(amount: real)
    | FreightDecrease(amount: real)
    | InventoryIncrease(amount: real)  // longer lead time costs more capital
    | InventoryDecrease(amount: real)
    | NoSignificantDrivers

  function Abs(x: real): (r: real)
    ensures r >= 0.0 && (r == x || r == -x)
  {
    if x < 0.0 then -x else x
  }

  /** Duty plus Section 301 penalty of one breakdown. */
  function Tariffs(b: Breakdown): real {
    b.section301Penalty + b.baseDuty
  }

  /** The tariff gap is measured A - B; freight and inventory gaps B - A. */
  function TariffGap(a: Breakdown, b: Breakdown): real { Tariffs(a) - Tariffs(b) }
  function FreightGap(a: Breakdown, b: Breakdown): real { b.freight - a.freight }
  function InventoryGap(a: Breakdown, b: Breakdown): real { b.inventoryCost - a.inventoryCost }

  /** A gap outside the closed dead band [-DEAD_BAND, DEAD_BAND]. */
  predicate Significant(gap: real) {
    gap > DEAD_BAND || gap < -DEAD_BAND
  }

  /** None of the three rules fires. */
  predicate Quiet(a: Breakdown, b: Breakdown) {
    !Significant(TariffGap(a, b)) && !Significant(FreightGap(a, b)) && !Significant(InventoryGap(a, b))
  }

  /** Rule of origin of a driver, in reporting order: tariff, freight,
      inventory, fallback. */
  function Rank(d: Driver): nat {
    match d
    case TariffSaving(_) => 0
    case TariffHigher(_) => 0
    case FreightIncrease(_) => 1
    case FreightDecrease(_) => 1
    case InventoryIncrease(_) => 2
    case InventoryDecrease(_) => 2
    case NoSignificantDrivers => 3
  }

  /* ---------------- the reference definition of the driver list ---------------- */

  function TariffEntry(gap: real): seq<Driver> {
    if gap > DEAD_BAND then [TariffSaving(gap)]
    else if gap < -DEAD_BAND then [TariffHigher(Abs(gap))]
    else []
  }

  function FreightEntry(gap: real): seq<Driver> {
    if gap > DEAD_BAND then [FreightIncrease(gap)]
    else if gap < -DEAD_BAND then [FreightDecrease(Abs(gap))]
    else []
  }

  function InventoryEntry(gap: real): seq<Driver> {
    if gap > DEAD_BAND then [InventoryIncrease(gap)]
    else if gap < -DEAD_BAND then [InventoryDecrease(Abs(gap))]
    else []
  }

  /** The driver list: the entries of the rules that fire, in rule order, or
      the single fallback entry when none fires. */
  function DriversFor(a: Breakdown, b: Breakdown): (ds: seq<Driver>)
    ensures 1 <= |ds| <= 3
    ensures NoSignificantDrivers in ds <==> Quiet(a, b)
    ensures Quiet(a, b) ==> ds == [NoSignificantDrivers]
  {
    var fired := TariffEntry(TariffGap(a, b)) + FreightEntry(FreightGap(a, b))
                 + InventoryEntry(InventoryGap(a, b));
    if fired == [] then [NoSignificantDrivers] else fired
  }

  /* ---------------- a declarative description of the same list ---------------- */

  /** The single entry a rule may report for the given breakdowns. */
  predicate Warranted(d: Driver, a: Breakdown, b: Breakdown) {
    match d
    case TariffSaving(x) => TariffGap(a, b) > DEAD_BAND && x == TariffGap(a, b)
    case TariffHigher(x) => TariffGap(a, b) < -DEAD_BAND && x == -TariffGap(a, b)
    case FreightIncrease(x) => FreightGap(a, b) > DEAD_BAND && x == FreightGap(a, b)
    case FreightDecrease(x) => FreightGap(a, b) < -DEAD_BAND && x == -FreightGap(a, b)
    case InventoryIncrease(x) => InventoryGap(a, b) > DEAD_BAND && x == InventoryGap(a, b)
    case InventoryDecrease(x) => InventoryGap(a, b) < -DEAD_BAND && x == -InventoryGap(a, b)
    case NoSignificantDrivers => Quiet(a, b)
  }

  /** Ranks strictly increase along the list: rule order, one entry per rule. */
  predicate StrictlyRanked(ds: seq<Driver>) {
    forall i, j | 0 <= i < j < |ds| :: Rank(ds[i]) < Rank(ds[j])
  }

  function Ranks(ds: seq<Driver>): set<nat> {
    set i | 0 <= i < |ds| :: Rank(ds[i])
  }

  /** The rules that must speak: each rule whose gap is significant, and the
      fallback exactly when none is. */
  function ActiveRanks(a: Breakdown, b: Breakdown): set<nat> {
    (if Significant(TariffGap(a, b)) then {0} else {})
    + (if Significant(FreightGap(a, b)) then {1} else {})
    + (if Significant(InventoryGap(a, b)) then {2} else {})
    + (if Quiet(a, b) then {3} else {})
  }

  /** ds reports exactly the active rules, each with its warranted entry, in rule order. */
  predicate ExplainsGaps(ds: seq<Driver>, a: Breakdown, b: Breakdown) {
    StrictlyRanked(ds)
    && (forall i | 0 <= i < |ds| :: Warranted(ds[i], a, b))
    && Ranks(ds) == ActiveRanks(a, b)
  }

  lemma WarrantedUniquePerRank(d1: Driver, d2: Driver, a: Breakdown, b: Breakdown)
    requires Warranted(d1, a, b) && Warranted(d2, a, b) && Rank(d1) == Rank(d2)
    ensures d1 == d2
  {
  }

  lemma RanksConcat(xs: seq<Driver>, ys: seq<Driver>)
    ensures Ranks(xs + ys) == Ranks(xs) + Ranks(ys)
  {
    forall r | r in Ranks(xs + ys) ensures r in Ranks(xs) + Ranks(ys) {
      var i :| 0 <= i < |xs + ys| && Rank((xs + ys)[i]) == r;
      if i >= |xs| {
        assert Rank(ys[i - |xs|]) == r;
      }
    }
    forall r | r in Ranks(xs) ensures r in Ranks(xs + ys) {
      var i :| 0 <= i < |xs| && Rank(xs[i]) == r;
      assert (xs + ys)[i] == xs[i];
    }
    forall r | r in Ranks(ys) ensures r in Ranks(xs + ys) {
      var j :| 0 <= j < |ys| && Rank(ys[j]) == r;
      assert (xs + ys)[|xs| + j] == ys[j];
    }
  }

  lemma RanksTail(ds: seq<Driver>)
    requires StrictlyRanked(ds) && |ds| > 0
    ensures Rank(ds[0]) in Ranks(ds)
    ensures forall r | r in Ranks(ds) :: Rank(ds[0]) <= r
    ensures Ranks(ds[1..]) == Ranks(ds) - {Rank(ds[0])}
  {
  }

  lemma RanksEmpty(ds: seq<Driver>)
    ensures Ranks(ds) == {} <==> ds == []
  {
    if ds != [] {
      assert Rank(ds[0]) in Ranks(ds);
    }
  }

  /** Two strictly ranked lists of warranted entries for the same rules are equal. */
  lemma {:induction false} RankedListsEqual(xs: seq<Driver>, ys: seq<Driver>, a: Breakdown, b: Breakdown)
    requires StrictlyRanked(xs) && StrictlyRanked(ys)
    requires forall i | 0 <= i < |xs| :: Warranted(xs[i], a, b)
    requires forall i | 0 <= i < |ys| :: Warranted(ys[i], a, b)
    requires Ranks(xs) == Ranks(ys)
    ensures xs == ys
    decreases |xs|
  {
    RanksEmpty(xs);
    RanksEmpty(ys);
    if xs != [] {
      RanksTail(xs);
      RanksTail(ys);
      WarrantedUniquePerRank(xs[0], ys[0], a, b);
      RankedListsEqual(xs[1..], ys[1..], a, b);
      assert xs == [xs[0]] + xs[1..];
      assert ys == [ys[0]] + ys[1..];
    }
  }

  lemma RanksSingleton(d: Driver)
    ensures Ranks([d]) == {Rank(d)}
  {
    assert [d][0] == d;
  }

  /** What each rule contributes: at most one warranted entry, carrying the
      rule's rank, present exactly when the rule's gap is significant. */
  predicate RuleContribution(e: seq<Driver>, k: nat, significant: bool, a: Breakdown, b: Breakdown) {
    |e| <= 1
    && (forall i | 0 <= i < |e| :: Rank(e[i]) == k && Warranted(e[i], a, b))
    && Ranks(e) == if significant then {k} else {}
  }

  lemma EntriesContribute(a: Breakdown, b: Breakdown)
    ensures RuleContribution(TariffEntry(TariffGap(a, b)), 0, Significant(TariffGap(a, b)), a, b)
    ensures RuleContribution(FreightEntry(FreightGap(a, b)), 1, Significant(FreightGap(a, b)), a, b)
    ensures RuleContribution(InventoryEntry(InventoryGap(a, b)), 2, Significant(InventoryGap(a, b)), a, b)
  {
    var t := TariffEntry(TariffGap(a, b));
    var f := FreightEntry(FreightGap(a, b));
    var v := InventoryEntry(InventoryGap(a, b));
    if t != [] { RanksSingleton(t[0]); }
    if f != [] { RanksSingleton(f[0]); }
    if v != [] { RanksSingleton(v[0]); }
  }

  lemma ContributionsRanked(t: seq<Driver>, f: seq<Driver>, v: seq<Driver>)
    requires forall i | 0 <= i < |t| :: Rank(t[i]) == 0
    requires forall i | 0 <= i < |f| :: Rank(f[i]) == 1
    requires forall i | 0 <= i < |v| :: Rank(v[i]) == 2
    requires |t| <= 1 && |f| <= 1 && |v| <= 1
    ensures StrictlyRanked(t + f + v)
  {
  }

  /** The reference list meets the declarative description. */
  lemma DriversForExplainsGaps(a: Breakdown, b: Breakdown)
    ensures ExplainsGaps(DriversFor(a, b), a, b)
  {
    var t := TariffEntry(TariffGap(a, b));
    var f := FreightEntry(FreightGap(a, b));
    var v := InventoryEntry(InventoryGap(a, b));
    EntriesContribute(a, b);
    var ds := DriversFor(a, b);
    if t + f + v == [] {
      RanksSingleton(NoSignificantDrivers);
    } else {
      RanksConcat(t, f);
      RanksConcat(t + f, v);
      ContributionsRanked(t, f, v);
      forall i | 0 <= i < |ds| ensures Warranted(ds[i], a, b) {
        if i < |t| { assert ds[i] == t[i]; }
        else if i < |t| + |f| { assert ds[i] == f[i - |t|]; }
        else { assert ds[i] == v[i - |t| - |f|]; }
      }
    }
  }

  /** ... and is the only list that does: order is definitional, so the report
      is fully determined by the two breakdowns. */
  lemma ExplanationUnique(ds: seq<Driver>, a: Breakdown, b: Breakdown)
    requires ExplainsGaps(ds, a, b)
    ensures ds == DriversFor(a, b)
  {
    DriversForExplainsGaps(a, b);
    RankedListsEqual(ds, DriversFor(a, b), a, b);
  }

  /* ---------------- consequences for callers ---------------- */

  /** The dead band is strict: a rule reports iff its gap's magnitude exceeds
      DEAD_BAND, so a gap of exactly plus or minus DEAD_BAND reports nothing. */
  lemma RuleFiresOutsideDeadBand(a: Breakdown, b: Breakdown)
    ensures 0 in Ranks(DriversFor(a, b)) <==> Abs(TariffGap(a, b)) > DEAD_BAND
    ensures 1 in Ranks(DriversFor(a, b)) <==> Abs(FreightGap(a, b)) > DEAD_BAND
    ensures 2 in Ranks(DriversFor(a, b)) <==> Abs(InventoryGap(a, b)) > DEAD_BAND
    ensures 3 in Ranks(DriversFor(a, b)) <==> Quiet(a, b)
  {
    DriversForExplainsGaps(a, b);
  }

  /** Every reported entry other than the fallback carries the magnitude of
      its rule's gap, which exceeds DEAD_BAND. */
  lemma DriverAmounts(a: Breakdown, b: Breakdown)
    ensures forall d | d in DriversFor(a, b) && d != NoSignificantDrivers ::
      d.amount > DEAD_BAND
      && d.amount == Abs(if Rank(d) == 0 then TariffGap(a, b)
                         else if Rank(d) == 1 then FreightGap(a, b)
                         else InventoryGap(a, b))
  {
  }

  /* ---------------- the insight itself, built as the source builds it ---------------- */

  /** Verdict, reason and drivers for incumbent A against challenger B, given
      the signed per-unit savings of moving from A to B. */
  method GenerateInsight(resA: Breakdown, resB: Breakdown, savings: real, altOrigin: string)
    returns (verdict: Verdict, reason: Reason, drivers: seq<Driver>)
    ensures verdict.Diversify? <==> savings > 0.0
    ensures verdict.Diversify? ==> verdict.origin == altOrigin
    ensures reason.NetSaving? <==> savings > 0.0
    ensures reason.CostIncrease? ==> reason.origin == altOrigin
    ensures reason.amount == Abs(savings)
    ensures drivers == DriversFor(resA, resB)
    ensures ExplainsGaps(drivers, resA, resB)
  {
    if savings > 0.0 {
      verdict := Diversify(altOrigin);
      reason := NetSaving(savings);
    } else {
      verdict := RemainInChina;
      reason := CostIncrease(altOrigin, Abs(savings));
    }

    drivers := [];

    var tariffA := resA.section301Penalty + resA.baseDuty;
    var tariffB := resB.section301Penalty + resB.baseDuty;
    var tariffGap := tariffA - tariffB;
    assert tariffGap == TariffGap(resA, resB);
    if tariffGap > DEAD_BAND {
      drivers := drivers + [TariffSaving(tariffGap)];
    } else if tariffGap < -DEAD_BAND {
      drivers := drivers + [TariffHigher(Abs(tariffGap))];
    }
    assert drivers == TariffEntry(TariffGap(resA, resB));

    var freightGap := resB.freight - resA.freight;
    assert freightGap == FreightGap(resA, resB);
    if freightGap > DEAD_BAND {
      drivers := drivers + [FreightIncrease(freightGap)];
    } else if freightGap < -DEAD_BAND {
      drivers := drivers + [FreightDecrease(Abs(freightGap))];
    }
    assert drivers == TariffEntry(TariffGap(resA, resB)) + FreightEntry(FreightGap(resA, resB));

    var inventoryGap := resB.inventoryCost - resA.inventoryCost;
    assert inventoryGap == InventoryGap(resA, resB);
    if inventoryGap > DEAD_BAND {
      drivers := drivers + [InventoryIncrease(inventoryGap)];
    } else if inventoryGap < -DEAD_BAND {
      drivers := drivers + [InventoryDecrease(Abs(inventoryGap))];
    }
    assert drivers == TariffEntry(TariffGap(resA, resB)) + FreightEntry(FreightGap(resA, resB))
                      + InventoryEntry(InventoryGap(resA, resB));

    if drivers == [] {
      drivers := drivers + [NoSignificantDrivers];
    }
    DriversForExplainsGaps(resA, resB);
  }

  /* ---------------- swapping the two options ---------------- */

  /** The entry the opposite comparison reports for the same gap. */
  function Flip(d: Driver): Driver {
    match d
    case TariffSaving(x) => TariffHigher(x)
    case TariffHigher(x) => TariffSaving(x)
    case FreightIncrease(x) => FreightDecrease(x)
    case FreightDecrease(x) => FreightIncrease(x)
    case InventoryIncrease(x) => InventoryDecrease(x)
    case InventoryDecrease(x) => InventoryIncrease(x)
    case NoSignificantDrivers => NoSignificantDrivers
  }

  function FlipAll(ds: seq<Driver>): seq<Driver> {
    if ds == [] then [] else [Flip(ds[0])] + FlipAll(ds[1..])
  }

  lemma {:induction false} FlipAllConcat(xs: seq<Driver>, ys: seq<Driver>)
    ensures FlipAll(xs + ys) == FlipAll(xs) + FlipAll(ys)
    decreases |xs|
  {
    if xs == [] {
      assert xs + ys == ys;
    } else {
      assert (xs + ys)[0] == xs[0];
      assert (xs + ys)[1..] == xs[1..] + ys;
      FlipAllConcat(xs[1..], ys);
    }
  }

  /** Swapping baseline and challenger reports the same rules, in the same
      order, with the same amounts, each in the opposite direction. */
  lemma DriversSwap(a: Breakdown, b: Breakdown)
    ensures DriversFor(b, a) == FlipAll(DriversFor(a, b))
  {
    var t := TariffEntry(TariffGap(a, b));
    var f := FreightEntry(FreightGap(a, b));
    var v := InventoryEntry(InventoryGap(a, b));
    assert TariffEntry(TariffGap(b, a)) == FlipAll(t);
    assert FreightEntry(FreightGap(b, a)) == FlipAll(f);
    assert InventoryEntry(InventoryGap(b, a)) == FlipAll(v);
    FlipAllConcat(t, f);
    FlipAllConcat(t + f, v);
  }
}
