/**
 * The scenario steps of task1/run_task1.py that compute rather than print:
 * the sale loops that overwrite a window of a revenue series in place, the
 * winner and headline choices, and the acquisition streams of the
 * new-source scenario.
 */
module Scenarios {
  import opened Wrappers
  import opened Retention
  import opened Cohort
  import opened Revenue
  import opened Simulation

  // ---------------------------------------------------------------------------
  // The sale

  /** The sale starts on day 15 (1-based) and lasts 10 days. */
  const SaleStartDay: int := 15
  const SaleDuration: int := 10
  /** The absolute increase of the purchase ratio during the sale. */
  const PurchaseRateBoost: real := 0.01

  /**
   * The 0-based indices the sale loop visits, as a half-open range:
   * `range(start - 1, min(start - 1 + duration, days))`. It starts at the
   * sale's first day and is cut off at the horizon, so every index it visits
   * is inside the series. A start day of 0 would make the loop read index -1,
   * which in `task1_d` and `task1_f` means the last day; both use start day 15.
   */
  function SaleWindow(saleStartDay: int, saleDuration: int, days: int): (w: (int, int))
    requires saleStartDay >= 1 && days >= 0
    ensures w.0 == saleStartDay - 1
    ensures w.1 <= days && w.1 <= saleStartDay - 1 + saleDuration
    ensures w.1 == days || w.1 == saleStartDay - 1 + saleDuration
    ensures 0 <= w.0
  {
    (saleStartDay - 1, Min(saleStartDay - 1 + saleDuration, days))
  }

  /** Over 30 or 60 days the sale covers indices 14 .. 23, i.e. days 15 to 24; a shorter horizon truncates it. */
  lemma SaleWindowOfScenarios()
    ensures SaleWindow(SaleStartDay, SaleDuration, 30) == (14, 24)
    ensures SaleWindow(SaleStartDay, SaleDuration, 60) == (14, 24)
    ensures SaleWindow(SaleStartDay, SaleDuration, 20) == (14, 20)
    ensures SaleWindow(SaleStartDay, SaleDuration, 10).1 <= SaleWindow(SaleStartDay, SaleDuration, 10).0
  {
  }

  /** The parameters in force during the sale: the purchase ratio raised by `boost`. */
  function Boosted(m: Monetization, boost: real): Monetization
  {
    m.(purchaseRatio := m.purchaseRatio + boost)
  }

  /** The parameters in force on day index `i`: boosted inside `[lo, hi)`, the base ones elsewhere. */
  function PricingOn(m: Monetization, boost: real, lo: int, hi: int, i: int): Monetization
  {
    if lo <= i < hi then Boosted(m, boost) else m
  }

  /**
   * The revenue after the sale loop of `task1_d`: inside `[lo, hi)` each day
   * is recomputed from its DAU with the boosted ratio (all three series);
   * every other entry of `base` is kept.
   */
  function SaleRevenue(dau: seq<real>, base: RevenueSeries, m: Monetization, boost: real, lo: int, hi: int): (r: RevenueSeries)
    requires AlignedWith(base, |dau|)
    ensures AlignedWith(r, |dau|)
    ensures forall i :: 0 <= i < |dau| && !(lo <= i < hi) ==>
      r.iap[i] == base.iap[i] && r.ad[i] == base.ad[i] && r.total[i] == base.total[i]
    ensures forall i :: 0 <= i < |dau| && lo <= i < hi ==>
      r.iap[i] == Iap(dau[i], Boosted(m, boost)) && r.ad[i] == Ad(dau[i], m) && r.total[i] == r.iap[i] + r.ad[i]
    ensures Decomposes(base) ==> Decomposes(r)
  {
    var boosted := Boosted(m, boost);
    RevenueSeries(
      seq(|dau|, i requires 0 <= i < |dau| => if lo <= i < hi then Iap(dau[i], boosted) else base.iap[i]),
      seq(|dau|, i requires 0 <= i < |dau| => if lo <= i < hi then Ad(dau[i], boosted) else base.ad[i]),
      seq(|dau|, i requires 0 <= i < |dau| => if lo <= i < hi then Iap(dau[i], boosted) + Ad(dau[i], boosted) else base.total[i]))
  }

  /**
   * Patching the unboosted run in place gives exactly the revenue computed
   * from scratch with per-day parameters (boosted inside the window), and the
   * ad series is untouched.
   */
  lemma SaleIsPerDayOverride(dau: seq<real>, m: Monetization, boost: real, lo: int, hi: int)
    ensures var r := SaleRevenue(dau, CalculateRevenue(dau, m), m, boost, lo, hi);
            && r.ad == CalculateRevenue(dau, m).ad
            && forall i :: 0 <= i < |dau| ==>
                 r.iap[i] == Iap(dau[i], PricingOn(m, boost, lo, hi, i))
                 && r.ad[i] == Ad(dau[i], PricingOn(m, boost, lo, hi, i))
                 && r.total[i] == Iap(dau[i], PricingOn(m, boost, lo, hi, i)) + Ad(dau[i], PricingOn(m, boost, lo, hi, i))
  {
    var r := SaleRevenue(dau, CalculateRevenue(dau, m), m, boost, lo, hi);
    assert r.ad == CalculateRevenue(dau, m).ad;
  }

  /** A day's boosted total is at least its unboosted total (non-negative DAU, purchase amount and boost). */
  lemma BoostRaisesDayTotal(x: real, m: Monetization, boost: real)
    requires x >= 0.0 && m.averagePurchaseAmount >= 0.0 && boost >= 0.0
    ensures Iap(x, Boosted(m, boost)) + Ad(x, Boosted(m, boost)) >= Iap(x, m) + Ad(x, m)
  {
    assert Iap(x, Boosted(m, boost)) == Iap(x, m) + x * boost * m.averagePurchaseAmount;
    assert x * boost >= 0.0;
    assert x * boost * m.averagePurchaseAmount >= 0.0;
  }

  /**
   * With non-negative DAU, purchase amount and boost, the sale never lowers a
   * day's total, so the summed total with the sale is at least the summed
   * total without it.
   */
  lemma SaleRaisesTotal(dau: seq<real>, m: Monetization, boost: real, lo: int, hi: int)
    requires forall i :: 0 <= i < |dau| ==> dau[i] >= 0.0
    requires m.averagePurchaseAmount >= 0.0 && boost >= 0.0
    ensures Sum(SaleRevenue(dau, CalculateRevenue(dau, m), m, boost, lo, hi).total) >= Sum(CalculateRevenue(dau, m).total)
  {
    var base := CalculateRevenue(dau, m);
    var r := SaleRevenue(dau, base, m, boost, lo, hi);
    forall i | 0 <= i < |dau|
      ensures base.total[i] <= r.total[i]
    {
      if lo <= i < hi {
        BoostRaisesDayTotal(dau[i], m, boost);
      }
    }
    SumMonotone(base.total, r.total);
  }

  /**
   * The revenue after the sale loop of `calculate_sale_revenue` (in
   * `task1_f`): only the total series is overwritten inside the window; the
   * IAP and ad series keep their unboosted values.
   */
  function SaleTotalsOnly(dau: seq<real>, base: RevenueSeries, m: Monetization, boost: real, lo: int, hi: int): (r: RevenueSeries)
    requires AlignedWith(base, |dau|)
    ensures AlignedWith(r, |dau|)
    ensures r.iap == base.iap && r.ad == base.ad
    ensures r.total == SaleRevenue(dau, base, m, boost, lo, hi).total
  {
    var boosted := Boosted(m, boost);
    RevenueSeries(
      base.iap,
      base.ad,
      seq(|dau|, i requires 0 <= i < |dau| => if lo <= i < hi then Iap(dau[i], boosted) + Ad(dau[i], boosted) else base.total[i]))
  }

  /**
   * In `calculate_sale_revenue` the totals are boosted but the IAP series is
   * not, so on any sale day with a non-zero boost contribution the total is
   * no longer IAP plus ad revenue.
   */
  lemma SaleTotalsOnlyBreaksDecomposition(dau: seq<real>, m: Monetization, boost: real, lo: int, hi: int, i: int)
    requires 0 <= i < |dau| && lo <= i < hi
    requires dau[i] * boost * m.averagePurchaseAmount != 0.0
    ensures var r := SaleTotalsOnly(dau, CalculateRevenue(dau, m), m, boost, lo, hi);
            r.total[i] != r.iap[i] + r.ad[i]
  {
    var x := dau[i];
    assert Iap(x, Boosted(m, boost)) == Iap(x, m) + x * boost * m.averagePurchaseAmount;
  }

  /** The `task1_d` sale loop for one variant: overwrites IAP, ad and total revenue inside the window. */
  method ApplySale(result: SimulationResult, m: Monetization, boost: real, saleStartDay: int, saleDuration: int, days: int)
    requires result.Valid() && result.dau.Length == days
    requires saleStartDay >= 1
    modifies result.iapRevenue, result.adRevenue, result.totalRevenue
    ensures result.Revenue()
         == SaleRevenue(result.dau[..], old(result.Revenue()), m, boost,
                        SaleWindow(saleStartDay, saleDuration, days).0, SaleWindow(saleStartDay, saleDuration, days).1)
  {
    var lo := saleStartDay - 1;
    var hi := Min(saleStartDay - 1 + saleDuration, days);
    var boosted := Boosted(m, boost);
    var dau, iap, ad, total := result.dau, result.iapRevenue, result.adRevenue, result.totalRevenue;
    ghost var before := result.Revenue();
    var day := lo;
    while day < hi
      invariant lo <= day && (day <= hi || day == lo)
      invariant forall k :: 0 <= k < days ==>
        iap[k] == (if lo <= k < day then Iap(dau[k], boosted) else before.iap[k])
      invariant forall k :: 0 <= k < days ==>
        ad[k] == (if lo <= k < day then Ad(dau[k], boosted) else before.ad[k])
      invariant forall k :: 0 <= k < days ==>
        total[k] == (if lo <= k < day then Iap(dau[k], boosted) + Ad(dau[k], boosted) else before.total[k])
    {
      var dauDay := dau[day];
      var purchaseRatioSale := m.purchaseRatio + boost;
      var revenueInfo := CalculateRevenue([dauDay], m.(purchaseRatio := purchaseRatioSale));
      assert revenueInfo.iap[0] == Iap(dauDay, boosted) && revenueInfo.ad[0] == Ad(dauDay, boosted);
      iap[day] := revenueInfo.iap[0];
      ad[day] := revenueInfo.ad[0];
      total[day] := revenueInfo.total[0];
      day := day + 1;
    }
    SaleRevenueFromEntries(dau[..], before, m, boost, lo, hi, iap[..], ad[..], total[..]);
  }

  /** Three series that hold the sale loop's values entry by entry are the `SaleRevenue` of the loop. */
  lemma SaleRevenueFromEntries(dau: seq<real>, before: RevenueSeries, m: Monetization, boost: real, lo: int, hi: int,
                               iap: seq<real>, ad: seq<real>, total: seq<real>)
    requires AlignedWith(before, |dau|) && |iap| == |dau| && |ad| == |dau| && |total| == |dau|
    requires forall k :: 0 <= k < |dau| ==>
      iap[k] == (if lo <= k < hi then Iap(dau[k], Boosted(m, boost)) else before.iap[k])
    requires forall k :: 0 <= k < |dau| ==>
      ad[k] == (if lo <= k < hi then Ad(dau[k], Boosted(m, boost)) else before.ad[k])
    requires forall k :: 0 <= k < |dau| ==>
      total[k] == (if lo <= k < hi then Iap(dau[k], Boosted(m, boost)) + Ad(dau[k], Boosted(m, boost)) else before.total[k])
    ensures RevenueSeries(iap, ad, total) == SaleRevenue(dau, before, m, boost, lo, hi)
  {
    var expected := SaleRevenue(dau, before, m, boost, lo, hi);
    assert iap == expected.iap;
    assert ad == expected.ad;
    assert total == expected.total;
  }

  /** The `calculate_sale_revenue` loop for one variant: overwrites only total revenue inside the window. */
  method ApplySaleTotalsOnly(result: SimulationResult, m: Monetization, boost: real, saleStartDay: int, saleDuration: int, days: int)
    requires result.Valid() && result.dau.Length == days
    requires saleStartDay >= 1
    modifies result.totalRevenue
    ensures result.Revenue()
         == SaleTotalsOnly(result.dau[..], old(result.Revenue()), m, boost,
                           SaleWindow(saleStartDay, saleDuration, days).0, SaleWindow(saleStartDay, saleDuration, days).1)
  {
    var lo := saleStartDay - 1;
    var hi := Min(saleStartDay - 1 + saleDuration, days);
    var boosted := Boosted(m, boost);
    var day := lo;
    while day < hi
      invariant lo <= day && (day <= hi || day == lo)
      invariant forall k :: 0 <= k < days ==>
        result.totalRevenue[k] == (if lo <= k < day then Iap(result.dau[k], boosted) + Ad(result.dau[k], boosted) else old(result.totalRevenue[k]))
    {
      var dauDay := result.dau[day];
      var purchaseRatioSale := m.purchaseRatio + boost;
      var revenueInfo := CalculateRevenue([dauDay], m.(purchaseRatio := purchaseRatioSale));
      result.totalRevenue[day] := revenueInfo.total[0];
      day := day + 1;
    }
    ghost var expected := SaleTotalsOnly(result.dau[..], old(result.Revenue()), m, boost, lo, hi);
    assert result.totalRevenue[..] == expected.total;
  }

  // ---------------------------------------------------------------------------
  // Winner and headline

  datatype Pick = A | B

  /** The winning variant: A only when its total is strictly greater, so a tie goes to B. */
  function Winner(totalA: real, totalB: real): (w: Pick)
    ensures w == A <==> totalA > totalB
    ensures w == B <==> totalA <= totalB
  {
    if totalA > totalB then A else B
  }

  /** `max(total_a, total_b)`: the headline figure. */
  function Headline(totalA: real, totalB: real): (h: real)
    ensures h >= totalA && h >= totalB
    ensures h == totalA || h == totalB
  {
    if totalB > totalA then totalB else totalA
  }

  /** The headline figure is always the winner's own total, ties included. */
  lemma HeadlineIsWinnersTotal(totalA: real, totalB: real)
    ensures Headline(totalA, totalB) == (if Winner(totalA, totalB) == A then totalA else totalB)
  {
  }

  // ---------------------------------------------------------------------------
  // The new user source

  /** From day 20 (1-based) the old source brings 12000 users a day and the new source 8000; before, one stream brings 20000. */
  const NewSourceStartDay: int := 20
  const DailyNewUsersOld: nat := 12000
  const DailyNewUsersNew: nat := 8000
  const DailyNewUsersBefore: nat := 20000

  /** The exponential laws of the new source's users, per variant: (base, decay). */
  const NewSourceCurveA: (real, real) := (0.58, 0.12)
  const NewSourceCurveB: (real, real) := (0.52, 0.10)

  /** The users acquired on cohort day `c` across all streams of the scenario. */
  function ScenarioInflow(c: int): nat
  {
    if c < NewSourceStartDay then DailyNewUsersBefore else DailyNewUsersOld + DailyNewUsersNew
  }

  /**
   * The switch keeps the daily inflow at 20000 on every day; so if the new
   * source retained like the old one, the scenario would be the plain
   * 20000-a-day run.
   */
  lemma NewSourceKeepsInflow(R: int -> real, d: int)
    ensures forall c :: ScenarioInflow(c) == 20000
    ensures MixedDau(R, R, DailyNewUsersOld as real, DailyNewUsersNew as real, DailyNewUsersBefore as real, NewSourceStartDay, d)
         == Dau(R, 20000.0, d)
  {
    MixedWithSameCurveIsSingleStream(R, R, DailyNewUsersOld as real, DailyNewUsersNew as real, NewSourceStartDay, d);
  }

  // ---------------------------------------------------------------------------
  // Scenario drivers

  /**
   * The computing part of `task1_d` over 30 days: the plain runs of both
   * variants, the sale runs, their summed totals and both winners. The sale
   * can only raise each variant's summed revenue.
   */
  method SaleScenario(fitter: CurveFitter, tr: Transcendentals)
    returns (totalANormal: real, totalBNormal: real, totalASale: real, totalBSale: real, winnerNormal: Pick, winnerSale: Pick)
    requires Fittable(VariantA, fitter) && Fittable(VariantB, fitter)
    ensures totalANormal == Sum(CalculateRevenue(FittedDau(VariantA, fitter, tr, 30), VariantA.Pricing()).total)
    ensures totalBNormal == Sum(CalculateRevenue(FittedDau(VariantB, fitter, tr, 30), VariantB.Pricing()).total)
    ensures totalASale
         == Sum(SaleRevenue(FittedDau(VariantA, fitter, tr, 30), CalculateRevenue(FittedDau(VariantA, fitter, tr, 30), VariantA.Pricing()),
                            VariantA.Pricing(), PurchaseRateBoost, 14, 24).total)
    ensures totalBSale
         == Sum(SaleRevenue(FittedDau(VariantB, fitter, tr, 30), CalculateRevenue(FittedDau(VariantB, fitter, tr, 30), VariantB.Pricing()),
                            VariantB.Pricing(), PurchaseRateBoost, 14, 24).total)
    ensures totalASale >= totalANormal && totalBSale >= totalBNormal
    ensures winnerNormal == Winner(totalANormal, totalBNormal)
    ensures winnerSale == Winner(totalASale, totalBSale)
  {
    var days := 30;
    var resultANormal := SimulateVariant(VariantA, fitter, tr, days);
    var resultBNormal := SimulateVariant(VariantB, fitter, tr, days);
    totalANormal := Sum(resultANormal.totalRevenue[..]);
    totalBNormal := Sum(resultBNormal.totalRevenue[..]);

    var resultASale := SimulateVariant(VariantA, fitter, tr, days);
    var resultBSale := SimulateVariant(VariantB, fitter, tr, days);
    ApplySale(resultASale, VariantA.Pricing(), PurchaseRateBoost, SaleStartDay, SaleDuration, days);
    ApplySale(resultBSale, VariantB.Pricing(), PurchaseRateBoost, SaleStartDay, SaleDuration, days);
    totalASale := Sum(resultASale.totalRevenue[..]);
    totalBSale := Sum(resultBSale.totalRevenue[..]);

    SaleWindowOfScenarios();
    SaleRaisesTotal(resultASale.dau[..], VariantA.Pricing(), PurchaseRateBoost, 14, 24);
    SaleRaisesTotal(resultBSale.dau[..], VariantB.Pricing(), PurchaseRateBoost, 14, 24);

    winnerNormal := Winner(totalANormal, totalBNormal);
    winnerSale := Winner(totalASale, totalBSale);
  }

  /**
   * `calculate_sale_revenue` of `task1_f`: both variants simulated over
   * `days` days with only their total revenue boosted inside the sale
   * window; the summed totals, the winner and the headline figure. Each
   * summed total is at least the variant's unboosted total.
   */
  method CalculateSaleRevenue(fitter: CurveFitter, tr: Transcendentals, days: nat)
    returns (totalSale: real, winnerSale: Pick, totalA: real, totalB: real, resultA: SimulationResult, resultB: SimulationResult)
    requires Fittable(VariantA, fitter) && Fittable(VariantB, fitter)
    ensures resultA.Valid() && resultB.Valid() && resultA.dau.Length == days && resultB.dau.Length == days
    ensures forall i :: 0 <= i < days ==>
      resultA.dau[i] == Dau(VariantCurve(VariantA, fitter, tr), VariantA.dailyNewUsers as real, i + 1)
    ensures forall i :: 0 <= i < days ==>
      resultB.dau[i] == Dau(VariantCurve(VariantB, fitter, tr), VariantB.dailyNewUsers as real, i + 1)
    ensures resultA.Revenue()
         == SaleTotalsOnly(resultA.dau[..], CalculateRevenue(resultA.dau[..], VariantA.Pricing()), VariantA.Pricing(),
                           PurchaseRateBoost, SaleWindow(SaleStartDay, SaleDuration, days).0, SaleWindow(SaleStartDay, SaleDuration, days).1)
    ensures resultB.Revenue()
         == SaleTotalsOnly(resultB.dau[..], CalculateRevenue(resultB.dau[..], VariantB.Pricing()), VariantB.Pricing(),
                           PurchaseRateBoost, SaleWindow(SaleStartDay, SaleDuration, days).0, SaleWindow(SaleStartDay, SaleDuration, days).1)
    ensures totalA == Sum(resultA.totalRevenue[..]) && totalB == Sum(resultB.totalRevenue[..])
    ensures totalA >= Sum(CalculateRevenue(resultA.dau[..], VariantA.Pricing()).total)
    ensures totalB >= Sum(CalculateRevenue(resultB.dau[..], VariantB.Pricing()).total)
    ensures winnerSale == Winner(totalA, totalB) && totalSale == Headline(totalA, totalB)
  {
    resultA := SimulateVariant(VariantA, fitter, tr, days);
    resultB := SimulateVariant(VariantB, fitter, tr, days);
    ApplySaleTotalsOnly(resultA, VariantA.Pricing(), PurchaseRateBoost, SaleStartDay, SaleDuration, days);
    ApplySaleTotalsOnly(resultB, VariantB.Pricing(), PurchaseRateBoost, SaleStartDay, SaleDuration, days);
    totalA := Sum(resultA.totalRevenue[..]);
    totalB := Sum(resultB.totalRevenue[..]);
    var w := SaleWindow(SaleStartDay, SaleDuration, days);
    SaleRaisesTotal(resultA.dau[..], VariantA.Pricing(), PurchaseRateBoost, w.0, w.1);
    SaleRaisesTotal(resultB.dau[..], VariantB.Pricing(), PurchaseRateBoost, w.0, w.1);
    winnerSale := Winner(totalA, totalB);
    totalSale := Headline(totalA, totalB);
  }

  /**
   * `calculate_new_source_revenue` of `task1_f`: each variant's fitted
   * curve carries the 20000-a-day stream before day 20 and the 12000
   * old-source users after it, while the 8000 new-source users follow the
   * variant's exponential law; the revenue of that DAU, the summed totals,
   * the winner and the headline figure.
   */
  method NewSourceRevenue(fitter: CurveFitter, tr: Transcendentals, days: nat)
    returns (totalNewSource: real, winnerNewSource: Pick, totalA: real, totalB: real, resultA: SimulationResult, resultB: SimulationResult)
    requires Fittable(VariantA, fitter) && Fittable(VariantB, fitter)
    ensures resultA.Valid() && resultB.Valid() && resultA.dau.Length == days && resultB.dau.Length == days
    ensures forall i :: 0 <= i < days ==>
      resultA.dau[i] == MixedDau(VariantCurve(VariantA, fitter, tr), ExponentialCurve(tr, NewSourceCurveA.0, NewSourceCurveA.1),
                                 DailyNewUsersOld as real, DailyNewUsersNew as real, DailyNewUsersBefore as real, NewSourceStartDay, i + 1)
    ensures forall i :: 0 <= i < days ==>
      resultB.dau[i] == MixedDau(VariantCurve(VariantB, fitter, tr), ExponentialCurve(tr, NewSourceCurveB.0, NewSourceCurveB.1),
                                 DailyNewUsersOld as real, DailyNewUsersNew as real, DailyNewUsersBefore as real, NewSourceStartDay, i + 1)
    ensures resultA.Revenue() == CalculateRevenue(resultA.dau[..], VariantA.Pricing())
    ensures resultB.Revenue() == CalculateRevenue(resultB.dau[..], VariantB.Pricing())
    ensures totalA == Sum(resultA.totalRevenue[..]) && totalB == Sum(resultB.totalRevenue[..])
    ensures winnerNewSource == Winner(totalA, totalB) && totalNewSource == Headline(totalA, totalB)
  {
    var modelAOld := new RetentionModel(VariantA.retentionPoints, None, fitter);
    var modelBOld := new RetentionModel(VariantB.retentionPoints, None, fitter);
    var dauANew := CalculateDauWithMixedSources(modelAOld.Curve(tr), ExponentialCurve(tr, NewSourceCurveA.0, NewSourceCurveA.1),
                                                DailyNewUsersOld as real, DailyNewUsersNew as real, days,
                                                NewSourceStartDay, Some(DailyNewUsersBefore as real));
    var dauBNew := CalculateDauWithMixedSources(modelBOld.Curve(tr), ExponentialCurve(tr, NewSourceCurveB.0, NewSourceCurveB.1),
                                                DailyNewUsersOld as real, DailyNewUsersNew as real, days,
                                                NewSourceStartDay, Some(DailyNewUsersBefore as real));
    var revenueInfoANew := CalculateRevenue(dauANew[..], VariantA.Pricing());
    var revenueInfoBNew := CalculateRevenue(dauBNew[..], VariantB.Pricing());
    totalA := Sum(revenueInfoANew.total);
    totalB := Sum(revenueInfoBNew.total);
    winnerNewSource := Winner(totalA, totalB);
    totalNewSource := Headline(totalA, totalB);
    resultA := new SimulationResult(dauANew, revenueInfoANew);
    resultB := new SimulationResult(dauBNew, revenueInfoBNew);
  }
}
