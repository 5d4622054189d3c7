/**
 * Revenue projection (`calculate_revenue` in task1/simulation.py): daily
 * active users become in-app-purchase revenue, ad revenue and their total,
 * day by day.
 */
module Revenue {

  /** The monetization parameters of one variant. */
  datatype Monetization = Monetization(
    purchaseRatio: real,
    ecpm: real,
    adImpressionsPerDau: real,
    averagePurchaseAmount: real)

  /** In-app-purchase revenue of one day: DAU x purchase ratio x average purchase. */
  function Iap(dau: real, m: Monetization): real
  {
    dau * m.purchaseRatio * m.averagePurchaseAmount
  }

  /** Ad revenue of one day: impressions (DAU x impressions per DAU) per thousand, times eCPM. */
  function Ad(dau: real, m: Monetization): real
  {
    (dau * m.adImpressionsPerDau / 1000.0) * m.ecpm
  }

  /** Three series aligned day by day with a DAU series. */
  datatype RevenueSeries = RevenueSeries(iap: seq<real>, ad: seq<real>, total: seq<real>)

  /** All three series have length `n`. */
  predicate AlignedWith(r: RevenueSeries, n: int)
  {
    |r.iap| == n && |r.ad| == n && |r.total| == n
  }

  /** Every day's total is that day's IAP plus ad revenue. */
  predicate Decomposes(r: RevenueSeries)
  {
    && |r.iap| == |r.total| && |r.ad| == |r.total|
    && forall i :: 0 <= i < |r.total| ==> r.total[i] == r.iap[i] + r.ad[i]
  }

  /** `calculate_revenue`: the element-by-element revenue of a DAU series. */
  function CalculateRevenue(dau: seq<real>, m: Monetization): (r: RevenueSeries)
    ensures AlignedWith(r, |dau|)
    ensures Decomposes(r)
    ensures forall i :: 0 <= i < |dau| ==> r.iap[i] == Iap(dau[i], m) && r.ad[i] == Ad(dau[i], m)
  {
    var iap := seq(|dau|, i requires 0 <= i < |dau| => Iap(dau[i], m));
    var ad := seq(|dau|, i requires 0 <= i < |dau| => Ad(dau[i], m));
    RevenueSeries(iap, ad, seq(|dau|, i requires 0 <= i < |dau| => iap[i] + ad[i]))
  }

  /** `np.sum`: the sum of a series. */
  function Sum(s: seq<real>): real
  {
    if s == [] then 0.0 else Sum(s[..|s| - 1]) + s[|s| - 1]
  }

  /** A series that is pointwise no larger has no larger sum. */
  lemma {:induction false} SumMonotone(s: seq<real>, t: seq<real>)
    requires |s| == |t|
    requires forall i :: 0 <= i < |s| ==> s[i] <= t[i]
    ensures Sum(s) <= Sum(t)
  {
    if s != [] {
      SumMonotone(s[..|s| - 1], t[..|t| - 1]);
    }
  }

  /** The summed total of a decomposed series is the summed IAP plus the summed ad revenue. */
  lemma {:induction false} SumDecomposes(r: RevenueSeries)
    requires Decomposes(r)
    ensures Sum(r.total) == Sum(r.iap) + Sum(r.ad)
    decreases |r.total|
  {
    if r.total != [] {
      var n := |r.total| - 1;
      SumDecomposes(RevenueSeries(r.iap[..n], r.ad[..n], r.total[..n]));
    }
  }

  /** With non-negative DAU and parameters, every revenue entry is non-negative. */
  lemma RevenueNonNegative(dau: seq<real>, m: Monetization)
    requires forall i :: 0 <= i < |dau| ==> dau[i] >= 0.0
    requires m.purchaseRatio >= 0.0 && m.ecpm >= 0.0 && m.adImpressionsPerDau >= 0.0 && m.averagePurchaseAmount >= 0.0
    ensures forall i :: 0 <= i < |dau| ==>
      CalculateRevenue(dau, m).iap[i] >= 0.0 && CalculateRevenue(dau, m).ad[i] >= 0.0 && CalculateRevenue(dau, m).total[i] >= 0.0
  {
    forall i | 0 <= i < |dau|
      ensures Iap(dau[i], m) >= 0.0 && Ad(dau[i], m) >= 0.0
    {
      var x := dau[i];
      assert x * m.purchaseRatio >= 0.0;
      assert x * m.adImpressionsPerDau >= 0.0;
    }
  }

  /** Revenue is linear in DAU: scaling every day's DAU by `k` scales every revenue entry by `k`. */
  lemma RevenueScales(dau: seq<real>, k: real, m: Monetization)
    ensures var scaled := seq(|dau|, i requires 0 <= i < |dau| => k * dau[i]);
            forall i :: 0 <= i < |dau| ==>
              && CalculateRevenue(scaled, m).iap[i] == k * CalculateRevenue(dau, m).iap[i]
              && CalculateRevenue(scaled, m).ad[i] == k * CalculateRevenue(dau, m).ad[i]
              && CalculateRevenue(scaled, m).total[i] == k * CalculateRevenue(dau, m).total[i]
  {
    var scaled := seq(|dau|, i requires 0 <= i < |dau| => k * dau[i]);
    forall i | 0 <= i < |dau|
      ensures Iap(scaled[i], m) == k * Iap(dau[i], m) && Ad(scaled[i], m) == k * Ad(dau[i], m)
    {
      var x := dau[i];
      assert (k * x) * m.purchaseRatio * m.averagePurchaseAmount == k * (x * m.purchaseRatio * m.averagePurchaseAmount);
      assert ((k * x) * m.adImpressionsPerDau / 1000.0) * m.ecpm == k * ((x * m.adImpressionsPerDau / 1000.0) * m.ecpm);
    }
  }
}
