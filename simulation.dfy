/**
 * One variant's projection (`simulate_variant` and `exponential_retention` in
 * task1/simulation.py, over the variant records of task1/config.py).
 */
module Simulation {
  import opened Wrappers
  import opened Retention
  import opened Cohort
  import opened Revenue

  /** The raw exponential law `base * e^(-decay * (day - 1))`. */
  function ExponentialLaw(tr: Transcendentals, day: int, base: real, decay: real): (r: real)
    ensures base == 0.0 ==> r == 0.0
  {
    base * tr.exp(-decay * (day - 1) as real)
  }

  /**
   * `exponential_retention`: zero for a day that is not positive, otherwise
   * the exponential law clamped into [0, 1].
   */
  function ExponentialRetention(tr: Transcendentals, day: int, base: real, decay: real): (r: real)
    ensures 0.0 <= r <= 1.0
    ensures day <= 0 ==> r == 0.0
    ensures day > 0 && 0.0 <= ExponentialLaw(tr, day, base, decay) <= 1.0 ==> r == ExponentialLaw(tr, day, base, decay)
    ensures day > 0 && ExponentialLaw(tr, day, base, decay) > 1.0 ==> r == 1.0
    ensures day > 0 && ExponentialLaw(tr, day, base, decay) < 0.0 ==> r == 0.0
  {
    if day <= 0 then 0.0 else Clamp01(ExponentialLaw(tr, day, base, decay))
  }

  /** An exponential law as the day -> rate function the cohort engine consumes. */
  function ExponentialCurve(tr: Transcendentals, base: real, decay: real): (R: int -> real)
    ensures IsRetentionCurve(R)
    ensures forall d :: d <= 0 ==> R(d) == 0.0
    ensures forall d :: R(d) == ExponentialRetention(tr, d, base, decay)
  {
    d => ExponentialRetention(tr, d, base, decay)
  }

  /** A product variant: its observed retention and its monetization parameters. */
  datatype VariantConfig = VariantConfig(
    name: string,
    retentionPoints: seq<real>,
    dailyPurchaseRatio: real,
    ecpm: real,
    adImpressionsPerDau: real,
    dailyNewUsers: nat,
    averagePurchaseAmount: real)
  {
    /** The monetization parameters `calculate_revenue` is called with. */
    function Pricing(): Monetization
    {
      Monetization(dailyPurchaseRatio, ecpm, adImpressionsPerDau, averagePurchaseAmount)
    }
  }

  const VariantA: VariantConfig := VariantConfig("Variant A", [0.53, 0.27, 0.17, 0.06], 0.0305, 9.80, 2.3, 20000, 1.0)
  const VariantB: VariantConfig := VariantConfig("Variant B", [0.48, 0.25, 0.19, 0.09], 0.0315, 10.80, 1.6, 20000, 1.0)

  /** The variant can be fitted: it has observations and the fitter keeps to its bounds on them. */
  predicate Fittable(config: VariantConfig, fitter: CurveFitter)
  {
    |config.retentionPoints| > 0 && RespectsBounds(RunFitter(fitter, DefaultObservationDays, config.retentionPoints))
  }

  /** The retention curve a variant's model ends up with (default observation days). */
  function VariantCurve(config: VariantConfig, fitter: CurveFitter, tr: Transcendentals): (R: int -> real)
    requires Fittable(config, fitter)
    ensures IsRetentionCurve(R)
  {
    var ab := FitParameters(fitter, DefaultObservationDays, config.retentionPoints);
    PowerLawCurve(tr, ab.0, ab.1)
  }

  /** The DAU series `simulate_variant` computes for a variant over `days` days: entry i is day i+1. */
  function FittedDau(config: VariantConfig, fitter: CurveFitter, tr: Transcendentals, days: nat): (dau: seq<real>)
    requires Fittable(config, fitter)
    ensures |dau| == days
    ensures forall i :: 0 <= i < days ==> dau[i] == Dau(VariantCurve(config, fitter, tr), config.dailyNewUsers as real, i + 1)
  {
    seq(days, i requires 0 <= i < days => Dau(VariantCurve(config, fitter, tr), config.dailyNewUsers as real, i + 1))
  }

  /** The dictionary `simulate_variant` returns: the DAU array and the three revenue arrays. */
  class SimulationResult {
    const dau: array<real>
    const iapRevenue: array<real>
    const adRevenue: array<real>
    const totalRevenue: array<real>

    /** Four distinct arrays of one length. */
    ghost predicate Valid()
    {
      && iapRevenue.Length == dau.Length && adRevenue.Length == dau.Length && totalRevenue.Length == dau.Length
      && dau != iapRevenue && dau != adRevenue && dau != totalRevenue
      && iapRevenue != adRevenue && iapRevenue != totalRevenue && adRevenue != totalRevenue
    }

    ghost function Arrays(): set<object>
    {
      {dau, iapRevenue, adRevenue, totalRevenue}
    }

    /** The current contents of the three revenue arrays. */
    function Revenue(): RevenueSeries
      reads iapRevenue, adRevenue, totalRevenue
    {
      RevenueSeries(iapRevenue[..], adRevenue[..], totalRevenue[..])
    }

    /** Holds `dau` itself and fresh arrays with the contents of `revenue`. */
    constructor (dau: array<real>, revenue: RevenueSeries)
      requires AlignedWith(revenue, dau.Length)
      ensures Valid() && this.dau == dau
      ensures fresh(iapRevenue) && fresh(adRevenue) && fresh(totalRevenue)
      ensures Revenue() == revenue
    {
      this.dau := dau;
      iapRevenue := new real[dau.Length](i requires 0 <= i < |revenue.iap| => revenue.iap[i]);
      adRevenue := new real[dau.Length](i requires 0 <= i < |revenue.ad| => revenue.ad[i]);
      totalRevenue := new real[dau.Length](i requires 0 <= i < |revenue.total| => revenue.total[i]);
      new;
      assert iapRevenue[..] == revenue.iap;
      assert adRevenue[..] == revenue.ad;
      assert totalRevenue[..] == revenue.total;
    }
  }

  /**
   * `simulate_variant`: fits the variant's retention model, computes its DAU
   * over `days` days and the revenue of that DAU.
   */
  method SimulateVariant(config: VariantConfig, fitter: CurveFitter, tr: Transcendentals, days: nat)
    returns (result: SimulationResult)
    requires Fittable(config, fitter)
    ensures result.Valid() && fresh(result) && fresh(result.Arrays())
    ensures result.dau.Length == days
    ensures forall i :: 0 <= i < days ==>
      result.dau[i] == Dau(VariantCurve(config, fitter, tr), config.dailyNewUsers as real, i + 1)
    ensures forall i :: 0 <= i < days ==> 0.0 <= result.dau[i] <= (config.dailyNewUsers * (i + 1)) as real
    ensures result.Revenue() == CalculateRevenue(result.dau[..], config.Pricing())
    ensures result.dau[..] == FittedDau(config, fitter, tr, days)
  {
    var model := new RetentionModel(config.retentionPoints, None, fitter);
    var dau := CalculateDau(model.Curve(tr), config.dailyNewUsers as real, days);
    forall i | 0 <= i < days
      ensures 0.0 <= dau[i] <= (config.dailyNewUsers * (i + 1)) as real
    {
      DauBounds(VariantCurve(config, fitter, tr), config.dailyNewUsers as real, i + 1);
    }
    var revenue := CalculateRevenue(dau[..], config.Pricing());
    result := new SimulationResult(dau, revenue);
    assert result.dau[..] == FittedDau(config, fitter, tr, days);
  }
}
