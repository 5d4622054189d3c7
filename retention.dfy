/**
 * Retention curves (task1/retention_model.py, and the clamping rule shared by
 * `exponential_retention` in task1/simulation.py).
 *
 * A retention curve maps a "days since cohort" count to the fraction of that
 * cohort still active. The raw formulas need `t ** b` and `e ** x`, which Dafny
 * does not have; they are evaluated with a `Transcendentals` value whose two
 * functions the model leaves uninterpreted. Only the clamping around them is
 * verified.
 */
module Retention {
  import opened Wrappers

  /** The real power and exponential functions, as uninterpreted parameters. */
  datatype Transcendentals = Transcendentals(pow: (real, real) -> real, exp: real -> real)

  /** A day -> rate function whose every value is a fraction in [0, 1]. */
  ghost predicate IsRetentionCurve(R: int -> real)
  {
    forall d :: 0.0 <= R(d) <= 1.0
  }

  /** `max(0.0, min(1.0, x))`: the clamp both curve kinds apply to their raw value. */
  function Clamp01(x: real): (r: real)
    ensures 0.0 <= r <= 1.0
    ensures 0.0 <= x <= 1.0 ==> r == x
    ensures x < 0.0 ==> r == 0.0
    ensures x > 1.0 ==> r == 1.0
  {
    var upper := if 1.0 < x then 1.0 else x;
    if 0.0 < upper then upper else 0.0
  }

  /** The power law `a * t^b`; a zero amplitude (the lower fit bound) is the zero curve. */
  function PowerLaw(tr: Transcendentals, t: real, a: real, b: real): (r: real)
    ensures a == 0.0 ==> r == 0.0
  {
    a * tr.pow(t, b)
  }

  /**
   * `get_retention` of a model with parameters (a, b): zero for a day that is
   * not positive, otherwise the power law clamped into [0, 1].
   */
  function PowerLawRetention(tr: Transcendentals, a: real, b: real, day: int): (r: real)
    ensures 0.0 <= r <= 1.0
    ensures day <= 0 ==> r == 0.0
    ensures day > 0 && 0.0 <= PowerLaw(tr, day as real, a, b) <= 1.0 ==> r == PowerLaw(tr, day as real, a, b)
    ensures day > 0 && PowerLaw(tr, day as real, a, b) > 1.0 ==> r == 1.0
    ensures day > 0 && PowerLaw(tr, day as real, a, b) < 0.0 ==> r == 0.0
  {
    if day <= 0 then 0.0 else Clamp01(PowerLaw(tr, day as real, a, b))
  }

  /** The fitted curve as the day -> rate function the cohort engine consumes. */
  function PowerLawCurve(tr: Transcendentals, a: real, b: real): (R: int -> real)
    ensures IsRetentionCurve(R)
    ensures forall d :: d <= 0 ==> R(d) == 0.0
    ensures forall d :: R(d) == PowerLawRetention(tr, a, b, d)
  {
    d => PowerLawRetention(tr, a, b, d)
  }

  /** Observation days assumed when the caller supplies none. */
  const DefaultObservationDays: seq<int> := [1, 3, 7, 14]

  /** The initial guess for the exponent. */
  const InitialB: real := -0.5

  /** The observation days actually used: the caller's, or the defaults. */
  function ObservationDays(days: Option<seq<int>>): (r: seq<int>)
    ensures days.None? ==> r == DefaultObservationDays
    ensures days.Some? ==> r == days.value
  {
    GetOr(days, DefaultObservationDays)
  }

  /** The initial guess for the amplitude: the first observed rate when positive, else 0.5. */
  function InitialA(points: seq<real>): (a0: real)
    requires |points| > 0
    ensures a0 > 0.0
    ensures points[0] > 0.0 ==> a0 == points[0]
    ensures points[0] <= 0.0 ==> a0 == 0.5
  {
    if points[0] > 0.0 then points[0] else 0.5
  }

  /** What the bounded least-squares search reports. */
  datatype FitOutcome = Converged(a: real, b: real) | Failed

  /**
   * The bounded least-squares search, left abstract: it is given the
   * observation days, the observed rates and the initial guess (a0, b0).
   */
  type CurveFitter = (seq<int>, seq<real>, real, real) -> FitOutcome

  /** The search box `a in [0, 2]`, `b in [-2, 0]`. */
  predicate WithinFitBounds(a: real, b: real)
  {
    0.0 <= a <= 2.0 && -2.0 <= b <= 0.0
  }

  /** What the search promises: a converged answer lies inside the search box. */
  predicate RespectsBounds(outcome: FitOutcome)
  {
    outcome.Converged? ==> WithinFitBounds(outcome.a, outcome.b)
  }

  /** The answer of `fitter` for these observations, started from the initial guess. */
  function RunFitter(fitter: CurveFitter, days: seq<int>, points: seq<real>): FitOutcome
    requires |points| > 0
  {
    fitter(days, points, InitialA(points), InitialB)
  }

  /**
   * The parameters a model ends up with: the fitter's answer, or the initial
   * guess when the fit fails. Either way a usable curve results.
   */
  function FitParameters(fitter: CurveFitter, days: seq<int>, points: seq<real>): (ab: (real, real))
    requires |points| > 0
    requires RespectsBounds(RunFitter(fitter, days, points))
    ensures RunFitter(fitter, days, points).Failed? ==> ab == (InitialA(points), InitialB)
    ensures RunFitter(fitter, days, points).Converged? ==> WithinFitBounds(ab.0, ab.1)
    ensures ab.0 >= 0.0 && ab.1 <= 0.0
  {
    match RunFitter(fitter, days, points)
    case Converged(a, b) => (a, b)
    case Failed => (InitialA(points), InitialB)
  }

  /** `RetentionModel`: the observations and the two power-law parameters fixed at construction. */
  class RetentionModel {
    const retentionPoints: seq<real>
    const days: seq<int>
    const a: real
    const b: real

    /**
     * Fits the power law to the observations; a failed fit falls back to the
     * initial guess and construction still succeeds. `__init__` reads the
     * first observed rate before fitting, so at least one is required.
     */
    constructor (retentionPoints: seq<real>, days: Option<seq<int>>, fitter: CurveFitter)
      requires |retentionPoints| > 0
      requires RespectsBounds(RunFitter(fitter, ObservationDays(days), retentionPoints))
      ensures this.retentionPoints == retentionPoints
      ensures this.days == ObservationDays(days)
      ensures days.None? ==> this.days == [1, 3, 7, 14]
      ensures (a, b) == FitParameters(fitter, ObservationDays(days), retentionPoints)
      ensures match RunFitter(fitter, ObservationDays(days), retentionPoints)
              case Converged(fa, fb) => a == fa && b == fb && WithinFitBounds(a, b)
              case Failed => a == InitialA(retentionPoints) && b == -0.5
    {
      var observationDays := ObservationDays(days);
      this.retentionPoints := retentionPoints;
      this.days := observationDays;
      var initialA := InitialA(retentionPoints);
      var initialB := InitialB;
      var outcome := fitter(observationDays, retentionPoints, initialA, initialB);
      match outcome {
        case Converged(fa, fb) =>
          a, b := fa, fb;
        case Failed =>
          a := if retentionPoints[0] > 0.0 then retentionPoints[0] else 0.5;
          b := -0.5;
      }
    }

    /** `get_retention`: this model's power law, zero on non-positive days, clamped into [0, 1]. */
    function GetRetention(tr: Transcendentals, day: int): (r: real)
      ensures 0.0 <= r <= 1.0
      ensures day <= 0 ==> r == 0.0
      ensures r == PowerLawRetention(tr, a, b, day)
    {
      PowerLawRetention(tr, a, b, day)
    }

    /** `get_retention_array`: the rate of every requested day, in order. */
    function GetRetentionArray(tr: Transcendentals, days: seq<int>): (r: seq<real>)
      ensures |r| == |days|
      ensures forall i :: 0 <= i < |days| ==> r[i] == GetRetention(tr, days[i])
      ensures forall i :: 0 <= i < |r| ==> 0.0 <= r[i] <= 1.0
    {
      seq(|days|, i requires 0 <= i < |days| => GetRetention(tr, days[i]))
    }

    /** This model as the day -> rate function the cohort engine consumes. */
    function Curve(tr: Transcendentals): (R: int -> real)
      ensures IsRetentionCurve(R)
      ensures forall d :: R(d) == GetRetention(tr, d)
    {
      PowerLawCurve(tr, a, b)
    }
  }
}
