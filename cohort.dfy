/**
 * Cohort superposition (`calculate_dau` and `calculate_dau_with_mixed_sources`
 * in task1/simulation.py).
 *
 * A cohort is the group of users acquired on one day `c`. On day `d >= c` it
 * contributes `n * R(d - c + 1)` active users: its own acquisition day counts
 * as retention day 1. Daily active users are the sum over all cohorts so far.
 */
module Cohort {
  import opened Wrappers
  import opened Retention

  /**
   * The users still active on day `d` out of the cohorts acquired on days
   * `lo .. hi - 1`, `n` users each, summed in order of cohort day.
   */
  function CohortSum(R: int -> real, n: real, d: int, lo: int, hi: int): real
    decreases hi - lo
  {
    if hi <= lo then 0.0 else CohortSum(R, n, d, lo, hi - 1) + n * R(d - (hi - 1) + 1)
  }

  /** DAU of a single stream on day `d` (1-based): every cohort of days 1 .. d. */
  function Dau(R: int -> real, n: real, d: int): real
  {
    CohortSum(R, n, d, 1, d + 1)
  }

  /** `R(1) + ... + R(k)`: the expected active days of one user over their first `k` days. */
  function CumulativeRetention(R: int -> real, k: int): real
    decreases k
  {
    if k <= 0 then 0.0 else CumulativeRetention(R, k - 1) + R(k)
  }

  function Min(x: int, y: int): int
  {
    if x < y then x else y
  }

  /** The per-day inflow before the switch: the given count, or `old + new` when none is given. */
  function BeforeSwitchCount(nOld: real, nNew: real, nBefore: Option<real>): (r: real)
    ensures nBefore.None? ==> r == nOld + nNew
    ensures nBefore.Some? ==> r == nBefore.value
  {
    GetOr(nBefore, nOld + nNew)
  }

  /**
   * DAU on day `d` when acquisition switches on day `s`: cohorts before `s`
   * arrive at `nBefore` per day under the old curve; from `s` on, each day
   * brings `nOld` users under the old curve and `nNew` under the new one.
   */
  function MixedDau(Rold: int -> real, Rnew: int -> real, nOld: real, nNew: real, nBefore: real, s: int, d: int): real
  {
    CohortSum(Rold, nBefore, d, 1, Min(s, d + 1))
    + (if d >= s then CohortSum(Rold, nOld, d, s, d + 1) + CohortSum(Rnew, nNew, d, s, d + 1) else 0.0)
  }

  // ---------------------------------------------------------------------------
  // Properties of cohort sums

  /** A range of cohorts splits at any midpoint. */
  lemma {:induction false} CohortSumSplit(R: int -> real, n: real, d: int, lo: int, mid: int, hi: int)
    requires lo <= mid <= hi
    ensures CohortSum(R, n, d, lo, hi) == CohortSum(R, n, d, lo, mid) + CohortSum(R, n, d, mid, hi)
    decreases hi - mid
  {
    if hi > mid {
      CohortSumSplit(R, n, d, lo, mid, hi - 1);
    }
  }

  /** Moving the observation day and every cohort day by `k` leaves the sum unchanged. */
  lemma {:induction false} CohortSumShift(R: int -> real, n: real, d: int, lo: int, hi: int, k: int)
    ensures CohortSum(R, n, d + k, lo + k, hi + k) == CohortSum(R, n, d, lo, hi)
    decreases hi - lo
  {
    if hi > lo {
      CohortSumShift(R, n, d, lo, hi - 1, k);
    }
  }

  /** Scaling the per-day inflow by `k` scales a cohort sum by `k`. */
  lemma {:induction false} CohortSumScale(R: int -> real, n: real, k: real, d: int, lo: int, hi: int)
    ensures CohortSum(R, k * n, d, lo, hi) == k * CohortSum(R, n, d, lo, hi)
    decreases hi - lo
  {
    if hi > lo {
      CohortSumScale(R, n, k, d, lo, hi - 1);
      var x := R(d - (hi - 1) + 1);
      assert (k * n) * x == k * (n * x);
    }
  }

  /** Two inflows under the same curve add up to their combined inflow. */
  lemma {:induction false} CohortSumAdd(R: int -> real, n1: real, n2: real, d: int, lo: int, hi: int)
    ensures CohortSum(R, n1 + n2, d, lo, hi) == CohortSum(R, n1, d, lo, hi) + CohortSum(R, n2, d, lo, hi)
    decreases hi - lo
  {
    if hi > lo {
      CohortSumAdd(R, n1, n2, d, lo, hi - 1);
      var x := R(d - (hi - 1) + 1);
      assert (n1 + n2) * x == n1 * x + n2 * x;
    }
  }

  /**
   * A sum over cohorts acquired no later than the observation day only reads
   * the curve on positive ages: two curves that agree from day 1 on give the
   * same sum, whatever they say about day 0.
   */
  lemma {:induction false} CohortSumReadsPositiveAges(R1: int -> real, R2: int -> real, n: real, d: int, lo: int, hi: int)
    requires hi <= d + 1
    requires forall k :: k >= 1 ==> R1(k) == R2(k)
    ensures CohortSum(R1, n, d, lo, hi) == CohortSum(R2, n, d, lo, hi)
    decreases hi - lo
  {
    if hi > lo {
      CohortSumReadsPositiveAges(R1, R2, n, d, lo, hi - 1);
    }
  }

  /** With rates in [0, 1], one user per cohort day leaves between 0 and 1 active user per cohort. */
  lemma {:induction false} UnitCohortSumBounds(R: int -> real, d: int, lo: int, hi: int)
    requires IsRetentionCurve(R)
    requires lo <= hi
    ensures 0.0 <= CohortSum(R, 1.0, d, lo, hi) <= (hi - lo) as real
    decreases hi - lo
  {
    if hi > lo {
      UnitCohortSumBounds(R, d, lo, hi - 1);
      assert 0.0 <= R(d - (hi - 1) + 1) <= 1.0;
    }
  }

  /** With rates in [0, 1] and a non-negative inflow, `hi - lo` cohorts add up to between 0 and `n` each. */
  lemma CohortSumBounds(R: int -> real, n: real, d: int, lo: int, hi: int)
    requires IsRetentionCurve(R)
    requires n >= 0.0
    requires lo <= hi
    ensures 0.0 <= CohortSum(R, n, d, lo, hi) <= n * (hi - lo) as real
  {
    UnitCohortSumBounds(R, d, lo, hi);
    CohortSumScale(R, 1.0, n, d, lo, hi);
    assert n * 1.0 == n;
    ScaledBetween(n, CohortSum(R, 1.0, d, lo, hi), (hi - lo) as real);
  }

  /** A non-negative factor keeps a value between 0 and a bound between 0 and the scaled bound. */
  lemma ScaledBetween(n: real, u: real, w: real)
    requires n >= 0.0 && 0.0 <= u <= w
    ensures 0.0 <= n * u <= n * w
  {
    assert n * w - n * u == n * (w - u);
  }

  /** The cohorts acquired on days `s .. d` together contribute `n` times the cumulative retention of their ages `1 .. d - s + 1`. */
  lemma {:induction false} CohortSumFromStart(R: int -> real, n: real, d: int, s: int)
    requires s <= d + 1
    ensures CohortSum(R, n, d, s, d + 1) == n * CumulativeRetention(R, d - s + 1)
    decreases d - s
  {
    if s <= d {
      // Drop the oldest cohort (day s, age d - s + 1); the rest are the same
      // ages seen from day d - 1 with cohorts shifted back by one day.
      CohortSumSplit(R, n, d, s, s + 1, d + 1);
      CohortSumShift(R, n, d - 1, s, d, 1);
      CohortSumFromStart(R, n, d - 1, s);
      assert CohortSum(R, n, d, s, s + 1) == n * R(d - s + 1);
    }
  }

  // ---------------------------------------------------------------------------
  // Single-stream DAU

  /** Day `d`'s DAU is the inflow times the cumulative retention of ages 1 .. d: day 0 is never read. */
  lemma DauIsScaledCumulativeRetention(R: int -> real, n: real, d: int)
    requires d >= 0
    ensures Dau(R, n, d) == n * CumulativeRetention(R, d)
  {
    CohortSumFromStart(R, n, d, 1);
  }

  /** Consecutive days differ by the newest age: `dau[d] - dau[d-1] == n * R(d + 1)`. */
  lemma DauStep(R: int -> real, n: real, d: int)
    requires d >= 0
    ensures Dau(R, n, d + 1) == Dau(R, n, d) + n * R(d + 1)
  {
    DauIsScaledCumulativeRetention(R, n, d);
    DauIsScaledCumulativeRetention(R, n, d + 1);
  }

  /** With rates in [0, 1] and a non-negative inflow, DAU never decreases from one day to the next. */
  lemma DauNonDecreasing(R: int -> real, n: real, d: int)
    requires IsRetentionCurve(R)
    requires n >= 0.0
    requires d >= 0
    ensures Dau(R, n, d) <= Dau(R, n, d + 1)
  {
    DauStep(R, n, d);
    var x := R(d + 1);
    assert 0.0 <= x;
    assert 0.0 <= n * x;
  }

  /** With rates in [0, 1] and a non-negative inflow, `0 <= dau[d-1] <= n * d`. */
  lemma DauBounds(R: int -> real, n: real, d: int)
    requires IsRetentionCurve(R)
    requires n >= 0.0
    requires d >= 0
    ensures 0.0 <= Dau(R, n, d) <= n * d as real
  {
    CohortSumBounds(R, n, d, 1, d + 1);
  }

  /** Scaling the daily inflow by `k` scales every day's DAU by `k`. */
  lemma DauScales(R: int -> real, n: real, k: real, d: int)
    ensures Dau(R, k * n, d) == k * Dau(R, n, d)
  {
    CohortSumScale(R, n, k, d, 1, d + 1);
  }

  /** The cohort acquired on day `d` itself is at retention day 1 (never day 0). */
  lemma SameDayCohortIsDayOne(R: int -> real, n: real, d: int)
    requires d >= 1
    ensures Dau(R, n, d) == CohortSum(R, n, d, 1, d) + n * R(1)
  {
  }

  /** Curves that agree on every positive day give the same DAU series. */
  lemma DauReadsPositiveAges(R1: int -> real, R2: int -> real, n: real, d: int)
    requires forall k :: k >= 1 ==> R1(k) == R2(k)
    ensures Dau(R1, n, d) == Dau(R2, n, d)
  {
    CohortSumReadsPositiveAges(R1, R2, n, d, 1, d + 1);
  }

  // ---------------------------------------------------------------------------
  // Regime switch

  /** Before the switch day the mixed series is the single-stream series at the "before" inflow under the old curve. */
  lemma MixedBeforeSwitch(Rold: int -> real, Rnew: int -> real, nOld: real, nNew: real, nBefore: real, s: int, d: int)
    requires d < s
    ensures MixedDau(Rold, Rnew, nOld, nNew, nBefore, s, d) == Dau(Rold, nBefore, d)
  {
  }

  /**
   * From the switch day on, the pre-switch cohorts keep contributing at the
   * "before" inflow, and each post-switch stream contributes its inflow times
   * the cumulative retention of the ages it has existed for (1 .. d - s + 1).
   */
  lemma MixedFromSwitch(Rold: int -> real, Rnew: int -> real, nOld: real, nNew: real, nBefore: real, s: int, d: int)
    requires 1 <= s <= d
    ensures MixedDau(Rold, Rnew, nOld, nNew, nBefore, s, d)
         == CohortSum(Rold, nBefore, d, 1, s)
          + nOld * CumulativeRetention(Rold, d - s + 1)
          + nNew * CumulativeRetention(Rnew, d - s + 1)
  {
    CohortSumFromStart(Rold, nOld, d, s);
    CohortSumFromStart(Rnew, nNew, d, s);
  }

  /**
   * On the switch day itself the series differs from the single-stream run at
   * the "before" inflow only in the cohort of that day: its `nBefore` day-1
   * users are replaced by `nOld` old-curve and `nNew` new-curve day-1 users.
   */
  lemma MixedSwitchDay(Rold: int -> real, Rnew: int -> real, nOld: real, nNew: real, nBefore: real, s: int)
    requires s >= 1
    ensures MixedDau(Rold, Rnew, nOld, nNew, nBefore, s, s)
         == Dau(Rold, nBefore, s) - nBefore * Rold(1) + nOld * Rold(1) + nNew * Rnew(1)
  {
    assert Min(s, s + 1) == s;
    assert Dau(Rold, nBefore, s) == CohortSum(Rold, nBefore, s, 1, s + 1);
    assert CohortSum(Rold, nBefore, s, 1, s + 1) == CohortSum(Rold, nBefore, s, 1, s) + nBefore * Rold(s - (s + 1 - 1) + 1);
    assert CohortSum(Rold, nOld, s, s, s + 1) == nOld * Rold(1);
    assert CohortSum(Rnew, nNew, s, s, s + 1) == nNew * Rnew(1);
  }

  /**
   * When the "before" inflow is `old + new` (the default) and the new curve
   * equals the old one on every positive day, the mixed series is exactly the
   * single-stream series at inflow `old + new`.
   */
  lemma {:induction false} MixedWithSameCurveIsSingleStream(Rold: int -> real, Rnew: int -> real, nOld: real, nNew: real, s: int, d: int)
    requires s >= 1
    requires forall k :: k >= 1 ==> Rnew(k) == Rold(k)
    ensures MixedDau(Rold, Rnew, nOld, nNew, nOld + nNew, s, d) == Dau(Rold, nOld + nNew, d)
  {
    if d >= s {
      CohortSumSplit(Rold, nOld + nNew, d, 1, s, d + 1);
      CohortSumReadsPositiveAges(Rnew, Rold, nNew, d, s, d + 1);
      CohortSumAdd(Rold, nOld, nNew, d, s, d + 1);
    }
  }

  /** With rates in [0, 1] and non-negative inflows, mixed DAU is non-negative and at most the users acquired so far. */
  lemma MixedBounds(Rold: int -> real, Rnew: int -> real, nOld: real, nNew: real, nBefore: real, s: int, d: int)
    requires IsRetentionCurve(Rold) && IsRetentionCurve(Rnew)
    requires nOld >= 0.0 && nNew >= 0.0 && nBefore >= 0.0
    requires 1 <= s && d >= 0
    ensures 0.0 <= MixedDau(Rold, Rnew, nOld, nNew, nBefore, s, d)
    ensures d < s ==> MixedDau(Rold, Rnew, nOld, nNew, nBefore, s, d) <= nBefore * d as real
    ensures d >= s ==> MixedDau(Rold, Rnew, nOld, nNew, nBefore, s, d)
                       <= nBefore * (s - 1) as real + (nOld + nNew) * (d - s + 1) as real
  {
    CohortSumBounds(Rold, nBefore, d, 1, Min(s, d + 1));
    if d >= s {
      CohortSumBounds(Rold, nOld, d, s, d + 1);
      CohortSumBounds(Rnew, nNew, d, s, d + 1);
    }
  }

  // ---------------------------------------------------------------------------
  // The loops of `calculate_dau` and `calculate_dau_with_mixed_sources`

  /** `calculate_dau`: fills a fresh zeroed array, day by day, with the sum over all cohorts so far. */
  method CalculateDau(R: int -> real, dailyNewUsers: real, days: nat) returns (dau: array<real>)
    ensures fresh(dau) && dau.Length == days
    ensures forall i :: 0 <= i < days ==> dau[i] == Dau(R, dailyNewUsers, i + 1)
  {
    dau := new real[days](_ => 0.0);
    var currentDay := 1;
    while currentDay <= days
      invariant 1 <= currentDay <= days + 1
      invariant forall i :: 0 <= i < currentDay - 1 ==> dau[i] == Dau(R, dailyNewUsers, i + 1)
    {
      var totalDau := 0.0;
      var cohortDay := 1;
      while cohortDay <= currentDay
        invariant 1 <= cohortDay <= currentDay + 1
        invariant totalDau == CohortSum(R, dailyNewUsers, currentDay, 1, cohortDay)
      {
        var daysSinceCohort := currentDay - cohortDay + 1;
        var retentionRate := R(daysSinceCohort);
        totalDau := totalDau + dailyNewUsers * retentionRate;
        cohortDay := cohortDay + 1;
      }
      dau[currentDay - 1] := totalDau;
      currentDay := currentDay + 1;
    }
  }

  /**
   * One `for cohort_day in range(lo, hi)` loop of `calculate_dau_with_mixed_sources`:
   * adds each cohort's surviving users on `currentDay` to the running total.
   */
  method AddCohorts(R: int -> real, n: real, currentDay: int, lo: int, hi: int, totalDau: real) returns (total: real)
    ensures total == totalDau + CohortSum(R, n, currentDay, lo, hi)
  {
    total := totalDau;
    var cohortDay := lo;
    while cohortDay < hi
      invariant lo <= cohortDay && (cohortDay <= hi || cohortDay == lo)
      invariant total == totalDau + CohortSum(R, n, currentDay, lo, cohortDay)
    {
      var daysSinceCohort := currentDay - cohortDay + 1;
      total := total + n * R(daysSinceCohort);
      cohortDay := cohortDay + 1;
    }
  }

  /**
   * `calculate_dau_with_mixed_sources`: for every day, the pre-switch cohorts
   * at the "before" inflow under the old curve, then (from the switch day on)
   * the post-switch cohorts of the old source and of the new source.
   */
  method CalculateDauWithMixedSources(Rold: int -> real, Rnew: int -> real, dailyNewUsersOld: real, dailyNewUsersNew: real,
                                      days: nat, newSourceStartDay: int, dailyNewUsersBeforeNewSource: Option<real>)
    returns (dau: array<real>)
    ensures fresh(dau) && dau.Length == days
    ensures forall i :: 0 <= i < days ==>
      dau[i] == MixedDau(Rold, Rnew, dailyNewUsersOld, dailyNewUsersNew,
                         BeforeSwitchCount(dailyNewUsersOld, dailyNewUsersNew, dailyNewUsersBeforeNewSource),
                         newSourceStartDay, i + 1)
  {
    dau := new real[days](_ => 0.0);
    var before := if dailyNewUsersBeforeNewSource.None? then dailyNewUsersOld + dailyNewUsersNew
                  else dailyNewUsersBeforeNewSource.value;
    var currentDay := 1;
    while currentDay <= days
      invariant 1 <= currentDay <= days + 1
      invariant forall i :: 0 <= i < currentDay - 1 ==>
        dau[i] == MixedDau(Rold, Rnew, dailyNewUsersOld, dailyNewUsersNew, before, newSourceStartDay, i + 1)
    {
      var totalDau := AddCohorts(Rold, before, currentDay, 1, Min(newSourceStartDay, currentDay + 1), 0.0);
      if currentDay >= newSourceStartDay {
        totalDau := AddCohorts(Rold, dailyNewUsersOld, currentDay, newSourceStartDay, currentDay + 1, totalDau);
        totalDau := AddCohorts(Rnew, dailyNewUsersNew, currentDay, newSourceStartDay, currentDay + 1, totalDau);
      }
      dau[currentDay - 1] := totalDau;
      currentDay := currentDay + 1;
    }
  }
}
