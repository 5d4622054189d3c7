/**
 * The two classifiers of task2/analysis.py: the first-day engagement
 * segment, which scores three metrics against two percentile thresholds
 * each, and the five-way monetization segment. The percentile thresholds
 * and the per-user aggregates are computed by the data-frame library and
 * come in as parameters.
 */
module Analysis {

  /** The 33rd and 66th percentile of one metric over all users. */
  datatype Thresholds = Thresholds(q33: real, q66: real)

  /** A user's first-day totals. */
  datatype FirstDayMetrics = FirstDayMetrics(sessionCount: real, sessionDuration: real, matchCount: real)

  /** The thresholds of the three scored metrics. */
  datatype EngagementThresholds = EngagementThresholds(sessionCount: Thresholds, sessionDuration: Thresholds, matchCount: Thresholds)

  datatype Engagement = LowEngagement | MediumEngagement | HighEngagement
  {
    function Label(): string
    {
      match this
      case LowEngagement => "Low Engagement"
      case MediumEngagement => "Medium Engagement"
      case HighEngagement => "High Engagement"
    }

    /** The order Low < Medium < High. */
    function Rank(): (k: nat)
      ensures k <= 2
      ensures k == 0 <==> this == LowEngagement
      ensures k == 1 <==> this == MediumEngagement
      ensures k == 2 <==> this == HighEngagement
    {
      match this
      case LowEngagement => 0
      case MediumEngagement => 1
      case HighEngagement => 2
    }
  }

  /** The points one metric earns: 3 at or above q66, else 2 at or above q33, else 1. */
  function MetricPoints(x: real, t: Thresholds): (p: int)
    ensures 1 <= p <= 3
    ensures p == 3 <==> x >= t.q66
    ensures p == 2 <==> t.q33 <= x < t.q66
    ensures p == 1 <==> x < t.q33 && x < t.q66
  {
    if x >= t.q66 then 3
    else if x >= t.q33 then 2
    else 1
  }

  /** The engagement score: the points of session count, session duration and match count. */
  function EngagementScore(m: FirstDayMetrics, t: EngagementThresholds): (score: int)
    ensures 3 <= score <= 9
    ensures score == 9 <==> m.sessionCount >= t.sessionCount.q66 && m.sessionDuration >= t.sessionDuration.q66 && m.matchCount >= t.matchCount.q66
    ensures score == 3 <==> MetricPoints(m.sessionCount, t.sessionCount) == 1 && MetricPoints(m.sessionDuration, t.sessionDuration) == 1 && MetricPoints(m.matchCount, t.matchCount) == 1
  {
    MetricPoints(m.sessionCount, t.sessionCount)
    + MetricPoints(m.sessionDuration, t.sessionDuration)
    + MetricPoints(m.matchCount, t.matchCount)
  }

  /** `assign_segment`: High from a score of 8, Medium from 5, Low below. */
  function AssignSegment(m: FirstDayMetrics, t: EngagementThresholds): (e: Engagement)
    ensures e == HighEngagement <==> EngagementScore(m, t) >= 8
    ensures e == MediumEngagement <==> 5 <= EngagementScore(m, t) <= 7
    ensures e == LowEngagement <==> EngagementScore(m, t) <= 4
  {
    var score := EngagementScore(m, t);
    if score >= 8 then HighEngagement
    else if score >= 5 then MediumEngagement
    else LowEngagement
  }

  /** Top-third on all three metrics is High engagement; bottom-third on all three is Low. */
  lemma SegmentExtremes(m: FirstDayMetrics, t: EngagementThresholds)
    ensures m.sessionCount >= t.sessionCount.q66 && m.sessionDuration >= t.sessionDuration.q66 && m.matchCount >= t.matchCount.q66
            ==> AssignSegment(m, t) == HighEngagement
    ensures m.sessionCount < t.sessionCount.q33 && m.sessionCount < t.sessionCount.q66
            && m.sessionDuration < t.sessionDuration.q33 && m.sessionDuration < t.sessionDuration.q66
            && m.matchCount < t.matchCount.q33 && m.matchCount < t.matchCount.q66
            ==> AssignSegment(m, t) == LowEngagement
  {
  }

  /** A larger metric never earns fewer points, whatever the thresholds. */
  lemma MetricPointsMonotone(x: real, y: real, t: Thresholds)
    requires x <= y
    ensures MetricPoints(x, t) <= MetricPoints(y, t)
  {
  }

  /** Each metric at least as large as before. */
  predicate Dominates(m: FirstDayMetrics, n: FirstDayMetrics)
  {
    m.sessionCount >= n.sessionCount && m.sessionDuration >= n.sessionDuration && m.matchCount >= n.matchCount
  }

  /**
   * Raising any of the metrics, with the thresholds fixed, never lowers the
   * score or the segment.
   */
  lemma SegmentMonotone(lower: FirstDayMetrics, higher: FirstDayMetrics, t: EngagementThresholds)
    requires Dominates(higher, lower)
    ensures EngagementScore(lower, t) <= EngagementScore(higher, t)
    ensures AssignSegment(lower, t).Rank() <= AssignSegment(higher, t).Rank()
  {
    MetricPointsMonotone(lower.sessionCount, higher.sessionCount, t.sessionCount);
    MetricPointsMonotone(lower.sessionDuration, higher.sessionDuration, t.sessionDuration);
    MetricPointsMonotone(lower.matchCount, higher.matchCount, t.matchCount);
  }

  // ---------------------------------------------------------------------------
  // Monetization segments

  datatype MonetizationSegment = NonPaying | IapFocused | AdFocused | MixedIapDominant | MixedAdDominant
  {
    function Label(): string
    {
      match this
      case NonPaying => "Non-paying"
      case IapFocused => "IAP-focused"
      case AdFocused => "Ad-focused"
      case MixedIapDominant => "Mixed (IAP-dominant)"
      case MixedAdDominant => "Mixed (Ad-dominant)"
    }
  }

  /** The five labels are distinct, so the label determines the segment. */
  lemma MonetizationLabelsDistinct(s: MonetizationSegment, u: MonetizationSegment)
    ensures s.Label() == u.Label() <==> s == u
  {
  }

  /**
   * `assign_monetization_segment`: the first rule that matches wins —
   * no total revenue, then IAP only, then ads only, then the larger of
   * the two, a tie counting as ad-dominant.
   */
  function AssignMonetizationSegment(iap: real, ad: real, total: real): (s: MonetizationSegment)
    ensures s == NonPaying <==> total == 0.0
    ensures s == IapFocused <==> total != 0.0 && iap > 0.0 && ad == 0.0
    ensures s == AdFocused <==> total != 0.0 && ad > 0.0 && iap == 0.0
    ensures total != 0.0 && iap == ad ==> s == MixedAdDominant
    ensures s == MixedIapDominant <==> total != 0.0 && !(iap > 0.0 && ad == 0.0) && !(ad > 0.0 && iap == 0.0) && iap > ad
    ensures s == MixedAdDominant <==> total != 0.0 && !(iap > 0.0 && ad == 0.0) && !(ad > 0.0 && iap == 0.0) && iap <= ad
  {
    if total == 0.0 then NonPaying
    else if iap > 0.0 && ad == 0.0 then IapFocused
    else if ad > 0.0 && iap == 0.0 then AdFocused
    else if iap > ad then MixedIapDominant
    else MixedAdDominant
  }

  /**
   * For non-negative revenues whose total is their sum, as preprocessing
   * produces them, each segment is characterised by the two revenues alone.
   */
  lemma MonetizationSegmentsOfConsistentRevenue(iap: real, ad: real)
    requires iap >= 0.0 && ad >= 0.0
    ensures AssignMonetizationSegment(iap, ad, iap + ad) == NonPaying <==> iap == 0.0 && ad == 0.0
    ensures AssignMonetizationSegment(iap, ad, iap + ad) == IapFocused <==> iap > 0.0 && ad == 0.0
    ensures AssignMonetizationSegment(iap, ad, iap + ad) == AdFocused <==> ad > 0.0 && iap == 0.0
    ensures AssignMonetizationSegment(iap, ad, iap + ad) == MixedIapDominant <==> iap > ad > 0.0
    ensures AssignMonetizationSegment(iap, ad, iap + ad) == MixedAdDominant <==> 0.0 < iap <= ad
  {
  }
}
