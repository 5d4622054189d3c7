/**
 * The zero-safe division used throughout the Task 2 analysis: a
 * denominator of 0 is replaced by 1 (`series.replace(0, 1)`) before
 * dividing, so the quotient is always defined.
 */
module Ratios {

  /** `replace(0, 1)` on one value. */
  function ReplaceZero(x: real): (r: real)
    ensures r != 0.0
    ensures x != 0.0 ==> r == x
    ensures x == 0.0 ==> r == 1.0
  {
    if x == 0.0 then 1.0 else x
  }

  /** `num / den.replace(0, 1)`: the true quotient when `den` is non-zero, `num` itself when it is zero. */
  function SafeRatio(num: real, den: real): (r: real)
    ensures den != 0.0 ==> r * den == num
    ensures den == 0.0 ==> r == num
    ensures num == 0.0 ==> r == 0.0
  {
    num / ReplaceZero(den)
  }

  /** A share of a non-negative whole lies in [0, 1]. */
  lemma ShareBounds(part: real, whole: real)
    ensures 0.0 <= part <= whole ==> 0.0 <= SafeRatio(part, whole) <= 1.0
  {
    if 0.0 <= part <= whole && whole != 0.0 {
      QuotientBounds(SafeRatio(part, whole), part, whole);
    }
  }

  /** A factor that scales a positive `whole` to a `part` between 0 and `whole` lies in [0, 1]. */
  lemma QuotientBounds(r: real, part: real, whole: real)
    requires whole > 0.0 && 0.0 <= part <= whole && r * whole == part
    ensures 0.0 <= r <= 1.0
  {
  }

  /** Completion rate `match_end / match_start.replace(0, 1)`. */
  function CompletionRate(matchEnd: real, matchStart: real): (r: real)
    ensures matchStart != 0.0 ==> r * matchStart == matchEnd
    ensures matchStart == 0.0 ==> r == matchEnd
    ensures 0.0 <= matchEnd <= matchStart ==> 0.0 <= r <= 1.0
  {
    ShareBounds(matchEnd, matchStart);
    SafeRatio(matchEnd, matchStart)
  }

  /**
   * Win rate `victory / (victory + defeat).replace(0, 1)`: for non-negative
   * counts it lies in [0, 1], it is 0 when there were no matches, and it is
   * the share of victories otherwise.
   */
  function WinRate(victory: real, defeat: real): (r: real)
    ensures victory + defeat != 0.0 ==> r * (victory + defeat) == victory
    ensures victory >= 0.0 && defeat >= 0.0 ==> 0.0 <= r <= 1.0
    ensures victory == 0.0 && defeat == 0.0 ==> r == 0.0
  {
    ShareBounds(victory, victory + defeat);
    SafeRatio(victory, victory + defeat)
  }

  /** With victories and no defeats the win rate is 1. */
  lemma UnbeatenWinRate(victory: real)
    requires victory > 0.0
    ensures WinRate(victory, 0.0) == 1.0
  {
  }

  /** A column of completion rates, one per aggregated row (day or days since install). */
  function CompletionRates(matchEnds: seq<real>, matchStarts: seq<real>): (r: seq<real>)
    requires |matchEnds| == |matchStarts|
    ensures |r| == |matchEnds|
    ensures forall i :: 0 <= i < |r| && matchStarts[i] != 0.0 ==> r[i] * matchStarts[i] == matchEnds[i]
    ensures forall i :: 0 <= i < |r| && matchStarts[i] == 0.0 ==> r[i] == matchEnds[i]
    ensures forall i :: 0 <= i < |r| && 0.0 <= matchEnds[i] <= matchStarts[i] ==> 0.0 <= r[i] <= 1.0
  {
    seq(|matchEnds|, i requires 0 <= i < |matchEnds| => CompletionRate(matchEnds[i], matchStarts[i]))
  }

  /** A column of overall win rates, one per aggregated row. */
  function WinRates(victories: seq<real>, defeats: seq<real>): (r: seq<real>)
    requires |victories| == |defeats|
    ensures |r| == |victories|
    ensures forall i :: 0 <= i < |r| && victories[i] + defeats[i] != 0.0 ==> r[i] * (victories[i] + defeats[i]) == victories[i]
    ensures forall i :: 0 <= i < |r| && victories[i] >= 0.0 && defeats[i] >= 0.0 ==> 0.0 <= r[i] <= 1.0
    ensures forall i :: 0 <= i < |r| && victories[i] == 0.0 && defeats[i] == 0.0 ==> r[i] == 0.0
  {
    seq(|victories|, i requires 0 <= i < |victories| => WinRate(victories[i], defeats[i]))
  }
}
