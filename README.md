# DataAnalysis in Dafny

A model of the computing core of the DataAnalysis repository: the Task 1
A/B-test simulator of a mobile game and the Task 2 preprocessing and
segmentation rules.

**Task 1.**
- A power-law retention model `R(t) = a·t^b` is fitted to four observed
  retention points (days 1, 3, 7 and 14). Its rate is clamped to [0, 1] and
  is 0 before day 1.
- Daily active users (DAU) are the sum over all earlier cohorts of the
  daily installs times the retention at each cohort's age.
- Revenue is in-app purchases (IAP) plus ads, computed per day from DAU.
- Two scenarios are built on top: a 10-day sale that raises the purchase
  ratio by one point, and a second user source with exponential retention
  from day 20.
- Each scenario picks a winning variant and a headline total.

**Task 2.**
- `preprocess_data` adds the derived columns (days since install, average
  session duration, win rate, total revenue).
- Users are segmented by first-day engagement (three metrics scored
  against percentile thresholds) and by monetization (five classes).
- Completion and win rates use a zero-safe division.

Modules:
- `Wrappers`: an `Option` type.
- `Retention` (retention_model.py): power law, clamp, the initial guess,
  the fitter fallback, and the `RetentionModel` class.
- `Cohort` (simulation.py): the cohort sums behind `calculate_dau` and
  `calculate_dau_with_mixed_sources`, the two imperative loops, and their
  properties.
- `Revenue` (simulation.py): `calculate_revenue` and sums.
- `Simulation` (simulation.py, config.py): `exponential_retention`, the two
  variants, and `simulate_variant` returning a `SimulationResult` object
  with four arrays.
- `Scenarios` (run_task1.py): the sale loops that overwrite revenue arrays
  in place, the winner and headline choices, and the new-source streams.
- `Ratios`, `Analysis`, `DataLoader` (task2): zero-safe ratios, the two
  classifiers, and `preprocess_data` over a `Frame` object.

Things the model takes as parameters rather than computes:
- `t ** b` and `np.exp` are arbitrary functions, passed in as a
  `Transcendentals` value. Every property holds whatever they return.
- The least-squares fitter is an arbitrary `CurveFitter`. It either
  converges to parameters inside its bounds or fails.
- Percentile thresholds and per-user aggregates come in as parameters.

## Model

| member | source | states |
|---|---|---|
| `Retention.Clamp01` | task1/retention_model.py:94 | the clamped value lies in [0, 1], equals its input when the input is in range, and is 0 below and 1 above |
| `Retention.PowerLaw` | task1/retention_model.py:15-27 | `a * t^b` vanishes when the scale `a` is 0 |
| `Retention.PowerLawRetention` | task1/retention_model.py:88-94 | the rate is in [0, 1], is 0 for day <= 0, is the raw power law when that is in range, and saturates at 1 or 0 outside it |
| `Retention.PowerLawCurve` | task1/retention_model.py:78-94 | the day-to-rate function is a retention curve (every value in [0, 1]), 0 for day <= 0, agreeing with the clamped rate pointwise |
| `Retention.ObservationDays` | task1/retention_model.py:47-48 | no day list means [1, 3, 7, 14]; a given list is kept |
| `Retention.InitialA` | task1/retention_model.py:56 | the initial scale guess is positive: the first retention point when positive, else 0.5 |
| `Retention.FitParameters` | task1/retention_model.py:59-76 | a failed fit falls back to (initial guess, -0.5); a converged fit lies in the bounds [0, 2] x [-2, 0]; either way a >= 0 and b <= 0 |
| `Retention.RetentionModel.constructor` | task1/retention_model.py:39-76 | stores the points and day list (default [1, 3, 7, 14]), and sets (a, b) to the fitter's answer or to the fallback |
| `Retention.RetentionModel.GetRetention` | task1/retention_model.py:78-94 | the model's rate for a day is in [0, 1], 0 for day <= 0, and is the clamped power law with the fitted (a, b) |
| `Retention.RetentionModel.GetRetentionArray` | task1/retention_model.py:96-106 | one rate per requested day, in order, each the model's rate for that day and in [0, 1] |
| `Retention.RetentionModel.Curve` | task1/retention_model.py:78-94 | the model as a day-to-rate function is a retention curve equal to `GetRetention` everywhere |
| `Cohort.BeforeSwitchCount` | task1/simulation.py:180-181 | with no explicit pre-switch count the stream before the switch brings old + new users a day; a given count is used as it is |
| `Cohort.CohortSumSplit` | task1/simulation.py:38-43 | the cohort accumulation over a range splits at any midpoint |
| `Cohort.CohortSumShift` | task1/simulation.py:40 | shifting the current day and the cohort range together leaves every cohort's age and so the sum unchanged |
| `Cohort.CohortSumScale` | task1/simulation.py:42 | the accumulated users are proportional to the daily installs |
| `Cohort.CohortSumAdd` | task1/simulation.py:42 | accumulating two install streams on one curve is accumulating their sum |
| `Cohort.CohortSumReadsPositiveAges` | task1/simulation.py:38-41 | for cohorts up to the current day only ages >= 1 are consulted, so curves that agree from day 1 give equal sums |
| `Cohort.UnitCohortSumBounds` | task1/simulation.py:38-43 | with one install a day the accumulated users lie between 0 and the number of cohorts |
| `Cohort.CohortSumBounds` | task1/simulation.py:38-43 | with non-negative installs the accumulated users lie between 0 and installs times the number of cohorts |
| `Cohort.CohortSumFromStart` | task1/simulation.py:196-207 | the cohorts from day s to the current day contribute installs times the cumulative retention over their ages 1 .. d-s+1 |
| `Cohort.DauIsScaledCumulativeRetention` | task1/simulation.py:34-45 | day d's DAU is the daily installs times the cumulative retention R(1) + ... + R(d) |
| `Cohort.DauStep` | task1/simulation.py:34-45 | each day's DAU is the previous day's plus the new cohort at age 1 ... d+1, i.e. plus n * R(d+1) |
| `Cohort.DauNonDecreasing` | task1/simulation.py:34-45 | with a constant non-negative inflow DAU never decreases from one day to the next |
| `Cohort.DauBounds` | task1/simulation.py:34-45 | DAU on day d lies between 0 and n * d |
| `Cohort.DauScales` | task1/simulation.py:42 | DAU is proportional to the daily installs |
| `Cohort.SameDayCohortIsDayOne` | task1/simulation.py:38-41 | the cohort installed on the current day counts at age 1 (`current_day - cohort_day + 1`) |
| `Cohort.DauReadsPositiveAges` | task1/simulation.py:38-41 | DAU depends only on the curve's values from age 1 on |
| `Cohort.MixedBeforeSwitch` | task1/simulation.py:183-194 | before the switch day the mixed DAU is the single-stream DAU of the pre-switch inflow |
| `Cohort.MixedFromSwitch` | task1/simulation.py:183-209 | from the switch day on the mixed DAU is the pre-switch cohorts plus the old and new streams, each installs times cumulative retention since the switch |
| `Cohort.MixedSwitchDay` | task1/simulation.py:183-209 | on the switch day itself the new streams contribute exactly one cohort at age 1 |
| `Cohort.MixedWithSameCurveIsSingleStream` | task1/simulation.py:149-211 | if the new source retains like the old and the pre-switch count defaults to old + new, the mixed DAU is the single-stream DAU |
| `Cohort.MixedBounds` | task1/simulation.py:183-209 | the mixed DAU is non-negative and bounded by the inflow times the days, split at the switch |
| `Cohort.CalculateDau` | task1/simulation.py:16-47 | the nested loops fill a fresh array whose entry i is the DAU of day i+1 |
| `Cohort.AddCohorts` | task1/simulation.py:187-191 | one inner cohort loop adds exactly the cohort sum of its range to the running total |
| `Cohort.CalculateDauWithMixedSources` | task1/simulation.py:149-211 | the loops fill a fresh array whose entry i is the mixed-source DAU of day i+1 under the defaulted pre-switch count |
| `Revenue.CalculateRevenue` | task1/simulation.py:87-126 | three series as long as the DAU; each day's total is its IAP plus ad revenue; IAP and ad follow their per-day formulas |
| `Revenue.SumMonotone` | task1/run_task1.py:181-182 | a series that is pointwise at least another sums to at least as much |
| `Revenue.SumDecomposes` | task1/simulation.py:120 | the summed total revenue is the summed IAP plus the summed ad revenue |
| `Revenue.RevenueNonNegative` | task1/simulation.py:110-120 | non-negative DAU and parameters give non-negative IAP, ad and total revenue |
| `Revenue.RevenueScales` | task1/simulation.py:110-120 | scaling DAU by k scales each day's revenue by k |
| `Simulation.ExponentialLaw` | task1/simulation.py:145 | `base * e^(-decay (day-1))` vanishes when base is 0 |
| `Simulation.ExponentialRetention` | task1/simulation.py:129-146 | the rate is in [0, 1], 0 for day <= 0, and the raw exponential when in range, saturating outside it |
| `Simulation.ExponentialCurve` | task1/simulation.py:129-146 | the exponential law as a day-to-rate function is a retention curve, agreeing with the clamped rate |
| `Simulation.VariantCurve` | task1/simulation.py:65 | the curve a variant's fitted model yields is a retention curve |
| `Simulation.SimulationResult.constructor` | task1/simulation.py:79-84 | the result holds the DAU array itself and fresh revenue arrays with the given contents |
| `Simulation.SimulateVariant` | task1/simulation.py:50-84 | entry i of the DAU is day i+1's DAU of the variant's fitted curve (the series `FittedDau`), between 0 and installs*(i+1); the revenue arrays are `calculate_revenue` of that DAU |
| `Scenarios.SaleWindow` | task1/run_task1.py:149 | the sale loop starts at index start-1 and stops at the earlier of the sale's end and the horizon, never past the array |
| `Scenarios.SaleWindowOfScenarios` | task1/run_task1.py:133-136 | over 30 and 60 days the sale covers indices 14 .. 23 (days 15 to 24); a 20-day horizon truncates it |
| `Scenarios.SaleRevenue` | task1/run_task1.py:149-179 | outside the window all three series are kept; inside, IAP uses the boosted ratio, ad revenue the unchanged formula, total = IAP + ad; decomposition is preserved |
| `Scenarios.SaleIsPerDayOverride` | task1/run_task1.py:139-179 | patching the unboosted run equals computing every day with its own parameters (boosted inside the window); the ad series is untouched |
| `Scenarios.BoostRaisesDayTotal` | task1/run_task1.py:154-175 | a day's boosted total is at least its unboosted total for non-negative DAU, amount and boost |
| `Scenarios.SaleRaisesTotal` | task1/run_task1.py:136-182 | the summed total with the sale is at least the summed total without it |
| `Scenarios.SaleTotalsOnly` | task1/run_task1.py:345-368 | the `task1_f` loop keeps the IAP and ad series and boosts the totals exactly as the `task1_d` loop does |
| `Scenarios.SaleTotalsOnlyBreaksDecomposition` | task1/run_task1.py:367-368 | on a sale day with a non-zero boost contribution the `task1_f` total no longer equals IAP + ad |
| `Scenarios.ApplySale` | task1/run_task1.py:149-179 | the in-place loop leaves the revenue arrays equal to `SaleRevenue` of their old contents; DAU is not modified |
| `Scenarios.ApplySaleTotalsOnly` | task1/run_task1.py:345-368 | the in-place loop changes only the total array, to `SaleTotalsOnly` of the old contents |
| `Scenarios.Winner` | task1/run_task1.py:187 | A wins exactly when its total is strictly greater; a tie goes to B |
| `Scenarios.Headline` | task1/run_task1.py:373 | the headline is the larger of the two totals |
| `Scenarios.HeadlineIsWinnersTotal` | task1/run_task1.py:372-373 | the headline figure is the winner's own total, ties included |
| `Scenarios.NewSourceKeepsInflow` | task1/run_task1.py:229-234 | the daily inflow is 20000 before and after the switch, so with equal curves the scenario is the plain 20000-a-day run |
| `Scenarios.SaleScenario` | task1/run_task1.py:133-200 | the plain totals are the summed revenue of each variant's fitted 30-day DAU; the sale totals are the summed `SaleRevenue` of that DAU over indices 14 .. 23; each sale total is at least the plain one; both winners follow the strict rule |
| `Scenarios.CalculateSaleRevenue` | task1/run_task1.py:337-374 | fitted DAU per variant, totals-only sale revenue, summed totals at least the unboosted ones, strict winner and max headline |
| `Scenarios.NewSourceRevenue` | task1/run_task1.py:394-453 | mixed-source DAU with the 20000/12000/8000 streams and each variant's exponential law, its revenue, summed totals, strict winner and max headline |
| `Ratios.ReplaceZero` | task2/analysis.py:226 | `replace(0, 1)` yields a non-zero value, the input itself unless it was 0 |
| `Ratios.SafeRatio` | task2/data_loader.py:98 | the zero-safe quotient times a non-zero denominator gives the numerator; with a zero denominator it is the numerator |
| `Ratios.ShareBounds` | task2/data_loader.py:101-103 | a non-negative part of a whole divides to a value in [0, 1] |
| `Ratios.CompletionRate` | task2/analysis.py:225-227 | end / start when start is non-zero, end itself otherwise, in [0, 1] when 0 <= end <= start |
| `Ratios.WinRate` | task2/analysis.py:304-306 | the share of victories when there were matches; in [0, 1] for non-negative counts; 0 with no matches |
| `Ratios.UnbeatenWinRate` | task2/data_loader.py:101-103 | victories without defeats give a win rate of 1 |
| `Ratios.CompletionRates` | task2/analysis.py:235-237 | one completion rate per aggregated row, each with the single-row guarantees |
| `Ratios.WinRates` | task2/analysis.py:315-317 | one overall win rate per aggregated row, each in [0, 1] for non-negative counts and 0 without matches |
| `Analysis.Engagement.Rank` | task2/analysis.py:82-88 | the three segments are ordered Low < Medium < High: rank 0 exactly for Low, 1 exactly for Medium, 2 exactly for High |
| `Analysis.MetricPoints` | task2/analysis.py:59-80 | a metric earns 3 exactly at or above q66, 2 exactly in [q33, q66), 1 exactly below both |
| `Analysis.EngagementScore` | task2/analysis.py:55-80 | the score lies in [3, 9]; it is 9 exactly when all three metrics reach q66 and 3 exactly when all earn one point |
| `Analysis.AssignSegment` | task2/analysis.py:55-88 | High exactly for scores >= 8, Medium exactly for 5 .. 7, Low exactly for <= 4 |
| `Analysis.SegmentExtremes` | task2/analysis.py:55-88 | top third on all metrics is High engagement, bottom third on all is Low |
| `Analysis.MetricPointsMonotone` | task2/analysis.py:59-80 | a larger metric never earns fewer points, whatever the thresholds |
| `Analysis.SegmentMonotone` | task2/analysis.py:55-88 | raising metrics with the thresholds fixed never lowers the score or the segment |
| `Analysis.MonetizationLabelsDistinct` | task2/analysis.py:190-199 | the five labels are distinct, so each user gets exactly one |
| `Analysis.AssignMonetizationSegment` | task2/analysis.py:185-199 | each of the five segments holds exactly when its rule matches and no earlier rule does: Non-paying iff total = 0, IAP-focused iff IAP only, Ad-focused iff ads only, then IAP-dominant iff IAP > ad, else Ad-dominant; equal IAP and ad count as Ad-dominant |
| `Analysis.MonetizationSegmentsOfConsistentRevenue` | task2/analysis.py:185-199 | for non-negative revenues with total = IAP + ad: Non-paying iff both 0, IAP-focused iff only IAP, Ad-focused iff only ads, IAP-dominant iff IAP > ad > 0, Ad-dominant iff 0 < IAP <= ad |
| `DataLoader.Frame.constructor` | task2/data_loader.py:84 | a frame holds the given columns, all of one length |
| `DataLoader.Frame.Copy` | task2/data_loader.py:84 | the copy is a new frame with the same columns |
| `DataLoader.Frame.SetColumn` | task2/data_loader.py:94 | assigning a column adds or replaces exactly that column |
| `DataLoader.DayDifference` | task2/data_loader.py:93-94 | the whole days elapsed, rounded down: days <= event - install < days + 1, negative exactly when the event precedes the install |
| `DataLoader.AvgSessionDuration` | task2/data_loader.py:97-98 | duration per session, or the duration itself when there were no sessions |
| `DataLoader.DaysSinceInstallColumn` | task2/data_loader.py:93-94 | one day difference per row |
| `DataLoader.AvgSessionDurationColumn` | task2/data_loader.py:97-98 | one average session duration per row |
| `DataLoader.TotalRevenueColumn` | task2/data_loader.py:106-107 | each row's total revenue is its IAP plus ad revenue |
| `DataLoader.PreprocessData` | task2/data_loader.py:71-109 | works on a fresh copy (the input is not modified) and returns the columns `Preprocessed` describes |
| `DataLoader.PreprocessedColumns` | task2/data_loader.py:87-107 | the output columns are the input's plus exactly the derived columns whose sources are present |
| `DataLoader.PreprocessedKeepsOtherColumns` | task2/data_loader.py:84-107 | every non-derived column comes out unchanged |
| `DataLoader.PreprocessedSkipsMissingSources` | task2/data_loader.py:87-107 | a derived column whose sources are missing is left absent or unchanged |
| `DataLoader.PreprocessedRows` | task2/data_loader.py:93-107 | row by row: total = IAP + ad; win rate in [0, 1] and 0 without matches; average duration is the duration with no sessions; whole days since install |

## Left out

- The least-squares fit (`curve_fit`, task1/retention_model.py:62-69) is an abstract `CurveFitter` parameter. The model assumes only that a converged answer lies inside the declared bounds.
- `t ** b`, `np.exp` and IEEE floating point: raw curve values are arbitrary real functions, arithmetic is exact real arithmetic, and there is no rounding.
- `Cohort.CalculateDauWithMixedSources` takes the switch day as a required argument; the default `new_source_start_day = 20` of `calculate_dau_with_mixed_sources` (task1/simulation.py:155) is not modelled. Every caller passes 20 explicitly, as `Scenarios.NewSourceRevenue` does.
- `Cohort.CalculateDau`, `Cohort.CalculateDauWithMixedSources` and `Simulation.SimulateVariant` take the horizon as a natural number. A negative horizon, for which `np.zeros(days)` raises `ValueError` (task1/simulation.py:31 and 177), is not modelled. The scenarios use 30 and 60 days.
- The constructor's warning messages on a failed fit (console output).
- `Retention.RetentionModel.constructor`: requires a non-empty list of retention points. With an empty list Python raises `IndexError` at `retention_points[0]` before any fit.
- A variant's daily new users are a natural number, as in task1/config.py. Its retention points are kept but not checked for range.
- `Scenarios.ApplySale` and `Scenarios.ApplySaleTotalsOnly`: require a sale start day >= 1. A start of 0 would make Python read index -1 (the last day); the scenarios use 15.
- `Scenarios.SaleScenario` and `Scenarios.CalculateSaleRevenue` run the sale loop of each variant one after the other, where `task1_d` and `calculate_sale_revenue` update both variants inside one loop. The arrays are distinct, so the result is the same.
- `Scenarios.SaleScenario` returns the totals and winners but not the percentage differences the source prints.
- The final 30- and 60-day prioritisation narrative of `task1_f`, all printing and charts (task1/visualization.py, task2/visualization.py), and `cleanup_old_graphs`. These are console and file output.
- `load_dataset` (task2/data_loader.py:17-68) reads gzip and CSV files.
- `pd.to_datetime` (task2/data_loader.py:87-90): dates are modelled as numeric day stamps, so the conversion leaves them as they are.
- Non-numeric columns (user id, platform, country) are not represented in a `Frame`. `preprocess_data` never touches them.
- The pandas `quantile`, `groupby`/`agg`, `merge`, `nunique` and `sort_values().head(10)` in task2/analysis.py: thresholds and aggregated columns are parameters of `AssignSegment`, `AssignMonetizationSegment`, `CompletionRates` and `WinRates`.
- The other analyses of task2/analysis.py (session-duration trends, platform and country tables) are pure library aggregations with no rule of their own.
