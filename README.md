# GarminDB health analysis, modelled in Dafny

This project models the analysis layer of GarminDB. That layer turns health samples synced from a
Garmin device into analysis results and rule-based insights:

- **StressAnalyzer**: the stress load (area under the stress curve, gaps capped at 15 minutes), a
  personal baseline from night-time samples, hourly and weekday patterns, recovery after activities,
  a recovery-efficiency score and six insight rules.
- **ActivityAnalyzer**: estimated and measured training load, a gap-free daily load series with a
  confidence ratio, fatigue and fitness as exponential moving averages (ATL, CTL, TSB), monotony and
  strain, per-sport summaries with an efficiency index, Training Effect bands, and the
  week-over-week volume, spike, balance, confidence and form rules.
- **RecoveryAnalyzer**: the resting-heart-rate (RHR) baseline as the mean of the lowest quarter, a
  weighted and clamped recovery score, the acute:chronic workload ratio (ACWR) and its zones, the
  half-period trend, recent-day averages, the RHR, Body Battery and ACWR insight rules, and the
  daily readiness score with its recommended intensity.
- **SleepAnalyzer**: metric summaries with the 14-night trend rule, the consistency score, the best
  and worst weekdays, the duration, deep-sleep, REM and declining-trend rules, and the empty result.
- **HealthAnalyzer**: the daily, weekly and monthly date ranges, and the collection of key
  insights (warnings and alerts, each kept once, in first-occurrence order).
- **AnalysisModels**: the enums, the `MetricSummary` and `Insight` records with their icons, and
  the result records.

Modelling conventions:

- Timestamps are integer seconds. A date is the integer day `t / 86400`. The hour is
  `(t / 3600) % 24` and the weekday is `day % 7`, with day 0 a Monday.
- Stress levels, loads and scores are `real`. Python's `int()` on a float is `Numeric.Trunc`.
- Every repository query is replaced by the sequence it returns. The clock (`datetime.now()`,
  `date.today()`) is a parameter.
- The square root behind a standard deviation is a function parameter `sqrt`. The predicate
  `IsSqrt` states the facts the proofs need.
- Loops of the source are methods with loop invariants. Each method is proved equal to a
  specification function, and the properties are lemmas about that function.

Modules:

- `wrappers.dfy`: `Option`.
- `numeric.dfy`: sums, means, minimum, maximum and variance.
- `seqs.dfy`: filter, map, `max(..., key=...)`.
- `sorting.dfy`: the stable sort behind `sorted`/`list.sort`.
- `calendar.dfy`: days, hours and weekdays.
- `records.dfy`: the input records of the repository.
- `models.dfy`: the records of `garmindb/analysis/models.py`.
- One module per analyzer: `stress.dfy`, `activity.dfy`, `recovery.dfy`, `sleep.dfy`, `health.dfy`.

Two definitions are easy to misread:

- **ACWR windows**. The docstring speaks of the last 7 and 28 days (recovery_analyzer.py:386-387).
  The code selects the activities of `[end - 7, end]` and `[end - 28, end]`, which are 8 and 29
  inclusive days, and divides their sums by 7 and 28 (recovery_analyzer.py:402-421).
  `RecoveryAnalyzer.AcuteLoads` and `ChronicLoads` use the code's windows.
- **RHR baseline**. The mean of the lowest `max(1, n // 4)` readings of the 61 days
  `[end - 60, end]` (recovery_analyzer.py:304-326) is `RecoveryAnalyzer.RhrBaseline`.

## Model

| member | source | states |
|---|---|---|
| AnalysisModels.NewMetricSummary | garmindb/analysis/models.py:29-40 | A new summary has the given name, value and unit, a stable trend, and no 7-day or 30-day average, minimum, maximum or percent change |
| AnalysisModels.TrendIcon | garmindb/analysis/models.py:42-50 | Improving, declining and stable map to three distinct arrows |
| AnalysisModels.NewInsight | garmindb/analysis/models.py:54-62 | A new insight carries the given title, text, severity and category, with no data points and no recommendations |
| AnalysisModels.SeverityIcon | garmindb/analysis/models.py:64-73 | Each of the four severities has a non-empty icon, and no two severities share an icon |
| AnalysisModels.AppendFired | garmindb/analysis/stress_analyzer.py:653-671 | The `if ...: insights.append(...)` step adds the rule's insight exactly when the rule fires and keeps the earlier insights |
| AnalysisModels.FiredTitles | garmindb/analysis/sleep_analyzer.py:210-256 | A rule's titles are its own title when it fires and none otherwise |
| AnalysisModels.FiredCategory | garmindb/analysis/recovery_analyzer.py:491-635 | A fired rule contributes an insight of that rule's category |
| StressAnalyzer.LoadWindow | garmindb/analysis/stress_analyzer.py:277-294 | Time-sorted, and holding every positive sample of `[start_dt, end_dt]` exactly as often as the input does, and nothing else |
| StressAnalyzer.PeakHour | garmindb/analysis/stress_analyzer.py:331-335 | The peak hour is one of the hours that received load, no hour received more, and every hour that first received load before it received less: among equal loads, the first hour in key order |
| StressAnalyzer.AccumulateLoad | garmindb/analysis/stress_analyzer.py:296-320 | The accumulation loop leaves the load, the minutes and the hourly dictionary of the formula in `StressLoad` |
| StressAnalyzer.CalculateStressLoad | garmindb/analysis/stress_analyzer.py:252-342 | `_calculate_stress_load` returns the stress load of the window: the minutes, the load divided by 60, the average intensity and the peak hour |
| StressAnalyzer.StressLoadEmpty | garmindb/analysis/stress_analyzer.py:276-291 | No positive sample in the window gives 0 minutes, 0 load, 0 intensity and no peak hour |
| StressAnalyzer.LoadAtLeast | garmindb/analysis/stress_analyzer.py:301-315 | The accumulated load is at least the smallest level times the accumulated minutes |
| StressAnalyzer.LoadAtMost | garmindb/analysis/stress_analyzer.py:301-315 | The accumulated load is at most the largest level times the accumulated minutes |
| StressAnalyzer.StressLoadBounds | garmindb/analysis/stress_analyzer.py:296-329 | A non-empty window covers at least one minute, has a non-negative load and a peak hour, and its average intensity lies within any bounds of the window's levels |
| StressAnalyzer.StressLoadConstantLevel | garmindb/analysis/stress_analyzer.py:311-329 | When every sample has the same level, the average intensity is that level |
| StressAnalyzer.StressLoadOrderIndependent | garmindb/analysis/stress_analyzer.py:293-294 | Permuting the samples does not change the stress load, provided the timestamps in the window are distinct |
| StressAnalyzer.StressLoadGapCapExample | garmindb/analysis/stress_analyzer.py:301-308 | Two samples four hours apart are weighted 15 and 1 minutes: 16 minutes in total |
| StressAnalyzer.PercentileIndex | garmindb/analysis/stress_analyzer.py:381-382 | The index `int(n * 25 / 100)` clamped into `[0, n - 1]` is a valid index of a non-empty list |
| StressAnalyzer.BaselineIsPercentile | garmindb/analysis/stress_analyzer.py:364-384 | With at least ten resting samples, the baseline is one of them, at most `idx` are below it and at least `idx + 1` are at or below it |
| StressAnalyzer.BaselineDefault | garmindb/analysis/stress_analyzer.py:376-377 | Fewer than ten resting samples give the default baseline 25.0 |
| StressAnalyzer.BaselineExample | garmindb/analysis/stress_analyzer.py:364-384 | Forty night samples with levels 10 to 49 give the baseline 20 |
| StressAnalyzer.BucketSnoc | garmindb/analysis/stress_analyzer.py:407-410 | Appending a sample adds its positive level to its own bucket and to no other |
| StressAnalyzer.GroupLevels | garmindb/analysis/stress_analyzer.py:404-410 | The grouping loop builds `n` buckets, bucket `k` holding the positive levels of key `k` in order |
| StressAnalyzer.DistributionSums | garmindb/analysis/stress_analyzer.py:115-129 | The low, medium and high shares are percentages in `[0, 100]` that add up to 100 |
| StressAnalyzer.CalculateHourlyPatterns | garmindb/analysis/stress_analyzer.py:386-449 | `_calculate_hourly_patterns`: the loop yields the 24 patterns of `HourlyPatterns` |
| StressAnalyzer.SummarizeHour | garmindb/analysis/stress_analyzer.py:414-447 | The pattern built for one hour from its samples is `HourlyPattern` of that hour |
| StressAnalyzer.BucketsPartition | garmindb/analysis/stress_analyzer.py:404-410 | When all keys lie in `[0, n)`, the bucket sizes add up to the number of positive samples |
| StressAnalyzer.HourlyPatternsShape | garmindb/analysis/stress_analyzer.py:413-449 | There are 24 patterns. Pattern `h` is for hour `h` and counts the positive samples of that hour. An empty hour has average 0, and the counts add up to all positive samples |
| StressAnalyzer.CalculateWeekdayAverages | garmindb/analysis/stress_analyzer.py:451-484 | `_calculate_weekday_averages`: the loop yields the averages of `WeekdayAverages` |
| StressAnalyzer.WeekdayAveragesShape | garmindb/analysis/stress_analyzer.py:463-484 | All seven names are present. A weekday is 0.0 exactly when it has no positive sample, and otherwise lies between its smallest and largest level |
| StressAnalyzer.RecoveryTime | garmindb/analysis/stress_analyzer.py:566-572 | The minutes to the first sample at or below the target; none when no sample reaches it |
| StressAnalyzer.FindRecoveryTime | garmindb/analysis/stress_analyzer.py:566-572 | The loop with `break` returns `RecoveryTime` of the post-activity samples |
| StressAnalyzer.MaxLevel | garmindb/analysis/stress_analyzer.py:556-557 | The peak is the level of one of the samples, and no sample is above it |
| StressAnalyzer.PreValues | garmindb/analysis/stress_analyzer.py:529-543 | Each value is the level of a positive sample in the half hour `[end - 30 min, end)`. The list is the levels of exactly those samples, each sample once, in sample order |
| StressAnalyzer.LevelsWhereSelects | garmindb/analysis/stress_analyzer.py:368-374 | `[r.stress_level for r in s if p(r)]`: the levels of exactly the selected samples, each once, in order |
| StressAnalyzer.PostRecords | garmindb/analysis/stress_analyzer.py:544-550 | A sample is listed exactly when it is a positive sample of `[end, end + 2 h]`. The list is exactly those samples, each once, in sample order |
| StressAnalyzer.PostRecordsSorted | garmindb/analysis/stress_analyzer.py:513-514 | Selecting the recovery window from time-sorted samples keeps them time-sorted |
| StressAnalyzer.RecoveryWindowLoad | garmindb/analysis/stress_analyzer.py:558-564 | On samples already windowed and sorted, `_calculate_stress_load` returns their accumulated load over 60 |
| StressAnalyzer.RecoveryPatternIs | garmindb/analysis/stress_analyzer.py:518-588 | The pattern of an activity that yields one, stated through its end time |
| StressAnalyzer.AnalyzeActivity | garmindb/analysis/stress_analyzer.py:518-588 | One iteration of the recovery loop returns `RecoveryPattern` of the activity |
| StressAnalyzer.MeasureRecovery | garmindb/analysis/stress_analyzer.py:533-572 | The pre-activity mean or the baseline, the peak, the window load and the recovery time around one activity end |
| StressAnalyzer.AnalyzePostActivityRecovery | garmindb/analysis/stress_analyzer.py:486-590 | `_analyze_post_activity_recovery` returns `PostActivityPatterns`, and `[]` when there are no activities or no samples |
| StressAnalyzer.RecoveryPatternExists | garmindb/analysis/stress_analyzer.py:518-554 | An activity yields a pattern exactly when it has a duration and a positive sample lies in `[end, end + 2 h]`. The pattern records the activity's id, sport and end |
| StressAnalyzer.RecoveryTimeShape | garmindb/analysis/stress_analyzer.py:566-572 | The recovery time is absent exactly when every window sample stays above baseline + 5. Otherwise it lies in `[0, 120]` minutes |
| StressAnalyzer.RecoveryTimeInWindow | garmindb/analysis/stress_analyzer.py:527-572 | A recovery time measured in the window lies in `[0, 120]` minutes |
| StressAnalyzer.CollectedPatternsFrom | garmindb/analysis/stress_analyzer.py:518-590 | `CollectPatterns` (the loop of `_analyze_post_activity_recovery`): every collected pattern is the `RecoveryPattern` of one of the activities |
| StressAnalyzer.CollectedPatternsComplete | garmindb/analysis/stress_analyzer.py:518-590 | `CollectPatterns`: every activity that yields a pattern has that pattern collected |
| StressAnalyzer.CollectedRecoveryBounds | garmindb/analysis/stress_analyzer.py:518-590 | `CollectPatterns`: at most one pattern per activity, and every recovery time lies in `[0, 120]` |
| StressAnalyzer.FastRecoveryExample | garmindb/analysis/stress_analyzer.py:566-572 | A sample at 80 five minutes after the end and at 12 fifteen minutes after, baseline 10: recovery in 15 minutes |
| StressAnalyzer.RecoveryEfficiency | garmindb/analysis/stress_analyzer.py:609-624 | The score is absent exactly when there are no patterns, and otherwise lies in `[0, 100]` |
| StressAnalyzer.RecoveryEfficiencyExample | garmindb/analysis/stress_analyzer.py:609-624 | Recoveries of 30 minutes and never give 37.5 |
| StressAnalyzer.RecoveryEfficiencyExtremes | garmindb/analysis/stress_analyzer.py:612-624 | With window recoveries the score is the unused share of the window: all at once gives 100, none gives 0 |
| StressAnalyzer.PositiveAverages | garmindb/analysis/stress_analyzer.py:702-711 | Only positive averages, at most one per name. The list is empty exactly when no listed name has a positive average |
| StressAnalyzer.PositiveAveragesSelects | garmindb/analysis/stress_analyzer.py:702-711 | The list is `weekday_avg.get(d, 0)` for each name in order, keeping exactly the positive values |
| StressAnalyzer.Sports | garmindb/analysis/stress_analyzer.py:769-790 | The sport names of the given patterns, as a set |
| StressAnalyzer.GenerateInsights | garmindb/analysis/stress_analyzer.py:626-792 | The appending form of `_generate_insights` returns `StressInsights` |
| StressAnalyzer.InsightTitles | garmindb/analysis/stress_analyzer.py:626-792 | The insight titles, rule by rule, in the order the rules are checked |
| StressAnalyzer.StressTitles | garmindb/analysis/stress_analyzer.py:626-792 | The titles are those of the rules whose conditions hold, in rule order |
| StressAnalyzer.HighCumulativeStressRule | garmindb/analysis/stress_analyzer.py:653-671 | "High Cumulative Stress" is reported exactly for a positive load above 500 per day of the period |
| StressAnalyzer.PoorStressRecoveryRule | garmindb/analysis/stress_analyzer.py:673-687 | "Poor Stress Recovery" is reported exactly for an efficiency below 50 |
| StressAnalyzer.ExcellentResilienceRule | garmindb/analysis/stress_analyzer.py:688-697 | "Excellent Stress Resilience" is reported exactly for an efficiency of at least 80 |
| StressAnalyzer.EfficiencyVerdictsExclusive | garmindb/analysis/stress_analyzer.py:673-697 | The two efficiency verdicts are never both reported |
| StressAnalyzer.OccupationalStressRule | garmindb/analysis/stress_analyzer.py:699-733 | "Occupational Stress Detected" is reported exactly for positive workday and weekend means with the workdays above 1.45 times the weekend |
| StressAnalyzer.WorkHoursPeakRule | garmindb/analysis/stress_analyzer.py:736-752 | "Work Hours Stress Peak" is reported exactly for a peak hour from 9 to 17 inclusive |
| StressAnalyzer.SlowRecoveryRule | garmindb/analysis/stress_analyzer.py:754-767 | "Slow Autonomic Recovery" is reported exactly for an average recovery time above 90 minutes |
| StressAnalyzer.IncompleteRecoveryRule | garmindb/analysis/stress_analyzer.py:769-790 | "Incomplete Post-Activity Recovery" is reported exactly when some pattern has no recovery time |
| StressAnalyzer.IncompleteRecoveryDataPoints | garmindb/analysis/stress_analyzer.py:769-790 | That insight is an alert. It counts the activities without recovery and lists exactly their sports |
| StressAnalyzer.PositiveAveragesConstant | garmindb/analysis/stress_analyzer.py:702-711 | Names that all average the same positive value give that value for each of them |
| StressAnalyzer.OccupationalExample | garmindb/analysis/stress_analyzer.py:699-733 | Weekdays at 50 and a weekend at 20 are flagged as occupational stress |
| Numeric.OptionalMean | garmindb/analysis/stress_analyzer.py:148-149 | The mean is absent exactly when there are no values; the recovery analyzer's guarded means (recovery_analyzer.py:123-125) are the same function |
| StressAnalyzer.StressTrend | garmindb/analysis/stress_analyzer.py:151-158 | A 7-day average more than 3 above the 30-day average is declining, more than 3 below is improving, anything else (or a missing average) is stable |
| StressAnalyzer.RecoveryTimes | garmindb/analysis/stress_analyzer.py:202-205 | Each time is the recovery time of some pattern. The list is empty exactly when no pattern recovered |
| StressAnalyzer.RecoveryTimesSelects | garmindb/analysis/stress_analyzer.py:202-205 | The list holds the recovery time of exactly the patterns that recovered, each pattern once, in order |
| StressAnalyzer.CalculateDailyAverages | garmindb/analysis/stress_analyzer.py:211-224 | The loop over the days of the period fills `daily_avg` as `DailyAverages` |
| StressAnalyzer.DailyAveragesShape | garmindb/analysis/stress_analyzer.py:211-224 | A day is a key exactly when it lies in the period and has a positive sample. Its value lies between that day's smallest and largest level |
| StressAnalyzer.AverageStressSummaryShape | garmindb/analysis/stress_analyzer.py:108-170 | The summary is named "Average Stress" and its averages are the 7-day and 30-day means, a 7-day sample implying a 30-day one. With positive levels the current value lies between the minimum and maximum. Without them it is 0, with no bounds, no averages and a stable trend |
| StressAnalyzer.PeakLowestShape | garmindb/analysis/stress_analyzer.py:183-191 | Peak and lowest exist exactly when some hour has samples. Each is the hour of the first active pattern of highest (lowest) average: no active pattern is above (below) it, and every active pattern before it is strictly below (above) it |
| StressAnalyzer.PeakHourOfDay | garmindb/analysis/stress_analyzer.py:183-191 | The peak and the lowest hour are hours of the day |
| StressAnalyzer.AverageRecoveryBounds | garmindb/analysis/stress_analyzer.py:201-209 | The average recovery time exists exactly when some activity recovered, and lies in `[0, 120]` |
| StressAnalyzer.StressSummaryDefined | garmindb/analysis/stress_analyzer.py:653-655 | The daily-load rule never divides by zero, because a period of no days has no load |
| StressAnalyzer.Analyze | garmindb/analysis/stress_analyzer.py:66-250 | `analyze` on the fetched samples and activities returns `StressAnalysis` |
| StressAnalyzer.AnalysisShares | garmindb/analysis/stress_analyzer.py:114-133 | The result covers the requested period. The three shares are percentages adding up to 100 when a positive sample exists, and are all 0 otherwise |
| StressAnalyzer.AnalysisRecovery | garmindb/analysis/stress_analyzer.py:193-209 | The efficiency lies in `[0, 100]` and the average recovery time in `[0, 120]`. A recovery time implies an efficiency |
| ActivityAnalyzer.Lower | garmindb/analysis/activity_analyzer.py:196 | Lower-casing keeps the length and maps each ASCII capital to its lower case |
| ActivityAnalyzer.LowerIdempotent | garmindb/analysis/activity_analyzer.py:196 | Lower-casing a lower-cased name changes nothing |
| ActivityAnalyzer.LoadFactor | garmindb/analysis/activity_analyzer.py:25-34 | The per-minute factor lies in `[0.2, 0.9]`, the range of the factor table |
| ActivityAnalyzer.EstimateLoad | garmindb/analysis/activity_analyzer.py:173-199 | The load is estimated exactly when no positive load was measured; a measured one is returned as it is. An estimate is 0 without a duration, and otherwise between 0.2 and 0.9 load points per minute |
| ActivityAnalyzer.RunningLoadExample | garmindb/analysis/activity_analyzer.py:194-199 | An hour of running is estimated at 48, whatever the case of the sport name |
| ActivityAnalyzer.DefaultLoadExample | garmindb/analysis/activity_analyzer.py:194-199 | An hour of walking is estimated at 18; an unknown or empty sport at 30 |
| ActivityAnalyzer.MeasuredLoadExample | garmindb/analysis/activity_analyzer.py:188-189 | A measured load is taken as it is, whatever the duration |
| ActivityAnalyzer.BuildDailyLoads | garmindb/analysis/activity_analyzer.py:201-241 | The `while` and `for` loops return the daily series `DailyLoads` and the confidence `Confidence` |
| ActivityAnalyzer.DailyLoadsDays | garmindb/analysis/activity_analyzer.py:218-223 | The series has exactly one entry per day of `[first, last]` |
| ActivityAnalyzer.FiveDaysExample | garmindb/analysis/activity_analyzer.py:218-236 | A five-day range gives five entries |
| ActivityAnalyzer.OutsideActivityIgnored | garmindb/analysis/activity_analyzer.py:229-236 | An activity dated outside the range changes neither the series nor the load totals |
| ActivityAnalyzer.MeasuredWithinTotal | garmindb/analysis/activity_analyzer.py:229-236 | With non-negative loads the measured load is between 0 and the total load |
| ActivityAnalyzer.ConfidenceBounds | garmindb/analysis/activity_analyzer.py:238-239 | With non-negative loads the confidence lies in `[0, 1]` |
| ActivityAnalyzer.ConfidenceExample | garmindb/analysis/activity_analyzer.py:225-239 | A measured 100 and an estimated 48 give a confidence of 100/148 |
| ActivityAnalyzer.CalculateEma | garmindb/analysis/activity_analyzer.py:243-260 | The loop returns `Ema`: 0 for no values, else seeded with the first value and updated with `alpha = 2 / (w + 1)` |
| ActivityAnalyzer.EmaBounds | garmindb/analysis/activity_analyzer.py:253-260 | The moving average lies within any bounds of the values |
| ActivityAnalyzer.EmaConstant | garmindb/analysis/activity_analyzer.py:253-260 | A constant series keeps its value as its average |
| ActivityAnalyzer.EmaExample | garmindb/analysis/activity_analyzer.py:253-260 | `[100, 0, 0]` with window 7 gives 56.25 |
| ActivityAnalyzer.SeriesDates | garmindb/analysis/activity_analyzer.py:280-281 | Dates present in the series, none after the end date, strictly ascending |
| ActivityAnalyzer.CalculateTsbMetrics | garmindb/analysis/activity_analyzer.py:262-307 | `_calculate_tsb_metrics` returns `TsbMetrics`, with its averages computed by `CalculateEma` |
| ActivityAnalyzer.MonotonyCases | garmindb/analysis/activity_analyzer.py:309-336 | Monotony is missing exactly below seven days. Otherwise it is 0 for a zero mean, 10 for equal loads, and mean over standard deviation for a positive variance |
| ActivityAnalyzer.MonotonyExample | garmindb/analysis/activity_analyzer.py:309-354 | Seven days of 50 give monotony 10 and strain 3500 |
| ActivityAnalyzer.StrainCases | garmindb/analysis/activity_analyzer.py:338-354 | Strain is 0 without a monotony, the weekly load at monotony 1, and non-negative for a non-negative load and monotony |
| ActivityAnalyzer.TsbBounds | garmindb/analysis/activity_analyzer.py:283-287 | Form is fitness minus fatigue. Both averages lie within the bounds of the loads, and all three are 0 without dates |
| ActivityAnalyzer.TsbConstantLoad | garmindb/analysis/activity_analyzer.py:283-287 | Under a constant daily load, fatigue and fitness equal that load and form is 0 |
| ActivityAnalyzer.TsbShortPeriod | garmindb/analysis/activity_analyzer.py:289-298 | Fewer than seven period days give no monotony and no strain |
| ActivityAnalyzer.DailyLoadsDates | garmindb/analysis/activity_analyzer.py:218-223 | The sorted dates of the gap-free series are the days of `[first, last]` in order |
| ActivityAnalyzer.PeriodOfRange | garmindb/analysis/activity_analyzer.py:289-293 | The days of a range that fall into a later sub-range ending on the same day are that sub-range |
| ActivityAnalyzer.SportName | garmindb/analysis/activity_analyzer.py:371 | Never empty, and the activity's own sport whenever it has one |
| ActivityAnalyzer.AverageSpeed | garmindb/analysis/activity_analyzer.py:386-389 | Present exactly when distance and time are both positive, and then positive |
| ActivityAnalyzer.AverageSpeedCoversDistance | garmindb/analysis/activity_analyzer.py:386-389 | Whenever the speed is present, speed times hours equals the distance |
| ActivityAnalyzer.EfficiencyIndex | garmindb/analysis/activity_analyzer.py:397-400 | Present exactly when the speed is truthy and the heart rate is present and positive, and positive for a positive speed |
| ActivityAnalyzer.Truthful | garmindb/analysis/activity_analyzer.py:405-410 | A zero value is reported as missing, and any other value as itself |
| ActivityAnalyzer.SportGroupsStep | garmindb/analysis/activity_analyzer.py:369-375 | Adding an activity appends it to its sport's group and leaves the other groups unchanged |
| ActivityAnalyzer.GroupBySport | garmindb/analysis/activity_analyzer.py:369-375 | The grouping loop returns `SportGroups` |
| ActivityAnalyzer.GroupedIsSportGroups | garmindb/analysis/activity_analyzer.py:369-375 | Appending each activity in turn to its sport's group builds exactly the per-sport groups of `SportGroups`, each sport's activities in their original order |
| ActivityAnalyzer.SummarizeGroups | garmindb/analysis/activity_analyzer.py:377-411 | The summarizing loop returns the summary of each group |
| ActivityAnalyzer.SummarizeEach | garmindb/analysis/activity_analyzer.py:377-411 | The loop over the sports gives every sport of the groups, and only those, the summary of its own group |
| ActivityAnalyzer.BuildSportSummaries | garmindb/analysis/activity_analyzer.py:356-413 | `_build_sport_summaries` returns `SportSummaries` |
| ActivityAnalyzer.SportSummariesShape | garmindb/analysis/activity_analyzer.py:356-413 | One summary per sport present. Each carries its sport's name and activity count, which is at least one, and every activity is counted under its sport |
| ActivityAnalyzer.SpeedAndEfficiency | garmindb/analysis/activity_analyzer.py:386-400 | Speed is reported exactly when distance and time are positive. The efficiency index is reported exactly when, in addition, a positive heart rate was recorded |
| ActivityAnalyzer.HeartRateBounds | garmindb/analysis/activity_analyzer.py:391-392 | The average heart rate lies within any bounds of the recorded ones |
| ActivityAnalyzer.MaxEffect | garmindb/analysis/activity_analyzer.py:394-395 | The largest non-zero recorded training effect, negative ones included, or 0 when none was recorded |
| ActivityAnalyzer.EfficiencyExample | garmindb/analysis/activity_analyzer.py:386-400 | 12 km in one hour at 150 bpm: 12 km/h and efficiency index 8 |
| ActivityAnalyzer.BandsDisjoint | garmindb/analysis/activity_analyzer.py:37-43 | The five Training Effect bands do not overlap |
| ActivityAnalyzer.CategoriesDistinct | garmindb/analysis/activity_analyzer.py:37-43 | The five category names are distinct |
| ActivityAnalyzer.CategorizeIntensity | garmindb/analysis/activity_analyzer.py:415-427 | A value in a band gets that band's name. A value in no band, including the gaps and values outside `[0, 5]`, gets "Base" |
| ActivityAnalyzer.CategorizeExamples | garmindb/analysis/activity_analyzer.py:415-427 | Concrete values in bands, in gaps and above 5 |
| ActivityAnalyzer.CalculateIntensityDistribution | garmindb/analysis/activity_analyzer.py:429-459 | The counting loop returns `IntensityDistribution` |
| ActivityAnalyzer.CountsPartition | garmindb/analysis/activity_analyzer.py:449-454 | Every activity with a training effect is counted in exactly one category |
| ActivityAnalyzer.DistributionTotal | garmindb/analysis/activity_analyzer.py:455-459 | The five shares of a non-empty distribution add up to 100 |
| ActivityAnalyzer.DistributionShares | garmindb/analysis/activity_analyzer.py:429-459 | The five categories are the keys. Each share is a percentage, and all are 0 without a training effect |
| ActivityAnalyzer.DistributionKeys | garmindb/analysis/activity_analyzer.py:429-459 | The distribution's keys are exactly Recovery, Base, Improving, Highly Improving and Overreaching |
| ActivityAnalyzer.DistributionExample | garmindb/analysis/activity_analyzer.py:429-459 | Effects 1.5, 3.5 and 3.5 give one third Recovery and two thirds Improving |
| ActivityAnalyzer.EffectMeanBounds | garmindb/analysis/activity_analyzer.py:472-488 | The mean of a recorded effect lies within any bounds of it, and is 0 when it was never recorded |
| ActivityAnalyzer.AverageEffectsBounds | garmindb/analysis/activity_analyzer.py:461-491 | Both mean effects lie within the bounds of the recorded ones, and are 0 when none was recorded |
| ActivityAnalyzer.WeekDays | garmindb/analysis/activity_analyzer.py:512-520 | The seven loads from the week start, 0 for a day missing from the series |
| ActivityAnalyzer.WeekLoadNonNegative | garmindb/analysis/activity_analyzer.py:512-520 | Non-negative daily loads give non-negative week loads |
| ActivityAnalyzer.WeekLoadConstant | garmindb/analysis/activity_analyzer.py:512-520 | A week at a constant `c` per day totals `7 c` |
| ActivityAnalyzer.VolumeTrendRule | garmindb/analysis/activity_analyzer.py:493-531 | `VolumeTrend` (`_calculate_volume_trend`): no previous-week load gives stable. Otherwise improving exactly above 110% of the previous week, and declining exactly below 90% |
| ActivityAnalyzer.ConsistencyInsight | garmindb/analysis/activity_analyzer.py:613-665 | Any insight returned is the spike warning of the activity category |
| ActivityAnalyzer.ConsistencyRule | garmindb/analysis/activity_analyzer.py:639-665 | The spike is reported exactly when the previous week is positive and the current week is above 120% or below 80% of it. A zero previous week reports nothing |
| ActivityAnalyzer.SpikeInsight | garmindb/analysis/activity_analyzer.py:639-665 | Any insight from a pair of weekly loads is the "Training Volume Spike" warning of the activity category |
| ActivityAnalyzer.SpikeRule | garmindb/analysis/activity_analyzer.py:639-665 | For a positive previous week the spike fires exactly when the current week is above 120% or below 80% of it. A previous week of at most 0 never fires |
| ActivityAnalyzer.SpikeChangesTrend | garmindb/analysis/activity_analyzer.py:522-531 | A reported spike is also a volume-trend change in the same direction |
| ActivityAnalyzer.BalanceInsight | garmindb/analysis/activity_analyzer.py:667-722 | A verdict is returned exactly when high intensity is above 30%, or low intensity is below 50% with high plus moderate above 50% |
| ActivityAnalyzer.BalanceVerdicts | garmindb/analysis/activity_analyzer.py:687-722 | A returned verdict is of the activity category: the "High Intensity Imbalance" alert above 30% high intensity, otherwise the "Lack of Base Training" warning |
| ActivityAnalyzer.BalanceOnDistribution | garmindb/analysis/activity_analyzer.py:677-722 | Without training effects there is no verdict. On a distribution computed from activities, a verdict is reported exactly when high intensity is above 30% or low intensity below 50% |
| ActivityAnalyzer.DistributionGroups | garmindb/analysis/activity_analyzer.py:677-685 | The high, moderate and low groups of a distribution add up to 100, or are all 0 |
| ActivityAnalyzer.ConfidenceInsight | garmindb/analysis/activity_analyzer.py:562-580 | "Limited Training Load Data" (info) is reported exactly when there is training stress with a confidence below 0.7 |
| ActivityAnalyzer.FormInsight | garmindb/analysis/activity_analyzer.py:582-609 | An insight exactly when form is above 25 or below -30: "Peak Freshness" (positive) above 25, "High Fatigue Load" (warning) otherwise |
| ActivityAnalyzer.GenerateInsights | garmindb/analysis/activity_analyzer.py:533-611 | The appending loop returns `ActivityInsights` |
| ActivityAnalyzer.ActivityInsightsCategory | garmindb/analysis/activity_analyzer.py:533-611 | At most four insights, all of the activity category |
| ActivityAnalyzer.ActivityInsightTitles | garmindb/analysis/activity_analyzer.py:533-611 | The titles are those of the rules that fire, in rule order |
| ActivityAnalyzer.PeriodActivities | garmindb/analysis/activity_analyzer.py:93-96 | Exactly the activities dated within the period, each as often as in the input, kept in input order (a subsequence of the input) |
| ActivityAnalyzer.EmptyResult | garmindb/analysis/activity_analyzer.py:162-171 | The empty result covers the period with no activities, no totals, no training stress and no insights |
| ActivityAnalyzer.PeriodSeries | garmindb/analysis/activity_analyzer.py:135-138 | The entries of the series dated within the period, with their loads |
| ActivityAnalyzer.Analyze | garmindb/analysis/activity_analyzer.py:71-160 | `analyze` on the fetched activities returns `ActivityAnalysis` |
| ActivityAnalyzer.AnalysisEmpty | garmindb/analysis/activity_analyzer.py:99-100 | The result is empty exactly when no activity falls in the period. Otherwise it counts the period's activities and carries training stress |
| ActivityAnalyzer.AnalysisSeries | garmindb/analysis/activity_analyzer.py:135-138 | The period series of a non-empty analysis is the daily load series of the period's own days |
| ActivityAnalyzer.LookbackPeriodLoads | garmindb/analysis/activity_analyzer.py:289-293 | After the 42-day lookback, there is one period load per day of the period |
| ActivityAnalyzer.AnalysisMonotony | garmindb/analysis/activity_analyzer.py:289-298 | A non-empty analysis has a monotony exactly when the period spans at least seven days, and has no strain without one |
| ActivityAnalyzer.AnalysisConfidence | garmindb/analysis/activity_analyzer.py:102-104 | With non-negative durations the confidence lies in `[0, 1]` |
| ActivityAnalyzer.AnalysisInsights | garmindb/analysis/activity_analyzer.py:157-158 | The insights of a non-empty analysis are the four rules applied to its own summary, and the low-confidence rule fires exactly for a confidence below 0.7 |
| RecoveryAnalyzer.Readings | garmindb/analysis/recovery_analyzer.py:96-125 | At most one reading per record, none of them zero. The readings are the field values of exactly the records where the field is truthy, one per record, in order |
| RecoveryAnalyzer.ReadingsBounds | garmindb/analysis/recovery_analyzer.py:96-125 | When every present non-zero field value lies in `[lo, hi]`, so does every reading |
| RecoveryAnalyzer.LowestCount | garmindb/analysis/recovery_analyzer.py:325 | `max(1, n // 4)` is at least 1, at most `n` for `n >= 1`, and a quarter of `n` rounded down from `n = 4` on |
| RecoveryAnalyzer.RhrBaselineBounds | garmindb/analysis/recovery_analyzer.py:314-326 | The baseline is 0.0 without a reading in `[end - 60, end]`. Otherwise it is at least the lowest reading and at most their mean |
| RecoveryAnalyzer.RhrBaselinePositive | garmindb/analysis/recovery_analyzer.py:314-326 | With positive readings, the baseline is positive exactly when a reading exists |
| RecoveryAnalyzer.LowestQuartileBounds | garmindb/analysis/recovery_analyzer.py:324-326 | The mean of the lowest quarter lies between the minimum and the mean of the values |
| RecoveryAnalyzer.LowestQuartileOrderIndependent | garmindb/analysis/recovery_analyzer.py:324 | Because the readings are sorted first, their input order does not change the lowest-quarter mean |
| RecoveryAnalyzer.RecoveryScore | garmindb/analysis/recovery_analyzer.py:328-376 | The score is a whole number in `[0, 100]` |
| RecoveryAnalyzer.ScoreComponents | garmindb/analysis/recovery_analyzer.py:355-363 | The RHR component depends only on `abs(deviation)`, is 100 at 0, and loses five points per beat down to 0. Body Battery is clamped to `[0, 100]`. A missing or zero sleep score counts as 70 |
| RecoveryAnalyzer.RhrComponentMonotone | garmindb/analysis/recovery_analyzer.py:360-363 | A larger deviation in either direction never raises the RHR component |
| RecoveryAnalyzer.WeightedScoreBetween | garmindb/analysis/recovery_analyzer.py:365-374 | With or without renormalised weights, the weighted score lies between any bounds of the components it uses |
| RecoveryAnalyzer.ScoreOfEqualComponents | garmindb/analysis/recovery_analyzer.py:365-374 | Equal components give that value. Without RHR data the deviation does not matter |
| RecoveryAnalyzer.RecoveryScoreMonotone | garmindb/analysis/recovery_analyzer.py:328-376 | With the other inputs fixed, a larger deviation never raises the score |
| RecoveryAnalyzer.RecoveryScoreExamples | garmindb/analysis/recovery_analyzer.py:355-376 | A 4 bpm deviation either way, a charge of 60 and a sleep score of 80 score 73 |
| RecoveryAnalyzer.WindowLoads | garmindb/analysis/recovery_analyzer.py:406-415 | Every non-zero load of an activity dated within the window is listed, and every listed load is one of them |
| RecoveryAnalyzer.WindowLoadsSelects | garmindb/analysis/recovery_analyzer.py:406-415 | The load of exactly each loaded activity of the window, one per activity, in order, so that two equal loads both count |
| RecoveryAnalyzer.AcwrAbsent | garmindb/analysis/recovery_analyzer.py:417-424 | `AcuteChronicRatio`: the ratio is absent exactly when the chronic window has no load or sums to zero |
| RecoveryAnalyzer.AcwrBounds | garmindb/analysis/recovery_analyzer.py:402-426 | `AcuteChronicRatio` (the ACWR of `_calculate_acwr`): with non-negative loads, the ratio is absent exactly when no loaded activity falls in the chronic window. Otherwise it lies in `[0, 4]` |
| RecoveryAnalyzer.WindowNested | garmindb/analysis/recovery_analyzer.py:406-415 | With non-negative loads, the longer window ending on the same day holds at least as much load |
| RecoveryAnalyzer.WindowPositive | garmindb/analysis/recovery_analyzer.py:406-415 | With non-negative loads, a window holding a load has a positive total |
| RecoveryAnalyzer.RhrTrend | garmindb/analysis/recovery_analyzer.py:464-470 | Improving exactly below -2, declining exactly above 2, and stable otherwise |
| RecoveryAnalyzer.RhrTrendMirror | garmindb/analysis/recovery_analyzer.py:464-470 | Negating the deviation swaps improving and declining |
| RecoveryAnalyzer.HalvesTrendIsRhrTrend | garmindb/analysis/recovery_analyzer.py:452-460 | The half comparison applies `_rhr_trend`'s thresholds to the change of the means |
| RecoveryAnalyzer.HalvesTrendMirror | garmindb/analysis/recovery_analyzer.py:443-462 | Swapping the halves swaps improving and declining |
| RecoveryAnalyzer.RecoveryTrendStable | garmindb/analysis/recovery_analyzer.py:428-462 | `RecoveryTrend` (`_calculate_trend`): stable for fewer than seven records, for a half without readings, and for readings that all lie within a 2 bpm band |
| RecoveryAnalyzer.RecoveryTrendOfHalves | garmindb/analysis/recovery_analyzer.py:440-462 | `RecoveryTrend`: from seven records with readings in both halves, the trend is `_rhr_trend`'s verdict on the second-half mean minus the first-half mean |
| RecoveryAnalyzer.RecoveryTrendExample | garmindb/analysis/recovery_analyzer.py:428-462 | Ten days with RHR dropping from 60 to 50 halfway are improving |
| RecoveryAnalyzer.ConstantReadings | garmindb/analysis/recovery_analyzer.py:96-125 | Records carrying the same non-zero reading give one equal reading per record |
| RecoveryAnalyzer.Present | garmindb/analysis/recovery_analyzer.py:483-487 | At most one value per record |
| RecoveryAnalyzer.PresentSelects | garmindb/analysis/recovery_analyzer.py:483-487 | The values are the field values of exactly the records where the field is not `None`, one per record, in order |
| RecoveryAnalyzer.AvgLastNDays | garmindb/analysis/recovery_analyzer.py:472-489 | The appending loop returns `AverageLastNDays`, the mean of the present values among the most recent records |
| RecoveryAnalyzer.MostRecentIsLatest | garmindb/analysis/recovery_analyzer.py:481-482 | The records averaged are `min(n, count)` of the records, and any record newer than a kept one is kept as well |
| RecoveryAnalyzer.AverageLastNDaysBounds | garmindb/analysis/recovery_analyzer.py:472-489 | Present values in `[lo, hi]` average to a value in `[lo, hi]` |
| RecoveryAnalyzer.AverageCountsZero | garmindb/analysis/recovery_analyzer.py:485-487 | A zero reading counts towards these averages: 0 and 60 average 30 |
| RecoveryAnalyzer.RhrVerdicts | garmindb/analysis/recovery_analyzer.py:516-561 | With RHR data, a deviation above 10 is a "Significantly Elevated RHR" alert, in `(5, 10]` an "Elevated RHR" warning, and below -3 an "Excellent RHR Recovery" positive. Without RHR data there is no insight |
| RecoveryAnalyzer.RhrInsight | garmindb/analysis/recovery_analyzer.py:516-561 | An RHR insight exists exactly with RHR data and a deviation above 5 or below -3, and it is of the recovery category |
| RecoveryAnalyzer.BodyBatteryInsight | garmindb/analysis/recovery_analyzer.py:563-589 | An insight exactly below 30 or from 80: a "Low Overnight Recharge" warning below 30, an "Excellent Recovery" positive otherwise, of the recovery category |
| RecoveryAnalyzer.LowOvernightRecharge | garmindb/analysis/recovery_analyzer.py:563-578 | An average recharge below 30 warns |
| RecoveryAnalyzer.ExcellentRecovery | garmindb/analysis/recovery_analyzer.py:579-589 | An average of at least 80 is positive |
| RecoveryAnalyzer.AcwrVerdicts | garmindb/analysis/recovery_analyzer.py:591-633 | Above 1.5 is a "High Injury Risk" alert, `(1.3, 1.5]` a "Training Load Caution" warning, below 0.8 a "Training Load Below Optimal" info |
| RecoveryAnalyzer.AcwrInsight | garmindb/analysis/recovery_analyzer.py:591-633 | An ACWR insight exists exactly when the ratio is present and above 1.3 or below 0.8, and it is of the recovery category |
| RecoveryAnalyzer.GenerateInsights | garmindb/analysis/recovery_analyzer.py:491-635 | The appending form returns `RecoveryInsights` |
| RecoveryAnalyzer.RecoveryInsightsShape | garmindb/analysis/recovery_analyzer.py:491-635 | At most three insights, all of the recovery category. Each rule's insight is present exactly when it fires |
| RecoveryAnalyzer.PeriodActivities | garmindb/analysis/recovery_analyzer.py:90-93 | Exactly the activities that started within the period, each as often as in the input, kept in input order (a subsequence of the input) |
| RecoveryAnalyzer.KnownLoads | garmindb/analysis/recovery_analyzer.py:111-114 | The loads of exactly the activities whose load is not `None`, one per activity, in order |
| RecoveryAnalyzer.SleepScores | garmindb/analysis/recovery_analyzer.py:119-122 | The scores of exactly the nights dated within the period with a truthy score, one per night, in order |
| RecoveryAnalyzer.Analyze | garmindb/analysis/recovery_analyzer.py:63-205 | `analyze` on the fetched records returns `RecoveryAnalysis` |
| RecoveryAnalyzer.AnalysisBounds | garmindb/analysis/recovery_analyzer.py:128-186 | The period is kept and the score lies in `[0, 100]`. High plus low days are at most the days analysed. There are at most three recovery insights, and with non-negative loads the ACWR lies in `[0, 4]` |
| RecoveryAnalyzer.AnalysisWithoutReadings | garmindb/analysis/recovery_analyzer.py:128-180 | No readings: score 50, deviation 0, a stable RHR, no minimum or maximum, a Body Battery of 50, and only the ACWR rule |
| RecoveryAnalyzer.AnalysisDeviation | garmindb/analysis/recovery_analyzer.py:96-104 | With readings and a baseline, the deviation is their mean minus the baseline, and the RHR current lies between its minimum and maximum |
| RecoveryAnalyzer.RhrSummaryShape | garmindb/analysis/recovery_analyzer.py:154-163 | With readings, the RHR summary's trend is the deviation's trend, and its minimum and maximum are present and bound its mean |
| RecoveryAnalyzer.TodayRecord | garmindb/analysis/recovery_analyzer.py:226-227 | The first record of the target day, absent exactly when no record has that date |
| RecoveryAnalyzer.NightOf | garmindb/analysis/recovery_analyzer.py:230-233 | The first night recorded under the target day, absent exactly when there is none |
| RecoveryAnalyzer.RhrFactor | garmindb/analysis/recovery_analyzer.py:238-244 | A factor in `[0, 1]`, 0.5 without a baseline or reading. With both it is 1 exactly at zero deviation and 0 exactly from 20 beats of deviation |
| RecoveryAnalyzer.BbFactor | garmindb/analysis/recovery_analyzer.py:245-250 | Today's charge over 100 when non-zero, else today's peak over 100 when non-zero, else 0.5 |
| RecoveryAnalyzer.SleepFactor | garmindb/analysis/recovery_analyzer.py:252-255 | The sleep score over 100, else 0.7 |
| RecoveryAnalyzer.RecentLoads | garmindb/analysis/recovery_analyzer.py:258-262 | Every non-zero load of an activity started three days before the target or later is listed, and every listed load is one of them |
| RecoveryAnalyzer.RecentLoadsSelects | garmindb/analysis/recovery_analyzer.py:258-262 | The load of exactly each loaded activity from three days before the target on, one per activity, in order, so that two equal loads both count |
| RecoveryAnalyzer.ActivityFactor | garmindb/analysis/recovery_analyzer.py:263-264 | In `[0, 1]`: 1 without recent load, 0 from 300 on |
| RecoveryAnalyzer.ActivityFactorMonotone | garmindb/analysis/recovery_analyzer.py:263-264 | More recent load never gives more freshness |
| RecoveryAnalyzer.ReadinessRecoveryScore | garmindb/analysis/recovery_analyzer.py:266-268 | Factors in `[0, 1]` give a score in `[0, 100]` |
| RecoveryAnalyzer.ReadinessScore | garmindb/analysis/recovery_analyzer.py:270-271 | In `[0, 100]` for a score in `[0, 100]` and a factor in `[0, 1]` |
| RecoveryAnalyzer.ReadinessScoreMonotone | garmindb/analysis/recovery_analyzer.py:270-271 | Readiness grows with the recovery score and with freshness |
| RecoveryAnalyzer.RecommendedIntensity | garmindb/analysis/recovery_analyzer.py:273-281 | "intense" exactly from 80, "moderate" exactly in `[60, 80)`, "light" exactly in `[40, 60)`, and "rest" below 40 |
| RecoveryAnalyzer.StressFactor | garmindb/analysis/recovery_analyzer.py:288-290 | One minus the average stress over 100, or 0.7 without a reading |
| RecoveryAnalyzer.DailyReadinessBounds | garmindb/analysis/recovery_analyzer.py:206-295 | `DailyReadiness` (`daily_readiness`): with 0-100 readings, the result is for the target date, both scores lie in `[0, 100]`, the sleep and activity factors lie in `[0, 1]`, "intense" is given exactly from 80 and "rest" exactly below 40 |
| RecoveryAnalyzer.DailyReadinessWithoutData | garmindb/analysis/recovery_analyzer.py:236-295 | No records: factors 0.5, 0.5 and 0.7, recovery 56 in exact arithmetic (the program's float sum gives 55), readiness 73, "moderate" |
| RecoveryAnalyzer.ReadinessFallsWithLoad | garmindb/analysis/recovery_analyzer.py:257-271 | More recent training load never raises readiness |
| SleepAnalyzer.Values | garmindb/analysis/sleep_analyzer.py:38-42 | One value per night, that night's field, in night order |
| SleepAnalyzer.SleepTrend | garmindb/analysis/sleep_analyzer.py:102-113 | Fewer than 14 values give a stable trend |
| SleepAnalyzer.ChangeTrendCases | garmindb/analysis/sleep_analyzer.py:106-113 | With a positive previous mean: improving exactly above 105% of it, declining exactly below 95% |
| SleepAnalyzer.ChangeTrendFromZero | garmindb/analysis/sleep_analyzer.py:106 | A previous mean of 0 is stable |
| SleepAnalyzer.ConstantSeriesStable | garmindb/analysis/sleep_analyzer.py:102-113 | A constant series is stable |
| SleepAnalyzer.MetricSummaryOf | garmindb/analysis/sleep_analyzer.py:91-124 | No values: the name, a current value of 0 and the unit. Otherwise the current value is the last; min and max are from the values and bound them; the averages lie within them; below 7 values the 7-day average is the overall mean; the trend is `SleepTrend` |
| SleepAnalyzer.SummaryWeeklyAverage | garmindb/analysis/sleep_analyzer.py:100 | From 7 values, the 7-day average is the mean of the last 7 |
| SleepAnalyzer.SummaryOfConstant | garmindb/analysis/sleep_analyzer.py:91-124 | A repeated value gives that value for every statistic, and a stable trend |
| SleepAnalyzer.ConsistencyBounds | garmindb/analysis/sleep_analyzer.py:126-133 | `Consistency` (`_calc_consistency`): in `[0, 100]`, and 50 below three nights. From three nights, 100 exactly at zero sample variance (so for equal totals) and 0 from a deviation of 4 hours |
| SleepAnalyzer.DayHours | garmindb/analysis/sleep_analyzer.py:139-142 | At most one total per night |
| SleepAnalyzer.DayHoursSelects | garmindb/analysis/sleep_analyzer.py:139-142 | The totals of exactly the nights on that weekday, one per night, in order |
| SleepAnalyzer.TabulateIsDayHours | garmindb/analysis/sleep_analyzer.py:139-142 | The table lists each weekday at most once, has a key exactly for the weekdays listed, holds for each exactly its nights' totals (never empty), and lists the weekday of every night |
| SleepAnalyzer.TabulateFirstSeen | garmindb/analysis/sleep_analyzer.py:139-141 | The table lists the weekdays in the order of their first nights: every night before the first night of a listed weekday falls on a weekday listed earlier |
| SleepAnalyzer.BestWorstDaysSpec | garmindb/analysis/sleep_analyzer.py:135-152 | Both absent exactly without nights. Otherwise no weekday's mean is above the best or below the worst, and every night before the first night of the best (worst) falls on a weekday of strictly smaller (larger) mean: among tied weekdays, the one seen first |
| SleepAnalyzer.BestIsFirstSeen | garmindb/analysis/sleep_analyzer.py:150 | Every night before the first night of the best weekday falls on a weekday of strictly smaller mean |
| SleepAnalyzer.WorstIsFirstSeen | garmindb/analysis/sleep_analyzer.py:151 | Every night before the first night of the worst weekday falls on a weekday of strictly larger mean |
| SleepAnalyzer.FindBestWorstDays | garmindb/analysis/sleep_analyzer.py:135-152 | The loop and the two picks return `BestWorstDays` |
| SleepAnalyzer.DurationInsight | garmindb/analysis/sleep_analyzer.py:163-208 | Exactly one of debt below 7 h (warning), oversleeping above 9 h (info) and healthy (positive) |
| SleepAnalyzer.DeepSleepInsight | garmindb/analysis/sleep_analyzer.py:210-225 | Deep sleep below 15% warns, and otherwise nothing |
| SleepAnalyzer.RemSleepInsight | garmindb/analysis/sleep_analyzer.py:227-241 | REM below 20% informs, and otherwise nothing |
| SleepAnalyzer.DecliningTrendInsight | garmindb/analysis/sleep_analyzer.py:243-256 | A declining total trend warns, and otherwise nothing |
| SleepAnalyzer.GenerateInsights | garmindb/analysis/sleep_analyzer.py:154-258 | The appending form returns `SleepInsights` |
| SleepAnalyzer.SleepInsightsShape | garmindb/analysis/sleep_analyzer.py:154-258 | One duration insight first. After it, at most one insight from each other rule, each present exactly when it fires, and none carries a duration title |
| SleepAnalyzer.SleepDebtFirst | garmindb/analysis/sleep_analyzer.py:162-185 | A headline average below 7 hours makes the "Sleep Debt Detected" warning the first insight |
| SleepAnalyzer.DailyValues | garmindb/analysis/sleep_analyzer.py:60-61 | A date is a key exactly when some night is recorded under it |
| SleepAnalyzer.DailyValuesLastWins | garmindb/analysis/sleep_analyzer.py:60-61 | Each date maps to the value of the last night under it |
| SleepAnalyzer.EmptySleepResult | garmindb/analysis/sleep_analyzer.py:77-89 | Blank summaries with current value 0, consistency 0, no days and no insights |
| SleepAnalyzer.Analyze | garmindb/analysis/sleep_analyzer.py:31-75 | `analyze` on the fetched nights returns `SleepAnalysis` |
| SleepAnalyzer.SleepAnalysisShape | garmindb/analysis/sleep_analyzer.py:31-75 | No nights give the empty result. Nights give one to four insights led by the duration insight, a consistency in `[0, 100]`, and a best and a worst weekday |
| HealthAnalyzer.DailyPeriod | garmindb/analysis/health_analyzer.py:22-25 | Both bounds are the given day, or today |
| HealthAnalyzer.WeeklyPeriod | garmindb/analysis/health_analyzer.py:27-31 | The end is the given day or today, and the start is six days earlier: seven days |
| HealthAnalyzer.MonthlyPeriod | garmindb/analysis/health_analyzer.py:33-37 | The start is 29 days before the end: thirty days |
| HealthAnalyzer.Flatten | garmindb/analysis/health_analyzer.py:62-64 | Every insight of every analysis is in the flattened list |
| HealthAnalyzer.CollectKeyInsights | garmindb/analysis/health_analyzer.py:58-72 | The nested loops return `KeyInsights` |
| HealthAnalyzer.CollectMembers | garmindb/analysis/health_analyzer.py:65-70 | Exactly the warnings and alerts that occur are collected |
| HealthAnalyzer.CollectDistinct | garmindb/analysis/health_analyzer.py:69-70 | None is collected twice |
| HealthAnalyzer.CollectSubsequence | garmindb/analysis/health_analyzer.py:60-72 | The collected insights are a subsequence of the input |
| HealthAnalyzer.CollectFirstOccurrenceOrder | garmindb/analysis/health_analyzer.py:60-72 | They come in the order of their first occurrences |
| HealthAnalyzer.CollectKeyDistinct | garmindb/analysis/health_analyzer.py:58-72 | A list of distinct warnings and alerts is its own key-insight list |
| HealthAnalyzer.KeyInsightsSpec | garmindb/analysis/health_analyzer.py:58-72 | Exactly the warnings and alerts, without repeats, as a subsequence in first-occurrence order. Collecting again changes nothing |
| HealthAnalyzer.GenerateReport | garmindb/analysis/health_analyzer.py:39-56 | `generate_report` returns `HealthReportOf` |
| HealthAnalyzer.HealthReportSpec | garmindb/analysis/health_analyzer.py:39-56 | The report covers the requested bounds and holds the sleep analysis of that period as its only component. Its key insights are the sleep warnings and alerts, and the metadata is version "1.0" with analyzers ["sleep"] |
| HealthAnalyzer.SleepDebtIsKey | garmindb/analysis/health_analyzer.py:39-56 | When the period's headline sleep is below 7 hours, the "Sleep Debt Detected" warning is among the report's key insights |
| Seqs.ArgMaxBy | garmindb/analysis/sleep_analyzer.py:148-151 | `max(..., key=f)` returns the first element of largest key, and it belongs to the list |
| Seqs.ArgMinBy | garmindb/analysis/sleep_analyzer.py:148-151 | `min(..., key=f)` returns the first element of smallest key, and it belongs to the list |
| Seqs.FilterPrefixAt | garmindb/analysis/stress_analyzer.py:184 | The k-th element a comprehension keeps comes from an index of the input before which exactly the first k kept elements lie |
| Seqs.FilterSubsequence | garmindb/analysis/activity_analyzer.py:93-96 | A comprehension keeps the elements it selects in their input order: they sit at strictly increasing indices of the input |
| Seqs.ArgMaxByFiltered | garmindb/analysis/stress_analyzer.py:184-188 | `max` over the kept elements picks a kept input element of largest key that every earlier kept element is strictly below |
| Seqs.ArgMinByFiltered | garmindb/analysis/stress_analyzer.py:184-189 | `min` over the kept elements picks a kept input element of smallest key that every earlier kept element is strictly above |
| Sorting.SortByPermutation | garmindb/analysis/stress_analyzer.py:293-294 | Sorting two permutations of the same samples with distinct keys gives the same list |
| Sorting.OrderStatistic | garmindb/analysis/stress_analyzer.py:380-384 | In an ascending list, at most `k` values are below the value at position `k` and at least `k + 1` are at or below it |
| Calendar.Weekday | garmindb/analysis/stress_analyzer.py:470-476 | The weekday number lies in `[0, 7)` |
| Calendar.HourOf | garmindb/analysis/stress_analyzer.py:407-410 | The hour lies in `[0, 24)` |

## Left out

- StressAnalyzer.StressLoadOrderIndependent: holds only when no two samples in the window share a timestamp. The sort is stable, so samples with equal timestamps keep their input order, and that order changes the load.
- StressAnalyzer.PositiveAverages: its own contract gives positivity, a length bound and when the list is empty. Which values it holds, each once and in name order, is the lemma `PositiveAveragesSelects`. It is kept apart from the function because stating it there makes every proof that mentions the function reason about `Seqs.Map` and `Seqs.Filter`.
- StressAnalyzer.RecoveryTimes: its own contract gives one direction of membership and when the list is empty. That it holds the time of exactly each recovered pattern, once and in order, is the lemma `RecoveryTimesSelects`, kept apart for the same reason.
- RecoveryAnalyzer.WindowLoads: its own contract gives membership in both directions. That each loaded activity of the window contributes its load once, in order, is the lemma `WindowLoadsSelects`, kept apart for the same reason.
- RecoveryAnalyzer.RecentLoads: its own contract gives membership in both directions. That each recent loaded activity contributes its load once, in order, is the lemma `RecentLoadsSelects`, kept apart for the same reason.
- RecoveryAnalyzer.Present: its own contract gives a length bound. That the values are those of exactly the records where the field is not `None`, in order, is the lemma `PresentSelects`, kept apart for the same reason.
- SleepAnalyzer.DayHours: its own contract gives a length bound. That the list holds the totals of exactly that weekday's nights, in order, is the lemma `DayHoursSelects`, kept apart for the same reason.
- Rounding: every `round(..., n)` is left out, and results are exact reals before rounding. Several
  rounded values are read again by later decisions in the source, and there the model tests the
  unrounded value:
  - the ACWR (recovery_analyzer.py:426), which the rules at recovery_analyzer.py:591-633 compare;
  - form and confidence (activity_analyzer.py:301-306), read at activity_analyzer.py:562-609;
  - the intensity shares (activity_analyzer.py:457), read at activity_analyzer.py:667-722;
  - the recovery efficiency (stress_analyzer.py:624), read at stress_analyzer.py:673-697;
  - the weekday averages (stress_analyzer.py:480), read at stress_analyzer.py:699-733;
  - the stress load total (stress_analyzer.py:339), read at stress_analyzer.py:653-671;
  - the hourly `avg_stress` (stress_analyzer.py:444), which the peak and lowest hour choice at
    stress_analyzer.py:183-191 compares.

  So a verdict can differ from the program's at a threshold. An exact ACWR of 1.503 is a "High
  Injury Risk" alert here, but the program rounds it to 1.5 and reports "Training Load Caution".
  Two hours whose unrounded averages differ but round to the same value can also swap as peak
  or lowest hour.
- Text: insight descriptions and recommendation strings are a template plus arguments. `f"..."` formatting and `strftime` are not modelled.
- ActivityAnalyzer.Lower: lower-cases ASCII letters only. Python's Unicode `str.lower()` is not modelled.
- Square roots: `** 0.5` and `statistics.stdev` are a parameter `sqrt` with the facts in `Numeric.IsSqrt`. IEEE floating point is not modelled.
- Numeric.Trunc: `int()` is taken of the exact sum. In IEEE doubles a weighted sum can fall just below a whole number, so the program's `int()` can be one less than `Trunc`. With no records, the recovery score of recovery_analyzer.py:266-268 is 56 here and 55 in the program, because `(0.5*0.3 + 0.5*0.4 + 0.7*0.3) * 100` evaluates to 55.99999999999999. The readiness score 73 and the "moderate" band are the same in both.
- ActivityAnalyzer.MonotonyCases: covers the zero-spread case as "all loads equal" and the general case as "positive variance". That a variance of 0 makes all loads equal is not proved, so a zero variance with unequal loads is not excluded by the lemma.
- SleepAnalyzer.ConsistencyBounds: 100 is tied to zero sample variance. Equal totals are proved to give 100, but the converse (100 implies equal totals) is not proved.
- Repository and clock: `get_stress_data`, `get_activities`, `get_daily_summaries` and `get_sleep_data` are replaced by their results. `datetime.now()` and `date.today()` are parameters.
- garmindb/data/repositories/sqlite.py is not part of this model beyond its record fields. It is an adapter over database classes and connections.
- The in-place `list.sort()` calls (stress_analyzer.py:294, 381; recovery_analyzer.py:324) are modelled as the value-level stable sort `Sorting.SortBy`, not as updates of a list object.
- Dynamic attribute probing: the `hasattr`/`getattr` checks of stress_analyzer.py:520-578 are optional record fields.
- ActivityAnalyzer.Analyze: requires that every activity of the period has a duration. The source reads `a.duration.total_seconds()` of each of them (activity_analyzer.py:121-123) and fails on a missing one.
- HealthAnalyzer.GenerateReport: the analyses are lists of insights. Only the sleep analysis is passed, as in the source (health_analyzer.py:44-56). The `hasattr(analysis, 'insights')` probe is left out.
- Presentation: the markdown renderer, the command-line scripts and the report scripts are not part of this model. They are output formatting and I/O.
- Time: time zones, `time.max` and sub-second precision are not modelled. The end of a day is its last second.
- The result records that the shown `models.py` lacks (stress load, hourly pattern, post-activity pattern, training stress, sport summary, daily readiness) are defined from their construction sites.
