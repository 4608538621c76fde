/**
 * The activity analyzer (`garmindb/analysis/activity_analyzer.py`): the training load of each
 * activity, measured or estimated from its sport and duration; a gap-free daily load series;
 * fatigue (ATL), fitness (CTL) and form (TSB) as exponential moving averages of that series;
 * training monotony and strain; per-sport summaries; the distribution of activities over
 * training-effect bands; the weekly volume trend; and the insights drawn from them.
 * Dates are day numbers and durations whole seconds (see `Calendar` and `Records`).
 */
module ActivityAnalyzer {
  import opened Wrappers
  import opened Numeric
  import opened Seqs
  import opened Sorting
  import opened Calendar
  import opened Records
  import opened AnalysisModels

  /** Window of the acute training load (fatigue), in days. */
  const ATL_WINDOW: nat := 7
  /** Window of the chronic training load (fitness), in days; also the lookback of `analyze`. */
  const CTL_WINDOW: nat := 42
  /** Fewer daily loads than this give no monotony. */
  const MIN_MONOTONY_DAYS: nat := 7

  // ----- the load of one activity -----

  /** Estimated load per minute of activity, by lower-cased sport name. */
  const LOAD_FACTORS: map<string, real> := map[
    "running" := 0.8, "cycling" := 0.6, "walking" := 0.3, "swimming" := 0.9,
    "strength_training" := 0.5, "hiking" := 0.5, "yoga" := 0.2, "default" := 0.5]

  /** `str.lower()` on one character, for the ASCII letters. */
  function LowerChar(c: char): (l: char)
    ensures !('A' <= l <= 'Z')
    ensures !('A' <= c <= 'Z') ==> l == c
  {
    if 'A' <= c <= 'Z' then (c as int + 32) as char else c
  }

  /** `str.lower()`, for the ASCII letters. */
  function Lower(s: string): (r: string)
    ensures |r| == |s|
    ensures forall i :: 0 <= i < |s| ==> r[i] == LowerChar(s[i])
  {
    seq(|s|, i requires 0 <= i < |s| => LowerChar(s[i]))
  }

  /** Lower-casing a lower-case name changes nothing. */
  lemma LowerIdempotent(s: string)
    ensures Lower(Lower(s)) == Lower(s)
  {
  }

  /** The per-minute factor of a sport: unknown and empty sports use the default 0.5. */
  function LoadFactor(sport: string): (f: real)
    ensures 0.2 <= f <= 0.9
  {
    var key := if sport != "" then Lower(sport) else "default";
    if key in LOAD_FACTORS then LOAD_FACTORS[key] else LOAD_FACTORS["default"]
  }

  /** `_estimate_load`'s `(load_value, is_estimated)`. */
  datatype LoadEstimate = LoadEstimate(load: real, estimated: bool)

  /** The device recorded a positive training load. */
  predicate HasMeasuredLoad(a: ActivityRecord)
  {
    a.trainingLoad.Some? && a.trainingLoad.value > 0.0
  }

  /** `duration.total_seconds() / 60`. */
  function Minutes(seconds: int): real
  {
    seconds as real / 60.0
  }

  /**
   * `_estimate_load`: the measured load when there is a positive one, otherwise an estimate of
   * between 0.2 and 0.9 load points per minute, and nothing for an activity without duration.
   */
  function EstimateLoad(a: ActivityRecord): (e: LoadEstimate)
    ensures e.estimated <==> !HasMeasuredLoad(a)
    ensures !e.estimated ==> e.load > 0.0 && a.trainingLoad == Some(e.load)
    ensures e.estimated && a.duration.None? ==> e.load == 0.0
    ensures e.estimated && a.duration.Some? && a.duration.value >= 0 ==>
      0.2 * Minutes(a.duration.value) <= e.load <= 0.9 * Minutes(a.duration.value)
  {
    if HasMeasuredLoad(a) then LoadEstimate(a.trainingLoad.value, false)
    else if a.duration.None? then LoadEstimate(0.0, true)
    else
      var minutes := Minutes(a.duration.value);
      var factor := LoadFactor(a.sport);
      assert 0.0 <= minutes ==> 0.2 * minutes <= minutes * factor <= 0.9 * minutes by {
        if 0.0 <= minutes {
          ScaleBetween(minutes, factor, 0.2, 0.9);
        }
      }
      LoadEstimate(minutes * factor, true)
  }

  lemma ScaleBetween(x: real, f: real, lo: real, hi: real)
    requires 0.0 <= x && lo <= f <= hi
    ensures lo * x <= x * f <= hi * x
  {
    MulNonNegative(x, f - lo);
    MulNonNegative(x, hi - f);
  }

  /** An activity of the given sport, duration, and measured load, with nothing else recorded. */
  function SampleActivity(sport: string, seconds: int, load: Option<real>): ActivityRecord
  {
    ActivityRecord("1", "", sport, 0, Some(seconds), None, None, None, None, None, None, load)
  }

  /** An hour of running is estimated at 48 points, whatever the case of the sport name. */
  lemma RunningLoadExample(run: ActivityRecord, shouting: ActivityRecord)
    requires run == SampleActivity("running", 3600, None)
    requires shouting == SampleActivity("RUNNING", 3600, None)
    ensures EstimateLoad(run) == LoadEstimate(48.0, true)
    ensures EstimateLoad(shouting) == LoadEstimate(48.0, true)
  {
    assert Lower("running") == "running";
    assert Lower("RUNNING") == "running";
  }

  /** An hour of walking is estimated at 18 points; an unknown or empty sport at 30. */
  lemma DefaultLoadExample(walk: ActivityRecord, golf: ActivityRecord, unnamed: ActivityRecord)
    requires walk == SampleActivity("walking", 3600, None)
    requires golf == SampleActivity("golf", 3600, None)
    requires unnamed == SampleActivity("", 3600, Some(0.0))
    ensures EstimateLoad(walk) == LoadEstimate(18.0, true)
    ensures EstimateLoad(golf) == LoadEstimate(30.0, true)
    ensures EstimateLoad(unnamed) == LoadEstimate(30.0, true)
  {
    assert Lower("walking") == "walking";
    assert Lower("golf") == "golf";
    assert "golf"[0] == 'g';
  }

  /** A measured load is taken as it is, whatever the duration. */
  lemma MeasuredLoadExample(a: ActivityRecord)
    requires a == SampleActivity("running", 3600, Some(75.0))
    ensures EstimateLoad(a) == LoadEstimate(75.0, false)
  {
  }

  lemma MeasuredLoadIs(a: ActivityRecord, load: real)
    requires a.trainingLoad == Some(load) && load > 0.0
    ensures EstimateLoad(a) == LoadEstimate(load, false)
  {
  }

  // ----- the daily load series -----

  /** The total load of the activities started on day `d`, accumulated in order. */
  function DayLoad(activities: seq<ActivityRecord>, d: int): real
  {
    if activities == [] then 0.0
    else
      var a := activities[|activities| - 1];
      DayLoad(activities[..|activities| - 1], d) + (if Day(a.startTime) == d then EstimateLoad(a).load else 0.0)
  }

  predicate InDays(a: ActivityRecord, first: int, last: int)
  {
    first <= Day(a.startTime) <= last
  }

  /** `total_load`: the load of the activities dated within `[first, last]`. */
  function RangeLoad(activities: seq<ActivityRecord>, first: int, last: int): real
  {
    if activities == [] then 0.0
    else
      var a := activities[|activities| - 1];
      RangeLoad(activities[..|activities| - 1], first, last)
      + (if InDays(a, first, last) then EstimateLoad(a).load else 0.0)
  }

  /** `real_load`: the measured part of `RangeLoad`. */
  function MeasuredRangeLoad(activities: seq<ActivityRecord>, first: int, last: int): real
  {
    if activities == [] then 0.0
    else
      var a := activities[|activities| - 1];
      MeasuredRangeLoad(activities[..|activities| - 1], first, last)
      + (if InDays(a, first, last) && !EstimateLoad(a).estimated then EstimateLoad(a).load else 0.0)
  }

  /** `real_load / total_load if total_load > 0 else 1.0`. */
  function Confidence(total: real, measured: real): real
  {
    if total > 0.0 then measured / total else 1.0
  }

  /** One entry per day of `[first, last]`, rest days included, holding that day's load. */
  function DailyLoads(activities: seq<ActivityRecord>, first: int, last: int): map<int, real>
  {
    map d | first <= d <= last :: DayLoad(activities, d)
  }

  /** `_build_daily_loads`: the daily load series and the share of measured load in it. */
  method BuildDailyLoads(activities: seq<ActivityRecord>, startDate: int, endDate: int)
    returns (dailyLoads: map<int, real>, confidenceScore: real)
    ensures dailyLoads == DailyLoads(activities, startDate, endDate)
    ensures confidenceScore == Confidence(RangeLoad(activities, startDate, endDate),
                                          MeasuredRangeLoad(activities, startDate, endDate))
  {
    dailyLoads := map[];
    var current := startDate;
    while current <= endDate
      invariant startDate <= current && (current <= endDate + 1 || current == startDate)
      invariant dailyLoads == map d | startDate <= d < current :: DayLoad([], d)
    {
      dailyLoads := dailyLoads[current := 0.0];
      current := current + 1;
    }
    assert dailyLoads == DailyLoads([], startDate, endDate);
    var totalLoad, realLoad := 0.0, 0.0;
    for i := 0 to |activities|
      invariant dailyLoads == DailyLoads(activities[..i], startDate, endDate)
      invariant totalLoad == RangeLoad(activities[..i], startDate, endDate)
      invariant realLoad == MeasuredRangeLoad(activities[..i], startDate, endDate)
    {
      var activity := activities[i];
      assert activities[..i + 1][..i] == activities[..i];
      var day := Day(activity.startTime);
      if day in dailyLoads {
        var estimate := EstimateLoad(activity);
        dailyLoads := dailyLoads[day := dailyLoads[day] + estimate.load];
        totalLoad := totalLoad + estimate.load;
        if !estimate.estimated {
          realLoad := realLoad + estimate.load;
        }
      }
    }
    assert activities[..|activities|] == activities;
    confidenceScore := if totalLoad > 0.0 then realLoad / totalLoad else 1.0;
  }

  /** The series has exactly one entry per day of `[first, last]`. */
  lemma DailyLoadsDays(activities: seq<ActivityRecord>, first: int, last: int)
    ensures forall d :: d in DailyLoads(activities, first, last) <==> first <= d <= last
    ensures first <= last ==> |DailyLoads(activities, first, last)| == last - first + 1
  {
    if first <= last {
      DayRangeSize(DailyLoads(activities, first, last), first, last);
    }
  }

  /** A map keyed by exactly the days `first..last` has one entry per day. */
  lemma {:induction false} DayRangeSize(m: map<int, real>, first: int, last: int)
    requires first <= last
    requires forall d :: d in m <==> first <= d <= last
    ensures |m| == last - first + 1
    decreases last - first
  {
    if first < last {
      var shorter := m - {last};
      assert shorter.Keys == m.Keys - {last};
      DayRangeSize(shorter, first, last - 1);
      assert m.Keys == shorter.Keys + {last};
    } else {
      assert first in m;
      assert forall d :: d in m.Keys ==> d == first;
      assert m.Keys == {first};
    }
  }

  /** A five-day series has five entries. */
  lemma FiveDaysExample(activities: seq<ActivityRecord>)
    ensures |DailyLoads(activities, 10, 14)| == 5
  {
    DailyLoadsDays(activities, 10, 14);
  }

  /** An activity dated outside the series changes neither the series nor the load totals. */
  lemma OutsideActivityIgnored(activities: seq<ActivityRecord>, a: ActivityRecord, first: int, last: int)
    requires !InDays(a, first, last)
    ensures DailyLoads(activities + [a], first, last) == DailyLoads(activities, first, last)
    ensures RangeLoad(activities + [a], first, last) == RangeLoad(activities, first, last)
    ensures MeasuredRangeLoad(activities + [a], first, last) == MeasuredRangeLoad(activities, first, last)
  {
    assert (activities + [a])[..|activities|] == activities;
  }

  /** Activities with a measured load or a non-negative duration have a non-negative load. */
  predicate NonNegativeDurations(activities: seq<ActivityRecord>)
  {
    forall i :: 0 <= i < |activities| && activities[i].duration.Some? ==> activities[i].duration.value >= 0
  }

  lemma {:induction false} MeasuredWithinTotal(activities: seq<ActivityRecord>, first: int, last: int)
    requires NonNegativeDurations(activities)
    ensures 0.0 <= MeasuredRangeLoad(activities, first, last) <= RangeLoad(activities, first, last)
  {
    if activities != [] {
      var init := activities[..|activities| - 1];
      assert NonNegativeDurations(init) by {
        forall i | 0 <= i < |init| && init[i].duration.Some?
          ensures init[i].duration.value >= 0
        {
          assert init[i] == activities[i];
        }
      }
      MeasuredWithinTotal(init, first, last);
    }
  }

  /** The confidence score is a share: between 0 and 1. */
  lemma ConfidenceBounds(activities: seq<ActivityRecord>, first: int, last: int)
    requires NonNegativeDurations(activities)
    ensures 0.0 <= Confidence(RangeLoad(activities, first, last), MeasuredRangeLoad(activities, first, last)) <= 1.0
  {
    MeasuredWithinTotal(activities, first, last);
    var total, measured := RangeLoad(activities, first, last), MeasuredRangeLoad(activities, first, last);
    if total > 0.0 {
      RatioBounds(measured, total);
    }
  }

  /** A measured 100 and an estimated 48 on the same day give a confidence of 100/148. */
  lemma ConfidenceExample(measured: ActivityRecord, estimated: ActivityRecord)
    requires measured == SampleActivity("cycling", 1800, Some(100.0))
    requires estimated == SampleActivity("running", 3600, None)
    ensures var acts := [measured, estimated];
      && DailyLoads(acts, 0, 0) == map[0 := 148.0]
      && Confidence(RangeLoad(acts, 0, 0), MeasuredRangeLoad(acts, 0, 0)) == 100.0 / 148.0
  {
    RunningLoadExample(estimated, SampleActivity("RUNNING", 3600, None));
    MeasuredLoadIs(measured, 100.0);
    var acts := [measured, estimated];
    assert acts[..1] == [measured];
    assert [measured][..0] == [];
    assert DayLoad([measured], 0) == 100.0;
    assert DayLoad(acts, 0) == 148.0;
    assert RangeLoad([measured], 0, 0) == 100.0 && MeasuredRangeLoad([measured], 0, 0) == 100.0;
    assert RangeLoad(acts, 0, 0) == 148.0 && MeasuredRangeLoad(acts, 0, 0) == 100.0;
    assert DailyLoads(acts, 0, 0) == map[0 := 148.0];
  }

  // ----- exponential moving averages -----

  /** `alpha = 2 / (window + 1)`. */
  function Alpha(window: nat): real
  {
    2.0 / (window + 1) as real
  }

  /** The average seeded with the first value and updated with each later one. */
  function EmaFrom(values: seq<real>, alpha: real): real
    requires values != []
  {
    if |values| == 1 then values[0]
    else alpha * values[|values| - 1] + (1.0 - alpha) * EmaFrom(values[..|values| - 1], alpha)
  }

  /** `_calculate_ema`: 0 for no values. */
  function Ema(values: seq<real>, window: nat): real
  {
    if values == [] then 0.0 else EmaFrom(values, Alpha(window))
  }

  /** `_calculate_ema` as the loop the source runs. */
  method CalculateEma(values: seq<real>, window: nat) returns (ema: real)
    ensures ema == Ema(values, window)
  {
    if values == [] {
      return 0.0;
    }
    var alpha := 2.0 / (window + 1) as real;
    ema := values[0];
    assert values[..1] == [values[0]];
    for i := 1 to |values|
      invariant ema == EmaFrom(values[..i], alpha)
    {
      assert values[..i + 1][..i] == values[..i];
      ema := alpha * values[i] + (1.0 - alpha) * ema;
    }
    assert values[..|values|] == values;
  }

  lemma AlphaRange(window: nat)
    requires window >= 1
    ensures 0.0 < Alpha(window) <= 1.0
  {
  }

  lemma ConvexStep(alpha: real, v: real, e: real, lo: real, hi: real)
    requires 0.0 <= alpha <= 1.0
    requires lo <= v <= hi && lo <= e <= hi
    ensures lo <= alpha * v + (1.0 - alpha) * e <= hi
  {
    MulNonNegative(alpha, v - lo);
    MulNonNegative(1.0 - alpha, e - lo);
    MulNonNegative(alpha, hi - v);
    MulNonNegative(1.0 - alpha, hi - e);
  }

  lemma {:induction false} EmaFromBounds(values: seq<real>, alpha: real, lo: real, hi: real)
    requires values != [] && 0.0 <= alpha <= 1.0
    requires forall i :: 0 <= i < |values| ==> lo <= values[i] <= hi
    ensures lo <= EmaFrom(values, alpha) <= hi
  {
    if |values| > 1 {
      var init := values[..|values| - 1];
      assert forall i :: 0 <= i < |init| ==> init[i] == values[i];
      EmaFromBounds(init, alpha, lo, hi);
      ConvexStep(alpha, values[|values| - 1], EmaFrom(init, alpha), lo, hi);
    }
  }

  /** The moving average stays within any bounds of the values. */
  lemma EmaBounds(values: seq<real>, window: nat, lo: real, hi: real)
    requires values != [] && window >= 1
    requires forall i :: 0 <= i < |values| ==> lo <= values[i] <= hi
    ensures lo <= Ema(values, window) <= hi
  {
    AlphaRange(window);
    EmaFromBounds(values, Alpha(window), lo, hi);
  }

  /** A constant series keeps its value as its average, whatever the window. */
  lemma {:induction false} EmaConstant(values: seq<real>, window: nat, c: real)
    requires values != []
    requires forall i :: 0 <= i < |values| ==> values[i] == c
    ensures Ema(values, window) == c
  {
    EmaFromConstant(values, Alpha(window), c);
  }

  lemma {:induction false} EmaFromConstant(values: seq<real>, alpha: real, c: real)
    requires values != []
    requires forall i :: 0 <= i < |values| ==> values[i] == c
    ensures EmaFrom(values, alpha) == c
  {
    if |values| > 1 {
      EmaFromConstant(values[..|values| - 1], alpha, c);
    }
  }

  /** A load of 100 followed by two rest days leaves a seven-day average of 56.25. */
  lemma EmaExample()
    ensures Ema([100.0, 0.0, 0.0], ATL_WINDOW) == 56.25
  {
    var s := [100.0, 0.0, 0.0];
    assert Alpha(ATL_WINDOW) == 0.25;
    assert s[..2] == [100.0, 0.0] && s[..2][..1] == [100.0];
    assert EmaFrom([100.0], 0.25) == 100.0;
    assert EmaFrom([100.0, 0.0], 0.25) == 75.0;
    assert EmaFrom(s, 0.25) == 0.25 * 0.0 + 0.75 * 75.0;
  }

  // ----- fatigue, fitness and form -----

  /** The dates of the series up to `endDate`. */
  function DatesUpTo(dailyLoads: map<int, real>, endDate: int): (s: set<int>)
    ensures forall d :: d in s <==> d in dailyLoads && d <= endDate
  {
    set d | d in dailyLoads && d <= endDate
  }

  /** `[daily_loads[d] for d in dates]`. */
  function LoadsAt(dailyLoads: map<int, real>, dates: seq<int>): (r: seq<real>)
    requires forall i :: 0 <= i < |dates| ==> dates[i] in dailyLoads
    ensures |r| == |dates|
    ensures forall i :: 0 <= i < |dates| ==> r[i] == dailyLoads[dates[i]]
  {
    if dates == [] then []
    else LoadsAt(dailyLoads, dates[..|dates| - 1]) + [dailyLoads[dates[|dates| - 1]]]
  }

  predicate InPeriod(d: int, startDate: int, endDate: int)
  {
    startDate <= d <= endDate
  }

  /** The dates of the analysis period among `dates`, in their order. */
  function PeriodDates(dates: seq<int>, startDate: int, endDate: int): (r: seq<int>)
    ensures forall x :: x in r <==> x in dates && InPeriod(x, startDate, endDate)
    ensures forall i :: 0 <= i < |r| ==> r[i] in dates
  {
    Filter(dates, (d: int) => InPeriod(d, startDate, endDate))
  }

  /** `sorted_dates`: the dates of the series up to `endDate`, in ascending order. */
  function SeriesDates(dailyLoads: map<int, real>, endDate: int): (r: seq<int>)
    ensures forall i :: 0 <= i < |r| ==> r[i] in dailyLoads && r[i] <= endDate
    ensures forall i, j :: 0 <= i < j < |r| ==> r[i] < r[j]
  {
    SortedSet(DatesUpTo(dailyLoads, endDate))
  }

  /** `loads`: the loads of the series up to `endDate`, oldest first. */
  function SeriesLoads(dailyLoads: map<int, real>, endDate: int): seq<real>
  {
    LoadsAt(dailyLoads, SeriesDates(dailyLoads, endDate))
  }

  /** `period_loads`: the loads of the analysis period, oldest first. */
  function PeriodLoads(dailyLoads: map<int, real>, startDate: int, endDate: int): seq<real>
  {
    var dates := PeriodDates(SeriesDates(dailyLoads, endDate), startDate, endDate);
    assert forall i :: 0 <= i < |dates| ==> dates[i] in SeriesDates(dailyLoads, endDate);
    LoadsAt(dailyLoads, dates)
  }

  /**
   * `_calculate_monotony`: mean over standard deviation of the daily loads; none for fewer than
   * seven days, 0 for a zero mean and 10 for loads without spread.
   */
  function Monotony(loads: seq<real>, sqrt: real -> real): Option<real>
  {
    if |loads| < MIN_MONOTONY_DAYS then None
    else
      var mean := Mean(loads);
      if mean == 0.0 then Some(0.0)
      else
        var stdDev := sqrt(Variance(loads));
        if stdDev == 0.0 then Some(10.0) else Some(mean / stdDev)
  }

  /** `_calculate_strain`: the week's load times the monotony, 0 without a monotony. */
  function Strain(weeklyLoad: real, monotony: Option<real>): real
  {
    if monotony.None? then 0.0 else weeklyLoad * monotony.value
  }

  /** `sum(period_loads[-7:])`, the whole period when it is shorter than a week. */
  function WeeklyLoad(periodLoads: seq<real>): real
  {
    Sum(LastN(periodLoads, 7))
  }

  /** `_calculate_tsb_metrics`, before rounding. */
  function TsbMetrics(dailyLoads: map<int, real>, startDate: int, endDate: int, confidence: real,
                      sqrt: real -> real): TrainingStressMetrics
  {
    var loads := SeriesLoads(dailyLoads, endDate);
    var atl := Ema(loads, ATL_WINDOW);
    var ctl := Ema(loads, CTL_WINDOW);
    var periodLoads := PeriodLoads(dailyLoads, startDate, endDate);
    var monotony := Monotony(periodLoads, sqrt);
    TrainingStressMetrics(atl, ctl, ctl - atl, monotony, Strain(WeeklyLoad(periodLoads), monotony), confidence)
  }

  /** `_calculate_tsb_metrics` with the moving averages computed by `CalculateEma`. */
  method CalculateTsbMetrics(dailyLoads: map<int, real>, startDate: int, endDate: int,
                             confidenceScore: real, sqrt: real -> real)
    returns (metrics: TrainingStressMetrics)
    ensures metrics == TsbMetrics(dailyLoads, startDate, endDate, confidenceScore, sqrt)
  {
    var loads := SeriesLoads(dailyLoads, endDate);
    var atl := CalculateEma(loads, ATL_WINDOW);
    var ctl := CalculateEma(loads, CTL_WINDOW);
    var periodLoads := PeriodLoads(dailyLoads, startDate, endDate);
    var monotony := Monotony(periodLoads, sqrt);
    var weeklyLoad := WeeklyLoad(periodLoads);
    metrics := TrainingStressMetrics(atl, ctl, ctl - atl, monotony, Strain(weeklyLoad, monotony), confidenceScore);
    TsbMetricsOf(dailyLoads, startDate, endDate, confidenceScore, sqrt, atl, ctl, monotony, weeklyLoad, metrics);
  }

  lemma TsbMetricsOf(dailyLoads: map<int, real>, startDate: int, endDate: int, confidence: real,
                     sqrt: real -> real, atl: real, ctl: real, monotony: Option<real>, weeklyLoad: real,
                     metrics: TrainingStressMetrics)
    requires atl == Ema(SeriesLoads(dailyLoads, endDate), ATL_WINDOW)
    requires ctl == Ema(SeriesLoads(dailyLoads, endDate), CTL_WINDOW)
    requires monotony == Monotony(PeriodLoads(dailyLoads, startDate, endDate), sqrt)
    requires weeklyLoad == WeeklyLoad(PeriodLoads(dailyLoads, startDate, endDate))
    requires metrics == TrainingStressMetrics(atl, ctl, ctl - atl, monotony, Strain(weeklyLoad, monotony), confidence)
    ensures metrics == TsbMetrics(dailyLoads, startDate, endDate, confidence, sqrt)
  {
  }

  /**
   * Monotony is missing exactly for fewer than seven days; otherwise it is 0 for a zero mean,
   * 10 when the loads have no spread, and the mean over the standard deviation else.
   */
  lemma MonotonyCases(loads: seq<real>, sqrt: real -> real)
    requires IsSqrt(sqrt)
    ensures Monotony(loads, sqrt).None? <==> |loads| < MIN_MONOTONY_DAYS
    ensures |loads| >= MIN_MONOTONY_DAYS && Mean(loads) == 0.0 ==> Monotony(loads, sqrt) == Some(0.0)
    ensures |loads| >= MIN_MONOTONY_DAYS && Mean(loads) != 0.0 && AllEqual(loads) ==>
      Monotony(loads, sqrt) == Some(10.0)
    ensures |loads| >= MIN_MONOTONY_DAYS && Mean(loads) != 0.0 && Variance(loads) != 0.0 ==>
      sqrt(Variance(loads)) > 0.0 && Monotony(loads, sqrt) == Some(Mean(loads) / sqrt(Variance(loads)))
  {
    if loads != [] {
      VarianceNonNegative(loads);
      if AllEqual(loads) {
        AllEqualVarianceZero(loads);
      }
    }
  }

  /** Seven equal days of 50 give the capped monotony of 10 and a strain of 3500. */
  lemma MonotonyExample(loads: seq<real>, sqrt: real -> real)
    requires IsSqrt(sqrt)
    requires loads == [50.0, 50.0, 50.0, 50.0, 50.0, 50.0, 50.0]
    ensures Monotony(loads, sqrt) == Some(10.0)
    ensures Strain(WeeklyLoad(loads), Monotony(loads, sqrt)) == 3500.0
  {
    MeanConstant(loads, 50.0);
    assert AllEqual(loads);
    MonotonyCases(loads, sqrt);
    SumConstant(loads, 50.0);
  }

  /** Strain is 0 without a monotony, and the week's load at a monotony of 1. */
  lemma StrainCases(weeklyLoad: real, monotony: Option<real>)
    ensures monotony.None? ==> Strain(weeklyLoad, monotony) == 0.0
    ensures monotony == Some(1.0) ==> Strain(weeklyLoad, monotony) == weeklyLoad
    ensures monotony.Some? && weeklyLoad >= 0.0 && monotony.value >= 0.0 ==> Strain(weeklyLoad, monotony) >= 0.0
  {
    if monotony.Some? && weeklyLoad >= 0.0 && monotony.value >= 0.0 {
      MulNonNegative(weeklyLoad, monotony.value);
    }
  }

  /**
   * Form is fitness minus fatigue; both averages stay within the bounds of the daily loads, and
   * without any date up to `endDate` all three are 0.
   */
  lemma TsbBounds(dailyLoads: map<int, real>, startDate: int, endDate: int, confidence: real,
                  sqrt: real -> real, lo: real, hi: real)
    requires forall d :: d in dailyLoads ==> lo <= dailyLoads[d] <= hi
    ensures var m := TsbMetrics(dailyLoads, startDate, endDate, confidence, sqrt);
      && m.tsb == m.ctl - m.atl
      && m.confidenceScore == confidence
      && (DatesUpTo(dailyLoads, endDate) != {} ==> lo <= m.atl <= hi && lo <= m.ctl <= hi)
      && (DatesUpTo(dailyLoads, endDate) == {} ==> m.atl == 0.0 && m.ctl == 0.0 && m.tsb == 0.0)
  {
    var loads := SeriesLoads(dailyLoads, endDate);
    SeriesLoadsWithin(dailyLoads, endDate, lo, hi);
    if loads != [] {
      EmaBounds(loads, ATL_WINDOW, lo, hi);
      EmaBounds(loads, CTL_WINDOW, lo, hi);
    }
  }

  /** One load per date of the series, each within the bounds of the daily loads. */
  lemma SeriesLoadsWithin(dailyLoads: map<int, real>, endDate: int, lo: real, hi: real)
    requires forall d :: d in dailyLoads ==> lo <= dailyLoads[d] <= hi
    ensures |SeriesLoads(dailyLoads, endDate)| == |DatesUpTo(dailyLoads, endDate)|
    ensures forall i :: 0 <= i < |SeriesLoads(dailyLoads, endDate)| ==> lo <= SeriesLoads(dailyLoads, endDate)[i] <= hi
  {
  }

  /** Under a constant daily load fatigue and fitness both equal it and form is 0. */
  lemma TsbConstantLoad(dailyLoads: map<int, real>, startDate: int, endDate: int, confidence: real,
                        sqrt: real -> real, c: real)
    requires forall d :: d in dailyLoads ==> dailyLoads[d] == c
    requires DatesUpTo(dailyLoads, endDate) != {}
    ensures var m := TsbMetrics(dailyLoads, startDate, endDate, confidence, sqrt);
      m.atl == c && m.ctl == c && m.tsb == 0.0
  {
    var loads := SeriesLoads(dailyLoads, endDate);
    EmaConstant(loads, ATL_WINDOW, c);
    EmaConstant(loads, CTL_WINDOW, c);
  }

  /** With fewer than seven days of the period in the series there is no monotony and no strain. */
  lemma TsbShortPeriod(dailyLoads: map<int, real>, startDate: int, endDate: int, confidence: real,
                       sqrt: real -> real)
    requires |PeriodDates(SeriesDates(dailyLoads, endDate), startDate, endDate)| < MIN_MONOTONY_DAYS
    ensures var m := TsbMetrics(dailyLoads, startDate, endDate, confidence, sqrt);
      m.monotony.None? && m.strain == 0.0
  {
  }

  /** The dates `first, first + 1, ..., last`. */
  function DaySeq(first: int, last: int): (r: seq<int>)
    ensures |r| == if first <= last then last - first + 1 else 0
    ensures forall i :: 0 <= i < |r| ==> r[i] == first + i
    decreases last - first
  {
    if last < first then [] else DaySeq(first, last - 1) + [last]
  }

  /** Sorting the dates of a gap-free range lists the range in order. */
  lemma {:induction false} SortedRange(s: set<int>, first: int, last: int)
    requires forall d :: d in s <==> first <= d <= last
    ensures SortedSet(s) == DaySeq(first, last)
    decreases last - first
  {
    if first <= last {
      RangeWithoutLast(s, first, last);
      SortedRange(s - {last}, first, last - 1);
      SortedRangeStep(s, first, last);
    } else {
      EmptyRange(s, first, last);
    }
  }

  lemma RangeWithoutLast(s: set<int>, first: int, last: int)
    requires forall d :: d in s <==> first <= d <= last
    ensures forall d :: d in s - {last} <==> first <= d <= last - 1
  {
  }

  lemma SortedRangeStep(s: set<int>, first: int, last: int)
    requires forall d :: d in s <==> first <= d <= last
    requires first <= last
    requires SortedSet(s - {last}) == DaySeq(first, last - 1)
    ensures SortedSet(s) == DaySeq(first, last)
  {
    assert last in s;
    assert SetMax(s) == last;
  }

  lemma EmptyRange(s: set<int>, first: int, last: int)
    requires forall d :: d in s <==> first <= d <= last
    requires last < first
    ensures SortedSet(s) == DaySeq(first, last)
  {
    if s != {} {
      var y := HasElement(s);
      assert false;
    }
  }

  /** The series of `BuildDailyLoads` lists the days of `[first, last]` in order. */
  lemma DailyLoadsDates(activities: seq<ActivityRecord>, first: int, last: int)
    ensures SortedSet(DatesUpTo(DailyLoads(activities, first, last), last)) == DaySeq(first, last)
  {
    DailyLoadsDays(activities, first, last);
    SortedRange(DatesUpTo(DailyLoads(activities, first, last), last), first, last);
  }

  /** The days of a range that fall into a later sub-range ending on the same day. */
  lemma {:induction false} PeriodOfRange(first: int, last: int, startDate: int)
    requires first <= startDate
    ensures PeriodDates(DaySeq(first, last), startDate, last) == DaySeq(startDate, last)
    decreases last - first
  {
    if first <= last {
      PeriodOfRangeUpTo(first, last, startDate, last);
    }
  }

  lemma {:induction false} PeriodOfRangeUpTo(first: int, last: int, startDate: int, endDate: int)
    requires first <= startDate && last <= endDate
    ensures PeriodDates(DaySeq(first, last), startDate, endDate) == DaySeq(startDate, last)
    decreases last - first
  {
    var p := (d: int) => InPeriod(d, startDate, endDate);
    if first <= last {
      PeriodOfRangeUpTo(first, last - 1, startDate, endDate);
      FilterSnoc(DaySeq(first, last - 1), last, p);
    }
  }

  // ----- per-sport summaries -----

  /** `activity.sport or "Unknown"`. */
  function SportName(a: ActivityRecord): (s: string)
    ensures s != ""
    ensures a.sport != "" ==> s == a.sport
  {
    if a.sport != "" then a.sport else "Unknown"
  }

  /** The activities of one sport, in their order. */
  function SportActivities(activities: seq<ActivityRecord>, sport: string): seq<ActivityRecord>
  {
    Filter(activities, (a: ActivityRecord) => SportName(a) == sport)
  }

  /** The sports present among the activities. */
  function SportNames(activities: seq<ActivityRecord>): set<string>
  {
    set a | a in activities :: SportName(a)
  }

  /** `sport_activities`: the activities grouped by sport. */
  function SportGroups(activities: seq<ActivityRecord>): map<string, seq<ActivityRecord>>
  {
    map s | s in SportNames(activities) :: SportActivities(activities, s)
  }

  /** `a.distance or 0`. */
  function Distance(a: ActivityRecord): real
  {
    a.distance.GetOr(0.0)
  }

  /** `a.duration.total_seconds() / 3600`. */
  function Hours(a: ActivityRecord): real
  {
    a.duration.GetOr(0) as real / 3600.0
  }

  predicate HasDuration(a: ActivityRecord)
  {
    a.duration.Some?
  }

  predicate HasHeartRate(a: ActivityRecord)
  {
    Truthy(a.avgHr)
  }

  function HeartRate(a: ActivityRecord): int
  {
    a.avgHr.GetOr(0)
  }

  /** `if a.training_effect`: a recorded, non-zero effect. */
  predicate HasNonZeroEffect(a: ActivityRecord)
  {
    TruthyReal(a.trainingEffect)
  }

  function AerobicEffect(a: ActivityRecord): real
  {
    a.trainingEffect.GetOr(0.0)
  }

  /** `sum(a.distance or 0 for a in acts)`. */
  function TotalDistance(activities: seq<ActivityRecord>): real
  {
    Sum(Map(activities, Distance))
  }

  /** The hours of the activities that have a duration. */
  function TotalHours(activities: seq<ActivityRecord>): real
  {
    Sum(Map(Filter(activities, HasDuration), Hours))
  }

  /** `[a.avg_hr for a in acts if a.avg_hr]`. */
  function HeartRates(activities: seq<ActivityRecord>): seq<int>
  {
    Map(Filter(activities, HasHeartRate), HeartRate)
  }

  /** `[a.training_effect for a in acts if a.training_effect]`. */
  function NonZeroEffects(activities: seq<ActivityRecord>): seq<real>
  {
    Map(Filter(activities, HasNonZeroEffect), AerobicEffect)
  }

  /** Distance over time when both are positive. */
  function AverageSpeed(distance: real, hours: real): (r: Option<real>)
    ensures r.Some? <==> hours > 0.0 && distance > 0.0
    ensures r.Some? ==> r.value > 0.0
  {
    if hours > 0.0 && distance > 0.0 then
      DivPositive(distance, hours);
      Some(distance / hours)
    else None
  }

  /** The speed, whenever present, covers the distance in the given time. */
  lemma AverageSpeedCoversDistance(distance: real, hours: real)
    requires AverageSpeed(distance, hours).Some?
    ensures AverageSpeed(distance, hours).value * hours == distance
  {
    DivPositive(distance, hours);
  }

  lemma DivPositive(x: real, y: real)
    requires x > 0.0 && y > 0.0
    ensures x / y > 0.0 && (x / y) * y == x
  {
  }

  /** `(avg_speed / avg_hr) * 100` when both are truthy and the heart rate positive. */
  function EfficiencyIndex(speed: Option<real>, hr: Option<real>): (r: Option<real>)
    ensures r.Some? <==> TruthyReal(speed) && hr.Some? && hr.value > 0.0
    ensures r.Some? && speed.value > 0.0 ==> r.value > 0.0
  {
    if TruthyReal(speed) && TruthyReal(hr) && hr.value > 0.0 then
      if speed.value > 0.0 then
        DivPositive(speed.value, hr.value);
        Some(speed.value / hr.value * 100.0)
      else Some(speed.value / hr.value * 100.0)
    else None
  }

  /** `round(x) if x else None`, without the rounding. */
  function Truthful(o: Option<real>): (r: Option<real>)
    ensures r.Some? <==> TruthyReal(o)
    ensures r.Some? ==> r == o
  {
    if TruthyReal(o) then o else None
  }

  /** The summary of one sport's activities. */
  function SportSummaryOf(sport: string, activities: seq<ActivityRecord>): SportSummary
  {
    var totalDistance := TotalDistance(activities);
    var totalDuration := TotalHours(activities);
    var avgSpeed := AverageSpeed(totalDistance, totalDuration);
    var hrValues := HeartRates(activities);
    var avgHr := if hrValues != [] then Some(IntMean(hrValues)) else None;
    var teValues := NonZeroEffects(activities);
    var maxTe := if teValues != [] then SeqMax(teValues) else 0.0;
    var efficiency := EfficiencyIndex(avgSpeed, avgHr);
    SportSummary(sport, |activities|, totalDistance, totalDuration, Truthful(avgSpeed), Truthful(avgHr), maxTe,
                 Truthful(efficiency))
  }

  /** `_build_sport_summaries`, keyed by sport. */
  function SportSummaries(activities: seq<ActivityRecord>): map<string, SportSummary>
  {
    GroupSummaries(SportGroups(activities))
  }

  /** Adding an activity appends it to its sport's group and leaves the other groups alone. */
  lemma SportGroupsStep(activities: seq<ActivityRecord>, a: ActivityRecord)
    ensures var groups := SportGroups(activities);
      var sport := SportName(a);
      SportGroups(activities + [a])
        == groups[sport := (if sport in groups then groups[sport] else []) + [a]]
  {
    var groups := SportGroups(activities);
    var sport := SportName(a);
    var after := groups[sport := (if sport in groups then groups[sport] else []) + [a]];
    var grown := SportGroups(activities + [a]);
    SportNamesSnoc(activities, a);
    assert grown.Keys == after.Keys;
    forall s | s in grown
      ensures grown[s] == after[s]
    {
      SportActivitiesSnoc(activities, a, s);
      if s == sport && sport !in groups {
        SportActivitiesAbsent(activities, s);
      }
    }
  }

  lemma SportNamesSnoc(activities: seq<ActivityRecord>, a: ActivityRecord)
    ensures SportNames(activities + [a]) == SportNames(activities) + {SportName(a)}
  {
    forall s | s in SportNames(activities + [a])
      ensures s in SportNames(activities) + {SportName(a)}
    {
      var b :| b in activities + [a] && SportName(b) == s;
      if b != a {
        assert b in activities;
      }
    }
    forall s | s in SportNames(activities)
      ensures s in SportNames(activities + [a])
    {
      var b :| b in activities && SportName(b) == s;
      assert b in activities + [a];
    }
    assert a in activities + [a];
  }

  lemma SportActivitiesSnoc(activities: seq<ActivityRecord>, a: ActivityRecord, s: string)
    ensures SportActivities(activities + [a], s)
      == SportActivities(activities, s) + (if SportName(a) == s then [a] else [])
  {
    FilterSnoc(activities, a, (b: ActivityRecord) => SportName(b) == s);
  }

  lemma SportActivitiesAbsent(activities: seq<ActivityRecord>, s: string)
    requires s !in SportNames(activities)
    ensures SportActivities(activities, s) == []
  {
    forall i | 0 <= i < |activities|
      ensures SportName(activities[i]) != s
    {
      assert SportName(activities[i]) in SportNames(activities);
    }
    FilterNone(activities, (b: ActivityRecord) => SportName(b) == s);
  }


  /** The groups built one activity at a time, each appended to its sport's group. */
  function GroupedBySport(activities: seq<ActivityRecord>): map<string, seq<ActivityRecord>>
  {
    if activities == [] then map[]
    else
      var groups := GroupedBySport(activities[..|activities| - 1]);
      var a := activities[|activities| - 1];
      var sport := SportName(a);
      groups[sport := (if sport in groups then groups[sport] else []) + [a]]
  }

  /** Grouping one activity at a time gives exactly the groups of `sport_activities`. */
  lemma {:induction false} GroupedIsSportGroups(activities: seq<ActivityRecord>)
    ensures GroupedBySport(activities) == SportGroups(activities)
  {
    if activities == [] {
      assert SportNames(activities) == {};
    } else {
      var prefix := activities[..|activities| - 1];
      GroupedIsSportGroups(prefix);
      assert activities == prefix + [activities[|activities| - 1]];
      SportGroupsStep(prefix, activities[|activities| - 1]);
    }
  }

  /** The grouping loop of `_build_sport_summaries`. */
  method GroupBySport(activities: seq<ActivityRecord>) returns (sportActivities: map<string, seq<ActivityRecord>>)
    ensures sportActivities == SportGroups(activities)
  {
    sportActivities := map[];
    for i := 0 to |activities|
      invariant sportActivities == GroupedBySport(activities[..i])
    {
      var activity := activities[i];
      var sport := SportName(activity);
      ghost var before := sportActivities;
      if sport !in sportActivities {
        sportActivities := sportActivities[sport := []];
      }
      ghost var started := sportActivities;
      sportActivities := sportActivities[sport := sportActivities[sport] + [activity]];
      AppendToGroup(before, started, sportActivities, sport, activity);
      assert activities[..i + 1][..i] == activities[..i];
    }
    assert activities[..|activities|] == activities;
    GroupedIsSportGroups(activities);
  }

  /** Starting a missing group and then appending to it is appending to the group or to `[]`. */
  lemma AppendToGroup<V>(before: map<string, seq<V>>, started: map<string, seq<V>>, after: map<string, seq<V>>,
                         key: string, x: V)
    requires started == if key in before then before else before[key := []]
    requires key in started && after == started[key := started[key] + [x]]
    ensures after == before[key := (if key in before then before[key] else []) + [x]]
  {
  }


  /** The summary of every group, keyed by its sport. */
  function GroupSummaries(groups: map<string, seq<ActivityRecord>>): map<string, SportSummary>
  {
    map s | s in groups :: SportSummaryOf(s, groups[s])
  }

  /** The summarizing loop of `_build_sport_summaries`. */
  method SummarizeGroups(groups: map<string, seq<ActivityRecord>>) returns (summaries: map<string, SportSummary>)
    ensures summaries == GroupSummaries(groups)
  {
    summaries := SummarizeEach(groups, SportSummaryOf);
  }

  /** Visits the groups one at a time, storing each group's summary under its sport. */
  method SummarizeEach<V>(groups: map<string, seq<ActivityRecord>>, summarize: (string, seq<ActivityRecord>) -> V)
    returns (summaries: map<string, V>)
    ensures summaries.Keys == groups.Keys
    ensures forall s :: s in groups ==> summaries[s] == summarize(s, groups[s])
  {
    summaries := map[];
    var remaining := groups.Keys;
    while remaining != {}
      invariant remaining <= groups.Keys
      invariant summaries.Keys == groups.Keys - remaining
      invariant forall s :: s in summaries ==> summaries[s] == summarize(s, groups[s])
      decreases |remaining|
    {
      ghost var w := HasElement(remaining);
      var sport :| sport in remaining;
      summaries := summaries[sport := summarize(sport, groups[sport])];
      remaining := remaining - {sport};
    }
  }

  /** `_build_sport_summaries`: group by sport, then summarize each group. */
  method BuildSportSummaries(activities: seq<ActivityRecord>) returns (summaries: map<string, SportSummary>)
    ensures summaries == SportSummaries(activities)
  {
    var sportActivities := GroupBySport(activities);
    summaries := SummarizeGroups(sportActivities);
  }

  /**
   * There is one summary per sport of the activities; each carries its sport's name and the
   * number of its activities, at least one, and every activity is counted under its own sport.
   */
  lemma SportSummariesShape(activities: seq<ActivityRecord>)
    ensures forall s :: s in SportSummaries(activities) <==> exists a :: a in activities && SportName(a) == s
    ensures forall s :: s in SportSummaries(activities) ==>
      SportSummaries(activities)[s].name == s
      && SportSummaries(activities)[s].count == |SportActivities(activities, s)| >= 1
    ensures forall a :: a in activities ==> a in SportActivities(activities, SportName(a))
  {
    forall s | s in SportSummaries(activities)
      ensures |SportActivities(activities, s)| >= 1
    {
      var a :| a in activities && SportName(a) == s;
      assert a in SportActivities(activities, s);
    }
  }

  /**
   * The average speed is reported exactly when both distance and time are positive, and the
   * efficiency index exactly when, in addition, a positive average heart rate was recorded;
   * the index is then the speed per heartbeat per minute, times 100.
   */
  lemma SpeedAndEfficiency(sport: string, activities: seq<ActivityRecord>)
    ensures var r := SportSummaryOf(sport, activities);
      var d, h, hr := TotalDistance(activities), TotalHours(activities), HeartRates(activities);
      && (r.avgSpeedKmh.Some? <==> h > 0.0 && d > 0.0)
      && (r.avgSpeedKmh.Some? ==> r.avgSpeedKmh.value == d / h)
      && (r.efficiencyIndex.Some? <==> h > 0.0 && d > 0.0 && hr != [] && IntMean(hr) > 0.0)
      && (r.efficiencyIndex.Some? ==> r.efficiencyIndex.value == d / h / IntMean(hr) * 100.0)
  {
  }

  /** The average heart rate lies between any bounds of the recorded ones. */
  lemma HeartRateBounds(sport: string, activities: seq<ActivityRecord>, lo: real, hi: real)
    requires forall i :: 0 <= i < |activities| && HasHeartRate(activities[i]) ==>
      lo <= activities[i].avgHr.value as real <= hi
    ensures var r := SportSummaryOf(sport, activities);
      r.avgHr.Some? ==> lo <= r.avgHr.value <= hi
  {
    var hr := HeartRates(activities);
    if hr != [] {
      var withHr := Filter(activities, HasHeartRate);
      forall i | 0 <= i < |hr|
        ensures lo <= hr[i] as real <= hi
      {
        assert withHr[i] in activities;
      }
      IntMeanBounds(hr, lo, hi);
    }
  }

  /** The largest non-zero training effect of the sport (negative ones included), or 0 when none was recorded. */
  lemma MaxEffect(sport: string, activities: seq<ActivityRecord>)
    ensures var r := SportSummaryOf(sport, activities);
      && (NonZeroEffects(activities) == [] ==> r.maxTrainingEffect == 0.0)
      && (forall a :: a in activities && HasNonZeroEffect(a) ==> a.trainingEffect.value <= r.maxTrainingEffect)
      && (NonZeroEffects(activities) != [] ==> r.maxTrainingEffect in NonZeroEffects(activities))
  {
    var te := NonZeroEffects(activities);
    var with := Filter(activities, HasNonZeroEffect);
    forall a | a in activities && HasNonZeroEffect(a)
      ensures a.trainingEffect.value <= SportSummaryOf(sport, activities).maxTrainingEffect
    {
      assert a in with;
      var i :| 0 <= i < |with| && with[i] == a;
      assert te[i] == a.trainingEffect.value;
    }
  }

  /** Twelve kilometres run in one hour at 150 bpm: 12 km/h and an efficiency index of 8. */
  lemma EfficiencyExample(run: ActivityRecord)
    requires run == ActivityRecord("7", "Morning Run", "running", 0, Some(3600), Some(12.0), None,
                                   Some(150), None, None, None, None)
    ensures var r := SportSummaryOf("running", [run]);
      r.count == 1 && r.avgSpeedKmh == Some(12.0) && r.avgHr == Some(150.0) && r.efficiencyIndex == Some(8.0)
  {
    RunTotals(run);
    assert AverageSpeed(12.0, 1.0) == Some(12.0);
    assert EfficiencyIndex(Some(12.0), Some(150.0)) == Some(8.0);
  }

  lemma RunTotals(run: ActivityRecord)
    requires run == ActivityRecord("7", "Morning Run", "running", 0, Some(3600), Some(12.0), None,
                                   Some(150), None, None, None, None)
    ensures TotalDistance([run]) == 12.0 && TotalHours([run]) == 1.0
    ensures HeartRates([run]) == [150] && IntMean([150]) == 150.0
  {
    MapSingleton(run, Distance);
    SumSingleton(12.0);
    FilterSingleton(run, HasDuration);
    MapSingleton(run, Hours);
    SumSingleton(1.0);
    FilterSingleton(run, HasHeartRate);
    MapSingleton(run, HeartRate);
    IntSumSingleton(150);
  }

  // ----- intensity -----

  /** The training-effect bands, in the order `_categorize_intensity` tries them. */
  const INTENSITY_CATEGORIES: seq<string> := ["Recovery", "Base", "Improving", "Highly Improving", "Overreaching"]
  const BAND_LOW: seq<real> := [0.0, 2.0, 3.0, 4.0, 4.5]
  const BAND_HIGH: seq<real> := [1.9, 2.9, 3.9, 4.4, 5.0]

  /** `low <= training_effect <= high` for band `k`. */
  predicate InBand(te: real, k: nat)
    requires k < 5
  {
    BAND_LOW[k] <= te <= BAND_HIGH[k]
  }

  /** The bands do not overlap. */
  lemma BandsDisjoint(te: real, k: nat)
    requires k < 5 && InBand(te, k)
    ensures forall j: nat :: j < 5 && InBand(te, j) ==> j == k
  {
  }

  /** The categories have different names. */
  lemma CategoriesDistinct()
    ensures forall i, j :: 0 <= i < j < 5 ==> INTENSITY_CATEGORIES[i] != INTENSITY_CATEGORIES[j]
  {
    assert INTENSITY_CATEGORIES[0][0] == 'R' && INTENSITY_CATEGORIES[1][0] == 'B';
    assert INTENSITY_CATEGORIES[2][0] == 'I' && INTENSITY_CATEGORIES[3][0] == 'H';
    assert INTENSITY_CATEGORIES[4][0] == 'O';
  }

  /** The loop of `_categorize_intensity` from band `k` on. */
  function CategoryFrom(te: real, k: nat): (c: string)
    requires k <= 5
    ensures c in INTENSITY_CATEGORIES
    ensures forall j: nat :: k <= j < 5 && InBand(te, j) ==> c == INTENSITY_CATEGORIES[j]
    ensures (forall j: nat :: k <= j < 5 ==> !InBand(te, j)) ==> c == "Base"
    decreases 5 - k
  {
    if k == 5 then "Base"
    else if InBand(te, k) then
      BandsDisjoint(te, k);
      INTENSITY_CATEGORIES[k]
    else CategoryFrom(te, k + 1)
  }

  /**
   * `_categorize_intensity`: the band holding the training effect, and "Base" for a value in no
   * band (outside 0 to 5, or in one of the gaps between the bands' bounds).
   */
  function CategorizeIntensity(te: real): (c: string)
    ensures c in INTENSITY_CATEGORIES
    ensures forall j: nat :: j < 5 && InBand(te, j) ==> c == INTENSITY_CATEGORIES[j]
    ensures (forall j: nat :: j < 5 ==> !InBand(te, j)) ==> c == "Base"
  {
    CategoryFrom(te, 0)
  }

  /** Values in a band get its name; the gaps between bands and values above 5 get "Base". */
  lemma CategorizeExamples()
    ensures CategorizeIntensity(1.5) == "Recovery"
    ensures CategorizeIntensity(3.5) == "Improving"
    ensures CategorizeIntensity(4.45) == "Base"
    ensures CategorizeIntensity(3.95) == "Base"
    ensures CategorizeIntensity(5.5) == "Base"
  {
    assert InBand(1.5, 0);
    assert InBand(3.5, 2);
  }

  predicate HasTrainingEffect(a: ActivityRecord)
  {
    a.trainingEffect.Some?
  }

  /** The number of activities with a training effect in category `c`. */
  function CategoryCount(activities: seq<ActivityRecord>, c: string): (n: nat)
    ensures n <= |activities|
  {
    if activities == [] then 0
    else
      var a := activities[|activities| - 1];
      CategoryCount(activities[..|activities| - 1], c)
      + (if a.trainingEffect.Some? && CategorizeIntensity(a.trainingEffect.value) == c then 1 else 0)
  }

  /** `(count / total) * 100`, before rounding, and 0 without activities. */
  function CategoryShare(withEffect: seq<ActivityRecord>, c: string): real
  {
    if withEffect == [] then 0.0 else CategoryCount(withEffect, c) as real / |withEffect| as real * 100.0
  }

  /** `_calculate_intensity_distribution`: the share of each category among the activities with a training effect. */
  function IntensityDistribution(activities: seq<ActivityRecord>): map<string, real>
  {
    var withEffect := Filter(activities, HasTrainingEffect);
    map c | c in INTENSITY_CATEGORIES :: CategoryShare(withEffect, c)
  }

  /** The per-category counts `_calculate_intensity_distribution` accumulates. */
  function Counts(withEffect: seq<ActivityRecord>): (counts: map<string, nat>)
    ensures forall c :: c in counts <==> c in INTENSITY_CATEGORIES
  {
    map c | c in INTENSITY_CATEGORIES :: CategoryCount(withEffect, c)
  }

  /** Counting one more activity adds one to its category and leaves the others. */
  lemma CountsStep(withEffect: seq<ActivityRecord>, a: ActivityRecord)
    requires HasTrainingEffect(a)
    ensures var c := CategorizeIntensity(a.trainingEffect.value);
      Counts(withEffect + [a]) == Counts(withEffect)[c := Counts(withEffect)[c] + 1]
  {
    assert (withEffect + [a])[..|withEffect|] == withEffect;
  }

  /** The shares computed from the counts. */
  function Shares(counts: map<string, nat>, total: nat): map<string, real>
    requires total > 0
  {
    map c | c in counts :: counts[c] as real / total as real * 100.0
  }

  lemma SharesOfCounts(withEffect: seq<ActivityRecord>)
    requires withEffect != []
    ensures Shares(Counts(withEffect), |withEffect|) == map c | c in INTENSITY_CATEGORIES :: CategoryShare(withEffect, c)
  {
  }

  /** The loop step of the counting: the category of activity `i` is a key and goes up by one. */
  lemma CountOneMore(withEffect: seq<ActivityRecord>, i: nat)
    requires i < |withEffect| && HasTrainingEffect(withEffect[i])
    ensures var c := CategorizeIntensity(withEffect[i].trainingEffect.value);
      && c in Counts(withEffect[..i])
      && Counts(withEffect[..i + 1]) == Counts(withEffect[..i])[c := Counts(withEffect[..i])[c] + 1]
  {
    assert withEffect[..i + 1] == withEffect[..i] + [withEffect[i]];
    CountsStep(withEffect[..i], withEffect[i]);
  }

  lemma NoEffectDistribution(activities: seq<ActivityRecord>)
    requires Filter(activities, HasTrainingEffect) == []
    ensures IntensityDistribution(activities) == map c | c in INTENSITY_CATEGORIES :: 0.0
  {
  }

  lemma CountsEmpty()
    ensures Counts([]) == map c | c in INTENSITY_CATEGORIES :: 0
  {
  }

  /** `_calculate_intensity_distribution` with its counting loop. */
  method CalculateIntensityDistribution(activities: seq<ActivityRecord>) returns (distribution: map<string, real>)
    ensures distribution == IntensityDistribution(activities)
  {
    var withEffect := Filter(activities, HasTrainingEffect);
    if withEffect == [] {
      NoEffectDistribution(activities);
      return map c | c in INTENSITY_CATEGORIES :: 0.0;
    }
    var counts: map<string, nat> := map c | c in INTENSITY_CATEGORIES :: 0;
    CountsEmpty();
    for i := 0 to |withEffect|
      invariant counts == Counts(withEffect[..i])
    {
      var category := CategorizeIntensity(withEffect[i].trainingEffect.value);
      CountOneMore(withEffect, i);
      counts := counts[category := counts[category] + 1];
    }
    assert withEffect[..|withEffect|] == withEffect;
    distribution := Shares(counts, |withEffect|);
    SharesOfCounts(withEffect);
  }

  /** Every activity falls into exactly one category. */
  lemma {:induction false} CountsPartition(withEffect: seq<ActivityRecord>)
    requires forall i :: 0 <= i < |withEffect| ==> HasTrainingEffect(withEffect[i])
    ensures CategoryCount(withEffect, "Recovery") + CategoryCount(withEffect, "Base")
      + CategoryCount(withEffect, "Improving") + CategoryCount(withEffect, "Highly Improving")
      + CategoryCount(withEffect, "Overreaching") == |withEffect|
  {
    if withEffect != [] {
      var init := withEffect[..|withEffect| - 1];
      assert forall i :: 0 <= i < |init| ==> init[i] == withEffect[i];
      CountsPartition(init);
      CategoriesDistinct();
    }
  }

  /** The five shares of a non-empty distribution add up to 100. */
  lemma DistributionTotal(activities: seq<ActivityRecord>)
    requires Filter(activities, HasTrainingEffect) != []
    ensures var d := IntensityDistribution(activities);
      && d.Keys == {"Recovery", "Base", "Improving", "Highly Improving", "Overreaching"}
      && d["Recovery"] + d["Base"] + d["Improving"] + d["Highly Improving"] + d["Overreaching"] == 100.0
  {
    var w := Filter(activities, HasTrainingEffect);
    DistributionKeys(activities);
    SharesOfCounted(activities);
    CountsPartition(w);
    var n := |w| as real;
    var r, b, i, h, o := CategoryCount(w, "Recovery") as real, CategoryCount(w, "Base") as real,
      CategoryCount(w, "Improving") as real, CategoryCount(w, "Highly Improving") as real,
      CategoryCount(w, "Overreaching") as real;
    SharesAddUp(r, b, i, h, o, n);
  }

  /** Each share is the category's count over the number of activities with an effect, times 100. */
  lemma SharesOfCounted(activities: seq<ActivityRecord>)
    requires Filter(activities, HasTrainingEffect) != []
    ensures var d, w := IntensityDistribution(activities), Filter(activities, HasTrainingEffect);
      forall c :: c in d ==> d[c] == CategoryCount(w, c) as real / |w| as real * 100.0
  {
  }

  /**
   * The distribution has the five categories as keys, each share a percentage; without
   * activities that have a training effect all shares are 0.
   */
  lemma DistributionShares(activities: seq<ActivityRecord>)
    ensures var d := IntensityDistribution(activities);
      && (forall c :: c in d <==> c in INTENSITY_CATEGORIES)
      && (forall c :: c in d ==> 0.0 <= d[c] <= 100.0)
      && (Filter(activities, HasTrainingEffect) == [] ==> forall c :: c in d ==> d[c] == 0.0)
  {
    var w := Filter(activities, HasTrainingEffect);
    forall c | c in INTENSITY_CATEGORIES
      ensures 0.0 <= CategoryShare(w, c) <= 100.0
    {
      if w != [] {
        ShareBounds(CategoryCount(w, c) as real, |w| as real);
      }
    }
  }

  lemma SharesAddUp(a: real, b: real, c: real, d: real, e: real, n: real)
    requires n > 0.0 && a + b + c + d + e == n
    ensures a / n * 100.0 + b / n * 100.0 + c / n * 100.0 + d / n * 100.0 + e / n * 100.0 == 100.0
  {
    assert a / n + b / n + c / n + d / n + e / n == (a + b + c + d + e) / n;
  }

  lemma ShareBounds(k: real, n: real)
    requires 0.0 <= k <= n && n > 0.0
    ensures 0.0 <= k / n * 100.0 <= 100.0
  {
    RatioBounds(k, n);
  }

  /** Training effects 1.5, 3.5 and 3.5: a third recovery, two thirds improving. */
  lemma DistributionExample(a: ActivityRecord, b: ActivityRecord, c: ActivityRecord)
    requires a.trainingEffect == Some(1.5) && b.trainingEffect == Some(3.5) && c.trainingEffect == Some(3.5)
    ensures var d := IntensityDistribution([a, b, c]);
      && d.Keys == {"Recovery", "Base", "Improving", "Highly Improving", "Overreaching"}
      && d["Recovery"] == 100.0 / 3.0 && d["Improving"] == 200.0 / 3.0
      && d["Base"] == 0.0 && d["Highly Improving"] == 0.0 && d["Overreaching"] == 0.0
  {
    var w := [a, b, c];
    DistributionKeys(w);
    FilterAll(w, HasTrainingEffect);
    SharesOfCounted(w);
    ExampleCountValues(a, b, c);
  }

  /** The distribution has exactly the five categories as keys. */
  lemma DistributionKeys(activities: seq<ActivityRecord>)
    ensures IntensityDistribution(activities).Keys
      == {"Recovery", "Base", "Improving", "Highly Improving", "Overreaching"}
  {
    var d := IntensityDistribution(activities);
    assert forall c :: c in d <==> c in INTENSITY_CATEGORIES;
  }

  lemma ExampleCountValues(a: ActivityRecord, b: ActivityRecord, c: ActivityRecord)
    requires a.trainingEffect == Some(1.5) && b.trainingEffect == Some(3.5) && c.trainingEffect == Some(3.5)
    ensures CategoryCount([a, b, c], "Recovery") == 1 && CategoryCount([a, b, c], "Improving") == 2
    ensures CategoryCount([a, b, c], "Base") == 0 && CategoryCount([a, b, c], "Highly Improving") == 0
    ensures CategoryCount([a, b, c], "Overreaching") == 0
  {
    CategorizeExamples();
    CategoryCountThree(a, b, c, "Recovery");
    CategoryCountThree(a, b, c, "Improving");
    CategoryCountThree(a, b, c, "Base");
    CategoryCountThree(a, b, c, "Highly Improving");
    CategoryCountThree(a, b, c, "Overreaching");
  }

  /** One if the activity's training effect falls in category `cat`. */
  function Hit(a: ActivityRecord, cat: string): nat
  {
    if a.trainingEffect.Some? && CategorizeIntensity(a.trainingEffect.value) == cat then 1 else 0
  }

  lemma CategoryCountThree(a: ActivityRecord, b: ActivityRecord, c: ActivityRecord, cat: string)
    ensures CategoryCount([a, b, c], cat) == Hit(a, cat) + Hit(b, cat) + Hit(c, cat)
  {
    assert [a, b, c][..2] == [a, b];
    assert CategoryCount([a, b, c], cat) == CategoryCount([a, b], cat) + Hit(c, cat);
    assert [a, b][..1] == [a];
    assert CategoryCount([a, b], cat) == CategoryCount([a], cat) + Hit(b, cat);
    assert [a][..0] == [];
    assert CategoryCount([a], cat) == Hit(a, cat);
  }

  // ----- average training effects -----

  predicate HasAnaerobicEffect(a: ActivityRecord)
  {
    a.anaerobicEffect.Some?
  }

  function AnaerobicEffect(a: ActivityRecord): real
  {
    a.anaerobicEffect.GetOr(0.0)
  }

  /** `sum(values) / len(values) if values else 0.0`. */
  function MeanOrZero(values: seq<real>): real
  {
    if values == [] then 0.0 else Mean(values)
  }

  /** `_calculate_avg_effects`: the mean aerobic and anaerobic effects, before rounding. */
  function AverageEffects(activities: seq<ActivityRecord>): (real, real)
  {
    (MeanOrZero(Map(Filter(activities, HasTrainingEffect), AerobicEffect)),
     MeanOrZero(Map(Filter(activities, HasAnaerobicEffect), AnaerobicEffect)))
  }

  /** The mean of one recorded effect lies within any bounds of it, and is 0 when it was never recorded. */
  lemma EffectMeanBounds(activities: seq<ActivityRecord>, has: ActivityRecord -> bool,
                         effect: ActivityRecord -> real, lo: real, hi: real)
    requires forall i :: 0 <= i < |activities| && has(activities[i]) ==> lo <= effect(activities[i]) <= hi
    ensures Filter(activities, has) == [] ==> MeanOrZero(Map(Filter(activities, has), effect)) == 0.0
    ensures Filter(activities, has) != [] ==> lo <= MeanOrZero(Map(Filter(activities, has), effect)) <= hi
  {
    var w := Filter(activities, has);
    if w != [] {
      forall i | 0 <= i < |w|
        ensures lo <= effect(w[i]) <= hi
      {
        assert w[i] in activities;
      }
      MeanBounds(Map(w, effect), lo, hi);
    }
  }

  /**
   * Each average lies within any bounds of the recorded effects, and is 0 when no activity
   * recorded that effect.
   */
  lemma AverageEffectsBounds(activities: seq<ActivityRecord>, lo: real, hi: real)
    requires forall i :: 0 <= i < |activities| && HasTrainingEffect(activities[i]) ==>
      lo <= activities[i].trainingEffect.value <= hi
    requires forall i :: 0 <= i < |activities| && HasAnaerobicEffect(activities[i]) ==>
      lo <= activities[i].anaerobicEffect.value <= hi
    ensures var (aerobic, anaerobic) := AverageEffects(activities);
      && (Filter(activities, HasTrainingEffect) == [] ==> aerobic == 0.0)
      && (Filter(activities, HasTrainingEffect) != [] ==> lo <= aerobic <= hi)
      && (Filter(activities, HasAnaerobicEffect) == [] ==> anaerobic == 0.0)
      && (Filter(activities, HasAnaerobicEffect) != [] ==> lo <= anaerobic <= hi)
  {
    EffectMeanBounds(activities, HasTrainingEffect, AerobicEffect, lo, hi);
    EffectMeanBounds(activities, HasAnaerobicEffect, AnaerobicEffect, lo, hi);
  }

  // ----- weekly volume -----

  /** `daily_loads.get(d, 0)`. */
  function LoadOn(dailyLoads: map<int, real>, d: int): real
  {
    if d in dailyLoads then dailyLoads[d] else 0.0
  }

  /** The load of the seven days from `weekStart` on. */
  function WeekLoad(dailyLoads: map<int, real>, weekStart: int): real
  {
    Sum(WeekDays(dailyLoads, weekStart))
  }

  /** The loads of the seven days from `weekStart` on, 0 for a day missing from the series. */
  function WeekDays(dailyLoads: map<int, real>, weekStart: int): (r: seq<real>)
    ensures |r| == 7
    ensures forall i :: 0 <= i < 7 ==> r[i] == LoadOn(dailyLoads, weekStart + i)
  {
    seq(7, i => LoadOn(dailyLoads, weekStart + i))
  }

  /** The week ending on `endDate`. */
  function CurrentWeekLoad(dailyLoads: map<int, real>, endDate: int): real
  {
    WeekLoad(dailyLoads, endDate - 6)
  }

  /** The seven days before it. */
  function PreviousWeekLoad(dailyLoads: map<int, real>, endDate: int): real
  {
    WeekLoad(dailyLoads, endDate - 13)
  }

  /** A series with non-negative loads has non-negative week loads. */
  lemma WeekLoadNonNegative(dailyLoads: map<int, real>, weekStart: int)
    requires forall d :: d in dailyLoads ==> 0.0 <= dailyLoads[d]
    ensures 0.0 <= WeekLoad(dailyLoads, weekStart)
  {
    SumNonNegative(WeekDays(dailyLoads, weekStart));
  }

  /** A week of a constant daily load of `c` totals `7 c`. */
  lemma WeekLoadConstant(dailyLoads: map<int, real>, weekStart: int, c: real)
    requires forall d :: weekStart <= d < weekStart + 7 ==> LoadOn(dailyLoads, d) == c
    ensures WeekLoad(dailyLoads, weekStart) == 7.0 * c
  {
    var days := WeekDays(dailyLoads, weekStart);
    assert forall i :: 0 <= i < 7 ==> days[i] == LoadOn(dailyLoads, weekStart + i);
    SumConstant(days, c);
  }

  /** `_calculate_volume_trend`: a change of more than 10% against the previous week. */
  function VolumeTrend(dailyLoads: map<int, real>, endDate: int): TrendDirection
  {
    var current := CurrentWeekLoad(dailyLoads, endDate);
    var previous := PreviousWeekLoad(dailyLoads, endDate);
    if previous == 0.0 then Stable
    else
      var percentChange := (current - previous) / previous * 100.0;
      if percentChange > 10.0 then Improving
      else if percentChange < -10.0 then Declining
      else Stable
  }

  /** For a positive denominator, a percentage above or below a bound is the scaled comparison. */
  lemma PercentVersus(x: real, p: real, k: real)
    requires p > 0.0
    ensures x / p * 100.0 > k <==> x > k / 100.0 * p
    ensures x / p * 100.0 < k <==> x < k / 100.0 * p
  {
    var q := x / p;
    assert q * p == x;
    if q * 100.0 > k {
      MulPositive(q - k / 100.0, p);
    }
    if x > k / 100.0 * p {
      assert (q - k / 100.0) * p > 0.0;
      SignOfProduct(q - k / 100.0, p);
    }
    if q * 100.0 < k {
      MulPositive(k / 100.0 - q, p);
    }
    if x < k / 100.0 * p {
      assert (k / 100.0 - q) * p > 0.0;
      SignOfProduct(k / 100.0 - q, p);
    }
  }

  /**
   * Without previous-week load the trend is stable; otherwise it improves exactly above 110% of
   * the previous week and declines exactly below 90% of it.
   */
  lemma VolumeTrendRule(dailyLoads: map<int, real>, endDate: int)
    ensures var current, previous := CurrentWeekLoad(dailyLoads, endDate), PreviousWeekLoad(dailyLoads, endDate);
      && (previous == 0.0 ==> VolumeTrend(dailyLoads, endDate) == Stable)
      && (previous > 0.0 ==> (VolumeTrend(dailyLoads, endDate) == Improving <==> current > 1.1 * previous))
      && (previous > 0.0 ==> (VolumeTrend(dailyLoads, endDate) == Declining <==> current < 0.9 * previous))
  {
    var current, previous := CurrentWeekLoad(dailyLoads, endDate), PreviousWeekLoad(dailyLoads, endDate);
    if previous > 0.0 {
      PercentVersus(current - previous, previous, 10.0);
      PercentVersus(current - previous, previous, -10.0);
    }
  }

  // ----- insights -----

  /** `_check_consistency`: a change of more than 20% between the last two weeks. */
  function ConsistencyInsight(dailyLoads: map<int, real>, endDate: int): (o: Option<Insight>)
    ensures o.Some? ==> o.value.title == "Training Volume Spike" && o.value.severity == Warning
    ensures o.Some? ==> o.value.category == "activity"
  {
    SpikeInsight(CurrentWeekLoad(dailyLoads, endDate), PreviousWeekLoad(dailyLoads, endDate))
  }

  /** The spike test on the two weekly loads. */
  function SpikeInsight(current: real, previous: real): (o: Option<Insight>)
    ensures o.Some? ==> o.value.title == "Training Volume Spike" && o.value.severity == Warning
    ensures o.Some? ==> o.value.category == "activity"
  {
    if previous == 0.0 then None
    else
      var percentChange := Abs(current - previous) / previous * 100.0;
      if percentChange > 20.0 then Some(VolumeSpike(current, previous, percentChange))
      else None
  }

  const SPIKE_UP_TEMPLATE := "Weekly training load increased by {}%. Rapid changes above 20% increase injury risk."
  const SPIKE_DOWN_TEMPLATE := "Weekly training load decreased by {}%. Rapid changes above 20% increase injury risk."

  /** The spike insight; its text says whether the load went up or down. */
  function VolumeSpike(current: real, previous: real, percentChange: real): (i: Insight)
    ensures i.title == "Training Volume Spike" && i.severity == Warning && i.category == "activity"
  {
    var template := if current > previous then SPIKE_UP_TEMPLATE else SPIKE_DOWN_TEMPLATE;
    Insight("Training Volume Spike", Text(template, [percentChange]), Warning, "activity",
      map["percent_change" := Num(percentChange), "current_week_load" := Num(current),
          "previous_week_load" := Num(previous)],
      ["Limit weekly load increases to 10% or less", "Include rest days between high-intensity sessions"])
  }

  /**
   * The spike is reported exactly when the previous week had positive load and the current
   * week is above 120% or below 80% of it; a previous week without positive load never reports.
   */
  lemma ConsistencyRule(dailyLoads: map<int, real>, endDate: int)
    ensures var current, previous := CurrentWeekLoad(dailyLoads, endDate), PreviousWeekLoad(dailyLoads, endDate);
      && (previous <= 0.0 ==> ConsistencyInsight(dailyLoads, endDate).None?)
      && (previous > 0.0 ==> (ConsistencyInsight(dailyLoads, endDate).Some? <==>
                               current > 1.2 * previous || current < 0.8 * previous))
  {
    SpikeRule(CurrentWeekLoad(dailyLoads, endDate), PreviousWeekLoad(dailyLoads, endDate));
  }

  lemma SpikeRule(current: real, previous: real)
    ensures previous <= 0.0 ==> SpikeInsight(current, previous).None?
    ensures previous > 0.0 ==> (SpikeInsight(current, previous).Some? <==>
                                 current > 1.2 * previous || current < 0.8 * previous)
  {
    var x := Abs(current - previous);
    if previous > 0.0 {
      PercentVersus(x, previous, 20.0);
      assert 20.0 / 100.0 * previous == 0.2 * previous;
      assert x > 0.2 * previous <==> current > 1.2 * previous || current < 0.8 * previous;
    } else if previous < 0.0 {
      DivNegative(x, previous);
    }
  }

  lemma DivNegative(x: real, p: real)
    requires 0.0 <= x && p < 0.0
    ensures x / p * 100.0 <= 0.0
  {
    var q := x / p;
    assert q * p == x;
    if q > 0.0 {
      MulPositive(q, -p);
    }
  }

  /** A reported spike is also a change in the weekly volume trend, in the same direction. */
  lemma SpikeChangesTrend(dailyLoads: map<int, real>, endDate: int)
    requires ConsistencyInsight(dailyLoads, endDate).Some?
    ensures VolumeTrend(dailyLoads, endDate) != Stable
    ensures CurrentWeekLoad(dailyLoads, endDate) > PreviousWeekLoad(dailyLoads, endDate) <==>
      VolumeTrend(dailyLoads, endDate) == Improving
  {
    ConsistencyRule(dailyLoads, endDate);
    VolumeTrendRule(dailyLoads, endDate);
  }

  /** `intensity_distribution.get(c, 0)`. */
  function ShareOf(distribution: map<string, real>, c: string): real
  {
    if c in distribution then distribution[c] else 0.0
  }

  function HighIntensity(distribution: map<string, real>): real
  {
    ShareOf(distribution, "Highly Improving") + ShareOf(distribution, "Overreaching")
  }

  function LowIntensity(distribution: map<string, real>): real
  {
    ShareOf(distribution, "Recovery") + ShareOf(distribution, "Base")
  }

  function ModerateIntensity(distribution: map<string, real>): real
  {
    ShareOf(distribution, "Improving")
  }

  /**
   * `_check_intensity_balance`: an alert above 30% high intensity, otherwise a warning below
   * 50% low intensity when high and moderate together exceed 50%.
   */
  function BalanceInsight(distribution: map<string, real>): (o: Option<Insight>)
    ensures o.Some? <==> (HighIntensity(distribution) > 30.0 ||
      (LowIntensity(distribution) < 50.0 && HighIntensity(distribution) + ModerateIntensity(distribution) > 50.0))
  {
    var high := HighIntensity(distribution);
    var low := LowIntensity(distribution);
    var moderate := ModerateIntensity(distribution);
    if high > 30.0 then Some(HighIntensityAlert(high))
    else if low < 50.0 && high + moderate > 50.0 then Some(LackOfBaseWarning(low))
    else None
  }

  /** The alert for high intensity above 30%, the warning otherwise; both of the activity category. */
  lemma BalanceVerdicts(distribution: map<string, real>)
    requires BalanceInsight(distribution).Some?
    ensures var i := BalanceInsight(distribution).value;
      && i.category == "activity"
      && (HighIntensity(distribution) > 30.0 ==> i.title == "High Intensity Imbalance" && i.severity == Alert)
      && (HighIntensity(distribution) <= 30.0 ==> i.title == "Lack of Base Training" && i.severity == Warning)
  {
  }

  const HIGH_INTENSITY_ALERT_TEMPLATE := "{}% of your training is at maximum intensity. This significantly increases injury and overtraining risk."

  function HighIntensityAlert(high: real): (i: Insight)
    ensures i.title == "High Intensity Imbalance" && i.severity == Alert && i.category == "activity"
  {
    Insight("High Intensity Imbalance",
      Text(HIGH_INTENSITY_ALERT_TEMPLATE, [high]),
      Alert, "activity", map["high_intensity_percent" := Num(high)],
      ["Reduce the number of anaerobic or threshold sessions",
       "Replace one hard session with a very easy recovery run", "Monitor HRV and resting HR closely"])
  }

  const LACK_OF_BASE_TEMPLATE := "Only {}% of your training is low-intensity. You are spending too much time in the 'moderate' zone, which can lead to stagnation without building a strong aerobic base."

  function LackOfBaseWarning(low: real): (i: Insight)
    ensures i.title == "Lack of Base Training" && i.severity == Warning && i.category == "activity"
  {
    Insight("Lack of Base Training",
      Text(LACK_OF_BASE_TEMPLATE, [low]),
      Warning, "activity", map["low_intensity_percent" := Num(low)],
      ["Increase the proportion of easy (Zone 2) sessions",
       "Focus on consistency over intensity for a few weeks", "Target an 80/20 intensity distribution"])
  }

  /**
   * On a distribution computed from activities the moderate-zone condition is implied: a
   * verdict is reported exactly when high intensity is above 30% or low intensity below 50%,
   * and without any training effect none is.
   */
  lemma BalanceOnDistribution(activities: seq<ActivityRecord>)
    ensures var d := IntensityDistribution(activities);
      && (Filter(activities, HasTrainingEffect) == [] ==> BalanceInsight(d).None?)
      && (Filter(activities, HasTrainingEffect) != [] ==>
            (BalanceInsight(d).Some? <==> HighIntensity(d) > 30.0 || LowIntensity(d) < 50.0))
  {
    var d := IntensityDistribution(activities);
    DistributionGroups(activities);
    if Filter(activities, HasTrainingEffect) == [] {
      BalanceWhenZero(d);
    } else {
      BalanceWhenTotal(d);
    }
  }

  /** The three intensity groups of a distribution from activities add up to 100, or are all 0. */
  lemma DistributionGroups(activities: seq<ActivityRecord>)
    ensures var d := IntensityDistribution(activities);
      && (Filter(activities, HasTrainingEffect) != [] ==>
            LowIntensity(d) + ModerateIntensity(d) + HighIntensity(d) == 100.0)
      && (Filter(activities, HasTrainingEffect) == [] ==>
            LowIntensity(d) == 0.0 && ModerateIntensity(d) == 0.0 && HighIntensity(d) == 0.0)
  {
    var d := IntensityDistribution(activities);
    DistributionShares(activities);
    if Filter(activities, HasTrainingEffect) != [] {
      DistributionTotal(activities);
    }
    assert ShareOf(d, "Recovery") == d["Recovery"];
    assert ShareOf(d, "Base") == d["Base"];
    assert ShareOf(d, "Improving") == d["Improving"];
    assert ShareOf(d, "Highly Improving") == d["Highly Improving"];
    assert ShareOf(d, "Overreaching") == d["Overreaching"];
  }

  lemma BalanceWhenTotal(d: map<string, real>)
    requires LowIntensity(d) + ModerateIntensity(d) + HighIntensity(d) == 100.0
    ensures BalanceInsight(d).Some? <==> HighIntensity(d) > 30.0 || LowIntensity(d) < 50.0
  {
  }

  lemma BalanceWhenZero(d: map<string, real>)
    requires LowIntensity(d) == 0.0 && ModerateIntensity(d) == 0.0 && HighIntensity(d) == 0.0
    ensures BalanceInsight(d).None?
  {
  }

  /** The third rule of `_generate_insights`: less than 70% of the load measured. */
  function ConfidenceInsight(trainingStress: Option<TrainingStressMetrics>): (o: Option<Insight>)
    ensures o.Some? <==> trainingStress.Some? && trainingStress.value.confidenceScore < 0.7
    ensures o.Some? ==> o.value.title == "Limited Training Load Data" && o.value.severity == Info
    ensures o.Some? ==> o.value.category == "activity"
  {
    if trainingStress.Some? && trainingStress.value.confidenceScore < 0.7 then
      Some(LimitedData(trainingStress.value.confidenceScore))
    else None
  }

  const LIMITED_DATA_TEMPLATE := "Only {} of training load data is from actual device measurements. TSB metrics may be less accurate."

  function LimitedData(confidence: real): (i: Insight)
    ensures i.title == "Limited Training Load Data" && i.severity == Info && i.category == "activity"
  {
    Insight("Limited Training Load Data",
      Text(LIMITED_DATA_TEMPLATE, [confidence]),
      Info, "activity", map["confidence_score" := Num(confidence)],
      ["Ensure activities sync properly with Garmin Connect",
       "Check that training load is enabled on your device"])
  }

  /** The fourth rule of `_generate_insights`: form above 25 is freshness, below -30 fatigue. */
  function FormInsight(trainingStress: Option<TrainingStressMetrics>): (o: Option<Insight>)
    ensures o.Some? <==> trainingStress.Some? && (trainingStress.value.tsb > 25.0 || trainingStress.value.tsb < -30.0)
    ensures o.Some? ==> o.value.category == "activity"
    ensures o.Some? ==> (o.value.title ==
      if trainingStress.value.tsb > 25.0 then "Peak Freshness" else "High Fatigue Load")
    ensures o.Some? ==> o.value.severity == (if trainingStress.value.tsb > 25.0 then Positive else Warning)
  {
    if trainingStress.None? then None
    else
      var tsb := trainingStress.value.tsb;
      if tsb > 25.0 then Some(PeakFreshness(tsb))
      else if tsb < -30.0 then Some(HighFatigue(tsb))
      else None
  }

  const PEAK_FRESHNESS_TEMPLATE := "TSB of {} indicates you're well-rested. Great time for a key workout or race."

  function PeakFreshness(tsb: real): (i: Insight)
    ensures i.title == "Peak Freshness" && i.severity == Positive && i.category == "activity"
  {
    Insight("Peak Freshness",
      Text(PEAK_FRESHNESS_TEMPLATE, [tsb]),
      Positive, "activity", map["tsb" := Num(tsb)], [])
  }

  const HIGH_FATIGUE_TEMPLATE := "TSB of {} indicates significant fatigue. Consider reducing training volume."

  function HighFatigue(tsb: real): (i: Insight)
    ensures i.title == "High Fatigue Load" && i.severity == Warning && i.category == "activity"
  {
    Insight("High Fatigue Load",
      Text(HIGH_FATIGUE_TEMPLATE, [tsb]),
      Warning, "activity", map["tsb" := Num(tsb)],
      ["Plan a recovery day or easy session", "Prioritize sleep and nutrition"])
  }

  /** `_generate_insights`: the four rules in order, each contributing at most one insight. */
  function ActivityInsights(result: ActivityAnalysisResult, dailyLoads: map<int, real>, endDate: int)
    : seq<Insight>
  {
    Fired(ConsistencyInsight(dailyLoads, endDate)) + Fired(BalanceInsight(result.intensityDistribution))
    + Fired(ConfidenceInsight(result.trainingStress)) + Fired(FormInsight(result.trainingStress))
  }

  method GenerateInsights(result: ActivityAnalysisResult, dailyLoads: map<int, real>, endDate: int)
    returns (insights: seq<Insight>)
    ensures insights == ActivityInsights(result, dailyLoads, endDate)
  {
    insights := [];
    insights := AppendFired(insights, ConsistencyInsight(dailyLoads, endDate));
    insights := AppendFired(insights, BalanceInsight(result.intensityDistribution));
    insights := AppendFired(insights, ConfidenceInsight(result.trainingStress));
    insights := AppendFired(insights, FormInsight(result.trainingStress));
  }

  /** At most four insights, all of the activity category. */
  lemma ActivityInsightsCategory(result: ActivityAnalysisResult, dailyLoads: map<int, real>, endDate: int)
    ensures var ins := ActivityInsights(result, dailyLoads, endDate);
      && |ins| <= 4
      && (forall i :: 0 <= i < |ins| ==> ins[i].category == "activity")
  {
    var o1, o2 := ConsistencyInsight(dailyLoads, endDate), BalanceInsight(result.intensityDistribution);
    var o3, o4 := ConfidenceInsight(result.trainingStress), FormInsight(result.trainingStress);
    if o2.Some? {
      BalanceVerdicts(result.intensityDistribution);
    }
    FiredOfCategory(o1, o2, o3, o4);
  }

  lemma FiredOfCategory(o1: Option<Insight>, o2: Option<Insight>, o3: Option<Insight>, o4: Option<Insight>)
    requires o1.Some? ==> o1.value.category == "activity"
    requires o2.Some? ==> o2.value.category == "activity"
    requires o3.Some? ==> o3.value.category == "activity"
    requires o4.Some? ==> o4.value.category == "activity"
    ensures |Fired(o1) + Fired(o2) + Fired(o3) + Fired(o4)| <= 4
    ensures OfCategory(Fired(o1) + Fired(o2) + Fired(o3) + Fired(o4), "activity")
  {
    var a := Fired(o1) + Fired(o2);
    OfCategoryConcat(Fired(o1), Fired(o2), "activity");
    OfCategoryConcat(a, Fired(o3), "activity");
    OfCategoryConcat(a + Fired(o3), Fired(o4), "activity");
  }

  /** The titles are those of the rules that fire, in the order of the rules. */
  lemma ActivityInsightTitles(result: ActivityAnalysisResult, dailyLoads: map<int, real>, endDate: int)
    ensures Titles(ActivityInsights(result, dailyLoads, endDate))
      == FiredTitle(ConsistencyInsight(dailyLoads, endDate))
         + FiredTitle(BalanceInsight(result.intensityDistribution))
         + FiredTitle(ConfidenceInsight(result.trainingStress))
         + FiredTitle(FormInsight(result.trainingStress))
  {
    var a, b := Fired(ConsistencyInsight(dailyLoads, endDate)), Fired(BalanceInsight(result.intensityDistribution));
    var c, d := Fired(ConfidenceInsight(result.trainingStress)), Fired(FormInsight(result.trainingStress));
    TitlesConcat(a + b + c, d);
    TitlesConcat(a + b, c);
    TitlesConcat(a, b);
    FiredTitles(ConsistencyInsight(dailyLoads, endDate));
    FiredTitles(BalanceInsight(result.intensityDistribution));
    FiredTitles(ConfidenceInsight(result.trainingStress));
    FiredTitles(FormInsight(result.trainingStress));
  }

  // ----- the analysis -----

  /** The activities dated within the analysis period, in their order. */
  function PeriodActivities(activities: seq<ActivityRecord>, startDate: int, endDate: int): (r: seq<ActivityRecord>)
    ensures forall a :: a in r <==> a in activities && InDays(a, startDate, endDate)
    ensures forall a :: multiset(r)[a] == if InDays(a, startDate, endDate) then multiset(activities)[a] else 0
    ensures IsSubsequence(r, activities)
  {
    var inPeriod := (a: ActivityRecord) => InDays(a, startDate, endDate);
    FilterMultisets(activities, inPeriod);
    FilterSubsequence(activities, inPeriod);
    Filter(activities, inPeriod)
  }

  /** `a.duration.total_seconds()` is taken of every activity of the period. */
  predicate PeriodDurationsKnown(activities: seq<ActivityRecord>, startDate: int, endDate: int)
  {
    forall i :: 0 <= i < |activities| && InDays(activities[i], startDate, endDate) ==> activities[i].duration.Some?
  }

  /** `a.calories or 0`. */
  function Calories(a: ActivityRecord): int
  {
    a.calories.GetOr(0)
  }

  function TotalCalories(activities: seq<ActivityRecord>): int
  {
    IntSum(Map(activities, Calories))
  }

  /** `sum(a.duration.total_seconds() / 3600 for a in period_activities)`. */
  function DurationHours(activities: seq<ActivityRecord>): real
  {
    Sum(Map(activities, Hours))
  }

  /** `_empty_result`: no activities, no training stress, nothing else either. */
  function EmptyResult(startDate: int, endDate: int): (r: ActivityAnalysisResult)
    ensures r.periodStart == startDate && r.periodEnd == endDate
    ensures r.totalActivities == 0 && r.totalCalories == 0 && r.totalDurationHours == 0.0 && r.totalDistanceKm == 0.0
    ensures r.trainingStress.None? && r.dailyLoadSeries == map[] && r.sportSummaries == map[]
    ensures r.weeklyVolumeTrend == Stable && r.insights == []
  {
    ActivityAnalysisResult(startDate, endDate, 0, 0.0, 0.0, 0, None, map[], map[], 0.0, 0.0, map[], Stable, [])
  }

  /** `period_daily_loads`: the entries of the series dated within the analysis period. */
  function PeriodSeries(dailyLoads: map<int, real>, startDate: int, endDate: int): (r: map<int, real>)
    ensures forall d :: d in r <==> d in dailyLoads && startDate <= d <= endDate
    ensures forall d :: d in r ==> r[d] == dailyLoads[d]
  {
    map d | d in dailyLoads && startDate <= d <= endDate :: dailyLoads[d]
  }

  /** The result `analyze` builds before its insights are added. */
  function ActivitySummary(startDate: int, endDate: int, period: seq<ActivityRecord>,
                           dailyLoads: map<int, real>, trainingStress: TrainingStressMetrics)
    : ActivityAnalysisResult
  {
    var effects := AverageEffects(period);
    ActivityAnalysisResult(startDate, endDate, |period|, DurationHours(period), TotalDistance(period),
      TotalCalories(period), Some(trainingStress), PeriodSeries(dailyLoads, startDate, endDate),
      SportSummaries(period), effects.0, effects.1, IntensityDistribution(period),
      VolumeTrend(dailyLoads, endDate), [])
  }

  /**
   * `analyze` on the activities the repository returned for `[startDate - 42, endDate]`: the
   * empty result without activities in the period, otherwise the summary of the period with
   * the training stress computed over the whole series and the insights about them.
   */
  function ActivityAnalysis(startDate: int, endDate: int, allActivities: seq<ActivityRecord>,
                            sqrt: real -> real): ActivityAnalysisResult
  {
    var period := PeriodActivities(allActivities, startDate, endDate);
    if period == [] then EmptyResult(startDate, endDate)
    else
      var dailyLoads := LookbackLoads(allActivities, startDate, endDate);
      var trainingStress := TsbMetrics(dailyLoads, startDate, endDate,
                                       LookbackConfidence(allActivities, startDate, endDate), sqrt);
      WithInsights(ActivitySummary(startDate, endDate, period, dailyLoads, trainingStress), dailyLoads, endDate)
  }

  /** The daily load series from 42 days before the period to its end. */
  function LookbackLoads(allActivities: seq<ActivityRecord>, startDate: int, endDate: int): map<int, real>
  {
    DailyLoads(allActivities, startDate - CTL_WINDOW, endDate)
  }

  /** The measured share of its load. */
  function LookbackConfidence(allActivities: seq<ActivityRecord>, startDate: int, endDate: int): real
  {
    Confidence(RangeLoad(allActivities, startDate - CTL_WINDOW, endDate),
               MeasuredRangeLoad(allActivities, startDate - CTL_WINDOW, endDate))
  }

  /** `result.insights.extend(self._generate_insights(result, daily_loads, end_date))`. */
  function WithInsights(summary: ActivityAnalysisResult, dailyLoads: map<int, real>, endDate: int)
    : ActivityAnalysisResult
  {
    summary.(insights := summary.insights + ActivityInsights(summary, dailyLoads, endDate))
  }

  /** `ActivityAnalyzer.analyze`; the repository query is replaced by its result `allActivities`. */
  method Analyze(startDate: int, endDate: int, allActivities: seq<ActivityRecord>, sqrt: real -> real)
    returns (result: ActivityAnalysisResult)
    requires PeriodDurationsKnown(allActivities, startDate, endDate)
    ensures result == ActivityAnalysis(startDate, endDate, allActivities, sqrt)
  {
    var lookbackStart := startDate - CTL_WINDOW;
    var periodActivities := PeriodActivities(allActivities, startDate, endDate);
    if periodActivities == [] {
      return EmptyResult(startDate, endDate);
    }
    var dailyLoads, confidenceScore := BuildDailyLoads(allActivities, lookbackStart, endDate);
    var trainingStress := CalculateTsbMetrics(dailyLoads, startDate, endDate, confidenceScore, sqrt);
    var sportSummaries := BuildSportSummaries(periodActivities);
    var intensityDistribution := CalculateIntensityDistribution(periodActivities);
    var effects := AverageEffects(periodActivities);
    var volumeTrend := VolumeTrend(dailyLoads, endDate);
    var periodDailyLoads := PeriodSeries(dailyLoads, startDate, endDate);
    result := ActivityAnalysisResult(startDate, endDate, |periodActivities|, DurationHours(periodActivities),
      TotalDistance(periodActivities), TotalCalories(periodActivities), Some(trainingStress), periodDailyLoads,
      sportSummaries, effects.0, effects.1, intensityDistribution, volumeTrend, []);
    AnalysisSummaryIs(startDate, endDate, periodActivities, dailyLoads, trainingStress, sportSummaries,
      intensityDistribution, result);
    var insights := GenerateInsights(result, dailyLoads, endDate);
    AnalysisIs(startDate, endDate, allActivities, sqrt, periodActivities, dailyLoads, confidenceScore,
      trainingStress, result, insights);
    result := result.(insights := result.insights + insights);
  }

  lemma AnalysisIs(startDate: int, endDate: int, allActivities: seq<ActivityRecord>, sqrt: real -> real,
                   period: seq<ActivityRecord>, dailyLoads: map<int, real>, confidence: real,
                   trainingStress: TrainingStressMetrics, summary: ActivityAnalysisResult, insights: seq<Insight>)
    requires period == PeriodActivities(allActivities, startDate, endDate) && period != []
    requires dailyLoads == LookbackLoads(allActivities, startDate, endDate)
    requires confidence == LookbackConfidence(allActivities, startDate, endDate)
    requires trainingStress == TsbMetrics(dailyLoads, startDate, endDate, confidence, sqrt)
    requires summary == ActivitySummary(startDate, endDate, period, dailyLoads, trainingStress)
    requires insights == ActivityInsights(summary, dailyLoads, endDate)
    ensures summary.(insights := summary.insights + insights) == ActivityAnalysis(startDate, endDate, allActivities, sqrt)
  {
  }

  lemma AnalysisSummaryIs(startDate: int, endDate: int, period: seq<ActivityRecord>, dailyLoads: map<int, real>,
                          trainingStress: TrainingStressMetrics, sportSummaries: map<string, SportSummary>,
                          intensityDistribution: map<string, real>, result: ActivityAnalysisResult)
    requires sportSummaries == SportSummaries(period)
    requires intensityDistribution == IntensityDistribution(period)
    requires result == ActivityAnalysisResult(startDate, endDate, |period|, DurationHours(period),
      TotalDistance(period), TotalCalories(period), Some(trainingStress), PeriodSeries(dailyLoads, startDate, endDate),
      sportSummaries, AverageEffects(period).0, AverageEffects(period).1, intensityDistribution,
      VolumeTrend(dailyLoads, endDate), [])
    ensures result == ActivitySummary(startDate, endDate, period, dailyLoads, trainingStress)
  {
  }

  /**
   * The result is the empty one exactly when no activity falls into the period; otherwise it
   * counts the period's activities and carries training-stress metrics.
   */
  lemma AnalysisEmpty(startDate: int, endDate: int, allActivities: seq<ActivityRecord>, sqrt: real -> real)
    ensures var r := ActivityAnalysis(startDate, endDate, allActivities, sqrt);
      var period := PeriodActivities(allActivities, startDate, endDate);
      && r.periodStart == startDate && r.periodEnd == endDate
      && r.totalActivities == |period|
      && (r.trainingStress.None? <==> period == [])
      && (period == [] ==> r == EmptyResult(startDate, endDate))
  {
  }

  /** No activity in the period exactly when no activity is dated within it. */
  lemma EmptyPeriod(allActivities: seq<ActivityRecord>, startDate: int, endDate: int)
    ensures PeriodActivities(allActivities, startDate, endDate) == [] <==>
      forall i :: 0 <= i < |allActivities| ==> !InDays(allActivities[i], startDate, endDate)
  {
    var period := PeriodActivities(allActivities, startDate, endDate);
    if period != [] {
      assert period[0] in allActivities;
    }
  }

  /** Cutting a gap-free series down to a later sub-range is the series of that sub-range. */
  lemma PeriodSeriesOfRange(activities: seq<ActivityRecord>, first: int, startDate: int, endDate: int)
    requires first <= startDate
    ensures PeriodSeries(DailyLoads(activities, first, endDate), startDate, endDate)
      == DailyLoads(activities, startDate, endDate)
  {
  }

  /** The period series of a non-empty analysis has one entry per day of the period. */
  lemma AnalysisSeries(startDate: int, endDate: int, allActivities: seq<ActivityRecord>, sqrt: real -> real)
    requires PeriodActivities(allActivities, startDate, endDate) != []
    ensures ActivityAnalysis(startDate, endDate, allActivities, sqrt).dailyLoadSeries
      == DailyLoads(allActivities, startDate, endDate)
  {
    PeriodSeriesOfRange(allActivities, startDate - CTL_WINDOW, startDate, endDate);
  }

  /** A period holding an activity is not empty. */
  lemma PeriodNonEmpty(allActivities: seq<ActivityRecord>, startDate: int, endDate: int)
    requires PeriodActivities(allActivities, startDate, endDate) != []
    ensures startDate <= endDate
  {
    assert PeriodActivities(allActivities, startDate, endDate)[0] in allActivities;
  }

  /** The period loads after the 42-day lookback are the loads of the period's days. */
  lemma LookbackPeriodLoads(allActivities: seq<ActivityRecord>, startDate: int, endDate: int)
    ensures var dailyLoads := LookbackLoads(allActivities, startDate, endDate);
      |PeriodLoads(dailyLoads, startDate, endDate)| == if startDate <= endDate then endDate - startDate + 1 else 0
  {
    var dailyLoads := LookbackLoads(allActivities, startDate, endDate);
    DailyLoadsDates(allActivities, startDate - CTL_WINDOW, endDate);
    assert SeriesDates(dailyLoads, endDate) == DaySeq(startDate - CTL_WINDOW, endDate);
    PeriodOfRange(startDate - CTL_WINDOW, endDate, startDate);
  }

  /**
   * A non-empty analysis has a monotony exactly when the period spans at least seven days, and
   * no strain without it.
   */
  lemma AnalysisMonotony(startDate: int, endDate: int, allActivities: seq<ActivityRecord>, sqrt: real -> real)
    requires PeriodActivities(allActivities, startDate, endDate) != []
    ensures var m := ActivityAnalysis(startDate, endDate, allActivities, sqrt).trainingStress;
      && m.Some?
      && (m.value.monotony.None? <==> endDate - startDate + 1 < MIN_MONOTONY_DAYS)
      && (m.value.monotony.None? ==> m.value.strain == 0.0)
  {
    PeriodNonEmpty(allActivities, startDate, endDate);
    LookbackPeriodLoads(allActivities, startDate, endDate);
  }

  /** With non-negative durations the confidence of a non-empty analysis lies in `[0, 1]`. */
  lemma AnalysisConfidence(startDate: int, endDate: int, allActivities: seq<ActivityRecord>, sqrt: real -> real)
    requires PeriodActivities(allActivities, startDate, endDate) != []
    requires NonNegativeDurations(allActivities)
    ensures var m := ActivityAnalysis(startDate, endDate, allActivities, sqrt).trainingStress;
      m.Some? && 0.0 <= m.value.confidenceScore <= 1.0
  {
    ConfidenceBounds(allActivities, startDate - CTL_WINDOW, endDate);
  }

  /** The insights of a non-empty analysis are those of the four rules on its own summary. */
  lemma AnalysisInsights(startDate: int, endDate: int, allActivities: seq<ActivityRecord>, sqrt: real -> real)
    requires PeriodActivities(allActivities, startDate, endDate) != []
    ensures var r := ActivityAnalysis(startDate, endDate, allActivities, sqrt);
      && r.insights == ActivityInsights(r.(insights := []), LookbackLoads(allActivities, startDate, endDate), endDate)
      && (ConfidenceInsight(r.trainingStress).Some? <==>
            LookbackConfidence(allActivities, startDate, endDate) < 0.7)
  {
    var period := PeriodActivities(allActivities, startDate, endDate);
    var dailyLoads := LookbackLoads(allActivities, startDate, endDate);
    var trainingStress := TsbMetrics(dailyLoads, startDate, endDate,
                                     LookbackConfidence(allActivities, startDate, endDate), sqrt);
    var summary := ActivitySummary(startDate, endDate, period, dailyLoads, trainingStress);
    var r := ActivityAnalysis(startDate, endDate, allActivities, sqrt);
    assert r == WithInsights(summary, dailyLoads, endDate);
    assert r.(insights := []) == summary;
  }
}
