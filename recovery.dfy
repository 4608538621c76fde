/**
 * The recovery analyzer (`garmindb/analysis/recovery_analyzer.py`): the resting-heart-rate
 * baseline, the weighted recovery score, the acute:chronic workload ratio (ACWR), the
 * half-period recovery trend, the averages of the most recent days, the insight rules, the
 * period analysis and the daily readiness score.  The repository queries of `analyze` and
 * `daily_readiness` are replaced by their results, passed in as sequences; dates are day
 * numbers (see `Calendar`).
 */
module RecoveryAnalyzer {
  import opened Wrappers
  import opened Numeric
  import opened Seqs
  import opened Sorting
  import opened Calendar
  import opened Records
  import opened AnalysisModels

  /** Days before the end date that the RHR baseline looks back. */
  const RHR_BASELINE_DAYS: int := 60
  /** Days of the acute training load; the window reaches back this many days before the end. */
  const ACUTE_LOAD_DAYS: int := 7
  /** Days of the chronic training load; the window reaches back this many days before the end. */
  const CHRONIC_LOAD_DAYS: int := 28

  const RHR_WEIGHT: real := 0.40
  const BB_WEIGHT: real := 0.35
  const SLEEP_WEIGHT: real := 0.25

  const ACWR_UNDERTRAINED: real := 0.8
  const ACWR_OPTIMAL_MAX: real := 1.3
  const ACWR_CAUTION_MAX: real := 1.5

  // ----- daily readings -----

  /** The two daily-summary fields the analyzer averages by name. */
  datatype Field = RestingHr | BbCharged

  /** `getattr(d, field)`. */
  function FieldOf(d: DailySummaryRecord, field: Field): Option<int>
  {
    match field
    case RestingHr => d.restingHr
    case BbCharged => d.bbCharged
  }

  /** `[d.<field> for d in data if d.<field>]`: the present, non-zero readings in order. */
  function Readings(data: seq<DailySummaryRecord>, field: Field): (r: seq<int>)
    ensures |r| <= |data|
    ensures forall i :: 0 <= i < |r| ==> r[i] != 0
    ensures r == Map(Filter(data, TruthyIn(field)), ValueIn(field))
  {
    if data == [] then []
    else
      var init := data[..|data| - 1];
      var d := data[|data| - 1];
      MapSnoc(Filter(init, TruthyIn(field)), d, ValueIn(field));
      Readings(init, field) + (if Truthy(FieldOf(d, field)) then [FieldOf(d, field).value] else [])
  }

  /** `getattr(d, field)` is truthy, as a selection predicate. */
  function TruthyIn(field: Field): DailySummaryRecord -> bool
  {
    d => Truthy(FieldOf(d, field))
  }

  /** `getattr(d, field)` is not `None`, as a selection predicate. */
  function PresentIn(field: Field): DailySummaryRecord -> bool
  {
    d => FieldOf(d, field).Some?
  }

  /** `getattr(d, field)`, read where it is present. */
  function ValueIn(field: Field): DailySummaryRecord -> int
  {
    d => FieldOf(d, field).GetOr(0)
  }

  /** Every present, non-zero reading of the field lies in `[lo, hi]`. */
  predicate ReadingsWithin(data: seq<DailySummaryRecord>, field: Field, lo: int, hi: int)
  {
    forall i :: 0 <= i < |data| && Truthy(FieldOf(data[i], field)) ==> lo <= FieldOf(data[i], field).value <= hi
  }

  lemma {:induction false} ReadingsBounds(data: seq<DailySummaryRecord>, field: Field, lo: int, hi: int)
    requires ReadingsWithin(data, field, lo, hi)
    ensures forall i :: 0 <= i < |Readings(data, field)| ==> lo <= Readings(data, field)[i] <= hi
  {
    if data != [] {
      ReadingsBounds(data[..|data| - 1], field, lo, hi);
    }
  }

  /** The records dated within `[first, last]`, in their order. */
  function DatedWithin(data: seq<DailySummaryRecord>, first: int, last: int): (r: seq<DailySummaryRecord>)
    ensures forall d :: d in r <==> d in data && first <= d.date <= last
  {
    Filter(data, (d: DailySummaryRecord) => first <= d.date <= last)
  }

  // ----- the resting-heart-rate baseline -----

  /** The resting heart rates of the 61 days `[endDate - 60, endDate]`. */
  function BaselineReadings(dailyData: seq<DailySummaryRecord>, endDate: int): seq<int>
  {
    Readings(DatedWithin(dailyData, endDate - RHR_BASELINE_DAYS, endDate), RestingHr)
  }

  /** `max(1, n // 4)`: a quarter of the values, but at least one. */
  function LowestCount(n: nat): (k: nat)
    ensures 1 <= k
    ensures n >= 1 ==> k <= n
    ensures n >= 4 ==> 4 * k <= n < 4 * k + 4
  {
    if n / 4 > 1 then n / 4 else 1
  }

  /** The mean of the lowest quarter of the values. */
  function LowestQuartileMean(values: seq<int>): real
    requires values != []
  {
    var sorted := SortInts(values);
    var k := LowestCount(|values|);
    IntSum(sorted[..k]) as real / k as real
  }

  /** `_calculate_rhr_baseline`: 0.0 without readings, else the mean of the lowest quarter. */
  function RhrBaseline(dailyData: seq<DailySummaryRecord>, endDate: int): real
  {
    var values := BaselineReadings(dailyData, endDate);
    if values == [] then 0.0 else LowestQuartileMean(values)
  }

  /**
   * The baseline is 0.0 exactly when the 61-day window holds no reading; otherwise it lies
   * between the lowest reading and the mean of all readings.
   */
  lemma RhrBaselineBounds(dailyData: seq<DailySummaryRecord>, endDate: int)
    ensures var values := BaselineReadings(dailyData, endDate);
      && (values == [] ==> RhrBaseline(dailyData, endDate) == 0.0)
      && (values != [] ==> SeqMin(Reals(values)) <= RhrBaseline(dailyData, endDate) <= IntMean(values))
  {
    var values := BaselineReadings(dailyData, endDate);
    if values != [] {
      LowestQuartileBounds(values);
    }
  }

  /** With positive readings the baseline is positive exactly when there is a reading. */
  lemma RhrBaselinePositive(dailyData: seq<DailySummaryRecord>, endDate: int)
    requires ReadingsWithin(dailyData, RestingHr, 1, 1000)
    ensures RhrBaseline(dailyData, endDate) > 0.0 <==> BaselineReadings(dailyData, endDate) != []
  {
    var window := DatedWithin(dailyData, endDate - RHR_BASELINE_DAYS, endDate);
    var values := BaselineReadings(dailyData, endDate);
    assert ReadingsWithin(window, RestingHr, 1, 1000) by {
      forall i | 0 <= i < |window| && Truthy(FieldOf(window[i], RestingHr))
        ensures 1 <= FieldOf(window[i], RestingHr).value <= 1000
      {
        assert window[i] in dailyData;
        var j :| 0 <= j < |dailyData| && dailyData[j] == window[i];
      }
    }
    ReadingsBounds(window, RestingHr, 1, 1000);
    if values != [] {
      LowestQuartileBounds(values);
      assert 1.0 <= Reals(values)[0];
      assert SeqMin(Reals(values)) >= 1.0;
    }
  }

  lemma LowestQuartileBounds(values: seq<int>)
    requires values != []
    ensures SeqMin(Reals(values)) <= LowestQuartileMean(values) <= IntMean(values)
  {
    var sorted := SortInts(values);
    var k := LowestCount(|values|);
    IntSumPermutation(sorted, values);
    PrefixMeanAtMostMean(sorted, k);
    PrefixMeanAtLeastFirst(sorted, k);
    assert sorted[0] in multiset(values);
    var j :| 0 <= j < |values| && values[j] == sorted[0];
    assert SeqMin(Reals(values)) <= Reals(values)[j];
  }

  /** The lowest quarter is taken after sorting, so the order of the readings does not matter. */
  lemma LowestQuartileOrderIndependent(a: seq<int>, b: seq<int>)
    requires a != [] && multiset(a) == multiset(b)
    ensures b != [] && LowestQuartileMean(a) == LowestQuartileMean(b)
  {
    assert |a| == |multiset(a)| == |multiset(b)| == |b|;
    assert KeysDistinct(a, Identity);
    SortByPermutation(a, b, Identity);
  }

  /** In an ascending sequence the mean of a prefix is at least the first value. */
  lemma PrefixMeanAtLeastFirst(s: seq<int>, n: nat)
    requires 0 < n <= |s|
    requires forall i, j :: 0 <= i < j < |s| ==> s[i] <= s[j]
    ensures s[0] as real <= IntSum(s[..n]) as real / n as real
  {
    var p := s[..n];
    forall i | 0 <= i < |p|
      ensures s[0] <= p[i]
    {
      if i > 0 {
        assert s[0] <= s[i];
      }
    }
    IntSumLower(p, s[0]);
    DivAtLeast(IntSum(p), n, s[0]);
  }

  lemma DivAtLeast(total: int, n: nat, lo: int)
    requires 0 < n && n * lo <= total
    ensures lo as real <= total as real / n as real
  {
    assert (n * lo) as real == n as real * lo as real;
    assert n as real * lo as real <= total as real;
  }

  /** In an ascending sequence the mean of a prefix is at most the mean of the whole. */
  lemma PrefixMeanAtMostMean(s: seq<int>, n: nat)
    requires 0 < n <= |s|
    requires forall i, j :: 0 <= i < j < |s| ==> s[i] <= s[j]
    ensures IntSum(s[..n]) as real / n as real <= IntSum(s) as real / |s| as real
  {
    var p, q := s[..n], s[n..];
    assert s == p + q;
    IntSumConcat(p, q);
    PrefixAtMostLast(s, n);
    SuffixAtLeastLast(s, n);
    MeanOfSplit(IntSum(p), IntSum(q), IntSum(s), n, |q|, |s|, s[n - 1]);
  }

  /**
   * A part of `n` values at most `x` and a rest of `m` values at least `x`: the part's mean
   * is at most the mean of the whole.
   */
  lemma MeanOfSplit(p: int, q: int, total: int, n: nat, m: nat, count: nat, x: int)
    requires 0 < n && p <= n * x && m * x <= q
    requires total == p + q && count == n + m
    ensures p as real / n as real <= total as real / count as real
  {
    CrossBound(p, q, n, m, x);
    RatioCompare(p, n, q, m);
  }

  lemma PrefixAtMostLast(s: seq<int>, n: nat)
    requires 0 < n <= |s|
    requires forall i, j :: 0 <= i < j < |s| ==> s[i] <= s[j]
    ensures IntSum(s[..n]) <= n * s[n - 1]
  {
    var p := s[..n];
    forall i | 0 <= i < |p|
      ensures p[i] <= s[n - 1]
    {
      if i < n - 1 {
        assert s[i] <= s[n - 1];
      }
    }
    IntSumUpper(p, s[n - 1]);
  }

  lemma SuffixAtLeastLast(s: seq<int>, n: nat)
    requires 0 < n <= |s|
    requires forall i, j :: 0 <= i < j < |s| ==> s[i] <= s[j]
    ensures |s[n..]| * s[n - 1] <= IntSum(s[n..])
  {
    var q := s[n..];
    forall i | 0 <= i < |q|
      ensures s[n - 1] <= q[i]
    {
      assert q[i] == s[n + i];
    }
    IntSumLower(q, s[n - 1]);
  }

  lemma CrossBound(p: int, q: int, n: nat, m: nat, x: int)
    requires p <= n * x && m * x <= q
    ensures p * m <= n * q
  {
    MulLe(p, n * x, m);
    MulLe(m * x, q, n);
    assert n * x * m == m * x * n;
  }

  lemma MulLe(a: int, b: int, c: nat)
    requires a <= b
    ensures a * c <= b * c
  {
    assert b * c - a * c == (b - a) * c;
  }

  /** `p / n <= (p + q) / (n + m)` when `p m <= n q`. */
  lemma RatioCompare(p: int, n: nat, q: int, m: nat)
    requires 0 < n && p * m <= n * q
    ensures p as real / n as real <= (p + q) as real / (n + m) as real
  {
    var P, Q, N, M := p as real, q as real, n as real, m as real;
    assert (p * m) as real == P * M;
    assert (n * q) as real == N * Q;
    assert P * (N + M) == P * N + P * M;
    assert (P + Q) * N == P * N + Q * N;
    assert Q * N == N * Q;
    DivMonotone(P, N, P + Q, N + M);
  }

  lemma DivMonotone(a: real, b: real, c: real, d: real)
    requires 0.0 < b && 0.0 < d && a * d <= c * b
    ensures a / b <= c / d
  {
    assert a / b == (a * d) / (b * d);
    assert c / d == (c * b) / (b * d);
  }

  // ----- the recovery score -----

  /** `max(0, min(100, bb_charged))`. */
  function BbComponent(bbCharged: int): int
  {
    ClampInt(bbCharged, 0, 100)
  }

  /** `sleep_score if sleep_score else 70`: a missing or zero score counts as a neutral 70. */
  function SleepComponent(sleepScore: Option<real>): real
  {
    if TruthyReal(sleepScore) then sleepScore.value else 70.0
  }

  /** `max(0, min(100, 100 - abs(rhr_deviation) * 5))`: five points off per beat of deviation. */
  function RhrComponent(rhrDeviation: real): real
  {
    Clamp(100.0 - Abs(rhrDeviation) * 5.0, 0.0, 100.0)
  }

  /**
   * The weighted sum of the components: 0.40 / 0.35 / 0.25 with RHR data, and without it the
   * body-battery and sleep weights scaled up to sum to one.
   */
  function WeightedScore(rhrDeviation: real, bbCharged: int, sleepScore: Option<real>, hasRhrData: bool): real
  {
    var bb := BbComponent(bbCharged) as real;
    var sleep := SleepComponent(sleepScore);
    if hasRhrData then
      RhrComponent(rhrDeviation) * RHR_WEIGHT + bb * BB_WEIGHT + sleep * SLEEP_WEIGHT
    else
      var totalWeight := BB_WEIGHT + SLEEP_WEIGHT;
      bb * (BB_WEIGHT / totalWeight) + sleep * (SLEEP_WEIGHT / totalWeight)
  }

  /** `_calculate_recovery_score`: the weighted sum, clamped to `[0, 100]` and truncated. */
  function RecoveryScore(rhrDeviation: real, bbCharged: int, sleepScore: Option<real>, hasRhrData: bool)
    : (score: int)
    ensures 0 <= score <= 100
  {
    Trunc(Clamp(WeightedScore(rhrDeviation, bbCharged, sleepScore, hasRhrData), 0.0, 100.0))
  }

  /**
   * The RHR component depends only on the size of the deviation, is 100 without deviation, falls
   * by five points per beat and reaches 0 at 20 beats; the body-battery component is the charge
   * clamped to `[0, 100]`; a missing or zero sleep score counts as 70.
   */
  lemma ScoreComponents(rhrDeviation: real, bbCharged: int)
    ensures RhrComponent(-rhrDeviation) == RhrComponent(rhrDeviation)
    ensures RhrComponent(0.0) == 100.0
    ensures 0.0 <= RhrComponent(rhrDeviation) <= 100.0
    ensures Abs(rhrDeviation) <= 20.0 ==> RhrComponent(rhrDeviation) == 100.0 - 5.0 * Abs(rhrDeviation)
    ensures Abs(rhrDeviation) >= 20.0 ==> RhrComponent(rhrDeviation) == 0.0
    ensures 0 <= BbComponent(bbCharged) <= 100
    ensures 0 <= bbCharged <= 100 ==> BbComponent(bbCharged) == bbCharged
    ensures SleepComponent(None) == SleepComponent(Some(0.0)) == 70.0
  {
  }

  /** A larger deviation from the baseline, in either direction, never raises the RHR component. */
  lemma RhrComponentMonotone(d1: real, d2: real)
    requires Abs(d1) <= Abs(d2)
    ensures RhrComponent(d2) <= RhrComponent(d1)
  {
  }

  /**
   * The weights, renormalised or not, sum to one: the weighted score lies between any bounds
   * of the components it uses.
   */
  lemma WeightedScoreBetween(rhrDeviation: real, bbCharged: int, sleepScore: Option<real>, hasRhrData: bool,
                             lo: real, hi: real)
    requires hasRhrData ==> lo <= RhrComponent(rhrDeviation) <= hi
    requires lo <= BbComponent(bbCharged) as real <= hi
    requires lo <= SleepComponent(sleepScore) <= hi
    ensures lo <= WeightedScore(rhrDeviation, bbCharged, sleepScore, hasRhrData) <= hi
  {
  }

  /**
   * When every component the score uses equals `c`, the score is `c`; without RHR data the
   * deviation `d` plays no part.
   */
  lemma ScoreOfEqualComponents(c: int, d: real)
    requires 0 < c <= 100
    ensures RecoveryScore((100 - c) as real / 5.0, c, Some(c as real), true) == c
    ensures RecoveryScore(d, c, Some(c as real), false) == c
  {
    ScoreComponents((100 - c) as real / 5.0, c);
    WeightedScoreBetween(d, c, Some(c as real), false, c as real, c as real);
    WeightedScoreBetween((100 - c) as real / 5.0, c, Some(c as real), true, c as real, c as real);
  }

  /** With everything else fixed, a larger deviation never raises the score. */
  lemma RecoveryScoreMonotone(d1: real, d2: real, bbCharged: int, sleepScore: Option<real>)
    requires Abs(d1) <= Abs(d2)
    ensures RecoveryScore(d2, bbCharged, sleepScore, true) <= RecoveryScore(d1, bbCharged, sleepScore, true)
  {
    RhrComponentMonotone(d1, d2);
    TruncMonotone(Clamp(WeightedScore(d2, bbCharged, sleepScore, true), 0.0, 100.0),
                  Clamp(WeightedScore(d1, bbCharged, sleepScore, true), 0.0, 100.0));
  }

  /**
   * A deviation of 4 bpm either way (RHR component 80), a charge of 60 and a sleep score of 80
   * give 32 + 21 + 20 = 73; without RHR data a charge of 60 and a sleep score of 90 give 35 + 37.5, so 72; a
   * charge of 70 without a sleep score gives the neutral 70.
   */
  lemma RecoveryScoreExamples()
    ensures RecoveryScore(4.0, 60, Some(80.0), true) == 73
    ensures RecoveryScore(-4.0, 60, Some(80.0), true) == 73
    ensures RecoveryScore(0.0, 60, Some(90.0), false) == 72
    ensures RecoveryScore(0.0, 70, None, false) == 70
    ensures RecoveryScore(0.0, 100, Some(100.0), true) == 100
  {
    assert WeightedScore(4.0, 60, Some(80.0), true) == 73.0;
    assert WeightedScore(-4.0, 60, Some(80.0), true) == 73.0;
    assert WeightedScore(0.0, 60, Some(90.0), false) == 72.5;
    assert WeightedScore(0.0, 70, None, false) == 70.0;
    assert WeightedScore(0.0, 100, Some(100.0), true) == 100.0;
  }

  // ----- the acute:chronic workload ratio -----

  /** An activity with a present, non-zero training load, dated within `[first, last]`. */
  predicate LoadedWithin(a: ActivityRecord, first: int, last: int)
  {
    TruthyReal(a.trainingLoad) && first <= Day(a.startTime) <= last
  }

  /** The non-zero training loads of the activities dated within `[first, last]`, in order. */
  function WindowLoads(activities: seq<ActivityRecord>, first: int, last: int): (r: seq<real>)
    ensures |r| <= |activities|
    ensures forall i :: 0 <= i < |r| ==> r[i] != 0.0
    ensures forall a :: a in activities && LoadedWithin(a, first, last) ==> a.trainingLoad.value in r
    ensures forall x :: x in r ==> exists a :: a in activities && LoadedWithin(a, first, last) && x == a.trainingLoad.value
  {
    if activities == [] then []
    else
      var a := activities[|activities| - 1];
      WindowLoads(activities[..|activities| - 1], first, last)
        + (if LoadedWithin(a, first, last) then [a.trainingLoad.value] else [])
  }

  /** `LoadedWithin` for a fixed window, as a selection predicate. */
  function LoadedWithinOf(first: int, last: int): ActivityRecord -> bool
  {
    a => LoadedWithin(a, first, last)
  }

  /** `a.training_load`, read where it is present. */
  function LoadOrZero(a: ActivityRecord): real
  {
    a.trainingLoad.GetOr(0.0)
  }

  /**
   * The window's loads are those of exactly the loaded activities of the window, each activity
   * once, in order: two activities of equal load both contribute.
   */
  lemma {:induction false} WindowLoadsSelects(activities: seq<ActivityRecord>, first: int, last: int)
    ensures WindowLoads(activities, first, last) == Map(Filter(activities, LoadedWithinOf(first, last)), LoadOrZero)
  {
    if activities != [] {
      var init := activities[..|activities| - 1];
      WindowLoadsSelects(init, first, last);
      MapSnoc(Filter(init, LoadedWithinOf(first, last)), activities[|activities| - 1], LoadOrZero);
    }
  }

  /** The loads of `[endDate - 7, endDate]`. */
  function AcuteLoads(activities: seq<ActivityRecord>, endDate: int): seq<real>
  {
    WindowLoads(activities, endDate - ACUTE_LOAD_DAYS, endDate)
  }

  /** The loads of `[endDate - 28, endDate]`. */
  function ChronicLoads(activities: seq<ActivityRecord>, endDate: int): seq<real>
  {
    WindowLoads(activities, endDate - CHRONIC_LOAD_DAYS, endDate)
  }

  /**
   * `_calculate_acute_chronic_ratio`: the acute load per day over the chronic load per day, or
   * `None` without chronic loads or when they sum to zero.
   */
  function AcuteChronicRatio(activities: seq<ActivityRecord>, endDate: int): Option<real>
  {
    var acute := AcuteLoads(activities, endDate);
    var chronic := ChronicLoads(activities, endDate);
    if chronic == [] then None
    else
      var atl := Sum(acute) / ACUTE_LOAD_DAYS as real;
      var ctl := Sum(chronic) / CHRONIC_LOAD_DAYS as real;
      if ctl == 0.0 then None else Some(atl / ctl)
  }

  /** No activity carries a negative training load. */
  predicate NonNegativeLoads(activities: seq<ActivityRecord>)
  {
    forall i :: 0 <= i < |activities| && activities[i].trainingLoad.Some? ==> activities[i].trainingLoad.value >= 0.0
  }

  /** The ratio is absent exactly when the chronic window has no load or its loads sum to zero. */
  lemma AcwrAbsent(activities: seq<ActivityRecord>, endDate: int)
    ensures AcuteChronicRatio(activities, endDate).None? <==>
      ChronicLoads(activities, endDate) == [] || Sum(ChronicLoads(activities, endDate)) == 0.0
  {
  }

  /**
   * With non-negative loads the ratio is absent exactly when no loaded activity falls into the
   * 29 days `[endDate - 28, endDate]`, and otherwise lies in `[0, 4]`: the acute window is
   * inside the chronic one, and the ratio is four times the acute share of the chronic load.
   */
  lemma AcwrBounds(activities: seq<ActivityRecord>, endDate: int)
    requires NonNegativeLoads(activities)
    ensures var r := AcuteChronicRatio(activities, endDate);
      && (r.None? <==> ChronicLoads(activities, endDate) == [])
      && (r.Some? ==> 0.0 <= r.value <= 4.0)
  {
    var acute, chronic := AcuteLoads(activities, endDate), ChronicLoads(activities, endDate);
    WindowNested(activities, endDate - ACUTE_LOAD_DAYS, endDate - CHRONIC_LOAD_DAYS, endDate);
    if chronic != [] {
      WindowPositive(activities, endDate - CHRONIC_LOAD_DAYS, endDate);
      RatioOfWindows(Sum(acute), Sum(chronic));
    }
  }

  lemma RatioOfWindows(a: real, c: real)
    requires 0.0 <= a <= c && 0.0 < c
    ensures 0.0 <= (a / 7.0) / (c / 28.0) <= 4.0
  {
    var x := (a / 7.0) / (c / 28.0);
    assert x * (c / 28.0) == a / 7.0;
    assert x * c == 4.0 * a;
    if x < 0.0 {
      MulPositive(-x, c);
    }
    if x > 4.0 {
      MulPositive(x - 4.0, c);
    }
  }

  /** With non-negative loads a longer window ending on the same day holds at least as much load. */
  lemma {:induction false} WindowNested(activities: seq<ActivityRecord>, inner: int, outer: int, last: int)
    requires NonNegativeLoads(activities) && outer <= inner
    ensures 0.0 <= Sum(WindowLoads(activities, inner, last)) <= Sum(WindowLoads(activities, outer, last))
  {
    if activities != [] {
      var rest := activities[..|activities| - 1];
      var a := activities[|activities| - 1];
      assert NonNegativeLoads(rest) by {
        forall i | 0 <= i < |rest| && rest[i].trainingLoad.Some?
          ensures rest[i].trainingLoad.value >= 0.0
        {
          assert rest[i] == activities[i];
        }
      }
      WindowNested(rest, inner, outer, last);
      var addInner := if LoadedWithin(a, inner, last) then [a.trainingLoad.value] else [];
      var addOuter := if LoadedWithin(a, outer, last) then [a.trainingLoad.value] else [];
      SumConcat(WindowLoads(rest, inner, last), addInner);
      SumConcat(WindowLoads(rest, outer, last), addOuter);
    }
  }

  /** With non-negative loads a window holding a load has a positive total. */
  lemma {:induction false} WindowPositive(activities: seq<ActivityRecord>, first: int, last: int)
    requires NonNegativeLoads(activities)
    ensures 0.0 <= Sum(WindowLoads(activities, first, last))
    ensures WindowLoads(activities, first, last) != [] ==> 0.0 < Sum(WindowLoads(activities, first, last))
  {
    if activities != [] {
      var rest := activities[..|activities| - 1];
      var a := activities[|activities| - 1];
      assert NonNegativeLoads(rest) by {
        forall i | 0 <= i < |rest| && rest[i].trainingLoad.Some?
          ensures rest[i].trainingLoad.value >= 0.0
        {
          assert rest[i] == activities[i];
        }
      }
      WindowPositive(rest, first, last);
      var add := if LoadedWithin(a, first, last) then [a.trainingLoad.value] else [];
      SumConcat(WindowLoads(rest, first, last), add);
    }
  }

  // ----- trends -----

  /** `_rhr_trend`: a deviation of more than 2 bpm below the baseline improves, above it declines. */
  function RhrTrend(deviation: real): (t: TrendDirection)
    ensures t == Improving <==> deviation < -2.0
    ensures t == Declining <==> deviation > 2.0
    ensures t == Stable <==> -2.0 <= deviation <= 2.0
  {
    if deviation < -2.0 then Improving
    else if deviation > 2.0 then Declining
    else Stable
  }

  /** Negating the deviation swaps an improving and a declining trend. */
  lemma RhrTrendMirror(deviation: real)
    ensures RhrTrend(-deviation) == Improving <==> RhrTrend(deviation) == Declining
    ensures RhrTrend(-deviation) == Stable <==> RhrTrend(deviation) == Stable
  {
  }

  /**
   * The comparison of the two halves' RHR means: only when both halves have readings, a second
   * half more than 2 bpm lower improves and more than 2 bpm higher declines.
   */
  function HalvesTrend(first: seq<int>, second: seq<int>): TrendDirection
  {
    if first != [] && second != [] then
      var avgFirst := IntMean(first);
      var avgSecond := IntMean(second);
      if avgSecond < avgFirst - 2.0 then Improving
      else if avgSecond > avgFirst + 2.0 then Declining
      else Stable
    else Stable
  }

  /** `_calculate_trend`: the period's records in their order, split in half at `len // 2`. */
  function RecoveryTrend(dailyData: seq<DailySummaryRecord>, startDate: int, endDate: int): TrendDirection
  {
    var period := DatedWithin(dailyData, startDate, endDate);
    if |period| < 7 then Stable
    else
      var mid := |period| / 2;
      HalvesTrend(Readings(period[..mid], RestingHr), Readings(period[mid..], RestingHr))
  }

  /** The half comparison applies the same 2 bpm thresholds as `_rhr_trend` to the change of the means. */
  lemma HalvesTrendIsRhrTrend(first: seq<int>, second: seq<int>)
    requires first != [] && second != []
    ensures HalvesTrend(first, second) == RhrTrend(IntMean(second) - IntMean(first))
  {
  }

  /** Swapping the halves swaps an improving and a declining trend. */
  lemma HalvesTrendMirror(first: seq<int>, second: seq<int>)
    ensures HalvesTrend(second, first) == Improving <==> HalvesTrend(first, second) == Declining
    ensures HalvesTrend(second, first) == Stable <==> HalvesTrend(first, second) == Stable
  {
  }

  /**
   * A period of fewer than seven records, or without readings in one of its halves, is stable,
   * and so is a period whose readings all lie within a band of 2 bpm.
   */
  lemma RecoveryTrendStable(dailyData: seq<DailySummaryRecord>, startDate: int, endDate: int, lo: int)
    ensures var period := DatedWithin(dailyData, startDate, endDate);
      (|period| < 7 || Readings(period[..|period| / 2], RestingHr) == [] || Readings(period[|period| / 2..], RestingHr) == []
       || ReadingsWithin(period, RestingHr, lo, lo + 2))
      ==> RecoveryTrend(dailyData, startDate, endDate) == Stable
  {
    var period := DatedWithin(dailyData, startDate, endDate);
    if |period| >= 7 && ReadingsWithin(period, RestingHr, lo, lo + 2) {
      var mid := |period| / 2;
      var first, second := Readings(period[..mid], RestingHr), Readings(period[mid..], RestingHr);
      if first != [] && second != [] {
        HalvesWithin(period, mid, lo, lo + 2);
        IntMeanBounds(first, lo as real, (lo + 2) as real);
        IntMeanBounds(second, lo as real, (lo + 2) as real);
      }
    }
  }

  /**
   * A period of at least seven records with readings in both halves has the trend of the change
   * of the mean resting heart rate from its first half to its second, under the 2 bpm thresholds.
   */
  lemma RecoveryTrendOfHalves(dailyData: seq<DailySummaryRecord>, startDate: int, endDate: int)
    requires var period := DatedWithin(dailyData, startDate, endDate);
      && |period| >= 7
      && Readings(period[..|period| / 2], RestingHr) != [] && Readings(period[|period| / 2..], RestingHr) != []
    ensures var period := DatedWithin(dailyData, startDate, endDate);
      RecoveryTrend(dailyData, startDate, endDate)
      == RhrTrend(IntMean(Readings(period[|period| / 2..], RestingHr)) - IntMean(Readings(period[..|period| / 2], RestingHr)))
  {
    var period := DatedWithin(dailyData, startDate, endDate);
    HalvesTrendIsRhrTrend(Readings(period[..|period| / 2], RestingHr), Readings(period[|period| / 2..], RestingHr));
  }

  lemma HalvesWithin(period: seq<DailySummaryRecord>, mid: nat, lo: int, hi: int)
    requires mid <= |period| && ReadingsWithin(period, RestingHr, lo, hi)
    ensures forall i :: 0 <= i < |Readings(period[..mid], RestingHr)| ==>
      lo as real <= Readings(period[..mid], RestingHr)[i] as real <= hi as real
    ensures forall i :: 0 <= i < |Readings(period[mid..], RestingHr)| ==>
      lo as real <= Readings(period[mid..], RestingHr)[i] as real <= hi as real
  {
    assert ReadingsWithin(period[..mid], RestingHr, lo, hi) by {
      forall i | 0 <= i < mid && Truthy(FieldOf(period[..mid][i], RestingHr))
        ensures lo <= FieldOf(period[..mid][i], RestingHr).value <= hi
      {
        assert period[..mid][i] == period[i];
      }
    }
    assert ReadingsWithin(period[mid..], RestingHr, lo, hi) by {
      forall i | 0 <= i < |period| - mid && Truthy(FieldOf(period[mid..][i], RestingHr))
        ensures lo <= FieldOf(period[mid..][i], RestingHr).value <= hi
      {
        assert period[mid..][i] == period[mid + i];
      }
    }
    ReadingsBounds(period[..mid], RestingHr, lo, hi);
    ReadingsBounds(period[mid..], RestingHr, lo, hi);
  }

  /** Ten days whose resting heart rate drops from 60 to 50 halfway improve. */
  lemma RecoveryTrendExample(dailyData: seq<DailySummaryRecord>)
    requires |dailyData| == 10
    requires forall i :: 0 <= i < 10 ==> dailyData[i].date == i
    requires forall i :: 0 <= i < 5 ==> dailyData[i].restingHr == Some(60)
    requires forall i :: 5 <= i < 10 ==> dailyData[i].restingHr == Some(50)
    ensures RecoveryTrend(dailyData, 0, 9) == Improving
  {
    FilterAll(dailyData, (d: DailySummaryRecord) => 0 <= d.date <= 9);
    var period := DatedWithin(dailyData, 0, 9);
    assert period == dailyData;
    assert |period| / 2 == 5;
    ExampleHalves(dailyData);
    TrendOfHalves(dailyData, 0, 9);
  }

  lemma TrendOfHalves(dailyData: seq<DailySummaryRecord>, startDate: int, endDate: int)
    requires var period := DatedWithin(dailyData, startDate, endDate);
      && |period| >= 7
      && Readings(period[..|period| / 2], RestingHr) != [] && Readings(period[|period| / 2..], RestingHr) != []
      && IntMean(Readings(period[|period| / 2..], RestingHr)) < IntMean(Readings(period[..|period| / 2], RestingHr)) - 2.0
    ensures RecoveryTrend(dailyData, startDate, endDate) == Improving
  {
  }

  lemma ExampleHalves(data: seq<DailySummaryRecord>)
    requires |data| == 10
    requires forall i :: 0 <= i < 5 ==> data[i].restingHr == Some(60)
    requires forall i :: 5 <= i < 10 ==> data[i].restingHr == Some(50)
    ensures Readings(data[..5], RestingHr) != [] && IntMean(Readings(data[..5], RestingHr)) == 60.0
    ensures Readings(data[5..], RestingHr) != [] && IntMean(Readings(data[5..], RestingHr)) == 50.0
  {
    var first, second := data[..5], data[5..];
    forall i | 0 <= i < |first|
      ensures first[i].restingHr == Some(60)
    {
      assert first[i] == data[i];
    }
    forall i | 0 <= i < |second|
      ensures second[i].restingHr == Some(50)
    {
      assert second[i] == data[5 + i];
    }
    ConstantMean(first, 60);
    ConstantMean(second, 50);
  }

  lemma ConstantMean(data: seq<DailySummaryRecord>, v: int)
    requires data != [] && v != 0
    requires forall i :: 0 <= i < |data| ==> data[i].restingHr == Some(v)
    ensures Readings(data, RestingHr) != [] && IntMean(Readings(data, RestingHr)) == v as real
  {
    ConstantReadings(data, v);
    IntMeanBounds(Readings(data, RestingHr), v as real, v as real);
  }

  /** Records that all carry the same non-zero reading give one reading per record, all equal. */
  lemma {:induction false} ConstantReadings(data: seq<DailySummaryRecord>, v: int)
    requires v != 0
    requires forall i :: 0 <= i < |data| ==> data[i].restingHr == Some(v)
    ensures |Readings(data, RestingHr)| == |data|
    ensures forall i :: 0 <= i < |data| ==> Readings(data, RestingHr)[i] == v
  {
    if data != [] {
      ConstantReadings(data[..|data| - 1], v);
    }
  }

  // ----- averages of the most recent days -----

  /** The sort key of `sorted(..., key=lambda d: d.date, reverse=True)`. */
  function NewestFirst(d: DailySummaryRecord): int
  {
    -d.date
  }

  /** `sorted(daily_data, key=lambda d: d.date, reverse=True)[:n_days]`. */
  function MostRecent(dailyData: seq<DailySummaryRecord>, nDays: nat): seq<DailySummaryRecord>
  {
    Take(SortBy(dailyData, NewestFirst), nDays)
  }

  /** The values of the field that are not `None`, zeros included, in order. */
  function Present(data: seq<DailySummaryRecord>, field: Field): (r: seq<int>)
    ensures |r| <= |data|
  {
    if data == [] then []
    else
      var d := data[|data| - 1];
      Present(data[..|data| - 1], field) + (if FieldOf(d, field).Some? then [FieldOf(d, field).value] else [])
  }

  /** The present values are the field values of exactly the records where it is not `None`, in order. */
  lemma {:induction false} PresentSelects(data: seq<DailySummaryRecord>, field: Field)
    ensures Present(data, field) == Map(Filter(data, PresentIn(field)), ValueIn(field))
  {
    if data != [] {
      var init := data[..|data| - 1];
      PresentSelects(init, field);
      MapSnoc(Filter(init, PresentIn(field)), data[|data| - 1], ValueIn(field));
    }
  }

  /** `_avg_last_n_days`: the mean of the present values among the `nDays` most recent records. */
  function AverageLastNDays(dailyData: seq<DailySummaryRecord>, nDays: nat, field: Field): Option<real>
  {
    if dailyData == [] then None
    else
      var values := Present(MostRecent(dailyData, nDays), field);
      if values == [] then None else Some(IntMean(values))
  }

  lemma PresentSnoc(s: seq<DailySummaryRecord>, d: DailySummaryRecord, field: Field)
    ensures Present(s + [d], field) == Present(s, field) + (if FieldOf(d, field).Some? then [FieldOf(d, field).value] else [])
  {
    assert (s + [d])[..|s|] == s;
  }

  /** The comprehension over the recent records: the values of the field that are not `None`. */
  method CollectPresent(recent: seq<DailySummaryRecord>, field: Field) returns (values: seq<int>)
    ensures values == Present(recent, field)
  {
    values := [];
    var i := 0;
    while i < |recent|
      invariant 0 <= i <= |recent|
      invariant values == Present(recent[..i], field)
    {
      var val := FieldOf(recent[i], field);
      if val.Some? {
        values := values + [val.value];
      }
      assert recent[..i + 1] == recent[..i] + [recent[i]];
      PresentSnoc(recent[..i], recent[i], field);
      i := i + 1;
    }
    assert recent[..i] == recent;
  }

  method AvgLastNDays(dailyData: seq<DailySummaryRecord>, nDays: nat, field: Field) returns (average: Option<real>)
    ensures average == AverageLastNDays(dailyData, nDays, field)
  {
    if dailyData == [] {
      return None;
    }
    var sortedData := SortBy(dailyData, NewestFirst);
    var recent := Take(sortedData, nDays);
    var values := CollectPresent(recent, field);
    if values == [] {
      average := None;
    } else {
      average := Some(IntSum(values) as real / |values| as real);
    }
  }

  /**
   * The records averaged are the most recent ones: `min(nDays, |dailyData|)` of the records, and
   * any record dated later than one of them is among them too.
   */
  lemma MostRecentIsLatest(dailyData: seq<DailySummaryRecord>, nDays: nat)
    ensures var recent := MostRecent(dailyData, nDays);
      && |recent| == (if nDays < |dailyData| then nDays else |dailyData|)
      && (forall x :: x in recent ==> x in dailyData)
      && (forall x, y :: x in recent && y in dailyData && y.date > x.date ==> y in recent)
  {
    var sorted := SortBy(dailyData, NewestFirst);
    var recent := MostRecent(dailyData, nDays);
    forall x | x in recent
      ensures x in dailyData
    {
      assert x in multiset(sorted);
    }
    forall x, y | x in recent && y in dailyData && y.date > x.date
      ensures y in recent
    {
      var i :| 0 <= i < |recent| && recent[i] == x;
      assert y in multiset(sorted);
      var j :| 0 <= j < |sorted| && sorted[j] == y;
      assert recent[j] == y;
    }
  }

  /** Present values of the field that all lie in `[lo, hi]` average to a value in `[lo, hi]`. */
  lemma AverageLastNDaysBounds(dailyData: seq<DailySummaryRecord>, nDays: nat, field: Field, lo: int, hi: int)
    requires forall i :: 0 <= i < |dailyData| && FieldOf(dailyData[i], field).Some? ==>
      lo <= FieldOf(dailyData[i], field).value <= hi
    ensures var r := AverageLastNDays(dailyData, nDays, field);
      r.Some? ==> lo as real <= r.value <= hi as real
  {
    if dailyData != [] {
      var recent := MostRecent(dailyData, nDays);
      MostRecentIsLatest(dailyData, nDays);
      forall i | 0 <= i < |recent| && FieldOf(recent[i], field).Some?
        ensures lo <= FieldOf(recent[i], field).value <= hi
      {
        assert recent[i] in dailyData;
        var j :| 0 <= j < |dailyData| && dailyData[j] == recent[i];
      }
      PresentBounds(recent, field, lo, hi);
      var values := Present(recent, field);
      if values != [] {
        IntMeanBounds(values, lo as real, hi as real);
      }
    }
  }

  lemma {:induction false} PresentBounds(data: seq<DailySummaryRecord>, field: Field, lo: int, hi: int)
    requires forall i :: 0 <= i < |data| && FieldOf(data[i], field).Some? ==> lo <= FieldOf(data[i], field).value <= hi
    ensures forall i :: 0 <= i < |Present(data, field)| ==> lo as real <= Present(data, field)[i] as real <= hi as real
  {
    if data != [] {
      PresentBounds(data[..|data| - 1], field, lo, hi);
    }
  }

  /** Sorting the later of two records second puts it first. */
  lemma SortNewestTwo(d: DailySummaryRecord, e: DailySummaryRecord)
    requires e.date < d.date
    ensures SortBy([e, d], NewestFirst) == [d, e]
  {
    assert [e, d][1..] == [d];
    assert SortBy([d], NewestFirst) == [d] by {
      assert [d][1..] == [];
      assert SortBy([], NewestFirst) == [];
      assert InsertBy(d, [], NewestFirst) == [d];
    }
    assert InsertBy(e, [], NewestFirst) == [e];
    assert InsertBy(e, [d], NewestFirst) == [d, e] by {
      assert NewestFirst(e) > NewestFirst(d);
      assert [d][1..] == [];
    }
  }

  /**
   * Unlike the other statistics, a reading of zero counts towards these averages: the newer
   * record's 0 bpm is averaged with the older 60 bpm, and alone it gives 0.
   */
  lemma AverageCountsZero(d: DailySummaryRecord, e: DailySummaryRecord)
    requires d.date == 2 && d.restingHr == Some(0) && e.date == 1 && e.restingHr == Some(60)
    ensures AverageLastNDays([e, d], 7, RestingHr) == Some(30.0)
    ensures AverageLastNDays([e, d], 1, RestingHr) == Some(0.0)
  {
    SortNewestTwo(d, e);
    assert MostRecent([e, d], 7) == [d, e];
    assert MostRecent([e, d], 1) == [d] by {
      assert [d, e][..1] == [d];
    }
    PresentPair(d, e);
    MeanPair();
  }

  lemma PresentPair(d: DailySummaryRecord, e: DailySummaryRecord)
    requires d.restingHr == Some(0) && e.restingHr == Some(60)
    ensures Present([d], RestingHr) == [0]
    ensures Present([d, e], RestingHr) == [0, 60]
  {
    assert Present([d], RestingHr) == [0] by {
      assert [d][..0] == [];
      assert Present([], RestingHr) == [];
    }
    assert [d, e][..1] == [d];
  }

  lemma MeanPair()
    ensures IntMean([0, 60]) == 30.0
    ensures IntMean([0]) == 0.0
  {
    assert [0, 60][..1] == [0];
    assert [0][..0] == [];
    assert IntSum([0]) == 0;
    assert IntSum([0, 60]) == 60;
  }

  // ----- insights -----

  /**
   * The RHR rule of `_generate_insights`, only with RHR data: more than 10 bpm above the
   * baseline alerts, more than 5 warns, more than 3 below is positive.
   */
  function RhrInsight(rhrDeviation: real, rhrBaseline: real, hasRhrData: bool): (o: Option<Insight>)
    ensures o.Some? <==> hasRhrData && (rhrDeviation > 5.0 || rhrDeviation < -3.0)
    ensures o.Some? ==> o.value.category == "recovery"
  {
    if hasRhrData && rhrDeviation > 10.0 then Some(SignificantlyElevatedRhr(rhrDeviation, rhrBaseline))
    else if hasRhrData && rhrDeviation > 5.0 then Some(ElevatedRhr(rhrDeviation))
    else if hasRhrData && rhrDeviation < -3.0 then Some(ExcellentRhrRecovery(rhrDeviation))
    else None
  }

  const SIGNIFICANTLY_ELEVATED_RHR_TEMPLATE := "Your resting heart rate is {} bpm above your baseline of {} bpm. This suggests incomplete recovery."

  function SignificantlyElevatedRhr(rhrDeviation: real, rhrBaseline: real): (i: Insight)
    ensures i.title == "Significantly Elevated RHR" && i.severity == Alert && i.category == "recovery"
  {
    Insight("Significantly Elevated RHR",
      Text(SIGNIFICANTLY_ELEVATED_RHR_TEMPLATE,
           [rhrDeviation, rhrBaseline]),
      Alert, "recovery", map["rhr_deviation" := Num(rhrDeviation), "rhr_baseline" := Num(rhrBaseline)],
      ["Consider taking a rest day", "Prioritize sleep quality", "Check for signs of illness or overtraining"])
  }

  const ELEVATED_RHR_TEMPLATE := "Your RHR is {} bpm above baseline. Monitor your recovery carefully."

  function ElevatedRhr(rhrDeviation: real): (i: Insight)
    ensures i.title == "Elevated RHR" && i.severity == Warning && i.category == "recovery"
  {
    Insight("Elevated RHR",
      Text(ELEVATED_RHR_TEMPLATE, [rhrDeviation]),
      Warning, "recovery", map["rhr_deviation" := Num(rhrDeviation)],
      ["Consider reducing training intensity", "Ensure adequate sleep"])
  }

  const EXCELLENT_RHR_RECOVERY_TEMPLATE := "Your RHR is {} bpm below baseline. You're well recovered!"

  function ExcellentRhrRecovery(rhrDeviation: real): (i: Insight)
    ensures i.title == "Excellent RHR Recovery" && i.severity == Positive && i.category == "recovery"
  {
    NewInsight("Excellent RHR Recovery",
      Text(EXCELLENT_RHR_RECOVERY_TEMPLATE, [Abs(rhrDeviation)]),
      Positive, "recovery")
  }

  /** Which RHR insight fires, by the size of the deviation. */
  lemma RhrVerdicts(rhrDeviation: real, rhrBaseline: real)
    ensures var o := RhrInsight(rhrDeviation, rhrBaseline, true);
      && (rhrDeviation > 10.0 ==> o.Some? && o.value.title == "Significantly Elevated RHR" && o.value.severity == Alert)
      && (5.0 < rhrDeviation <= 10.0 ==> o.Some? && o.value.title == "Elevated RHR" && o.value.severity == Warning)
      && (rhrDeviation < -3.0 ==> o.Some? && o.value.title == "Excellent RHR Recovery" && o.value.severity == Positive)
    ensures RhrInsight(rhrDeviation, rhrBaseline, false).None?
  {
  }

  /** The body-battery rule: an average recharge below 30 warns, one of 80 or more is positive. */
  function BodyBatteryInsight(bbAvg: real): (o: Option<Insight>)
    ensures o.Some? <==> bbAvg < 30.0 || bbAvg >= 80.0
    ensures o.Some? ==> o.value.category == "recovery"
    ensures o.Some? ==> o.value.title == (if bbAvg < 30.0 then "Low Overnight Recharge" else "Excellent Recovery")
    ensures o.Some? ==> o.value.severity == (if bbAvg < 30.0 then Warning else Positive)
  {
    if bbAvg < 30.0 then Some(LowOvernightRecharge(bbAvg))
    else if bbAvg >= 80.0 then Some(ExcellentRecovery(bbAvg))
    else None
  }

  const LOW_OVERNIGHT_RECHARGE_TEMPLATE := "Average overnight recharge is only {}%. Your body isn't recovering fully during sleep."

  function LowOvernightRecharge(bbAvg: real): (i: Insight)
    ensures i.title == "Low Overnight Recharge" && i.severity == Warning && i.category == "recovery"
  {
    Insight("Low Overnight Recharge",
      Text(LOW_OVERNIGHT_RECHARGE_TEMPLATE, [bbAvg]),
      Warning, "recovery", map["bb_charged_avg" := Num(bbAvg)],
      ["Improve sleep hygiene", "Reduce evening stress", "Avoid late workouts"])
  }

  const EXCELLENT_RECOVERY_TEMPLATE := "Average overnight recharge of {}% indicates great recovery capacity."

  function ExcellentRecovery(bbAvg: real): (i: Insight)
    ensures i.title == "Excellent Recovery" && i.severity == Positive && i.category == "recovery"
  {
    NewInsight("Excellent Recovery",
      Text(EXCELLENT_RECOVERY_TEMPLATE, [bbAvg]),
      Positive, "recovery")
  }

  /**
   * The ACWR rule: above 1.5 alerts, above 1.3 warns, below 0.8 informs; the optimal zone
   * `[0.8, 1.3]` and a missing ratio give nothing.
   */
  function AcwrInsight(acwr: Option<real>): (o: Option<Insight>)
    ensures o.Some? <==> acwr.Some? && (acwr.value > ACWR_OPTIMAL_MAX || acwr.value < ACWR_UNDERTRAINED)
    ensures o.Some? ==> o.value.category == "recovery"
  {
    if acwr.None? then None
    else if acwr.value > ACWR_CAUTION_MAX then Some(HighInjuryRisk(acwr.value))
    else if acwr.value > ACWR_OPTIMAL_MAX then Some(TrainingLoadCaution(acwr.value))
    else if acwr.value < ACWR_UNDERTRAINED then Some(BelowOptimalLoad(acwr.value))
    else None
  }

  const HIGH_INJURY_RISK_TEMPLATE := "Your ACWR of {} indicates rapid training load increase. This is associated with higher injury risk."

  function HighInjuryRisk(acwr: real): (i: Insight)
    ensures i.title == "High Injury Risk" && i.severity == Alert && i.category == "recovery"
  {
    Insight("High Injury Risk",
      Text(HIGH_INJURY_RISK_TEMPLATE, [acwr]),
      Alert, "recovery", map["acwr" := Num(acwr)],
      ["Reduce training volume by 20-30%", "Focus on recovery activities", "Gradual load progression (10% rule)"])
  }

  const TRAINING_LOAD_CAUTION_TEMPLATE := "ACWR of {} is elevated. Be mindful of recovery between sessions."

  function TrainingLoadCaution(acwr: real): (i: Insight)
    ensures i.title == "Training Load Caution" && i.severity == Warning && i.category == "recovery"
  {
    Insight("Training Load Caution",
      Text(TRAINING_LOAD_CAUTION_TEMPLATE, [acwr]),
      Warning, "recovery", map["acwr" := Num(acwr)], [])
  }

  const BELOW_OPTIMAL_LOAD_TEMPLATE := "ACWR of {} suggests training load may be too low for optimal adaptation."

  function BelowOptimalLoad(acwr: real): (i: Insight)
    ensures i.title == "Training Load Below Optimal" && i.severity == Info && i.category == "recovery"
  {
    Insight("Training Load Below Optimal",
      Text(BELOW_OPTIMAL_LOAD_TEMPLATE, [acwr]),
      Info, "recovery", map["acwr" := Num(acwr)],
      ["Gradually increase training volume", "Add intensity or duration progressively"])
  }

  /** Which ACWR insight fires, by zone. */
  lemma AcwrVerdicts(acwr: real)
    ensures var o := AcwrInsight(Some(acwr));
      && (acwr > 1.5 ==> o.Some? && o.value.title == "High Injury Risk" && o.value.severity == Alert)
      && (1.3 < acwr <= 1.5 ==> o.Some? && o.value.title == "Training Load Caution" && o.value.severity == Warning)
      && (acwr < 0.8 ==> o.Some? && o.value.title == "Training Load Below Optimal" && o.value.severity == Info)
  {
  }

  /**
   * `_generate_insights`: the RHR, body-battery and ACWR rules in order, each contributing at
   * most one insight; the recovery score it is also given plays no part.
   */
  function RecoveryInsights(rhrDeviation: real, rhrBaseline: real, bbAvg: real, acwr: Option<real>,
                            recoveryScore: int, hasRhrData: bool): seq<Insight>
  {
    Fired(RhrInsight(rhrDeviation, rhrBaseline, hasRhrData)) + Fired(BodyBatteryInsight(bbAvg))
    + Fired(AcwrInsight(acwr))
  }

  method GenerateInsights(rhrDeviation: real, rhrBaseline: real, bbAvg: real, acwr: Option<real>,
                          recoveryScore: int, hasRhrData: bool) returns (insights: seq<Insight>)
    ensures insights == RecoveryInsights(rhrDeviation, rhrBaseline, bbAvg, acwr, recoveryScore, hasRhrData)
  {
    insights := [];
    insights := AppendFired(insights, RhrInsight(rhrDeviation, rhrBaseline, hasRhrData));
    insights := AppendFired(insights, BodyBatteryInsight(bbAvg));
    insights := AppendFired(insights, AcwrInsight(acwr));
  }

  /**
   * At most three insights, all of the recovery category, with each rule's insight present
   * exactly when its rule fires.
   */
  lemma RecoveryInsightsShape(rhrDeviation: real, rhrBaseline: real, bbAvg: real, acwr: Option<real>,
                              recoveryScore: int, hasRhrData: bool)
    ensures var ins := RecoveryInsights(rhrDeviation, rhrBaseline, bbAvg, acwr, recoveryScore, hasRhrData);
      && |ins| <= 3
      && OfCategory(ins, "recovery")
      && Titles(ins) == FiredTitle(RhrInsight(rhrDeviation, rhrBaseline, hasRhrData))
                        + FiredTitle(BodyBatteryInsight(bbAvg)) + FiredTitle(AcwrInsight(acwr))
  {
    var o1, o2, o3 := RhrInsight(rhrDeviation, rhrBaseline, hasRhrData), BodyBatteryInsight(bbAvg), AcwrInsight(acwr);
    FiredCategory(o1, "recovery");
    FiredCategory(o2, "recovery");
    FiredCategory(o3, "recovery");
    OfCategoryConcat(Fired(o1), Fired(o2), "recovery");
    OfCategoryConcat(Fired(o1) + Fired(o2), Fired(o3), "recovery");
    TitlesConcat(Fired(o1) + Fired(o2), Fired(o3));
    TitlesConcat(Fired(o1), Fired(o2));
    FiredTitles(o1);
    FiredTitles(o2);
    FiredTitles(o3);
  }

  // ----- the analysis -----

  /** The activities that started on a day of the period. */
  function PeriodActivities(activities: seq<ActivityRecord>, startDate: int, endDate: int): (r: seq<ActivityRecord>)
    ensures forall a :: a in r <==> a in activities && startDate <= Day(a.startTime) <= endDate
    ensures forall a :: multiset(r)[a] == if startDate <= Day(a.startTime) <= endDate then multiset(activities)[a] else 0
    ensures IsSubsequence(r, activities)
  {
    var inPeriod := (a: ActivityRecord) => startDate <= Day(a.startTime) <= endDate;
    FilterMultisets(activities, inPeriod);
    FilterSubsequence(activities, inPeriod);
    Filter(activities, inPeriod)
  }

  /** `[a.training_load for a in activities if a.training_load is not None]`. */
  function KnownLoads(activities: seq<ActivityRecord>): (r: seq<real>)
    ensures |r| <= |activities|
    ensures r == Map(Filter(activities, HasKnownLoad), LoadOrZero)
  {
    if activities == [] then []
    else
      var init := activities[..|activities| - 1];
      var a := activities[|activities| - 1];
      MapSnoc(Filter(init, HasKnownLoad), a, LoadOrZero);
      KnownLoads(init) + (if a.trainingLoad.Some? then [a.trainingLoad.value] else [])
  }

  predicate HasKnownLoad(a: ActivityRecord)
  {
    a.trainingLoad.Some?
  }

  /** `[s.sleep_score for s in sleep_data if start_date <= s.date <= end_date and s.sleep_score]`. */
  function SleepScores(sleepData: seq<SleepRecord>, startDate: int, endDate: int): (r: seq<int>)
    ensures |r| <= |sleepData|
    ensures r == Map(Filter(sleepData, ScoredWithin(startDate, endDate)), ScoreOf)
  {
    if sleepData == [] then []
    else
      var init := sleepData[..|sleepData| - 1];
      var s := sleepData[|sleepData| - 1];
      MapSnoc(Filter(init, ScoredWithin(startDate, endDate)), s, ScoreOf);
      SleepScores(init, startDate, endDate)
        + (if startDate <= s.date <= endDate && Truthy(s.sleepScore) then [s.sleepScore.value] else [])
  }

  /** A night of the period with a truthy sleep score, as a selection predicate. */
  function ScoredWithin(startDate: int, endDate: int): SleepRecord -> bool
  {
    (s: SleepRecord) => startDate <= s.date <= endDate && Truthy(s.sleepScore)
  }

  /** `s.sleep_score`, read where it is present. */
  function ScoreOf(s: SleepRecord): int
  {
    s.sleepScore.GetOr(0)
  }

  /** `rhr_current - rhr_baseline` when there is RHR data and a non-zero baseline, else 0.0. */
  function RhrDeviation(rhrCurrent: Option<real>, rhrBaseline: real): real
  {
    if rhrCurrent.Some? && rhrBaseline != 0.0 then rhrCurrent.value - rhrBaseline else 0.0
  }

  /** The mean overnight recharge, or 50 without readings. */
  function BbAverage(bbValues: seq<int>): real
  {
    if bbValues == [] then 50.0 else IntMean(bbValues)
  }

  /** The recovery score of the period, or the neutral 50 when there is neither RHR, body-battery nor sleep data. */
  function PeriodScore(rhrDeviation: real, bbAvg: real, avgSleepScore: Option<real>,
                       hasRhrData: bool, hasBbData: bool, hasSleepData: bool): (score: int)
  {
    if hasRhrData || hasBbData || hasSleepData then RecoveryScore(rhrDeviation, Trunc(bbAvg), avgSleepScore, hasRhrData)
    else 50
  }

  predicate HighRecoveryDay(d: DailySummaryRecord)
  {
    Truthy(d.bbCharged) && d.bbCharged.value >= 80
  }

  predicate LowRecoveryDay(d: DailySummaryRecord)
  {
    Truthy(d.bbCharged) && d.bbCharged.value < 50
  }

  /** `min(values) if values else None`. */
  function Minimum(values: seq<int>): Option<real>
  {
    if values == [] then None else Some(SeqMin(Reals(values)))
  }

  /** `max(values) if values else None`. */
  function Maximum(values: seq<int>): Option<real>
  {
    if values == [] then None else Some(SeqMax(Reals(values)))
  }

  function RhrSummary(rhrValues: seq<int>, rhrDeviation: real, average7d: Option<real>, average30d: Option<real>)
    : MetricSummary
  {
    MetricSummary("Resting Heart Rate", OptionalMean(rhrValues).GetOr(0.0), "bpm", average7d, average30d,
      Minimum(rhrValues), Maximum(rhrValues), if rhrValues != [] then RhrTrend(rhrDeviation) else Stable, None)
  }

  function BbSummary(bbValues: seq<int>, average7d: Option<real>, average30d: Option<real>): MetricSummary
  {
    MetricSummary("Body Battery Recharge", BbAverage(bbValues), "%", average7d, average30d,
      Minimum(bbValues), Maximum(bbValues), Stable, None)
  }

  /** The weekly training load reported as its own seven-day average. */
  function TssSummary(weeklyTss: real): MetricSummary
  {
    MetricSummary("Training Load", weeklyTss, "TSS", Some(weeklyTss), None, None, None, Stable, None)
  }

  /** The per-period values `analyze` derives from the fetched records. */
  datatype PeriodFigures = PeriodFigures(
    periodDaily: seq<DailySummaryRecord>,
    rhrBaseline: real,
    rhrValues: seq<int>,
    rhrDeviation: real,
    bbValues: seq<int>,
    bbAvg: real,
    weeklyTss: real,
    acwr: Option<real>,
    recoveryScore: int)

  function Figures(startDate: int, endDate: int, dailyData: seq<DailySummaryRecord>,
                   activities: seq<ActivityRecord>, sleepData: seq<SleepRecord>): PeriodFigures
  {
    var periodDaily := DatedWithin(dailyData, startDate, endDate);
    var rhrBaseline := RhrBaseline(dailyData, endDate);
    var rhrValues := Readings(periodDaily, RestingHr);
    var rhrDeviation := RhrDeviation(OptionalMean(rhrValues), rhrBaseline);
    var bbValues := Readings(periodDaily, BbCharged);
    var bbAvg := BbAverage(bbValues);
    var sleepScores := SleepScores(sleepData, startDate, endDate);
    PeriodFigures(periodDaily, rhrBaseline, rhrValues, rhrDeviation, bbValues, bbAvg,
      Sum(KnownLoads(PeriodActivities(activities, startDate, endDate))), AcuteChronicRatio(activities, endDate),
      PeriodScore(rhrDeviation, bbAvg, OptionalMean(sleepScores), rhrValues != [], bbValues != [], sleepScores != []))
  }

  /** The result of `analyze` from its figures and the four recent-day averages. */
  function AnalysisResult(startDate: int, endDate: int, dailyData: seq<DailySummaryRecord>, f: PeriodFigures,
                          rhr7d: Option<real>, rhr30d: Option<real>, bb7d: Option<real>, bb30d: Option<real>)
    : RecoveryAnalysisResult
  {
    RecoveryAnalysisResult(startDate, endDate, f.recoveryScore, RecoveryTrend(dailyData, startDate, endDate),
      RhrSummary(f.rhrValues, f.rhrDeviation, rhr7d, rhr30d), BbSummary(f.bbValues, bb7d, bb30d),
      TssSummary(f.weeklyTss), f.rhrBaseline, f.rhrDeviation, f.weeklyTss, f.acwr,
      RecoveryInsights(f.rhrDeviation, f.rhrBaseline, f.bbAvg, f.acwr, f.recoveryScore, f.rhrValues != []),
      |f.periodDaily|, Count(f.periodDaily, HighRecoveryDay), Count(f.periodDaily, LowRecoveryDay))
  }

  /**
   * `analyze` on the records the repository returned for `[startDate - 60, endDate]`: the daily
   * summaries, the activities and the nights of sleep.
   */
  function RecoveryAnalysis(startDate: int, endDate: int, dailyData: seq<DailySummaryRecord>,
                            activities: seq<ActivityRecord>, sleepData: seq<SleepRecord>): RecoveryAnalysisResult
  {
    AnalysisResult(startDate, endDate, dailyData, Figures(startDate, endDate, dailyData, activities, sleepData),
      AverageLastNDays(dailyData, 7, RestingHr), AverageLastNDays(dailyData, 30, RestingHr),
      AverageLastNDays(dailyData, 7, BbCharged), AverageLastNDays(dailyData, 30, BbCharged))
  }

  /** `RecoveryAnalyzer.analyze`; the three repository queries are replaced by their results. */
  method Analyze(startDate: int, endDate: int, dailyData: seq<DailySummaryRecord>,
                 activities: seq<ActivityRecord>, sleepData: seq<SleepRecord>)
    returns (result: RecoveryAnalysisResult)
    ensures result == RecoveryAnalysis(startDate, endDate, dailyData, activities, sleepData)
  {
    var figures := Figures(startDate, endDate, dailyData, activities, sleepData);
    var rhr7d := AvgLastNDays(dailyData, 7, RestingHr);
    var rhr30d := AvgLastNDays(dailyData, 30, RestingHr);
    var bb7d := AvgLastNDays(dailyData, 7, BbCharged);
    var bb30d := AvgLastNDays(dailyData, 30, BbCharged);
    var insights := GenerateInsights(figures.rhrDeviation, figures.rhrBaseline, figures.bbAvg, figures.acwr,
                                     figures.recoveryScore, figures.rhrValues != []);
    result := RecoveryAnalysisResult(startDate, endDate, figures.recoveryScore,
      RecoveryTrend(dailyData, startDate, endDate),
      RhrSummary(figures.rhrValues, figures.rhrDeviation, rhr7d, rhr30d), BbSummary(figures.bbValues, bb7d, bb30d),
      TssSummary(figures.weeklyTss), figures.rhrBaseline, figures.rhrDeviation, figures.weeklyTss, figures.acwr,
      insights, |figures.periodDaily|, Count(figures.periodDaily, HighRecoveryDay),
      Count(figures.periodDaily, LowRecoveryDay));
  }


  /** The overall figures stay in range whatever the records hold. */
  lemma AnalysisBounds(startDate: int, endDate: int, dailyData: seq<DailySummaryRecord>,
                       activities: seq<ActivityRecord>, sleepData: seq<SleepRecord>)
    ensures var r := RecoveryAnalysis(startDate, endDate, dailyData, activities, sleepData);
      && r.periodStart == startDate && r.periodEnd == endDate
      && 0 <= r.recoveryScore <= 100
      && r.daysAnalyzed <= |dailyData|
      && r.highRecoveryDays + r.lowRecoveryDays <= r.daysAnalyzed
      && |r.insights| <= 3 && OfCategory(r.insights, "recovery")
      && (NonNegativeLoads(activities) && r.acuteChronicRatio.Some? ==>
            0.0 <= r.acuteChronicRatio.value <= 4.0)
  {
    var f := Figures(startDate, endDate, dailyData, activities, sleepData);
    CountDisjoint(f.periodDaily, HighRecoveryDay, LowRecoveryDay);
    RecoveryInsightsShape(f.rhrDeviation, f.rhrBaseline, f.bbAvg, f.acwr, f.recoveryScore, f.rhrValues != []);
    if NonNegativeLoads(activities) {
      AcwrBounds(activities, endDate);
    }
  }

  /**
   * A period without RHR, body-battery or sleep readings scores the neutral 50, shows no deviation,
   * a stable RHR trend and the default recharge of 50, and only the ACWR rule can raise an insight.
   */
  lemma AnalysisWithoutReadings(startDate: int, endDate: int, dailyData: seq<DailySummaryRecord>,
                                activities: seq<ActivityRecord>, sleepData: seq<SleepRecord>)
    requires Readings(DatedWithin(dailyData, startDate, endDate), RestingHr) == []
    requires Readings(DatedWithin(dailyData, startDate, endDate), BbCharged) == []
    requires SleepScores(sleepData, startDate, endDate) == []
    ensures var r := RecoveryAnalysis(startDate, endDate, dailyData, activities, sleepData);
      && r.recoveryScore == 50
      && r.rhrDeviation == 0.0
      && r.rhrSummary.currentValue == 0.0 && r.rhrSummary.trend == Stable
      && r.rhrSummary.minValue.None? && r.rhrSummary.maxValue.None?
      && r.bodyBatterySummary.currentValue == 50.0
      && r.insights == Fired(AcwrInsight(r.acuteChronicRatio))
  {
  }

  /** With RHR readings in the period and a baseline, the deviation is their mean minus the baseline. */
  lemma AnalysisDeviation(startDate: int, endDate: int, dailyData: seq<DailySummaryRecord>,
                          activities: seq<ActivityRecord>, sleepData: seq<SleepRecord>)
    ensures var r := RecoveryAnalysis(startDate, endDate, dailyData, activities, sleepData);
      var rhrValues := Readings(DatedWithin(dailyData, startDate, endDate), RestingHr);
      && r.rhrBaseline == RhrBaseline(dailyData, endDate)
      && (if rhrValues != [] && r.rhrBaseline != 0.0 then r.rhrDeviation == IntMean(rhrValues) - r.rhrBaseline
          else r.rhrDeviation == 0.0)
      && (rhrValues != [] ==>
            && r.rhrSummary.trend == RhrTrend(r.rhrDeviation)
            && r.rhrSummary.minValue.Some? && r.rhrSummary.minValue.value <= r.rhrSummary.currentValue
            && r.rhrSummary.maxValue.Some? && r.rhrSummary.currentValue <= r.rhrSummary.maxValue.value)
  {
    var f := Figures(startDate, endDate, dailyData, activities, sleepData);
    if f.rhrValues != [] {
      RhrSummaryShape(f.rhrValues, f.rhrDeviation, AverageLastNDays(dailyData, 7, RestingHr),
        AverageLastNDays(dailyData, 30, RestingHr));
    }
  }

  /** With readings, the RHR summary follows the deviation's trend and its mean lies between its extremes. */
  lemma RhrSummaryShape(rhrValues: seq<int>, rhrDeviation: real, average7d: Option<real>, average30d: Option<real>)
    requires rhrValues != []
    ensures var m := RhrSummary(rhrValues, rhrDeviation, average7d, average30d);
      && m.trend == RhrTrend(rhrDeviation)
      && m.minValue.Some? && m.minValue.value <= m.currentValue
      && m.maxValue.Some? && m.currentValue <= m.maxValue.value
  {
    IntMeanBounds(rhrValues, SeqMin(Reals(rhrValues)), SeqMax(Reals(rhrValues)));
  }


  // ----- daily readiness -----

  /** `next((d for d in daily_data if d.date == target_date), None)`. */
  function TodayRecord(dailyData: seq<DailySummaryRecord>, targetDate: int): (r: Option<DailySummaryRecord>)
    ensures r.Some? ==> r.value in dailyData && r.value.date == targetDate
    ensures r.None? <==> forall i :: 0 <= i < |dailyData| ==> dailyData[i].date != targetDate
    ensures r.Some? ==>
      exists k :: 0 <= k < |dailyData| && dailyData[k] == r.value && forall j :: 0 <= j < k ==> dailyData[j].date != targetDate
  {
    FirstWhere(dailyData, (d: DailySummaryRecord) => d.date == targetDate)
  }

  /** The night of sleep recorded under the target date. */
  function NightOf(sleepData: seq<SleepRecord>, targetDate: int): (r: Option<SleepRecord>)
    ensures r.Some? ==> r.value in sleepData && r.value.date == targetDate
    ensures r.None? <==> forall i :: 0 <= i < |sleepData| ==> sleepData[i].date != targetDate
    ensures r.Some? ==>
      exists k :: 0 <= k < |sleepData| && sleepData[k] == r.value && forall j :: 0 <= j < k ==> sleepData[j].date != targetDate
  {
    FirstWhere(sleepData, (s: SleepRecord) => s.date == targetDate)
  }

  /** `1 - |deviation| / 20` clamped to `[0, 1]` with a baseline and a reading; 0.5 otherwise. */
  function RhrFactor(rhrBaseline: real, currentRhr: Option<int>): (f: real)
    ensures 0.0 <= f <= 1.0
    ensures !(rhrBaseline != 0.0 && Truthy(currentRhr)) ==> f == 0.5
    ensures rhrBaseline != 0.0 && Truthy(currentRhr) ==>
      (f == 1.0 <==> currentRhr.value as real == rhrBaseline)
      && (f == 0.0 <==> Abs(currentRhr.value as real - rhrBaseline) >= 20.0)
  {
    if rhrBaseline != 0.0 && Truthy(currentRhr) then
      Clamp(1.0 - Abs(currentRhr.value as real - rhrBaseline) / 20.0, 0.0, 1.0)
    else 0.5
  }

  /** Today's overnight recharge as a fraction, else today's peak body battery, else 0.5. */
  function BbFactor(today: Option<DailySummaryRecord>): (f: real)
    ensures today.Some? && Truthy(today.value.bbCharged) ==> f == today.value.bbCharged.value as real / 100.0
    ensures today.Some? && !Truthy(today.value.bbCharged) && Truthy(today.value.bbMax) ==>
      f == today.value.bbMax.value as real / 100.0
    ensures (today.None? || (!Truthy(today.value.bbCharged) && !Truthy(today.value.bbMax))) ==> f == 0.5
  {
    if today.Some? && Truthy(today.value.bbCharged) then today.value.bbCharged.value as real / 100.0
    else if today.Some? && Truthy(today.value.bbMax) then today.value.bbMax.value as real / 100.0
    else 0.5
  }

  /** The night's sleep score as a fraction, else 0.7. */
  function SleepFactor(night: Option<SleepRecord>): (f: real)
    ensures night.Some? && Truthy(night.value.sleepScore) ==> f == night.value.sleepScore.value as real / 100.0
    ensures !(night.Some? && Truthy(night.value.sleepScore)) ==> f == 0.7
  {
    if night.Some? && Truthy(night.value.sleepScore) then night.value.sleepScore.value as real / 100.0
    else 0.7
  }

  /** An activity with a present, non-zero training load, started on day `first` or later. */
  predicate LoadedSince(a: ActivityRecord, first: int)
  {
    TruthyReal(a.trainingLoad) && Day(a.startTime) >= first
  }

  /** The non-zero training loads of activities started on or after the day three days before the target. */
  function RecentLoads(activities: seq<ActivityRecord>, targetDate: int): (r: seq<real>)
    ensures |r| <= |activities|
    ensures forall i :: 0 <= i < |r| ==> r[i] != 0.0
    ensures forall a :: a in activities && LoadedSince(a, targetDate - 3) ==> a.trainingLoad.value in r
    ensures forall x :: x in r ==> exists a :: a in activities && LoadedSince(a, targetDate - 3) && x == a.trainingLoad.value
  {
    if activities == [] then []
    else
      var a := activities[|activities| - 1];
      RecentLoads(activities[..|activities| - 1], targetDate)
        + (if LoadedSince(a, targetDate - 3) then [a.trainingLoad.value] else [])
  }

  /** `LoadedSince` for a fixed first day, as a selection predicate. */
  function LoadedSinceOf(first: int): ActivityRecord -> bool
  {
    a => LoadedSince(a, first)
  }

  /**
   * The recent loads are those of exactly the loaded activities from three days before the target
   * on, each activity once, in order: two activities of equal load both contribute.
   */
  lemma {:induction false} RecentLoadsSelects(activities: seq<ActivityRecord>, targetDate: int)
    ensures RecentLoads(activities, targetDate) == Map(Filter(activities, LoadedSinceOf(targetDate - 3)), LoadOrZero)
  {
    if activities != [] {
      var init := activities[..|activities| - 1];
      RecentLoadsSelects(init, targetDate);
      MapSnoc(Filter(init, LoadedSinceOf(targetDate - 3)), activities[|activities| - 1], LoadOrZero);
    }
  }

  /** `1 - recent_tss / 300` clamped to `[0, 1]`: no recent load is full freshness, 300 or more none. */
  function ActivityFactor(recentTss: real): (f: real)
    ensures 0.0 <= f <= 1.0
    ensures recentTss <= 0.0 ==> f == 1.0
    ensures recentTss >= 300.0 ==> f == 0.0
    ensures 0.0 <= recentTss <= 300.0 ==> f == 1.0 - recentTss / 300.0
  {
    Clamp(1.0 - recentTss / 300.0, 0.0, 1.0)
  }

  /** A heavier recent load never leaves more freshness. */
  lemma ActivityFactorMonotone(tss1: real, tss2: real)
    requires tss1 <= tss2
    ensures ActivityFactor(tss2) <= ActivityFactor(tss1)
  {
  }

  /** `int((rhr_factor * 0.3 + bb_factor * 0.4 + sleep_factor * 0.3) * 100)`. */
  function ReadinessRecoveryScore(rhrFactor: real, bbFactor: real, sleepFactor: real): (score: int)
    ensures 0.0 <= rhrFactor <= 1.0 && 0.0 <= bbFactor <= 1.0 && 0.0 <= sleepFactor <= 1.0 ==> 0 <= score <= 100
  {
    Trunc((rhrFactor * 0.3 + bbFactor * 0.4 + sleepFactor * 0.3) * 100.0)
  }

  /** `int(recovery_score * 0.6 + activity_factor * 100 * 0.4)`. */
  function ReadinessScore(recoveryScore: int, activityFactor: real): (score: int)
    ensures 0 <= recoveryScore <= 100 && 0.0 <= activityFactor <= 1.0 ==> 0 <= score <= 100
  {
    Trunc(recoveryScore as real * 0.6 + activityFactor * 100.0 * 0.4)
  }

  /** Readiness grows with recovery and with freshness. */
  lemma ReadinessScoreMonotone(recovery1: int, recovery2: int, factor1: real, factor2: real)
    requires recovery1 <= recovery2 && factor1 <= factor2
    ensures ReadinessScore(recovery1, factor1) <= ReadinessScore(recovery2, factor2)
  {
    TruncMonotone(recovery1 as real * 0.6 + factor1 * 100.0 * 0.4, recovery2 as real * 0.6 + factor2 * 100.0 * 0.4);
  }

  /** The recommended intensity band of a readiness score. */
  function RecommendedIntensity(readinessScore: int): (s: string)
    ensures s == "intense" <==> readinessScore >= 80
    ensures s == "moderate" <==> 60 <= readinessScore < 80
    ensures s == "light" <==> 40 <= readinessScore < 60
    ensures s == "rest" <==> readinessScore < 40
  {
    if readinessScore >= 80 then "intense"
    else if readinessScore >= 60 then "moderate"
    else if readinessScore >= 40 then "light"
    else "rest"
  }

  /** One minus today's average stress as a fraction, or 0.7 without a reading. */
  function StressFactor(today: Option<DailySummaryRecord>): (f: real)
    ensures today.Some? && Truthy(today.value.stressAvg) ==> f == 1.0 - today.value.stressAvg.value as real / 100.0
    ensures !(today.Some? && Truthy(today.value.stressAvg)) ==> f == 0.7
  {
    1.0 - (if today.Some? && Truthy(today.value.stressAvg) then today.value.stressAvg.value as real / 100.0 else 0.3)
  }

  /**
   * `daily_readiness` on the records the repository returned: daily summaries of the 60 days up
   * to the target, the nights since the day before and the activities of the last 28 days.
   */
  function DailyReadiness(targetDate: int, dailyData: seq<DailySummaryRecord>, sleepData: seq<SleepRecord>,
                          activities: seq<ActivityRecord>): DailyReadinessResult
  {
    var today := TodayRecord(dailyData, targetDate);
    var rhrFactor := RhrFactor(RhrBaseline(dailyData, targetDate), if today.Some? then today.value.restingHr else None);
    var activityFactor := ActivityFactor(Sum(RecentLoads(activities, targetDate)));
    var sleepFactor := SleepFactor(NightOf(sleepData, targetDate));
    var recoveryScore := ReadinessRecoveryScore(rhrFactor, BbFactor(today), sleepFactor);
    var readinessScore := ReadinessScore(recoveryScore, activityFactor);
    DailyReadinessResult(targetDate, recoveryScore, readinessScore, sleepFactor, StressFactor(today), activityFactor,
      RecommendedIntensity(readinessScore), if today.Some? then today.value.bbMax else None)
  }

  predicate WithinPercent(o: Option<int>)
  {
    o.Some? ==> 0 <= o.value <= 100
  }

  /**
   * With body-battery and sleep readings on the 0-100 scale, both scores lie in `[0, 100]` and the
   * recommendation follows the readiness band; every factor lies in `[0, 1]`.
   */
  lemma DailyReadinessBounds(targetDate: int, dailyData: seq<DailySummaryRecord>, sleepData: seq<SleepRecord>,
                             activities: seq<ActivityRecord>)
    requires forall i :: 0 <= i < |dailyData| ==> WithinPercent(dailyData[i].bbCharged) && WithinPercent(dailyData[i].bbMax)
    requires forall i :: 0 <= i < |sleepData| ==> WithinPercent(sleepData[i].sleepScore)
    ensures var r := DailyReadiness(targetDate, dailyData, sleepData, activities);
      && r.analysisDate == targetDate
      && 0 <= r.recoveryScore <= 100 && 0 <= r.readinessScore <= 100
      && 0.0 <= r.sleepFactor <= 1.0 && 0.0 <= r.activityFactor <= 1.0
      && (r.recommendedIntensity == "intense" <==> r.readinessScore >= 80)
      && (r.recommendedIntensity == "rest" <==> r.readinessScore < 40)
  {
    var today := TodayRecord(dailyData, targetDate);
    var night := NightOf(sleepData, targetDate);
    var f := BbFactor(today);
    assert 0.0 <= f <= 1.0 by {
      if today.Some? {
        var k :| 0 <= k < |dailyData| && dailyData[k] == today.value;
      }
    }
    assert 0.0 <= SleepFactor(night) <= 1.0 by {
      if night.Some? {
        var k :| 0 <= k < |sleepData| && sleepData[k] == night.value;
      }
    }
  }

  /**
   * A day with no records anywhere: the neutral factors 0.5, 0.5 and 0.7 give a recovery score of
   * 56 in exact arithmetic (in doubles the sum is 55.99999999999999, truncated to 55), full
   * freshness lifts readiness to 73, a moderate day.
   */
  lemma DailyReadinessWithoutData(targetDate: int)
    ensures var r := DailyReadiness(targetDate, [], [], []);
      && r.recoveryScore == 56 && r.readinessScore == 73 && r.recommendedIntensity == "moderate"
      && r.sleepFactor == 0.7 && r.stressFactor == 0.7 && r.activityFactor == 1.0 && r.bodyBatteryMorning.None?
  {
  }

  /** A heavier recent training load never raises the readiness score. */
  lemma ReadinessFallsWithLoad(recoveryScore: int, tss1: real, tss2: real)
    requires tss1 <= tss2
    ensures ReadinessScore(recoveryScore, ActivityFactor(tss2)) <= ReadinessScore(recoveryScore, ActivityFactor(tss1))
  {
    ActivityFactorMonotone(tss1, tss2);
    ReadinessScoreMonotone(recoveryScore, recoveryScore, ActivityFactor(tss2), ActivityFactor(tss1));
  }
}
