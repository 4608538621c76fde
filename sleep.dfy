/**
 * The sleep engine (`SleepAnalyzer`): summaries of total, deep and REM sleep over the nights of a
 * period, the two-week trend rule, a consistency score from the spread of the nightly totals,
 * the best and worst weekday, and the duration, deep, REM and trend insight rules.
 */
module SleepAnalyzer {
  import opened Wrappers
  import opened Numeric
  import opened Seqs
  import opened Calendar
  import opened Records
  import opened AnalysisModels

  const RECOMMENDED_SLEEP_MIN: real := 7.0
  const RECOMMENDED_SLEEP_MAX: real := 9.0
  const RECOMMENDED_DEEP_PERCENT: real := 15.0
  const RECOMMENDED_REM_PERCENT: real := 20.0

  /** The three nightly measures a summary is computed over. */
  datatype SleepField = TotalHours | DeepPercent | RemPercent

  function FieldOf(r: SleepRecord, field: SleepField): real
  {
    match field
    case TotalHours => r.totalHours
    case DeepPercent => r.deepSleepPercent
    case RemPercent => r.remSleepPercent
  }

  /** `[r.<field> for r in sleep_data]`. */
  function Values(data: seq<SleepRecord>, field: SleepField): (r: seq<real>)
    ensures |r| == |data|
    ensures forall i :: 0 <= i < |data| ==> r[i] == FieldOf(data[i], field)
  {
    if data == [] then [] else Values(data[..|data| - 1], field) + [FieldOf(data[|data| - 1], field)]
  }

  // ----- metric summaries -----

  /**
   * The change rule shared by the trend: the percentage change of `recent` against `previous`
   * beyond 5% either way; a previous value of zero counts as no change.
   */
  function ChangeTrend(recent: real, previous: real): TrendDirection
  {
    var changePct := if previous != 0.0 then (recent - previous) / previous * 100.0 else 0.0;
    if changePct > 5.0 then Improving
    else if changePct < -5.0 then Declining
    else Stable
  }

  /** The trend of a series: the mean of its last 7 values against the 7 before, given 14 values. */
  function SleepTrend(values: seq<real>): (t: TrendDirection)
    ensures |values| < 14 ==> t == Stable
  {
    if |values| < 14 then Stable
    else ChangeTrend(Mean(values[|values| - 7..]), Mean(values[|values| - 14..|values| - 7]))
  }

  lemma QuotientAbove(x: real, p: real, c: real)
    requires p > 0.0
    ensures x / p * 100.0 > c <==> x * 100.0 > c * p
  {
    var q := x / p;
    assert q * p == x;
    if q * 100.0 > c {
      MulPositive(q * 100.0 - c, p);
    } else if x * 100.0 > c * p {
      assert (q * 100.0 - c) * p == x * 100.0 - c * p;
      SignOfProduct(q * 100.0 - c, p);
    }
  }

  lemma QuotientBelow(x: real, p: real, c: real)
    requires p > 0.0
    ensures x / p * 100.0 < c <==> x * 100.0 < c * p
  {
    QuotientAbove(-x, p, -c);
    assert -x / p == -(x / p);
  }

  /**
   * With a positive previous mean the trend improves exactly when the recent mean is more than
   * 5% above it, and declines exactly when it is more than 5% below it.
   */
  lemma ChangeTrendCases(recent: real, previous: real)
    requires previous > 0.0
    ensures ChangeTrend(recent, previous) == Improving <==> recent > previous * 1.05
    ensures ChangeTrend(recent, previous) == Declining <==> recent < previous * 0.95
  {
    QuotientAbove(recent - previous, previous, 5.0);
    QuotientBelow(recent - previous, previous, -5.0);
  }

  /** A previous mean of zero never gives a direction. */
  lemma ChangeTrendFromZero(recent: real)
    ensures ChangeTrend(recent, 0.0) == Stable
  {
  }

  /** A series holding one value throughout is stable. */
  lemma ConstantSeriesStable(values: seq<real>, c: real)
    requires forall i :: 0 <= i < |values| ==> values[i] == c
    ensures SleepTrend(values) == Stable
  {
    if |values| >= 14 {
      var recent, previous := values[|values| - 7..], values[|values| - 14..|values| - 7];
      assert forall i :: 0 <= i < |recent| ==> recent[i] == values[|values| - 7 + i];
      assert forall i :: 0 <= i < |previous| ==> previous[i] == values[|values| - 14 + i];
      MeanConstant(recent, c);
      MeanConstant(previous, c);
    }
  }

  /**
   * `_calc_metric_summary`: without values only the name and unit, with a current value of 0;
   * otherwise the last value, the mean of the last 7 (of all values when there are fewer), the
   * overall mean, the extremes and the trend.
   */
  function MetricSummaryOf(name: string, values: seq<real>, unit: string): (m: MetricSummary)
    ensures m.name == name && m.unit == unit && m.percentChange.None?
    ensures values == [] ==> m == NewMetricSummary(name, 0.0, unit)
    ensures values != [] ==>
      && m.currentValue == values[|values| - 1]
      && m.minValue.Some? && m.maxValue.Some? && m.average7d.Some? && m.average30d.Some?
      && m.minValue.value in values && m.maxValue.value in values
      && (forall i :: 0 <= i < |values| ==> m.minValue.value <= values[i] <= m.maxValue.value)
      && m.minValue.value <= m.average7d.value <= m.maxValue.value
      && m.minValue.value <= m.average30d.value <= m.maxValue.value
      && (|values| < 7 ==> m.average7d == m.average30d)
      && m.trend == SleepTrend(values)
  {
    if values == [] then NewMetricSummary(name, 0.0, unit)
    else
      var lo, hi := SeqMin(values), SeqMax(values);
      var avgAll := Mean(values);
      MeanBounds(values, lo, hi);
      var avg7d := if |values| >= 7 then Mean(values[|values| - 7..]) else avgAll;
      assert lo <= avg7d <= hi by {
        if |values| >= 7 {
          var last := values[|values| - 7..];
          assert forall i :: 0 <= i < |last| ==> last[i] == values[|values| - 7 + i];
          MeanBounds(last, lo, hi);
        }
      }
      MetricSummary(name, values[|values| - 1], unit, Some(avg7d), Some(avgAll), Some(lo), Some(hi),
        SleepTrend(values), None)
  }

  /** The mean of the last 7 values is what the summary reports once there are 7. */
  lemma SummaryWeeklyAverage(name: string, values: seq<real>, unit: string)
    requires |values| >= 7
    ensures MetricSummaryOf(name, values, unit).average7d == Some(Mean(LastN(values, 7)))
    ensures MetricSummaryOf(name, values, unit).average30d == Some(Mean(values))
  {
  }

  /** One value repeated: every statistic of the summary is that value and the trend is stable. */
  lemma SummaryOfConstant(name: string, values: seq<real>, unit: string, c: real)
    requires values != []
    requires forall i :: 0 <= i < |values| ==> values[i] == c
    ensures var m := MetricSummaryOf(name, values, unit);
      && m.currentValue == c && m.average7d == Some(c) && m.average30d == Some(c)
      && m.minValue == Some(c) && m.maxValue == Some(c) && m.trend == Stable
  {
    ConstantSeriesStable(values, c);
  }

  // ----- consistency -----

  /**
   * `_calc_consistency`: 50 below three nights, otherwise 100 less 25 points per hour of sample
   * standard deviation of the nightly totals, never below 0.
   */
  function Consistency(data: seq<SleepRecord>, sqrt: real -> real): real
  {
    if |data| < 3 then 50.0
    else Max(0.0, 100.0 - sqrt(SampleVariance(Values(data, TotalHours))) * 25.0)
  }

  /**
   * The score lies in `[0, 100]`; from three nights on it is 100 exactly when every night has the
   * same total, and 0 once the standard deviation reaches 4 hours.
   */
  lemma ConsistencyBounds(data: seq<SleepRecord>, sqrt: real -> real)
    requires IsSqrt(sqrt)
    ensures 0.0 <= Consistency(data, sqrt) <= 100.0
    ensures |data| < 3 ==> Consistency(data, sqrt) == 50.0
    ensures |data| >= 3 ==>
      (Consistency(data, sqrt) == 100.0 <==> SampleVariance(Values(data, TotalHours)) == 0.0)
    ensures |data| >= 3 && AllEqual(Values(data, TotalHours)) ==> Consistency(data, sqrt) == 100.0
    ensures |data| >= 3 && sqrt(SampleVariance(Values(data, TotalHours))) >= 4.0 ==> Consistency(data, sqrt) == 0.0
  {
    if |data| >= 3 {
      var hours := Values(data, TotalHours);
      VarianceNonNegative(hours);
      var v := SampleVariance(hours);
      assert 0.0 <= sqrt(v) && (sqrt(v) == 0.0 <==> v == 0.0);
      if AllEqual(hours) {
        AllEqualVarianceZero(hours);
      }
    }
  }

  // ----- best and worst weekday -----

  /** The weekday names in the order they were first seen, and the nightly totals of each. */
  datatype DayTable = DayTable(names: seq<string>, hours: map<string, seq<real>>)

  /** The `day_totals` default dictionary as the loop of `_find_best_worst_days` fills it. */
  function Tabulate(data: seq<SleepRecord>): DayTable
  {
    if data == [] then DayTable([], map[])
    else
      var t := Tabulate(data[..|data| - 1]);
      var r := data[|data| - 1];
      var dayName := WeekdayName(r.date);
      var known := if dayName in t.hours then t.hours[dayName] else [];
      DayTable(if dayName in t.hours then t.names else t.names + [dayName],
               t.hours[dayName := known + [r.totalHours]])
  }

  /** The nightly totals of the nights falling on a given weekday, in order. */
  function DayHours(data: seq<SleepRecord>, dayName: string): (r: seq<real>)
    ensures |r| <= |data|
  {
    if data == [] then []
    else
      var r := data[|data| - 1];
      DayHours(data[..|data| - 1], dayName) + (if WeekdayName(r.date) == dayName then [r.totalHours] else [])
  }

  /** A night falling on a given weekday, as a selection predicate. */
  function OnWeekday(dayName: string): SleepRecord -> bool
  {
    (r: SleepRecord) => WeekdayName(r.date) == dayName
  }

  function HoursOf(r: SleepRecord): real
  {
    r.totalHours
  }

  /** A weekday's list holds the totals of exactly that weekday's nights, each night once, in order. */
  lemma {:induction false} DayHoursSelects(data: seq<SleepRecord>, dayName: string)
    ensures DayHours(data, dayName) == Map(Filter(data, OnWeekday(dayName)), HoursOf)
  {
    if data != [] {
      var init := data[..|data| - 1];
      DayHoursSelects(init, dayName);
      MapSnoc(Filter(init, OnWeekday(dayName)), data[|data| - 1], HoursOf);
    }
  }

  /**
   * `t` lists each weekday once, has a key exactly for the weekdays listed, holds for each
   * exactly the totals of its nights (never empty), and lists the weekday of every night.
   */
  ghost predicate IsDayTable(data: seq<SleepRecord>, t: DayTable)
  {
    && NoDuplicates(t.names)
    && (forall n :: n in t.hours <==> n in t.names)
    && (forall n :: n in t.hours ==> t.hours[n] == DayHours(data, n) && t.hours[n] != [])
    && (forall n :: n !in t.hours ==> DayHours(data, n) == [])
    && (forall i :: 0 <= i < |data| ==> WeekdayName(data[i].date) in t.hours)
  }

  /**
   * The table names each weekday that occurs once, in its key order, and holds for it exactly the
   * totals of the nights on that weekday.
   */
  lemma {:induction false} TabulateIsDayHours(data: seq<SleepRecord>)
    ensures IsDayTable(data, Tabulate(data))
  {
    if data != [] {
      var prefix := data[..|data| - 1];
      TabulateIsDayHours(prefix);
      var t, r := Tabulate(prefix), data[|data| - 1];
      var dayName := WeekdayName(r.date);
      var u := Tabulate(data);
      assert u.names == if dayName in t.hours then t.names else t.names + [dayName];
      assert u.hours == t.hours[dayName := (if dayName in t.hours then t.hours[dayName] else []) + [r.totalHours]];
      if dayName !in t.hours {
        NoDuplicatesSnoc(t.names, dayName);
      }
      forall n
        ensures DayHours(data, n) == DayHours(prefix, n) + (if dayName == n then [r.totalHours] else [])
      {
      }
      forall i | 0 <= i < |data|
        ensures WeekdayName(data[i].date) in u.hours
      {
        if i < |data| - 1 {
          assert data[i] == prefix[i];
        }
      }
      assert IsDayTable(data, u);
    }
  }

  /** Night `f` is the first on `names[k]`: every earlier night falls on a weekday listed before it. */
  ghost predicate SeenFirstAt(data: seq<SleepRecord>, names: seq<string>, k: nat, f: int)
    requires k < |names|
  {
    && 0 <= f < |data| && WeekdayName(data[f].date) == names[k]
    && forall i :: 0 <= i < f ==> WeekdayName(data[i].date) in names[..k]
  }

  /** The table lists the weekdays in the order their first nights occur. */
  lemma {:induction false} TabulateFirstSeen(data: seq<SleepRecord>, k: nat)
    requires k < |Tabulate(data).names|
    ensures exists f :: SeenFirstAt(data, Tabulate(data).names, k, f)
  {
    var prefix := data[..|data| - 1];
    TabulateIsDayHours(prefix);
    var t, r := Tabulate(prefix), data[|data| - 1];
    var dayName := WeekdayName(r.date);
    var u := Tabulate(data);
    assert u.names == if dayName in t.hours then t.names else t.names + [dayName];
    if k < |t.names| {
      TabulateFirstSeen(prefix, k);
      var f :| SeenFirstAt(prefix, t.names, k, f);
      assert u.names[..k] == t.names[..k];
      forall i | 0 <= i <= f
        ensures data[i] == prefix[i]
      {
      }
      assert SeenFirstAt(data, u.names, k, f);
    } else {
      assert u.names[..k] == t.names;
      forall i | 0 <= i < |data| - 1
        ensures WeekdayName(data[i].date) in u.names[..k]
      {
        assert data[i] == prefix[i];
      }
      assert SeenFirstAt(data, u.names, k, |data| - 1);
    }
  }

  /** The average total of a weekday, as `day_averages` holds it. */
  function DayAverage(t: DayTable, dayName: string): real
  {
    if dayName in t.hours && t.hours[dayName] != [] then Mean(t.hours[dayName]) else 0.0
  }

  /** `day_averages.get`, the key both picks rank the weekdays by. */
  function DayKey(t: DayTable): string -> real
  {
    n => DayAverage(t, n)
  }

  /**
   * The weekdays Python's `max` and `min` pick over `day_averages`: the first-seen weekday of
   * largest and of smallest average; none for no nights.
   */
  function BestWorstDays(data: seq<SleepRecord>): (Option<string>, Option<string>)
  {
    var t := Tabulate(data);
    if t.names == [] then (None, None)
    else
      (Some(t.names[ArgMaxBy(t.names, DayKey(t))]),
       Some(t.names[ArgMinBy(t.names, DayKey(t))]))
  }

  /** The mean total of the nights on a weekday that has some. */
  function DayMean(data: seq<SleepRecord>, dayName: string): real
    requires DayHours(data, dayName) != []
  {
    Mean(DayHours(data, dayName))
  }

  /**
   * Night `f` is the first on `dayName`, and every earlier night falls on a weekday of smaller
   * mean: `dayName` is the first-seen of the weekdays of largest mean.
   */
  ghost predicate FirstOfLargestMean(data: seq<SleepRecord>, dayName: string, f: int)
  {
    && 0 <= f < |data| && WeekdayName(data[f].date) == dayName && DayHours(data, dayName) != []
    && forall i :: 0 <= i < f ==>
         DayHours(data, WeekdayName(data[i].date)) != [] && DayMean(data, WeekdayName(data[i].date)) < DayMean(data, dayName)
  }

  /** The mirror of `FirstOfLargestMean`: the first-seen of the weekdays of smallest mean. */
  ghost predicate FirstOfSmallestMean(data: seq<SleepRecord>, dayName: string, f: int)
  {
    && 0 <= f < |data| && WeekdayName(data[f].date) == dayName && DayHours(data, dayName) != []
    && forall i :: 0 <= i < f ==>
         DayHours(data, WeekdayName(data[i].date)) != [] && DayMean(data, dayName) < DayMean(data, WeekdayName(data[i].date))
  }

  /** Among weekdays of equal mean `max` keeps the one whose first night came first. */
  lemma BestIsFirstSeen(data: seq<SleepRecord>)
    requires data != []
    ensures BestWorstDays(data).0.Some? && exists f :: FirstOfLargestMean(data, BestWorstDays(data).0.value, f)
  {
    var t := Tabulate(data);
    RecordEntry(data, 0);
    var key := DayKey(t);
    var b := ArgMaxBy(t.names, key);
    TabulateFirstSeen(data, b);
    var f :| SeenFirstAt(data, t.names, b, f);
    TableEntry(data, t.names[b]);
    forall i | 0 <= i < f
      ensures DayHours(data, WeekdayName(data[i].date)) != []
      ensures DayMean(data, WeekdayName(data[i].date)) < DayMean(data, t.names[b])
    {
      var n := WeekdayName(data[i].date);
      assert n in t.names[..b];
      var j :| 0 <= j < b && t.names[j] == n;
      TableEntry(data, n);
      assert key(t.names[j]) < key(t.names[b]);
    }
    assert FirstOfLargestMean(data, t.names[b], f);
  }

  /** Among weekdays of equal mean `min` keeps the one whose first night came first. */
  lemma WorstIsFirstSeen(data: seq<SleepRecord>)
    requires data != []
    ensures BestWorstDays(data).1.Some? && exists f :: FirstOfSmallestMean(data, BestWorstDays(data).1.value, f)
  {
    var t := Tabulate(data);
    RecordEntry(data, 0);
    var key := DayKey(t);
    var w := ArgMinBy(t.names, key);
    TabulateFirstSeen(data, w);
    var f :| SeenFirstAt(data, t.names, w, f);
    TableEntry(data, t.names[w]);
    forall i | 0 <= i < f
      ensures DayHours(data, WeekdayName(data[i].date)) != []
      ensures DayMean(data, t.names[w]) < DayMean(data, WeekdayName(data[i].date))
    {
      var n := WeekdayName(data[i].date);
      assert n in t.names[..w];
      var j :| 0 <= j < w && t.names[j] == n;
      TableEntry(data, n);
      assert key(t.names[w]) < key(t.names[j]);
    }
    assert FirstOfSmallestMean(data, t.names[w], f);
  }

  /**
   * Both weekdays are absent exactly when there are no nights; otherwise each is a weekday some
   * night falls on, no weekday of the data has a larger mean than the best or a smaller one than
   * the worst, and among tied weekdays each is the one seen first.
   */
  lemma BestWorstDaysSpec(data: seq<SleepRecord>)
    ensures var (best, worst) := BestWorstDays(data);
      && (best.None? <==> data == []) && (worst.None? <==> data == [])
      && (best.Some? ==> HasLargestMean(data, best.value) && exists f :: FirstOfLargestMean(data, best.value, f))
      && (worst.Some? ==> HasSmallestMean(data, worst.value) && exists f :: FirstOfSmallestMean(data, worst.value, f))
  {
    var t := Tabulate(data);
    if data == [] {
      assert t.names == [];
    } else {
      BestIsFirstSeen(data);
      WorstIsFirstSeen(data);
      BestIsLargest(data);
      WorstIsSmallest(data);
    }
  }

  /** `dayName` has nights, and no weekday of the data has a larger mean. */
  ghost predicate HasLargestMean(data: seq<SleepRecord>, dayName: string)
  {
    && DayHours(data, dayName) != []
    && forall i :: 0 <= i < |data| ==>
         DayHours(data, WeekdayName(data[i].date)) != [] && DayMean(data, WeekdayName(data[i].date)) <= DayMean(data, dayName)
  }

  /** `dayName` has nights, and no weekday of the data has a smaller mean. */
  ghost predicate HasSmallestMean(data: seq<SleepRecord>, dayName: string)
  {
    && DayHours(data, dayName) != []
    && forall i :: 0 <= i < |data| ==>
         DayHours(data, WeekdayName(data[i].date)) != [] && DayMean(data, dayName) <= DayMean(data, WeekdayName(data[i].date))
  }

  /** No weekday of the data has a larger mean than the best. */
  lemma BestIsLargest(data: seq<SleepRecord>)
    requires data != []
    ensures BestWorstDays(data).0.Some? && HasLargestMean(data, BestWorstDays(data).0.value)
  {
    var t := Tabulate(data);
    RecordEntry(data, 0);
    var b := ArgMaxBy(t.names, DayKey(t));
    TableEntry(data, t.names[b]);
    forall i | 0 <= i < |data|
      ensures DayHours(data, WeekdayName(data[i].date)) != []
      ensures DayMean(data, WeekdayName(data[i].date)) <= DayMean(data, t.names[b])
    {
      AtMostBest(data, i);
    }
    assert HasLargestMean(data, t.names[b]);
  }

  /** No night falls on a weekday of larger mean than the one `max` picks. */
  lemma AtMostBest(data: seq<SleepRecord>, i: nat)
    requires i < |data|
    ensures var t := Tabulate(data);
      && t.names != [] && DayHours(data, WeekdayName(data[i].date)) != []
      && DayHours(data, t.names[ArgMaxBy(t.names, DayKey(t))]) != []
      && DayMean(data, WeekdayName(data[i].date)) <= DayMean(data, t.names[ArgMaxBy(t.names, DayKey(t))])
  {
    var t := Tabulate(data);
    var n := WeekdayName(data[i].date);
    RecordEntry(data, i);
    var key := DayKey(t);
    var b := ArgMaxBy(t.names, key);
    TableEntry(data, t.names[b]);
    TableEntry(data, n);
    var j :| 0 <= j < |t.names| && t.names[j] == n;
    assert key(t.names[j]) <= key(t.names[b]);
  }

  /** No weekday of the data has a smaller mean than the worst. */
  lemma WorstIsSmallest(data: seq<SleepRecord>)
    requires data != []
    ensures BestWorstDays(data).1.Some? && HasSmallestMean(data, BestWorstDays(data).1.value)
  {
    var t := Tabulate(data);
    RecordEntry(data, 0);
    var b := ArgMinBy(t.names, DayKey(t));
    TableEntry(data, t.names[b]);
    forall i | 0 <= i < |data|
      ensures DayHours(data, WeekdayName(data[i].date)) != []
      ensures DayMean(data, t.names[b]) <= DayMean(data, WeekdayName(data[i].date))
    {
      AtLeastWorst(data, i);
    }
    assert HasSmallestMean(data, t.names[b]);
  }

  /** No night falls on a weekday of smaller mean than the one `min` picks. */
  lemma AtLeastWorst(data: seq<SleepRecord>, i: nat)
    requires i < |data|
    ensures var t := Tabulate(data);
      && t.names != [] && DayHours(data, WeekdayName(data[i].date)) != []
      && DayHours(data, t.names[ArgMinBy(t.names, DayKey(t))]) != []
      && DayMean(data, t.names[ArgMinBy(t.names, DayKey(t))]) <= DayMean(data, WeekdayName(data[i].date))
  {
    var t := Tabulate(data);
    var n := WeekdayName(data[i].date);
    RecordEntry(data, i);
    var key := DayKey(t);
    var b := ArgMinBy(t.names, key);
    TableEntry(data, t.names[b]);
    TableEntry(data, n);
    var j :| 0 <= j < |t.names| && t.names[j] == n;
    assert key(t.names[b]) <= key(t.names[j]);
  }

  /** A weekday listed in the table averages the totals of its nights. */
  lemma TableEntry(data: seq<SleepRecord>, dayName: string)
    requires dayName in Tabulate(data).names
    ensures DayHours(data, dayName) != []
    ensures DayAverage(Tabulate(data), dayName) == DayMean(data, dayName)
  {
    TabulateIsDayHours(data);
  }

  /** The weekday of every night is listed in the table. */
  lemma RecordEntry(data: seq<SleepRecord>, i: nat)
    requires i < |data|
    ensures WeekdayName(data[i].date) in Tabulate(data).names
  {
    TabulateIsDayHours(data);
  }

  /** `_find_best_worst_days`: the loop filling `day_totals`, then the two picks. */
  method FindBestWorstDays(data: seq<SleepRecord>) returns (best: Option<string>, worst: Option<string>)
    ensures (best, worst) == BestWorstDays(data)
  {
    var names: seq<string> := [];
    var hours: map<string, seq<real>> := map[];
    var i := 0;
    while i < |data|
      invariant 0 <= i <= |data|
      invariant DayTable(names, hours) == Tabulate(data[..i])
    {
      var dayName := WeekdayName(data[i].date);
      var known := if dayName in hours then hours[dayName] else [];
      if dayName !in hours {
        names := names + [dayName];
      }
      hours := hours[dayName := known + [data[i].totalHours]];
      assert data[..i + 1][..i] == data[..i];
      i := i + 1;
    }
    assert data[..i] == data;
    var t := DayTable(names, hours);
    if names == [] {
      best, worst := None, None;
    } else {
      best := Some(names[ArgMaxBy(names, DayKey(t))]);
      worst := Some(names[ArgMinBy(names, DayKey(t))]);
    }
  }

  // ----- insights -----

  /** `summary.average_7d or summary.current_value`: a missing or zero weekly mean falls back. */
  function Headline(m: MetricSummary): real
  {
    if TruthyReal(m.average7d) then m.average7d.value else m.currentValue
  }

  const SHORT_SLEEP_TEMPLATE := "Average sleep of {}h is below the recommended {}-{}h range."
  const LONG_SLEEP_TEMPLATE := "Average sleep of {}h exceeds the recommended range."
  const HEALTHY_SLEEP_TEMPLATE := "Average sleep of {}h is within the recommended range."

  /** The duration rule: below 7 hours a sleep debt, above 9 oversleeping, else healthy. */
  function DurationInsight(avgHours: real): (i: Insight)
    ensures i.category == "sleep"
    ensures i.title == "Sleep Debt Detected" <==> avgHours < RECOMMENDED_SLEEP_MIN
    ensures i.title == "Oversleeping Pattern" <==> avgHours > RECOMMENDED_SLEEP_MAX
    ensures i.title == "Healthy Sleep Duration" <==> RECOMMENDED_SLEEP_MIN <= avgHours <= RECOMMENDED_SLEEP_MAX
    ensures i.severity == (if avgHours < RECOMMENDED_SLEEP_MIN then Warning
                           else if avgHours > RECOMMENDED_SLEEP_MAX then Info else Positive)
  {
    if avgHours < RECOMMENDED_SLEEP_MIN then
      Insight("Sleep Debt Detected",
        Text(SHORT_SLEEP_TEMPLATE,
             [avgHours, RECOMMENDED_SLEEP_MIN, RECOMMENDED_SLEEP_MAX]),
        Warning, "sleep", map["avg_sleep" := Num(avgHours), "recommended_min" := Num(RECOMMENDED_SLEEP_MIN)],
        ["Try going to bed 30 minutes earlier", "Limit caffeine after 2pm", "Reduce screen time 1 hour before bed"])
    else if avgHours > RECOMMENDED_SLEEP_MAX then
      Insight("Oversleeping Pattern",
        Text(LONG_SLEEP_TEMPLATE, [avgHours]),
        Info, "sleep", map[], ["Consider a consistent wake time", "Evaluate sleep quality vs quantity"])
    else
      NewInsight("Healthy Sleep Duration", Text(HEALTHY_SLEEP_TEMPLATE, [avgHours]),
        Positive, "sleep")
  }

  predicate IsDurationTitle(title: string)
  {
    title == "Sleep Debt Detected" || title == "Oversleeping Pattern" || title == "Healthy Sleep Duration"
  }

  /** Deep sleep below 15% warns. */
  function DeepSleepInsight(avgDeepPct: real): (o: Option<Insight>)
    ensures o.Some? <==> avgDeepPct < RECOMMENDED_DEEP_PERCENT
    ensures o.Some? ==> o.value.title == "Low Deep Sleep" && o.value.severity == Warning && o.value.category == "sleep"
  {
    if avgDeepPct < RECOMMENDED_DEEP_PERCENT then
      Some(Insight("Low Deep Sleep",
        Text("Deep sleep of {}% is below the recommended {}%.", [avgDeepPct, RECOMMENDED_DEEP_PERCENT]),
        Warning, "sleep", map[],
        ["Exercise regularly but not close to bedtime", "Maintain a cool bedroom temperature",
         "Limit alcohol which disrupts deep sleep"]))
    else None
  }

  /** REM sleep below 20% informs. */
  function RemSleepInsight(avgRemPct: real): (o: Option<Insight>)
    ensures o.Some? <==> avgRemPct < RECOMMENDED_REM_PERCENT
    ensures o.Some? ==> o.value.title == "Low REM Sleep" && o.value.severity == Info && o.value.category == "sleep"
  {
    if avgRemPct < RECOMMENDED_REM_PERCENT then
      Some(Insight("Low REM Sleep",
        Text("REM sleep of {}% is below the recommended {}%.", [avgRemPct, RECOMMENDED_REM_PERCENT]),
        Info, "sleep", map[], ["Maintain consistent sleep schedule", "Avoid alcohol before bed"]))
    else None
  }

  const DECLINING_TREND_INSIGHT_TEMPLATE := "Your sleep duration has been decreasing over the past 2 weeks."

  /** A declining total-sleep trend warns. */
  function DecliningTrendInsight(trend: TrendDirection): (o: Option<Insight>)
    ensures o.Some? <==> trend == Declining
    ensures o.Some? ==>
      o.value.title == "Declining Sleep Trend" && o.value.severity == Warning && o.value.category == "sleep"
  {
    if trend == Declining then
      Some(Insight("Declining Sleep Trend",
        Text(DECLINING_TREND_INSIGHT_TEMPLATE, []),
        Warning, "sleep", map[], ["Review recent schedule changes", "Consider sleep environment adjustments"]))
    else None
  }

  /** `_generate_insights`: the duration insight, then the deep, REM and trend rules in order. */
  function SleepInsights(avgTotal: MetricSummary, avgDeep: MetricSummary, avgRem: MetricSummary): seq<Insight>
  {
    [DurationInsight(Headline(avgTotal))] + Fired(DeepSleepInsight(Headline(avgDeep)))
    + Fired(RemSleepInsight(Headline(avgRem))) + Fired(DecliningTrendInsight(avgTotal.trend))
  }

  method GenerateInsights(avgTotal: MetricSummary, avgDeep: MetricSummary, avgRem: MetricSummary)
    returns (insights: seq<Insight>)
    ensures insights == SleepInsights(avgTotal, avgDeep, avgRem)
  {
    insights := [DurationInsight(Headline(avgTotal))];
    insights := AppendFired(insights, DeepSleepInsight(Headline(avgDeep)));
    insights := AppendFired(insights, RemSleepInsight(Headline(avgRem)));
    insights := AppendFired(insights, DecliningTrendInsight(avgTotal.trend));
  }

  /**
   * Exactly one duration insight, first; after it at most one insight of each other rule, each
   * present exactly when its rule fires; all of the sleep category.
   */
  lemma SleepInsightsShape(avgTotal: MetricSummary, avgDeep: MetricSummary, avgRem: MetricSummary)
    ensures var ins := SleepInsights(avgTotal, avgDeep, avgRem);
      && 1 <= |ins| <= 4
      && OfCategory(ins, "sleep")
      && ins[0] == DurationInsight(Headline(avgTotal))
      && NoDurationTitle(ins[1..])
      && Titles(ins[1..]) == FiredTitle(DeepSleepInsight(Headline(avgDeep)))
           + FiredTitle(RemSleepInsight(Headline(avgRem))) + FiredTitle(DecliningTrendInsight(avgTotal.trend))
  {
    var d := DurationInsight(Headline(avgTotal));
    var o1, o2, o3 := DeepSleepInsight(Headline(avgDeep)), RemSleepInsight(Headline(avgRem)),
                      DecliningTrendInsight(avgTotal.trend);
    assert SleepInsights(avgTotal, avgDeep, avgRem) == [d] + Fired(o1) + Fired(o2) + Fired(o3);
    RuleTitles(o1, o2, o3);
    InsightsOfRules(d, o1, o2, o3);
  }

  /** None of the three later rules carries a duration title. */
  lemma RuleTitles(o1: Option<Insight>, o2: Option<Insight>, o3: Option<Insight>)
    requires o1.Some? ==> o1.value.title == "Low Deep Sleep"
    requires o2.Some? ==> o2.value.title == "Low REM Sleep"
    requires o3.Some? ==> o3.value.title == "Declining Sleep Trend"
    ensures o1.Some? ==> !IsDurationTitle(o1.value.title)
    ensures o2.Some? ==> !IsDurationTitle(o2.value.title)
    ensures o3.Some? ==> !IsDurationTitle(o3.value.title)
  {
  }

  lemma InsightsOfRules(d: Insight, o1: Option<Insight>, o2: Option<Insight>, o3: Option<Insight>)
    requires d.category == "sleep"
    requires o1.Some? ==> o1.value.category == "sleep" && !IsDurationTitle(o1.value.title)
    requires o2.Some? ==> o2.value.category == "sleep" && !IsDurationTitle(o2.value.title)
    requires o3.Some? ==> o3.value.category == "sleep" && !IsDurationTitle(o3.value.title)
    ensures var ins := [d] + Fired(o1) + Fired(o2) + Fired(o3);
      && 1 <= |ins| <= 4
      && OfCategory(ins, "sleep")
      && ins[0] == d
      && NoDurationTitle(ins[1..])
      && Titles(ins[1..]) == FiredTitle(o1) + FiredTitle(o2) + FiredTitle(o3)
  {
    var rest := Fired(o1) + Fired(o2) + Fired(o3);
    RestCategory(o1, o2, o3);
    RestNoDuration(o1, o2, o3);
    RestTitles(o1, o2, o3);
    OfCategoryConcat([d], rest, "sleep");
    ConsConcat(d, Fired(o1), Fired(o2), Fired(o3));
  }

  lemma RestCategory(o1: Option<Insight>, o2: Option<Insight>, o3: Option<Insight>)
    requires o1.Some? ==> o1.value.category == "sleep"
    requires o2.Some? ==> o2.value.category == "sleep"
    requires o3.Some? ==> o3.value.category == "sleep"
    ensures OfCategory(Fired(o1) + Fired(o2) + Fired(o3), "sleep")
  {
    FiredCategory(o1, "sleep");
    FiredCategory(o2, "sleep");
    FiredCategory(o3, "sleep");
    OfCategoryConcat(Fired(o1), Fired(o2), "sleep");
    OfCategoryConcat(Fired(o1) + Fired(o2), Fired(o3), "sleep");
  }

  lemma RestNoDuration(o1: Option<Insight>, o2: Option<Insight>, o3: Option<Insight>)
    requires o1.Some? ==> !IsDurationTitle(o1.value.title)
    requires o2.Some? ==> !IsDurationTitle(o2.value.title)
    requires o3.Some? ==> !IsDurationTitle(o3.value.title)
    ensures NoDurationTitle(Fired(o1) + Fired(o2) + Fired(o3))
  {
    FiredNoDuration(o1);
    FiredNoDuration(o2);
    FiredNoDuration(o3);
    NoDurationConcat(Fired(o1), Fired(o2));
    NoDurationConcat(Fired(o1) + Fired(o2), Fired(o3));
  }

  lemma RestTitles(o1: Option<Insight>, o2: Option<Insight>, o3: Option<Insight>)
    ensures Titles(Fired(o1) + Fired(o2) + Fired(o3)) == FiredTitle(o1) + FiredTitle(o2) + FiredTitle(o3)
  {
    TitlesConcat(Fired(o1) + Fired(o2), Fired(o3));
    TitlesConcat(Fired(o1), Fired(o2));
    FiredTitles(o1);
    FiredTitles(o2);
    FiredTitles(o3);
  }

  /** No insight of the sequence carries one of the three duration titles. */
  predicate NoDurationTitle(insights: seq<Insight>)
  {
    forall i :: 0 <= i < |insights| ==> !IsDurationTitle(insights[i].title)
  }

  lemma FiredNoDuration(o: Option<Insight>)
    requires o.Some? ==> !IsDurationTitle(o.value.title)
    ensures NoDurationTitle(Fired(o))
  {
  }

  lemma NoDurationConcat(a: seq<Insight>, b: seq<Insight>)
    requires NoDurationTitle(a) && NoDurationTitle(b)
    ensures NoDurationTitle(a + b)
  {
  }

  // ----- the analysis -----

  /** `{r.date: r.<field> for r in sleep_data}`: a later night of the same date replaces an earlier one. */
  function DailyValues(data: seq<SleepRecord>, field: SleepField): (m: map<int, real>)
    ensures forall d :: d in m <==> exists i :: 0 <= i < |data| && data[i].date == d
  {
    if data == [] then map[]
    else
      var prefix := data[..|data| - 1];
      var m := DailyValues(prefix, field);
      assert forall i :: 0 <= i < |prefix| ==> prefix[i] == data[i];
      m[data[|data| - 1].date := FieldOf(data[|data| - 1], field)]
  }

  /** Each date maps to the value of the last night recorded under it. */
  lemma {:induction false} DailyValuesLastWins(data: seq<SleepRecord>, field: SleepField, i: nat)
    requires i < |data|
    requires forall j :: i < j < |data| ==> data[j].date != data[i].date
    ensures DailyValues(data, field)[data[i].date] == FieldOf(data[i], field)
  {
    if i < |data| - 1 {
      var prefix := data[..|data| - 1];
      DailyValuesLastWins(prefix, field, i);
    }
  }

  /** `_empty_result`: blank summaries, a consistency of 0 and nothing else. */
  function EmptySleepResult(startDate: int, endDate: int): (r: SleepAnalysisResult)
    ensures r.periodStart == startDate && r.periodEnd == endDate
    ensures r.avgTotalSleep == r.avgDeepSleep == r.avgRemSleep == NewMetricSummary("", 0.0, "")
    ensures r.sleepConsistencyScore == 0.0 && r.insights == []
    ensures r.bestSleepDay.None? && r.worstSleepDay.None? && r.optimalBedtime.None?
    ensures r.dailyTotalHours == map[] && r.dailyDeepPercent == map[]
  {
    var empty := NewMetricSummary("", 0.0, "");
    SleepAnalysisResult(startDate, endDate, empty, empty, empty, 0.0, None, None, None, [], map[], map[])
  }

  /** `analyze` on the nights the repository returned for the period. */
  function SleepAnalysis(startDate: int, endDate: int, sleepData: seq<SleepRecord>, sqrt: real -> real)
    : SleepAnalysisResult
  {
    if sleepData == [] then EmptySleepResult(startDate, endDate)
    else
      var avgTotal := MetricSummaryOf("Total Sleep", Values(sleepData, TotalHours), "hours");
      var avgDeep := MetricSummaryOf("Deep Sleep", Values(sleepData, DeepPercent), "%");
      var avgRem := MetricSummaryOf("REM Sleep", Values(sleepData, RemPercent), "%");
      var (best, worst) := BestWorstDays(sleepData);
      SleepAnalysisResult(startDate, endDate, avgTotal, avgDeep, avgRem, Consistency(sleepData, sqrt), best, worst,
        None, SleepInsights(avgTotal, avgDeep, avgRem),
        DailyValues(sleepData, TotalHours), DailyValues(sleepData, DeepPercent))
  }

  /** `SleepAnalyzer.analyze`; the repository query is replaced by its result. */
  method Analyze(startDate: int, endDate: int, sleepData: seq<SleepRecord>, sqrt: real -> real)
    returns (result: SleepAnalysisResult)
    ensures result == SleepAnalysis(startDate, endDate, sleepData, sqrt)
  {
    if sleepData == [] {
      return EmptySleepResult(startDate, endDate);
    }
    var avgTotal := MetricSummaryOf("Total Sleep", Values(sleepData, TotalHours), "hours");
    var avgDeep := MetricSummaryOf("Deep Sleep", Values(sleepData, DeepPercent), "%");
    var avgRem := MetricSummaryOf("REM Sleep", Values(sleepData, RemPercent), "%");
    var consistency := Consistency(sleepData, sqrt);
    var best, worst := FindBestWorstDays(sleepData);
    var insights := GenerateInsights(avgTotal, avgDeep, avgRem);
    result := SleepAnalysisResult(startDate, endDate, avgTotal, avgDeep, avgRem, consistency, best, worst,
      None, insights, DailyValues(sleepData, TotalHours), DailyValues(sleepData, DeepPercent));
  }

  /**
   * Nights give one to four insights led by the duration insight, a consistency score in
   * `[0, 100]`, a best and a worst weekday, and a daily total for every date with a night; no
   * nights give the empty result.
   */
  lemma SleepAnalysisShape(startDate: int, endDate: int, sleepData: seq<SleepRecord>, sqrt: real -> real)
    requires IsSqrt(sqrt)
    ensures var r := SleepAnalysis(startDate, endDate, sleepData, sqrt);
      && r.periodStart == startDate && r.periodEnd == endDate
      && (sleepData == [] ==> r == EmptySleepResult(startDate, endDate))
      && (sleepData != [] ==>
            && 1 <= |r.insights| <= 4 && OfCategory(r.insights, "sleep")
            && IsDurationTitle(r.insights[0].title)
            && 0.0 <= r.sleepConsistencyScore <= 100.0
            && r.bestSleepDay.Some? && r.worstSleepDay.Some?
            && r.avgTotalSleep.currentValue == sleepData[|sleepData| - 1].totalHours
            && (forall i :: 0 <= i < |sleepData| ==> sleepData[i].date in r.dailyTotalHours))
  {
    if sleepData != [] {
      var avgTotal := MetricSummaryOf("Total Sleep", Values(sleepData, TotalHours), "hours");
      var avgDeep := MetricSummaryOf("Deep Sleep", Values(sleepData, DeepPercent), "%");
      var avgRem := MetricSummaryOf("REM Sleep", Values(sleepData, RemPercent), "%");
      SleepInsightsShape(avgTotal, avgDeep, avgRem);
      ConsistencyBounds(sleepData, sqrt);
      BestWorstDaysSpec(sleepData);
    }
  }


  /** A short headline night total puts the sleep-debt warning first among the insights. */
  lemma SleepDebtFirst(startDate: int, endDate: int, sleepData: seq<SleepRecord>, sqrt: real -> real)
    requires sleepData != []
    requires Headline(MetricSummaryOf("Total Sleep", Values(sleepData, TotalHours), "hours")) < RECOMMENDED_SLEEP_MIN
    ensures var insights := SleepAnalysis(startDate, endDate, sleepData, sqrt).insights;
      insights != [] && insights[0].title == "Sleep Debt Detected" && insights[0].severity == Warning
  {
    var avgTotal := MetricSummaryOf("Total Sleep", Values(sleepData, TotalHours), "hours");
    var avgDeep := MetricSummaryOf("Deep Sleep", Values(sleepData, DeepPercent), "%");
    var avgRem := MetricSummaryOf("REM Sleep", Values(sleepData, RemPercent), "%");
    SleepInsightsShape(avgTotal, avgDeep, avgRem);
  }
}
