/**
 * The stress engine (`garmindb/analysis/stress_analyzer.py`): the cumulative stress load (area
 * under the stress curve), the personal resting baseline, hourly and weekday patterns,
 * recovery after activities, the recovery-efficiency score and the insight rules.
 * The repository fetch is replaced by the already-fetched samples and activities.
 */
module StressAnalyzer {
  import opened Wrappers
  import opened Numeric
  import opened Seqs
  import opened Sorting
  import opened Calendar
  import opened Records
  import opened AnalysisModels

  const BASELINE_DAYS: int := 14
  const BASELINE_PERCENTILE: int := 25
  const BASELINE_START_HOUR: int := 0
  const BASELINE_END_HOUR: int := 6
  const RECOVERY_WINDOW_HOURS: int := 2
  const RECOVERY_WINDOW_SECONDS: int := 7200
  const RECOVERY_THRESHOLD_BUFFER: real := 5.0
  const GAP_CAP_MINUTES: real := 15.0
  const STRESS_LOW_MAX: int := 25
  const STRESS_MEDIUM_MAX: int := 50

  function Timestamp(r: StressRecord): int
  {
    r.timestamp
  }

  // ----- stress load -----

  predicate InLoadWindow(r: StressRecord, startDt: int, endDt: int)
  {
    r.stressLevel > 0 && startDt <= r.timestamp <= endDt
  }

  /** The positive samples inside `[startDt, endDt]`, sorted by timestamp. */
  function LoadWindow(records: seq<StressRecord>, startDt: int, endDt: int): (v: seq<StressRecord>)
    ensures SortedBy(v, Timestamp)
    ensures forall r :: r in v <==> r in records && InLoadWindow(r, startDt, endDt)
    ensures forall r :: multiset(v)[r] == if InLoadWindow(r, startDt, endDt) then multiset(records)[r] else 0
  {
    var valid := Filter(records, r => InLoadWindow(r, startDt, endDt));
    FilterMultisets(records, r => InLoadWindow(r, startDt, endDt));
    var sorted := SortBy(valid, Timestamp);
    assert forall r :: r in sorted <==> r in multiset(valid);
    sorted
  }

  /** Minutes a sample stands for: the gap to the next one capped at 15, or 1 for the last. */
  function Duration(v: seq<StressRecord>, i: nat): real
    requires i < |v|
  {
    if i < |v| - 1 then Min((v[i + 1].timestamp - v[i].timestamp) as real / 60.0, GAP_CAP_MINUTES)
    else 1.0
  }

  function Contribution(v: seq<StressRecord>, i: nat): real
    requires i < |v|
  {
    v[i].stressLevel as real * Duration(v, i)
  }

  /** The sum of `level * duration` over the first `k` samples. */
  function LoadUpTo(v: seq<StressRecord>, k: nat): real
    requires k <= |v|
  {
    if k == 0 then 0.0 else LoadUpTo(v, k - 1) + Contribution(v, k - 1)
  }

  function MinutesUpTo(v: seq<StressRecord>, k: nat): real
    requires k <= |v|
  {
    if k == 0 then 0.0 else MinutesUpTo(v, k - 1) + Duration(v, k - 1)
  }

  function Lookup(m: map<int, real>, k: int): real
  {
    if k in m then m[k] else 0.0
  }

  /** The `hourly_load` dictionary after the first `k` samples. */
  function HourlyLoadUpTo(v: seq<StressRecord>, k: nat): map<int, real>
    requires k <= |v|
  {
    if k == 0 then map[]
    else
      var m := HourlyLoadUpTo(v, k - 1);
      var h := HourOf(v[k - 1].timestamp);
      m[h := Lookup(m, h) + Contribution(v, k - 1)]
  }

  /** The keys of that dictionary in insertion order, which is the order Python iterates them in. */
  function HourOrderUpTo(v: seq<StressRecord>, k: nat): (order: seq<int>)
    requires k <= |v|
    ensures forall h :: h in order <==> h in HourlyLoadUpTo(v, k)
    ensures NoDuplicates(order)
  {
    if k == 0 then []
    else
      var order := HourOrderUpTo(v, k - 1);
      var h := HourOf(v[k - 1].timestamp);
      if h in order then order else order + [h]
  }

  /** Every hour listed before `h` has a smaller load than `h`. */
  ghost predicate AheadOfEqualLoads(order: seq<int>, m: map<int, real>, h: int)
  {
    exists i :: 0 <= i < |order| && order[i] == h && forall j :: 0 <= j < i ==> Lookup(m, order[j]) < Lookup(m, h)
  }

  /** `max(hourly_load, key=hourly_load.get)`: the first hour, in key order, of largest load. */
  function PeakHour(order: seq<int>, m: map<int, real>): (h: int)
    requires order != []
    ensures h in order
    ensures forall k :: k in order ==> Lookup(m, k) <= Lookup(m, h)
    ensures AheadOfEqualLoads(order, m, h)
  {
    order[ArgMaxBy(order, k => Lookup(m, k))]
  }

  /** The weighted stress per minute; 0 for no minutes. */
  function AverageIntensity(weighted: real, minutes: real): real
  {
    if minutes > 0.0 then weighted / minutes else 0.0
  }

  /** `_calculate_stress_load` before rounding. */
  function StressLoad(records: seq<StressRecord>, startDt: int, endDt: int): StressLoadMetric
  {
    var v := LoadWindow(records, startDt, endDt);
    if v == [] then StressLoadMetric(0, 0.0, 0.0, None)
    else
      var total := LoadUpTo(v, |v|);
      var minutes := MinutesUpTo(v, |v|);
      var order := HourOrderUpTo(v, |v|);
      StressLoadMetric(
        Trunc(minutes),
        total / 60.0,
        AverageIntensity(total, minutes),
        if order == [] then None else Some(PeakHour(order, HourlyLoadUpTo(v, |v|))))
  }

  /** The loop of `_calculate_stress_load` over the sorted window. */
  method AccumulateLoad(valid: seq<StressRecord>)
    returns (totalLoad: real, totalWeighted: real, totalMinutes: real,
             hourlyLoad: map<int, real>, hourOrder: seq<int>)
    ensures totalLoad == LoadUpTo(valid, |valid|) && totalWeighted == totalLoad
    ensures totalMinutes == MinutesUpTo(valid, |valid|)
    ensures hourlyLoad == HourlyLoadUpTo(valid, |valid|)
    ensures hourOrder == HourOrderUpTo(valid, |valid|)
  {
    totalLoad, totalWeighted, totalMinutes := 0.0, 0.0, 0.0;
    hourlyLoad, hourOrder := map[], [];
    for i := 0 to |valid|
      invariant totalLoad == LoadUpTo(valid, i) && totalWeighted == LoadUpTo(valid, i)
      invariant totalMinutes == MinutesUpTo(valid, i)
      invariant hourlyLoad == HourlyLoadUpTo(valid, i)
      invariant hourOrder == HourOrderUpTo(valid, i)
    {
      var duration: real;
      if i < |valid| - 1 {
        duration := (valid[i + 1].timestamp - valid[i].timestamp) as real / 60.0;
        duration := Min(duration, GAP_CAP_MINUTES);
      } else {
        duration := 1.0;
      }
      var contribution := valid[i].stressLevel as real * duration;
      ContributionIs(valid, i, duration);
      totalLoad := totalLoad + contribution;
      totalWeighted := totalWeighted + contribution;
      totalMinutes := totalMinutes + duration;
      var hour := HourOf(valid[i].timestamp);
      if hour !in hourOrder {
        hourOrder := hourOrder + [hour];
      }
      hourlyLoad := hourlyLoad[hour := Lookup(hourlyLoad, hour) + contribution];
    }
  }

  /** `_calculate_stress_load`: filter, sort, one pass, then normalise. */
  method CalculateStressLoad(records: seq<StressRecord>, startDt: int, endDt: int)
    returns (m: StressLoadMetric)
    ensures m == StressLoad(records, startDt, endDt)
  {
    var valid := LoadWindow(records, startDt, endDt);
    if valid == [] {
      return StressLoadMetric(0, 0.0, 0.0, None);
    }
    var totalLoad, totalWeighted, totalMinutes, hourlyLoad, hourOrder := AccumulateLoad(valid);
    totalLoad := totalLoad / 60.0;
    var avgIntensity := AverageIntensity(totalWeighted, totalMinutes);
    var peakHour: Option<int> := None;
    if hourOrder != [] {
      peakHour := Some(PeakHour(hourOrder, hourlyLoad));
    }
    m := StressLoadMetric(Trunc(totalMinutes), totalLoad, avgIntensity, peakHour);
  }

  lemma ContributionIs(v: seq<StressRecord>, i: nat, d: real)
    requires i < |v| && d == Duration(v, i)
    ensures v[i].stressLevel as real * d == Contribution(v, i)
  {
  }

  /** With no positive sample in the window the load is all zeros and has no peak hour. */
  lemma StressLoadEmpty(records: seq<StressRecord>, startDt: int, endDt: int)
    requires forall i :: 0 <= i < |records| ==> !InLoadWindow(records[i], startDt, endDt)
    ensures StressLoad(records, startDt, endDt) == StressLoadMetric(0, 0.0, 0.0, None)
  {
  }


  lemma {:induction false} DurationsPositive(v: seq<StressRecord>, k: nat)
    requires SortedBy(v, Timestamp) && k <= |v|
    ensures forall i :: 0 <= i < k ==> 0.0 <= Duration(v, i) <= GAP_CAP_MINUTES
    ensures k == |v| && v != [] ==> 1.0 <= MinutesUpTo(v, k)
    ensures 0.0 <= MinutesUpTo(v, k)
  {
    if k > 0 {
      DurationsPositive(v, k - 1);
      var i := k - 1;
      if i < |v| - 1 {
        assert Timestamp(v[i]) <= Timestamp(v[i + 1]);
      }
    }
  }

  function LevelAsReal(r: StressRecord): real
  {
    r.stressLevel as real
  }

  /** The minutes each sample stands for, in sample order. */
  function Durations(v: seq<StressRecord>): (ds: seq<real>)
    ensures |ds| == |v|
    ensures forall i :: 0 <= i < |v| ==> ds[i] == Duration(v, i)
  {
    seq(|v|, i requires 0 <= i < |v| => Duration(v, i))
  }

  /** The accumulated load and minutes are the weighted sum of the levels and the sum of the durations. */
  lemma {:induction false} LoadIsWeightedSum(v: seq<StressRecord>, k: nat)
    requires k <= |v|
    ensures LoadUpTo(v, k) == WeightedSum(Map(v, LevelAsReal), Durations(v), k)
    ensures MinutesUpTo(v, k) == PrefixSum(Durations(v), k)
  {
    if k > 0 {
      LoadIsWeightedSum(v, k - 1);
    }
  }

  lemma DurationsNonNegative(v: seq<StressRecord>, k: nat)
    requires k <= |v|
    requires forall i :: 0 <= i < k ==> 0.0 <= Duration(v, i)
    ensures forall i :: 0 <= i < k ==> 0.0 <= Durations(v)[i]
  {
  }

  lemma LevelsAtLeast(v: seq<StressRecord>, lo: real)
    requires forall i :: 0 <= i < |v| ==> lo <= v[i].stressLevel as real
    ensures forall i :: 0 <= i < |v| ==> lo <= Map(v, LevelAsReal)[i]
  {
  }

  lemma LevelsAtMost(v: seq<StressRecord>, hi: real)
    requires forall i :: 0 <= i < |v| ==> v[i].stressLevel as real <= hi
    ensures forall i :: 0 <= i < |v| ==> Map(v, LevelAsReal)[i] <= hi
  {
  }

  /** With non-negative durations, the load is at least the smallest level times the minutes. */
  lemma LoadAtLeast(v: seq<StressRecord>, k: nat, lo: real)
    requires k <= |v|
    requires forall i :: 0 <= i < |v| ==> lo <= v[i].stressLevel as real
    requires forall i :: 0 <= i < k ==> 0.0 <= Duration(v, i)
    ensures lo * MinutesUpTo(v, k) <= LoadUpTo(v, k)
  {
    LoadIsWeightedSum(v, k);
    DurationsNonNegative(v, k);
    LevelsAtLeast(v, lo);
    WeightedSumAtLeast(Map(v, LevelAsReal), Durations(v), k, lo);
  }

  /** With non-negative durations, the load is at most the largest level times the minutes. */
  lemma LoadAtMost(v: seq<StressRecord>, k: nat, hi: real)
    requires k <= |v|
    requires forall i :: 0 <= i < |v| ==> v[i].stressLevel as real <= hi
    requires forall i :: 0 <= i < k ==> 0.0 <= Duration(v, i)
    ensures LoadUpTo(v, k) <= hi * MinutesUpTo(v, k)
  {
    LoadIsWeightedSum(v, k);
    DurationsNonNegative(v, k);
    LevelsAtMost(v, hi);
    WeightedSumAtMost(Map(v, LevelAsReal), Durations(v), k, hi);
  }

  lemma DivBounds(lo: real, hi: real, l: real, m: real)
    requires 0.0 < m && lo * m <= l <= hi * m
    ensures lo <= l / m <= hi
  {
  }

  lemma WindowBounds(v: seq<StressRecord>, lo: real, hi: real)
    requires SortedBy(v, Timestamp) && v != []
    requires forall i :: 0 <= i < |v| ==> lo <= v[i].stressLevel as real <= hi && 0.0 <= v[i].stressLevel as real
    ensures 1.0 <= MinutesUpTo(v, |v|) && 0.0 <= LoadUpTo(v, |v|)
    ensures lo <= AverageIntensity(LoadUpTo(v, |v|), MinutesUpTo(v, |v|)) <= hi
  {
    DurationsPositive(v, |v|);
    LoadAtLeast(v, |v|, lo);
    LoadAtLeast(v, |v|, 0.0);
    LoadAtMost(v, |v|, hi);
    DivBounds(lo, hi, LoadUpTo(v, |v|), MinutesUpTo(v, |v|));
  }

  /**
   * Over a non-empty window the load covers at least one minute, is non-negative, and its
   * average intensity is a weighted mean of the levels: it lies between the smallest and the
   * largest level in the window.
   */
  lemma StressLoadBounds(records: seq<StressRecord>, startDt: int, endDt: int, lo: real, hi: real)
    requires exists i :: 0 <= i < |records| && InLoadWindow(records[i], startDt, endDt)
    requires forall i :: 0 <= i < |records| && InLoadWindow(records[i], startDt, endDt) ==>
      lo <= records[i].stressLevel as real <= hi
    ensures var m := StressLoad(records, startDt, endDt);
      m.periodMinutes >= 1 && m.totalLoad >= 0.0 && lo <= m.avgIntensity <= hi && m.peakLoadHour.Some?
  {
    var v := LoadWindow(records, startDt, endDt);
    var i :| 0 <= i < |records| && InLoadWindow(records[i], startDt, endDt);
    assert records[i] in v;
    forall j | 0 <= j < |v|
      ensures lo <= v[j].stressLevel as real <= hi && 0.0 <= v[j].stressLevel as real
    {
      assert v[j] in records;
    }
    WindowBounds(v, lo, hi);
    assert HourOf(v[|v| - 1].timestamp) in HourlyLoadUpTo(v, |v|);
  }

  /** When every sample in the window has the same level, the average intensity is that level. */
  lemma StressLoadConstantLevel(records: seq<StressRecord>, startDt: int, endDt: int, level: int)
    requires exists i :: 0 <= i < |records| && InLoadWindow(records[i], startDt, endDt)
    requires forall i :: 0 <= i < |records| && InLoadWindow(records[i], startDt, endDt) ==>
      records[i].stressLevel == level
    ensures StressLoad(records, startDt, endDt).avgIntensity == level as real
  {
    StressLoadBounds(records, startDt, endDt, level as real, level as real);
  }

  /**
   * The samples are sorted before the pass, so their input order does not matter as long as no
   * two samples in the window share a timestamp.
   */
  lemma StressLoadOrderIndependent(a: seq<StressRecord>, b: seq<StressRecord>, startDt: int, endDt: int)
    requires multiset(a) == multiset(b)
    requires forall r, s :: r in a && s in a && r.timestamp == s.timestamp ==> r == s
    ensures StressLoad(a, startDt, endDt) == StressLoad(b, startDt, endDt)
  {
    LoadWindowOrderIndependent(a, b, startDt, endDt);
  }

  lemma LoadWindowOrderIndependent(a: seq<StressRecord>, b: seq<StressRecord>, startDt: int, endDt: int)
    requires multiset(a) == multiset(b)
    requires forall r, s :: r in a && s in a && r.timestamp == s.timestamp ==> r == s
    ensures LoadWindow(a, startDt, endDt) == LoadWindow(b, startDt, endDt)
  {
    var p := r => InLoadWindow(r, startDt, endDt);
    FilterPermutation(a, b, p);
    var fa := Filter(a, p);
    FilterKeysDistinct(a, p);
    SortByPermutation(fa, Filter(b, p), Timestamp);
  }

  lemma FilterKeysDistinct(a: seq<StressRecord>, p: StressRecord -> bool)
    requires forall r, s :: r in a && s in a && r.timestamp == s.timestamp ==> r == s
    ensures KeysDistinct(Filter(a, p), Timestamp)
  {
    var fa := Filter(a, p);
    forall r, s | r in fa && s in fa && Timestamp(r) == Timestamp(s)
      ensures r == s
    {
      assert r in a && s in a;
    }
  }

  /** Two samples four hours apart (levels 80 and 20) are weighted 15 and 1 minutes. */
  lemma StressLoadGapCapExample()
    ensures var m := StressLoad([StressRecord(36000, 80), StressRecord(50400, 20)], 36000, 54000);
      m.periodMinutes == 16 && m.totalLoad == 1220.0 / 60.0 && m.peakLoadHour == Some(10)
  {
    var v := [StressRecord(36000, 80), StressRecord(50400, 20)];
    GapCapWindow(v);
    GapCapSums(v);
  }

  lemma GapCapWindow(v: seq<StressRecord>)
    requires v == [StressRecord(36000, 80), StressRecord(50400, 20)]
    ensures LoadWindow(v, 36000, 54000) == v
  {
    assert Filter(v, r => InLoadWindow(r, 36000, 54000)) == v by {
      FilterAll(v, r => InLoadWindow(r, 36000, 54000));
    }
    SortBySorted(v, Timestamp);
  }

  lemma GapCapSums(v: seq<StressRecord>)
    requires v == [StressRecord(36000, 80), StressRecord(50400, 20)]
    ensures MinutesUpTo(v, 2) == 16.0 && LoadUpTo(v, 2) == 1220.0
    ensures HourOrderUpTo(v, 2) == [10, 14]
    ensures PeakHour([10, 14], HourlyLoadUpTo(v, 2)) == 10
  {
    assert Duration(v, 0) == 15.0 && Duration(v, 1) == 1.0;
    assert Contribution(v, 0) == 1200.0;
    assert Contribution(v, 1) == 20.0;
    assert HourOf(36000) == 10 && HourOf(50400) == 14;
    assert MinutesUpTo(v, 1) == 15.0 && LoadUpTo(v, 1) == 1200.0;
    assert HourOrderUpTo(v, 1) == [10];
    assert HourlyLoadUpTo(v, 1) == map[10 := 1200.0];
    assert HourlyLoadUpTo(v, 2) == map[10 := 1200.0, 14 := 20.0];
  }

  // ----- selections of levels -----

  /** `[r.stress_level for r in s if p(r)]`. */
  function LevelsWhere(s: seq<StressRecord>, p: StressRecord -> bool): (r: seq<int>)
    ensures |r| <= |s|
    ensures forall v :: v in r ==> exists i :: 0 <= i < |s| && p(s[i]) && s[i].stressLevel == v
  {
    if s == [] then []
    else
      var r := LevelsWhere(s[..|s| - 1], p);
      assert forall i :: 0 <= i < |s| - 1 ==> s[..|s| - 1][i] == s[i];
      r + (if p(s[|s| - 1]) then [s[|s| - 1].stressLevel] else [])
  }

  /** `LevelsWhere` is the comprehension: the levels of exactly the selected samples, in order. */
  lemma {:induction false} LevelsWhereSelects(s: seq<StressRecord>, p: StressRecord -> bool)
    ensures LevelsWhere(s, p) == Map(Filter(s, p), Level)
  {
    if s != [] {
      LevelsWhereSelects(s[..|s| - 1], p);
      MapSnoc(Filter(s[..|s| - 1], p), s[|s| - 1], Level);
    }
  }

  lemma {:induction false} LevelsWhereAll(s: seq<StressRecord>, p: StressRecord -> bool)
    requires forall i :: 0 <= i < |s| ==> p(s[i])
    ensures LevelsWhere(s, p) == Map(s, Level)
  {
    if s != [] {
      LevelsWhereAll(s[..|s| - 1], p);
    }
  }

  function Level(r: StressRecord): int
  {
    r.stressLevel
  }

  // ----- personal baseline -----

  /** A positive sample of the night window `[00:00, 06:00)` within the fourteen days up to `endDate`. */
  predicate IsResting(r: StressRecord, endDate: int)
  {
    r.stressLevel > 0
    && endDate - BASELINE_DAYS <= Day(r.timestamp) <= endDate
    && BASELINE_START_HOUR <= HourOf(r.timestamp) < BASELINE_END_HOUR
  }

  function RestingValues(records: seq<StressRecord>, endDate: int): seq<int>
  {
    LevelsWhere(records, r => IsResting(r, endDate))
  }

  /** `int(n * 25 / 100)` kept inside `[0, n - 1]`. */
  function PercentileIndex(n: nat): (idx: nat)
    requires n > 0
    ensures idx < n
  {
    ClampInt(n * BASELINE_PERCENTILE / 100, 0, n - 1)
  }

  /** `_calculate_personal_baseline`: 25.0 below ten resting samples, else their 25th percentile. */
  function PersonalBaseline(records: seq<StressRecord>, endDate: int): real
  {
    var values := RestingValues(records, endDate);
    if |values| < 10 then 25.0
    else SortInts(values)[PercentileIndex(|values|)] as real
  }

  /**
   * With at least ten resting samples the baseline is one of them, at most `idx` of them are
   * below it and at least `idx + 1` are at or below it, where `idx` is the percentile index.
   */
  lemma BaselineIsPercentile(records: seq<StressRecord>, endDate: int)
    requires |RestingValues(records, endDate)| >= 10
    ensures var values := RestingValues(records, endDate);
      var idx := PercentileIndex(|values|);
      exists v :: v in values && PersonalBaseline(records, endDate) == v as real
        && CountLess(values, v) <= idx && CountLess(values, v + 1) >= idx + 1
  {
    var values := RestingValues(records, endDate);
    var sorted := SortInts(values);
    var idx := PercentileIndex(|values|);
    var v := sorted[idx];
    OrderStatistic(sorted, idx);
    CountLessPermutation(sorted, values, v);
    CountLessPermutation(sorted, values, v + 1);
    assert v in multiset(values);
    assert v in values && PersonalBaseline(records, endDate) == v as real;
  }

  /** Fewer than ten resting samples give the default baseline, whatever their levels. */
  lemma BaselineDefault(records: seq<StressRecord>, endDate: int)
    requires |RestingValues(records, endDate)| < 10
    ensures PersonalBaseline(records, endDate) == 25.0
  {
  }

  /** Forty night samples with levels 10 to 49 on the end date give the baseline 20. */
  lemma BaselineExample(records: seq<StressRecord>)
    requires |records| == 40
    requires forall i :: 0 <= i < 40 ==> records[i] == StressRecord(3600 + 60 * i, 10 + i)
    ensures PersonalBaseline(records, 0) == 20.0
  {
    var values := RestingValues(records, 0);
    ExampleValues(records);
    SortBySorted(values, Identity);
    assert PercentileIndex(40) == 10;
  }

  lemma ExampleValues(records: seq<StressRecord>)
    requires |records| == 40
    requires forall i :: 0 <= i < 40 ==> records[i] == StressRecord(3600 + 60 * i, 10 + i)
    ensures var values := RestingValues(records, 0);
      |values| == 40 && values[10] == 20 && SortedBy(values, Identity)
  {
    forall i | 0 <= i < 40
      ensures IsResting(records[i], 0)
    {
      assert HourOf(3600 + 60 * i) == 1;
    }
    LevelsWhereAll(records, r => IsResting(r, 0));
  }

  // ----- hourly and weekday buckets -----

  function HourKey(r: StressRecord): int
  {
    HourOf(r.timestamp)
  }

  function WeekdayKey(r: StressRecord): int
  {
    Weekday(Day(r.timestamp))
  }

  /** The positive levels, in order, of the samples whose key is `k`. */
  function BucketValues(s: seq<StressRecord>, key: StressRecord -> int, k: int): seq<int>
  {
    if s == [] then []
    else
      var r := s[|s| - 1];
      BucketValues(s[..|s| - 1], key, k) + (if r.stressLevel > 0 && key(r) == k then [r.stressLevel] else [])
  }

  /** Appending a sample adds its level to its own bucket and to no other. */
  lemma BucketSnoc(s: seq<StressRecord>, r: StressRecord, key: StressRecord -> int, k: int)
    ensures BucketValues(s + [r], key, k)
      == BucketValues(s, key, k) + (if r.stressLevel > 0 && key(r) == k then [r.stressLevel] else [])
  {
    assert (s + [r])[..|s|] == s;
  }

  /**
   * The grouping loop of the hourly and weekday patterns: `n` empty buckets, then each positive
   * level appended to the bucket of its key.
   */
  method GroupLevels(records: seq<StressRecord>, key: StressRecord -> int, n: nat)
    returns (data: map<int, seq<int>>)
    requires forall r :: 0 <= key(r) < n
    ensures forall k :: 0 <= k < n ==> k in data && data[k] == BucketValues(records, key, k)
  {
    // every bucket starts as the bucket of no samples
    data := map k | 0 <= k < n :: BucketValues([], key, k);
    for i := 0 to |records|
      invariant forall k :: 0 <= k < n ==> k in data && data[k] == BucketValues(records[..i], key, k)
    {
      var record := records[i];
      forall k | 0 <= k < n
        ensures BucketValues(records[..i + 1], key, k)
          == BucketValues(records[..i], key, k)
             + (if record.stressLevel > 0 && key(record) == k then [record.stressLevel] else [])
      {
        assert records[..i + 1] == records[..i] + [record];
        BucketSnoc(records[..i], record, key, k);
      }
      if record.stressLevel > 0 {
        var k := key(record);
        data := data[k := data[k] + [record.stressLevel]];
      }
    }
    assert records[..|records|] == records;
  }

  predicate IsLow(v: int) { v <= STRESS_LOW_MAX }
  predicate IsMedium(v: int) { STRESS_LOW_MAX < v <= STRESS_MEDIUM_MAX }
  predicate IsHigh(v: int) { v > STRESS_MEDIUM_MAX }

  /** `round(count / total * 100, 1)` before rounding. */
  function BandPercent(values: seq<int>, band: int -> bool): real
    requires values != []
  {
    Count(values, band) as real / |values| as real * 100.0
  }

  lemma {:induction false} BandsPartition(values: seq<int>)
    ensures Count(values, IsLow) + Count(values, IsMedium) + Count(values, IsHigh) == |values|
  {
    if values != [] {
      BandsPartition(values[..|values| - 1]);
    }
  }

  lemma PercentsSum(a: nat, b: nat, c: nat, n: nat)
    requires n > 0 && a + b + c == n
    ensures a as real / n as real * 100.0 + b as real / n as real * 100.0 + c as real / n as real * 100.0 == 100.0
  {
    var t := n as real;
    assert a as real / t + b as real / t + c as real / t == (a + b + c) as real / t;
  }

  lemma PercentBounds(a: nat, n: nat)
    requires 0 < n && a <= n
    ensures 0.0 <= a as real / n as real * 100.0 <= 100.0
  {
    var t := n as real;
    assert a as real / t <= 1.0;
  }

  /** The low, medium and high shares are percentages that add up to 100. */
  lemma DistributionSums(values: seq<int>)
    requires values != []
    ensures BandPercent(values, IsLow) + BandPercent(values, IsMedium) + BandPercent(values, IsHigh) == 100.0
    ensures 0.0 <= BandPercent(values, IsLow) <= 100.0
    ensures 0.0 <= BandPercent(values, IsMedium) <= 100.0
    ensures 0.0 <= BandPercent(values, IsHigh) <= 100.0
  {
    BandsPartition(values);
    PercentsSum(Count(values, IsLow), Count(values, IsMedium), Count(values, IsHigh), |values|);
    PercentBounds(Count(values, IsLow), |values|);
    PercentBounds(Count(values, IsMedium), |values|);
    PercentBounds(Count(values, IsHigh), |values|);
  }

  function CategoryDistribution(values: seq<int>): map<string, real>
    requires values != []
  {
    map["low" := BandPercent(values, IsLow), "medium" := BandPercent(values, IsMedium),
        "high" := BandPercent(values, IsHigh)]
  }

  /** The pattern of one hour from the levels that fell in it. */
  function HourlyPattern(hour: int, values: seq<int>): HourlyStressPattern
  {
    if values == [] then HourlyStressPattern(hour, 0.0, 0, map[])
    else HourlyStressPattern(hour, IntMean(values), |values|, CategoryDistribution(values))
  }

  /** `_calculate_hourly_patterns` before rounding. */
  function HourlyPatterns(records: seq<StressRecord>): seq<HourlyStressPattern>
  {
    seq(24, h => HourlyPattern(h, BucketValues(records, HourKey, h)))
  }

  /** Groups the positive levels by hour, then summarises each of the 24 hours. */
  method CalculateHourlyPatterns(records: seq<StressRecord>) returns (patterns: seq<HourlyStressPattern>)
    ensures patterns == HourlyPatterns(records)
  {
    var hourlyData := GroupLevels(records, HourKey, 24);
    patterns := [];
    for hour := 0 to 24
      invariant |patterns| == hour
      invariant forall h :: 0 <= h < hour ==> patterns[h] == HourlyPattern(h, BucketValues(records, HourKey, h))
    {
      var pattern := SummarizeHour(hour, hourlyData[hour]);
      patterns := patterns + [pattern];
    }
  }

  /** One iteration of the hourly loop: an empty hour gets a zero pattern. */
  method SummarizeHour(hour: int, values: seq<int>) returns (pattern: HourlyStressPattern)
    ensures pattern == HourlyPattern(hour, values)
  {
    if values == [] {
      return HourlyStressPattern(hour, 0.0, 0, map[]);
    }
    var avgStress := IntMean(values);
    var categoryDist := CategoryDistribution(values);
    pattern := HourlyStressPattern(hour, avgStress, |values|, categoryDist);
  }

  /** The total of the first `n` bucket sizes. */
  function BucketSizes(s: seq<StressRecord>, key: StressRecord -> int, n: nat): nat
  {
    if n == 0 then 0 else BucketSizes(s, key, n - 1) + |BucketValues(s, key, n - 1)|
  }

  function PositiveCount(s: seq<StressRecord>): nat
  {
    if s == [] then 0 else PositiveCount(s[..|s| - 1]) + (if s[|s| - 1].stressLevel > 0 then 1 else 0)
  }

  lemma {:induction false} BucketSizesSnoc(s: seq<StressRecord>, r: StressRecord, key: StressRecord -> int, n: nat)
    ensures BucketSizes(s + [r], key, n)
      == BucketSizes(s, key, n) + (if r.stressLevel > 0 && 0 <= key(r) < n then 1 else 0)
  {
    if n > 0 {
      BucketSizesSnoc(s, r, key, n - 1);
      BucketSnoc(s, r, key, n - 1);
    }
  }

  /** When every key lies in `[0, n)`, each positive sample is in exactly one of the `n` buckets. */
  lemma {:induction false} BucketsPartition(s: seq<StressRecord>, key: StressRecord -> int, n: nat)
    requires forall i :: 0 <= i < |s| ==> 0 <= key(s[i]) < n
    ensures BucketSizes(s, key, n) == PositiveCount(s)
  {
    if s == [] {
      BucketSizesEmpty(key, n);
    } else {
      var s', r := s[..|s| - 1], s[|s| - 1];
      assert s == s' + [r];
      BucketsPartition(s', key, n);
      BucketSizesSnoc(s', r, key, n);
    }
  }

  lemma {:induction false} BucketSizesEmpty(key: StressRecord -> int, n: nat)
    ensures BucketSizes([], key, n) == 0
  {
    if n > 0 {
      BucketSizesEmpty(key, n - 1);
    }
  }

  function PatternCounts(patterns: seq<HourlyStressPattern>, n: nat): nat
    requires n <= |patterns|
  {
    if n == 0 then 0 else PatternCounts(patterns, n - 1) + patterns[n - 1].sampleCount
  }

  /**
   * There are 24 patterns, pattern `h` is for hour `h` and counts the positive samples of that
   * hour, an empty hour has average 0, and the counts add up to the number of positive samples.
   */
  lemma HourlyPatternsShape(records: seq<StressRecord>)
    ensures var patterns := HourlyPatterns(records);
      |patterns| == 24
      && (forall h :: 0 <= h < 24 ==>
            (patterns[h].hour == h
             && patterns[h].sampleCount == |BucketValues(records, HourKey, h)|
             && (patterns[h].sampleCount == 0 ==> patterns[h].avgStress == 0.0)))
      && PatternCounts(patterns, 24) == PositiveCount(records)
  {
    var patterns := HourlyPatterns(records);
    forall h | 0 <= h < 24
      ensures patterns[h].hour == h && patterns[h].sampleCount == |BucketValues(records, HourKey, h)|
      ensures patterns[h].sampleCount == 0 ==> patterns[h].avgStress == 0.0
    {
      assert patterns[h] == HourlyPattern(h, BucketValues(records, HourKey, h));
    }
    BucketsPartition(records, HourKey, 24);
    PatternCountsAreSizes(records, patterns, 24);
  }

  lemma {:induction false} PatternCountsAreSizes(records: seq<StressRecord>, patterns: seq<HourlyStressPattern>, n: nat)
    requires n <= |patterns|
    requires forall h :: 0 <= h < n ==> patterns[h].sampleCount == |BucketValues(records, HourKey, h)|
    ensures PatternCounts(patterns, n) == BucketSizes(records, HourKey, n)
  {
    if n > 0 {
      PatternCountsAreSizes(records, patterns, n - 1);
    }
  }

  /** The average of a weekday's levels, or 0.0 for a weekday without samples. */
  function AverageOrZero(values: seq<int>): real
  {
    if values == [] then 0.0 else IntMean(values)
  }

  /** The averages of the first `n` weekdays, keyed by their names. */
  function WeekdayAveragesUpTo(records: seq<StressRecord>, n: nat): map<string, real>
    requires n <= 7
  {
    if n == 0 then map[]
    else WeekdayAveragesUpTo(records, n - 1)[WEEKDAY_NAMES[n - 1] := AverageOrZero(BucketValues(records, WeekdayKey, n - 1))]
  }

  /** `_calculate_weekday_averages` before rounding. */
  function WeekdayAverages(records: seq<StressRecord>): map<string, real>
  {
    WeekdayAveragesUpTo(records, 7)
  }

  method CalculateWeekdayAverages(records: seq<StressRecord>) returns (result: map<string, real>)
    ensures result == WeekdayAverages(records)
  {
    var weekdayData := GroupLevels(records, WeekdayKey, 7);
    result := map[];
    for i := 0 to 7
      invariant result == WeekdayAveragesUpTo(records, i)
    {
      var values := weekdayData[i];
      if values != [] {
        result := result[WEEKDAY_NAMES[i] := IntMean(values)];
      } else {
        result := result[WEEKDAY_NAMES[i] := 0.0];
      }
    }
  }

  lemma {:induction false} WeekdayAveragesUpToHas(records: seq<StressRecord>, n: nat, i: nat)
    requires i < n <= 7
    ensures WEEKDAY_NAMES[i] in WeekdayAveragesUpTo(records, n)
    ensures WeekdayAveragesUpTo(records, n)[WEEKDAY_NAMES[i]] == AverageOrZero(BucketValues(records, WeekdayKey, i))
  {
    if i < n - 1 {
      WeekdayAveragesUpToHas(records, n - 1, i);
      assert WEEKDAY_NAMES[n - 1] != WEEKDAY_NAMES[i];
    }
  }

  /**
   * Every weekday name is present; a weekday's average is 0.0 exactly when it has no positive
   * sample, and otherwise lies between its smallest and largest level.
   */
  lemma WeekdayAveragesShape(records: seq<StressRecord>, i: nat)
    requires i < 7
    ensures var avgs := WeekdayAverages(records);
      var values := BucketValues(records, WeekdayKey, i);
      WEEKDAY_NAMES[i] in avgs
      && (avgs[WEEKDAY_NAMES[i]] == 0.0 <==> values == [])
      && (values != [] ==> SeqMin(Reals(values)) <= avgs[WEEKDAY_NAMES[i]] <= SeqMax(Reals(values)))
  {
    WeekdayAveragesUpToHas(records, 7, i);
    var values := BucketValues(records, WeekdayKey, i);
    if values != [] {
      var rs := Reals(values);
      BucketPositive(records, WeekdayKey, i);
      IntMeanBounds(values, SeqMin(rs), SeqMax(rs));
      assert SeqMin(rs) > 0.0;
    }
  }

  lemma {:induction false} BucketPositive(s: seq<StressRecord>, key: StressRecord -> int, k: int)
    ensures forall j :: 0 <= j < |BucketValues(s, key, k)| ==> BucketValues(s, key, k)[j] > 0
  {
    if s != [] {
      BucketPositive(s[..|s| - 1], key, k);
    }
  }

  // ----- recovery after activities -----

  /** `start_time + duration` of an activity that has a duration. */
  function ActivityEnd(a: ActivityRecord): int
    requires a.duration.Some?
  {
    a.startTime + a.duration.value
  }

  /** A positive sample in the half hour before the end, `[end - 30 min, end)`. */
  predicate InPreWindow(r: StressRecord, end: int)
  {
    r.stressLevel > 0 && end - 30 * SECONDS_PER_MINUTE <= r.timestamp < end
  }

  /** A positive sample in the recovery window `[end, end + 2 h]`. */
  predicate InPostWindow(r: StressRecord, end: int)
  {
    r.stressLevel > 0 && end <= r.timestamp <= end + RECOVERY_WINDOW_SECONDS
  }

  /** `InPreWindow` for a fixed end, as a selection predicate. */
  function PreWindowAt(end: int): StressRecord -> bool
  {
    r => InPreWindow(r, end)
  }

  /** `InPostWindow` for a fixed end, as a selection predicate. */
  function PostWindowAt(end: int): StressRecord -> bool
  {
    r => InPostWindow(r, end)
  }

  /** `int((t - end).total_seconds() / 60)`. */
  function MinutesAfter(end: int, t: int): int
  {
    Trunc((t - end) as real / 60.0)
  }

  /** The whole minutes until the first sample at or below `target`, if there is one. */
  function RecoveryTime(post: seq<StressRecord>, end: int, target: real): (t: Option<int>)
    ensures t.None? <==> forall i :: 0 <= i < |post| ==> post[i].stressLevel as real > target
    ensures t.Some? ==> exists i :: (0 <= i < |post| && post[i].stressLevel as real <= target
      && (forall j :: 0 <= j < i ==> post[j].stressLevel as real > target)
      && t.value == MinutesAfter(end, post[i].timestamp))
  {
    if post == [] then None
    else if post[0].stressLevel as real <= target then Some(MinutesAfter(end, post[0].timestamp))
    else
      var t := RecoveryTime(post[1..], end, target);
      assert forall i :: 0 <= i < |post| - 1 ==> post[1..][i] == post[i + 1];
      t
  }

  /** The loop with `break` that looks for the first recovered sample. */
  method FindRecoveryTime(post: seq<StressRecord>, end: int, target: real) returns (t: Option<int>)
    ensures t == RecoveryTime(post, end, target)
  {
    t := None;
    var i := 0;
    while i < |post|
      invariant 0 <= i <= |post|
      invariant forall j :: 0 <= j < i ==> post[j].stressLevel as real > target
    {
      if post[i].stressLevel as real <= target {
        t := Some(MinutesAfter(end, post[i].timestamp));
        break;
      }
      i := i + 1;
    }
  }

  function MaxLevel(s: seq<StressRecord>): (m: int)
    requires s != []
    ensures forall i :: 0 <= i < |s| ==> s[i].stressLevel <= m
    ensures exists i :: 0 <= i < |s| && s[i].stressLevel == m
  {
    if |s| == 1 then s[0].stressLevel
    else
      var m := MaxLevel(s[..|s| - 1]);
      assert forall i :: 0 <= i < |s| - 1 ==> s[..|s| - 1][i] == s[i];
      if s[|s| - 1].stressLevel > m then s[|s| - 1].stressLevel else m
  }

  /** The positive levels in the half hour before `end`, in sample order. */
  function PreValues(sorted: seq<StressRecord>, end: int): (r: seq<int>)
    ensures |r| <= |sorted|
    ensures forall v :: v in r ==> exists i :: 0 <= i < |sorted| && InPreWindow(sorted[i], end) && sorted[i].stressLevel == v
    ensures r == Map(Filter(sorted, PreWindowAt(end)), Level)
  {
    if sorted == [] then []
    else
      var init := sorted[..|sorted| - 1];
      var last := sorted[|sorted| - 1];
      MapSnoc(Filter(init, PreWindowAt(end)), last, Level);
      PreValues(init, end) + (if InPreWindow(last, end) then [last.stressLevel] else [])
  }

  /** The positive samples of the two hours from `end`, in sample order. */
  function PostRecords(sorted: seq<StressRecord>, end: int): (r: seq<StressRecord>)
    ensures |r| <= |sorted|
    ensures forall x :: x in r <==> x in sorted && InPostWindow(x, end)
    ensures r == Filter(sorted, PostWindowAt(end))
  {
    if sorted == [] then []
    else
      var last := sorted[|sorted| - 1];
      PostRecords(sorted[..|sorted| - 1], end) + (if InPostWindow(last, end) then [last] else [])
  }

  /** The mean level before the end, or the baseline when there was no sample. */
  function PreActivityStress(pre: seq<int>, baseline: real): real
  {
    if pre != [] then IntMean(pre) else baseline
  }

  /** Selecting the window keeps the samples in time order. */
  lemma {:induction false} PostRecordsSorted(sorted: seq<StressRecord>, end: int)
    requires SortedBy(sorted, Timestamp)
    ensures SortedBy(PostRecords(sorted, end), Timestamp)
  {
    if sorted != [] {
      var init := sorted[..|sorted| - 1];
      var last := sorted[|sorted| - 1];
      assert SortedBy(init, Timestamp);
      PostRecordsSorted(init, end);
      forall x | x in PostRecords(init, end)
        ensures x.timestamp <= last.timestamp
      {
        var k :| 0 <= k < |init| && init[k] == x;
        assert sorted[k] == x;
      }
    }
  }

  /**
   * The stress load of the recovery window over samples that are already in that window and in
   * time order: `_calculate_stress_load` then keeps and orders all of them, so its total is
   * the sum over the samples themselves.
   */
  lemma RecoveryWindowLoad(post: seq<StressRecord>, end: int)
    requires SortedBy(post, Timestamp)
    requires forall i :: 0 <= i < |post| ==> InPostWindow(post[i], end)
    ensures StressLoad(post, end, end + RECOVERY_WINDOW_SECONDS).totalLoad == LoadUpTo(post, |post|) / 60.0
  {
    FilterAll(post, r => InLoadWindow(r, end, end + RECOVERY_WINDOW_SECONDS));
    SortBySorted(post, Timestamp);
    assert LoadWindow(post, end, end + RECOVERY_WINDOW_SECONDS) == post;
  }

  /** The pattern built from the samples around an activity that ended at `end`. */
  function PatternFrom(a: ActivityRecord, end: int, pre: seq<int>, post: seq<StressRecord>, baseline: real)
    : PostActivityStressPattern
    requires post != []
  {
    PostActivityStressPattern(
      a.activityId, a.sport, end,
      PreActivityStress(pre, baseline),
      MaxLevel(post) as real,
      LoadUpTo(post, |post|) / 60.0,
      RecoveryTime(post, end, baseline + RECOVERY_THRESHOLD_BUFFER))
  }

  /** The pattern of one activity against the time-sorted samples, or `None` when it is skipped. */
  function RecoveryPattern(a: ActivityRecord, sorted: seq<StressRecord>, baseline: real)
    : Option<PostActivityStressPattern>
  {
    if a.duration.None? then None
    else
      var end := ActivityEnd(a);
      var post := PostRecords(sorted, end);
      if post == [] then None
      else Some(PatternFrom(a, end, PreValues(sorted, end), post, baseline))
  }

  function CollectPatterns(activities: seq<ActivityRecord>, sorted: seq<StressRecord>, baseline: real)
    : seq<PostActivityStressPattern>
  {
    if activities == [] then []
    else
      var rest := CollectPatterns(activities[..|activities| - 1], sorted, baseline);
      match RecoveryPattern(activities[|activities| - 1], sorted, baseline)
      case Some(p) => rest + [p]
      case None => rest
  }

  /** `_analyze_post_activity_recovery` before rounding. */
  function PostActivityPatterns(activities: seq<ActivityRecord>, stressRecords: seq<StressRecord>, baseline: real)
    : seq<PostActivityStressPattern>
  {
    if activities == [] || stressRecords == [] then []
    else CollectPatterns(activities, SortBy(stressRecords, Timestamp), baseline)
  }

  /** `RecoveryPattern` for an activity that yields one, in terms of its end. */
  lemma RecoveryPatternIs(a: ActivityRecord, sorted: seq<StressRecord>, baseline: real, end: int)
    requires a.duration.Some? && end == ActivityEnd(a)
    requires PostRecords(sorted, end) != []
    ensures RecoveryPattern(a, sorted, baseline)
      == Some(PatternFrom(a, end, PreValues(sorted, end), PostRecords(sorted, end), baseline))
  {
  }

  /** The body of the loop of `_analyze_post_activity_recovery` for one activity. */
  method AnalyzeActivity(activity: ActivityRecord, sortedStress: seq<StressRecord>, baseline: real)
    returns (p: Option<PostActivityStressPattern>)
    requires SortedBy(sortedStress, Timestamp)
    ensures p == RecoveryPattern(activity, sortedStress, baseline)
  {
    if activity.duration.None? {
      return None;
    }
    var endTime := ActivityEnd(activity);
    var preStressValues := PreValues(sortedStress, endTime);
    var postRecords := PostRecords(sortedStress, endTime);
    if postRecords == [] {
      return None;
    }
    PostRecordsSorted(sortedStress, endTime);
    assert forall i :: 0 <= i < |postRecords| ==> InPostWindow(postRecords[i], endTime) by {
      forall i | 0 <= i < |postRecords|
        ensures InPostWindow(postRecords[i], endTime)
      {
        assert postRecords[i] in postRecords;
      }
    }
    var pattern := MeasureRecovery(activity, endTime, preStressValues, postRecords, baseline);
    RecoveryPatternIs(activity, sortedStress, baseline, endTime);
    p := Some(pattern);
  }

  /** The averages, the peak, the load and the recovery time around one activity. */
  method MeasureRecovery(activity: ActivityRecord, endTime: int, preStressValues: seq<int>,
                         postRecords: seq<StressRecord>, baseline: real)
    returns (pattern: PostActivityStressPattern)
    requires postRecords != [] && SortedBy(postRecords, Timestamp)
    requires forall i :: 0 <= i < |postRecords| ==> InPostWindow(postRecords[i], endTime)
    ensures pattern == PatternFrom(activity, endTime, preStressValues, postRecords, baseline)
  {
    var preActivityStress := PreActivityStress(preStressValues, baseline);
    var peakPostStress := MaxLevel(postRecords);
    var recoveryLoad := CalculateStressLoad(postRecords, endTime, endTime + RECOVERY_WINDOW_SECONDS);
    RecoveryWindowLoad(postRecords, endTime);
    var recoveryTime := FindRecoveryTime(postRecords, endTime, baseline + RECOVERY_THRESHOLD_BUFFER);
    pattern := PostActivityStressPattern(
      activity.activityId, activity.sport, endTime, preActivityStress,
      peakPostStress as real, recoveryLoad.totalLoad, recoveryTime);
  }

  method AnalyzePostActivityRecovery(activities: seq<ActivityRecord>, stressRecords: seq<StressRecord>, baseline: real)
    returns (patterns: seq<PostActivityStressPattern>)
    ensures patterns == PostActivityPatterns(activities, stressRecords, baseline)
  {
    if activities == [] || stressRecords == [] {
      return [];
    }
    var sortedStress := SortBy(stressRecords, Timestamp);
    patterns := [];
    for i := 0 to |activities|
      invariant patterns == CollectPatterns(activities[..i], sortedStress, baseline)
    {
      assert activities[..i + 1][..i] == activities[..i];
      var pattern := AnalyzeActivity(activities[i], sortedStress, baseline);
      if pattern.Some? {
        patterns := patterns + [pattern.value];
      }
    }
    assert activities[..|activities|] == activities;
  }

  /**
   * An activity yields a pattern exactly when it has a duration and some positive sample lies in
   * its recovery window; the pattern records that activity and its end.
   */
  lemma RecoveryPatternExists(a: ActivityRecord, sorted: seq<StressRecord>, baseline: real)
    ensures RecoveryPattern(a, sorted, baseline).Some?
      <==> (a.duration.Some? && exists i :: 0 <= i < |sorted| && InPostWindow(sorted[i], ActivityEnd(a)))
    ensures RecoveryPattern(a, sorted, baseline).Some? ==>
      var p := RecoveryPattern(a, sorted, baseline).value;
      p.activityId == a.activityId && p.activitySport == a.sport && p.activityEndTime == ActivityEnd(a)
  {
    if a.duration.Some? {
      var end := ActivityEnd(a);
      var post := PostRecords(sorted, end);
      if post != [] {
        assert post[0] in post;
        var k :| 0 <= k < |sorted| && sorted[k] == post[0];
        assert InPostWindow(sorted[k], end);
        RecoveryPatternIs(a, sorted, baseline, end);
      }
      if exists i :: 0 <= i < |sorted| && InPostWindow(sorted[i], end) {
        var i :| 0 <= i < |sorted| && InPostWindow(sorted[i], end);
        assert sorted[i] in post;
      }
    }
  }

  /**
   * The recovery time of a pattern is absent exactly when every sample of the window stays above
   * baseline + 5, and otherwise is a whole number of minutes within the two-hour window.
   */
  lemma RecoveryTimeShape(a: ActivityRecord, sorted: seq<StressRecord>, baseline: real)
    requires RecoveryPattern(a, sorted, baseline).Some?
    ensures var t := RecoveryPattern(a, sorted, baseline).value.recoveryTimeMinutes;
      (t.None? <==> forall r :: r in sorted && InPostWindow(r, ActivityEnd(a)) ==>
                      r.stressLevel as real > baseline + RECOVERY_THRESHOLD_BUFFER)
      && (t.Some? ==> 0 <= t.value <= RECOVERY_WINDOW_HOURS * 60)
  {
    var end := ActivityEnd(a);
    var post := PostRecords(sorted, end);
    RecoveryPatternIs(a, sorted, baseline, end);
    var target := baseline + RECOVERY_THRESHOLD_BUFFER;
    SelectionAllAbove(post, sorted, end, target);
    PostRecordsInWindow(sorted, end);
    RecoveryTimeInWindow(post, end, target);
  }

  lemma PostRecordsInWindow(sorted: seq<StressRecord>, end: int)
    ensures forall i :: 0 <= i < |PostRecords(sorted, end)| ==> InPostWindow(PostRecords(sorted, end)[i], end)
  {
    var post := PostRecords(sorted, end);
    forall i | 0 <= i < |post|
      ensures InPostWindow(post[i], end)
    {
      assert post[i] in post;
    }
  }

  /**
   * Every sample of the window stays above `target` exactly when every selected one does, for
   * any selection holding exactly the window's samples.
   */
  lemma SelectionAllAbove(post: seq<StressRecord>, sorted: seq<StressRecord>, end: int, target: real)
    requires forall x :: x in post <==> x in sorted && InPostWindow(x, end)
    ensures (forall i :: 0 <= i < |post| ==> post[i].stressLevel as real > target)
      <==> (forall r :: r in sorted && InPostWindow(r, end) ==> r.stressLevel as real > target)
  {
    AllAboveByIndex(post, target);
    if forall x :: x in post ==> x.stressLevel as real > target {
      forall r | r in sorted && InPostWindow(r, end)
        ensures r.stressLevel as real > target
      {
        assert r in post;
      }
    } else {
      var x :| x in post && x.stressLevel as real <= target;
      assert x in sorted && InPostWindow(x, end);
    }
  }

  lemma AllAboveByIndex(s: seq<StressRecord>, target: real)
    ensures (forall i :: 0 <= i < |s| ==> s[i].stressLevel as real > target)
      <==> (forall x :: x in s ==> x.stressLevel as real > target)
  {
    if forall i :: 0 <= i < |s| ==> s[i].stressLevel as real > target {
      forall x | x in s
        ensures x.stressLevel as real > target
      {
        var k :| 0 <= k < |s| && s[k] == x;
      }
    }
  }

  /** A recovery time measured inside the window is between 0 and 120 minutes. */
  lemma RecoveryTimeInWindow(post: seq<StressRecord>, end: int, target: real)
    requires forall i :: 0 <= i < |post| ==> InPostWindow(post[i], end)
    ensures RecoveryTime(post, end, target).Some? ==>
      0 <= RecoveryTime(post, end, target).value <= RECOVERY_WINDOW_HOURS * 60
  {
    var t := RecoveryTime(post, end, target);
    if t.Some? {
      var i :| 0 <= i < |post| && post[i].stressLevel as real <= target
        && (forall j :: 0 <= j < i ==> post[j].stressLevel as real > target)
        && t.value == MinutesAfter(end, post[i].timestamp);
      MinutesInWindow(end, post[i].timestamp);
    }
  }

  lemma MinutesInWindow(end: int, t: int)
    requires end <= t <= end + RECOVERY_WINDOW_SECONDS
    ensures 0 <= MinutesAfter(end, t) <= RECOVERY_WINDOW_HOURS * 60
  {
    var x := (t - end) as real / 60.0;
    assert 0.0 <= x <= 120.0;
  }

  /** Pattern `p` is the one `RecoveryPattern` yields for activity `i`. */
  ghost predicate YieldedBy(activities: seq<ActivityRecord>, sorted: seq<StressRecord>, baseline: real,
                            i: int, p: PostActivityStressPattern)
  {
    0 <= i < |activities| && RecoveryPattern(activities[i], sorted, baseline) == Some(p)
  }

  /** Pattern `p` is the one `RecoveryPattern` yields for one of the activities. */
  ghost predicate FromActivity(activities: seq<ActivityRecord>, sorted: seq<StressRecord>, baseline: real,
                               p: PostActivityStressPattern)
  {
    exists i :: YieldedBy(activities, sorted, baseline, i, p)
  }

  /** A pattern yielded by an activity of a prefix is yielded by the same activity of the whole. */
  lemma FromActivityPrefix(activities: seq<ActivityRecord>, sorted: seq<StressRecord>, baseline: real,
                           n: nat, p: PostActivityStressPattern)
    requires n <= |activities| && FromActivity(activities[..n], sorted, baseline, p)
    ensures FromActivity(activities, sorted, baseline, p)
  {
    var i :| YieldedBy(activities[..n], sorted, baseline, i, p);
    assert activities[..n][i] == activities[i];
    assert YieldedBy(activities, sorted, baseline, i, p);
  }

  /** Every collected pattern is the pattern `RecoveryPattern` yields for one of the activities. */
  lemma {:induction false} CollectedPatternsFrom(activities: seq<ActivityRecord>, sorted: seq<StressRecord>, baseline: real)
    ensures forall k :: 0 <= k < |CollectPatterns(activities, sorted, baseline)| ==>
      FromActivity(activities, sorted, baseline, CollectPatterns(activities, sorted, baseline)[k])
  {
    if activities != [] {
      var last := |activities| - 1;
      CollectedPatternsFrom(activities[..last], sorted, baseline);
      var rest := CollectPatterns(activities[..last], sorted, baseline);
      var ps := CollectPatterns(activities, sorted, baseline);
      forall k | 0 <= k < |ps|
        ensures FromActivity(activities, sorted, baseline, ps[k])
      {
        if k < |rest| {
          FromActivityPrefix(activities, sorted, baseline, last, rest[k]);
        } else {
          assert YieldedBy(activities, sorted, baseline, last, ps[k]);
        }
      }
    }
  }

  /** Every activity for which `RecoveryPattern` yields a pattern has that pattern collected. */
  lemma {:induction false} CollectedPatternsComplete(activities: seq<ActivityRecord>, sorted: seq<StressRecord>, baseline: real)
    ensures forall i :: 0 <= i < |activities| && RecoveryPattern(activities[i], sorted, baseline).Some? ==>
      RecoveryPattern(activities[i], sorted, baseline).value in CollectPatterns(activities, sorted, baseline)
  {
    if activities != [] {
      var init := activities[..|activities| - 1];
      CollectedPatternsComplete(init, sorted, baseline);
      forall i | 0 <= i < |activities| - 1 && RecoveryPattern(activities[i], sorted, baseline).Some?
        ensures RecoveryPattern(activities[i], sorted, baseline).value in CollectPatterns(activities, sorted, baseline)
      {
        assert activities[i] == init[i];
      }
    }
  }

  /** The patterns collected are at most one per activity, each with a recovery time inside the window. */
  lemma {:induction false} CollectedRecoveryBounds(activities: seq<ActivityRecord>, sorted: seq<StressRecord>, baseline: real)
    ensures var ps := CollectPatterns(activities, sorted, baseline);
      |ps| <= |activities|
      && forall k :: 0 <= k < |ps| && ps[k].recoveryTimeMinutes.Some? ==>
           0 <= ps[k].recoveryTimeMinutes.value <= RECOVERY_WINDOW_HOURS * 60
  {
    if activities != [] {
      CollectedRecoveryBounds(activities[..|activities| - 1], sorted, baseline);
      var a := activities[|activities| - 1];
      if RecoveryPattern(a, sorted, baseline).Some? {
        RecoveryTimeShape(a, sorted, baseline);
      }
    }
  }

  /** Samples at 80 five minutes after the end and at 12 fifteen minutes after, baseline 10: 15 minutes. */
  lemma FastRecoveryExample(a: ActivityRecord, records: seq<StressRecord>)
    requires a == ActivityRecord("1", "Run", "running", 39600, Some(3600), None, None, None, None, None, None, None)
    requires records == [StressRecord(43500, 80), StressRecord(44100, 12)]
    ensures var ps := PostActivityPatterns([a], records, 10.0);
      |ps| == 1 && ps[0].recoveryTimeMinutes == Some(15)
  {
    SortBySorted(records, Timestamp);
    FastRecoveryPattern(a, records);
    assert [a][..0] == [];
    assert CollectPatterns([a], records, 10.0) == [RecoveryPattern(a, records, 10.0).value];
  }

  lemma FastRecoveryPattern(a: ActivityRecord, records: seq<StressRecord>)
    requires a == ActivityRecord("1", "Run", "running", 39600, Some(3600), None, None, None, None, None, None, None)
    requires records == [StressRecord(43500, 80), StressRecord(44100, 12)]
    ensures RecoveryPattern(a, records, 10.0).Some?
    ensures RecoveryPattern(a, records, 10.0).value.recoveryTimeMinutes == Some(15)
  {
    assert ActivityEnd(a) == 43200;
    FastRecoveryWindow(records);
    RecoveryPatternIs(a, records, 10.0, 43200);
  }

  lemma FastRecoveryWindow(records: seq<StressRecord>)
    requires records == [StressRecord(43500, 80), StressRecord(44100, 12)]
    ensures PostRecords(records, 43200) == records
    ensures RecoveryTime(records, 43200, 15.0) == Some(15)
  {
    var r0, r1 := records[0], records[1];
    assert InPostWindow(r0, 43200) && InPostWindow(r1, 43200);
    assert records[..1] == [r0];
    assert [r0][..0] == [];
    assert PostRecords([], 43200) == [];
    assert PostRecords([r0], 43200) == [r0];
    assert PostRecords(records, 43200) == PostRecords([r0], 43200) + [r1];
    assert MinutesAfter(43200, 44100) == 15 by {
      assert (44100 - 43200) as real / 60.0 == 15.0;
    }
    assert records[1..] == [r1];
    assert RecoveryTime([r1], 43200, 15.0) == Some(15);
  }

  // ----- recovery efficiency -----

  /** A pattern's recovery minutes, counting "no recovery" as the whole 120-minute window. */
  function RecoveryMinutesOrMax(p: PostActivityStressPattern): int
  {
    if p.recoveryTimeMinutes.Some? then p.recoveryTimeMinutes.value else RECOVERY_WINDOW_HOURS * 60
  }

  /** `_calculate_recovery_efficiency` before rounding: 100 for instant recovery, 0 for none. */
  function RecoveryEfficiency(patterns: seq<PostActivityStressPattern>): (e: Option<real>)
    ensures e.None? <==> patterns == []
    ensures e.Some? ==> 0.0 <= e.value <= 100.0
  {
    if patterns == [] then None
    else
      var maxRecovery := (RECOVERY_WINDOW_HOURS * 60) as real;
      var avgRecovery := IntMean(Map(patterns, RecoveryMinutesOrMax));
      var efficiency := 100.0 - (avgRecovery / maxRecovery) * 100.0;
      Some(Clamp(efficiency, 0.0, 100.0))
  }

  /** One recovery in 30 minutes and one that never came average 75 minutes: 37.5. */
  lemma RecoveryEfficiencyExample(p1: PostActivityStressPattern, p2: PostActivityStressPattern)
    requires p1.recoveryTimeMinutes == Some(30) && p2.recoveryTimeMinutes.None?
    ensures RecoveryEfficiency([p1, p2]) == Some(37.5)
  {
    var times := Map([p1, p2], RecoveryMinutesOrMax);
    assert times == [30, 120];
    assert IntSum(times) == 150 by {
      assert times[..1] == [30];
      assert IntSum([30]) == 30;
    }
  }

  /**
   * Recovery times within the window make the clamp unnecessary, and the score is then the
   * window's unused share: every recovery at once gives 100, none at all gives 0.
   */
  lemma RecoveryEfficiencyExtremes(patterns: seq<PostActivityStressPattern>)
    requires patterns != []
    ensures (forall i :: 0 <= i < |patterns| ==> patterns[i].recoveryTimeMinutes == Some(0))
      ==> RecoveryEfficiency(patterns) == Some(100.0)
    ensures (forall i :: 0 <= i < |patterns| ==> patterns[i].recoveryTimeMinutes.None?)
      ==> RecoveryEfficiency(patterns) == Some(0.0)
  {
    var times := Map(patterns, RecoveryMinutesOrMax);
    if forall i :: 0 <= i < |patterns| ==> patterns[i].recoveryTimeMinutes == Some(0) {
      IntMeanBounds(times, 0.0, 0.0);
    }
    if forall i :: 0 <= i < |patterns| ==> patterns[i].recoveryTimeMinutes.None? {
      IntMeanBounds(times, 120.0, 120.0);
    }
  }

  // ----- insights -----

  const WORKDAY_NAMES: seq<string> := ["Monday", "Tuesday", "Wednesday", "Thursday", "Friday"]
  const WEEKEND_NAMES: seq<string> := ["Saturday", "Sunday"]
  const HIGH_DAILY_LOAD: real := 500.0
  const POOR_EFFICIENCY: real := 50.0
  const EXCELLENT_EFFICIENCY: real := 80.0
  const OCCUPATIONAL_RATIO: real := 1.45
  const WORK_START_HOUR: int := 9
  const WORK_END_HOUR: int := 17
  const SLOW_RECOVERY_MINUTES: real := 90.0

  /** `(period_end - period_start).days + 1`. */
  function DaysInPeriod(r: StressAnalysisResult): int
  {
    r.periodEnd - r.periodStart + 1
  }

  /** What `_generate_insights` needs to divide the load by the number of days. */
  predicate InsightsDefined(r: StressAnalysisResult)
  {
    r.stressLoad.totalLoad > 0.0 ==> DaysInPeriod(r) != 0
  }

  const HIGH_LOAD_INSIGHT_TEMPLATE := "Average daily stress load of {} points is elevated."

  function HighLoadInsight(r: StressAnalysisResult): Option<Insight>
    requires InsightsDefined(r)
  {
    if r.stressLoad.totalLoad > 0.0 && r.stressLoad.totalLoad / DaysInPeriod(r) as real > HIGH_DAILY_LOAD then
      var daily := r.stressLoad.totalLoad / DaysInPeriod(r) as real;
      Some(Insight("High Cumulative Stress",
        Text(HIGH_LOAD_INSIGHT_TEMPLATE, [daily]),
        Warning, "stress", map["daily_avg_load" := Num(daily)],
        ["Schedule regular breaks during high-stress hours", "Practice breathing exercises",
         "Consider reducing commitments if possible"]))
    else None
  }

  /** `eff < 50` and `eff >= 80` are the two arms of one `if`/`elif`. */
  function EfficiencyInsight(r: StressAnalysisResult): Option<Insight>
  {
    if r.recoveryEfficiency.None? then None
    else
      var eff := r.recoveryEfficiency.value;
      if eff < POOR_EFFICIENCY then
        Some(Insight("Poor Stress Recovery", Text("Recovery efficiency of {}% is low.", [eff]),
          Warning, "stress", map["efficiency" := Num(eff)],
          ["Ensure adequate sleep before activities", "Consider reducing training intensity",
           "Allow more rest between sessions"]))
      else if eff >= EXCELLENT_EFFICIENCY then
        Some(Insight("Excellent Stress Resilience", Text("Recovery efficiency: {}%.", [eff]),
          Positive, "stress", map["efficiency" := Num(eff)], []))
      else None
  }

  /** `weekday_avg.get(d, 0)`. */
  function DayAverage(m: map<string, real>, d: string): real
  {
    if d in m then m[d] else 0.0
  }

  /** `weekday_avg.get(d, 0)` for a fixed map, as a function of the name. */
  function AverageIn(m: map<string, real>): string -> real
  {
    d => DayAverage(m, d)
  }

  predicate PositiveAverage(v: real)
  {
    v > 0.0
  }

  /** `[weekday_avg.get(d, 0) for d in names if weekday_avg.get(d, 0) > 0]`. */
  function PositiveAverages(m: map<string, real>, names: seq<string>): (r: seq<real>)
    ensures |r| <= |names|
    ensures forall i :: 0 <= i < |r| ==> r[i] > 0.0
    ensures r == [] <==> forall i :: 0 <= i < |names| ==> DayAverage(m, names[i]) <= 0.0
  {
    if names == [] then []
    else
      var init := names[..|names| - 1];
      var v := DayAverage(m, names[|names| - 1]);
      var r := PositiveAverages(m, init);
      assert forall i :: 0 <= i < |init| ==> init[i] == names[i];
      r + (if v > 0.0 then [v] else [])
  }

  /** The list is `weekday_avg.get(d, 0)` over the names, in name order, keeping the positive ones. */
  lemma {:induction false} PositiveAveragesSelects(m: map<string, real>, names: seq<string>)
    ensures PositiveAverages(m, names) == Filter(Map(names, AverageIn(m)), PositiveAverage)
  {
    if names != [] {
      var init := names[..|names| - 1];
      PositiveAveragesSelects(m, init);
      MapSnoc(init, names[|names| - 1], AverageIn(m));
      FilterSnoc(Map(init, AverageIn(m)), DayAverage(m, names[|names| - 1]), PositiveAverage);
    }
  }

  function OccupationalInsight(r: StressAnalysisResult): Option<Insight>
  {
    var work := PositiveAverages(r.weekdayAvg, WORKDAY_NAMES);
    var weekend := PositiveAverages(r.weekdayAvg, WEEKEND_NAMES);
    if |r.weekdayAvg| > 0 && work != [] && weekend != []
       && Mean(weekend) > 0.0 && Mean(work) > Mean(weekend) * OCCUPATIONAL_RATIO then
      Some(Insight("Occupational Stress Detected",
        Text("Weekday stress ({}) > weekend ({}).", [Mean(work), Mean(weekend)]),
        Info, "stress", map["workday_avg" := Num(Mean(work)), "weekend_avg" := Num(Mean(weekend))],
        ["Review work-life balance", "Take micro-breaks during work hours"]))
    else None
  }

  function WorkPeakInsight(r: StressAnalysisResult): Option<Insight>
  {
    if r.peakStressTime.Some? && WORK_START_HOUR <= r.peakStressTime.value <= WORK_END_HOUR then
      var h := r.peakStressTime.value;
      Some(Insight("Work Hours Stress Peak", Text("Peak stress at {}:00.", [h as real]),
        Info, "stress", map["peak_hour" := Num(h as real)],
        ["Schedule demanding tasks during lower-stress periods",
         "Take a walk during peak stress hours"]))
    else None
  }

  function SlowRecoveryInsight(r: StressAnalysisResult): Option<Insight>
  {
    if r.avgRecoveryTimeMinutes.Some? && r.avgRecoveryTimeMinutes.value > SLOW_RECOVERY_MINUTES then
      var avg := r.avgRecoveryTimeMinutes.value;
      Some(Insight("Slow Autonomic Recovery", Text("Average recovery time: {} min.", [avg]),
        Warning, "stress", map["avg_recovery_min" := Num(avg)],
        ["Prioritize sleep quality", "Consider recovery-focused activities (yoga, meditation)",
         "Reduce training load temporarily"]))
    else None
  }

  predicate NotRecovered(p: PostActivityStressPattern)
  {
    p.recoveryTimeMinutes.None?
  }

  predicate Recovered(p: PostActivityStressPattern)
  {
    p.recoveryTimeMinutes.Some?
  }

  /** `p.recovery_time_minutes`, read where it is present. */
  function RecoveryMinutes(p: PostActivityStressPattern): int
  {
    p.recoveryTimeMinutes.GetOr(0)
  }

  /** The sports of the given patterns, as a set (`set(p.activity_sport for p in ...)`). */
  function Sports(ps: seq<PostActivityStressPattern>): (s: set<string>)
    ensures forall x :: x in s <==> exists i :: 0 <= i < |ps| && ps[i].activitySport == x
  {
    if ps == [] then {}
    else
      var init := ps[..|ps| - 1];
      assert forall i :: 0 <= i < |init| ==> init[i] == ps[i];
      Sports(init) + {ps[|ps| - 1].activitySport}
  }

  function IncompleteRecoveryInsight(r: StressAnalysisResult): Option<Insight>
  {
    var incomplete := Filter(r.postActivityPatterns, NotRecovered);
    if incomplete != [] then
      Some(Insight("Incomplete Post-Activity Recovery",
        Text("{} activities without full recovery.", [|incomplete| as real]),
        Alert, "stress", map["count" := Num(|incomplete| as real), "sports" := Names(Sports(incomplete))],
        ["Monitor for signs of overtraining", "Ensure adequate nutrition post-activity",
         "Consider longer cool-down periods"]))
    else None
  }

  /** `_generate_insights`: the rules in the order the source checks them. */
  function StressInsights(r: StressAnalysisResult): seq<Insight>
    requires InsightsDefined(r)
  {
    Fired(HighLoadInsight(r)) + Fired(EfficiencyInsight(r)) + Fired(OccupationalInsight(r))
    + Fired(WorkPeakInsight(r)) + Fired(SlowRecoveryInsight(r)) + Fired(IncompleteRecoveryInsight(r))
  }

  /** The list-appending form of `_generate_insights`. */
  method GenerateInsights(r: StressAnalysisResult) returns (insights: seq<Insight>)
    requires InsightsDefined(r)
    ensures insights == StressInsights(r)
  {
    insights := [];
    insights := AppendFired(insights, HighLoadInsight(r));
    assert insights == Fired(HighLoadInsight(r));
    insights := AppendFired(insights, EfficiencyInsight(r));
    insights := AppendFired(insights, OccupationalInsight(r));
    insights := AppendFired(insights, WorkPeakInsight(r));
    insights := AppendFired(insights, SlowRecoveryInsight(r));
    insights := AppendFired(insights, IncompleteRecoveryInsight(r));
  }

  /** The titles of the insights, rule by rule. */
  lemma InsightTitles(r: StressAnalysisResult)
    requires InsightsDefined(r)
    ensures Titles(StressInsights(r)) ==
      FiredTitle(HighLoadInsight(r)) + FiredTitle(EfficiencyInsight(r)) + FiredTitle(OccupationalInsight(r))
      + FiredTitle(WorkPeakInsight(r)) + FiredTitle(SlowRecoveryInsight(r)) + FiredTitle(IncompleteRecoveryInsight(r))
  {
    var f1, f2, f3 := Fired(HighLoadInsight(r)), Fired(EfficiencyInsight(r)), Fired(OccupationalInsight(r));
    var f4, f5, f6 := Fired(WorkPeakInsight(r)), Fired(SlowRecoveryInsight(r)), Fired(IncompleteRecoveryInsight(r));
    TitlesConcat(f1, f2);
    TitlesConcat(f1 + f2, f3);
    TitlesConcat(f1 + f2 + f3, f4);
    TitlesConcat(f1 + f2 + f3 + f4, f5);
    TitlesConcat(f1 + f2 + f3 + f4 + f5, f6);
    FiredTitles(HighLoadInsight(r));
    FiredTitles(EfficiencyInsight(r));
    FiredTitles(OccupationalInsight(r));
    FiredTitles(WorkPeakInsight(r));
    FiredTitles(SlowRecoveryInsight(r));
    FiredTitles(IncompleteRecoveryInsight(r));
  }

  predicate HighLoadCondition(r: StressAnalysisResult)
    requires InsightsDefined(r)
  {
    r.stressLoad.totalLoad > 0.0 && r.stressLoad.totalLoad / DaysInPeriod(r) as real > HIGH_DAILY_LOAD
  }

  predicate OccupationalCondition(r: StressAnalysisResult)
  {
    var work := PositiveAverages(r.weekdayAvg, WORKDAY_NAMES);
    var weekend := PositiveAverages(r.weekdayAvg, WEEKEND_NAMES);
    work != [] && weekend != [] && Mean(work) > Mean(weekend) * OCCUPATIONAL_RATIO
  }

  /** A positive average is read from a present key, so the dictionary is not empty. */
  lemma PositiveAveragesFromMap(m: map<string, real>, names: seq<string>)
    requires PositiveAverages(m, names) != []
    ensures |m| > 0
    ensures Mean(PositiveAverages(m, names)) > 0.0
  {
    var r := PositiveAverages(m, names);
    assert exists i :: 0 <= i < |names| && DayAverage(m, names[i]) > 0.0;
    var i :| 0 <= i < |names| && DayAverage(m, names[i]) > 0.0;
    KeyMakesNonEmpty(m, names[i]);
    SumPositive(r);
    MeanOfPositiveSum(r);
  }

  lemma KeyMakesNonEmpty(m: map<string, real>, d: string)
    requires DayAverage(m, d) > 0.0
    ensures |m| > 0
  {
    assert d in m.Keys;
  }

  lemma MeanOfPositiveSum(s: seq<real>)
    requires s != [] && Sum(s) > 0.0
    ensures Mean(s) > 0.0
  {
  }

  lemma {:induction false} SumPositive(s: seq<real>)
    requires s != [] && forall i :: 0 <= i < |s| ==> s[i] > 0.0
    ensures Sum(s) > 0.0
  {
    if |s| > 1 {
      SumPositive(s[..|s| - 1]);
    }
  }

  lemma HighLoadTitle(r: StressAnalysisResult)
    requires InsightsDefined(r)
    ensures FiredTitle(HighLoadInsight(r)) == if HighLoadCondition(r) then ["High Cumulative Stress"] else []
  {
  }

  lemma EfficiencyTitle(r: StressAnalysisResult)
    ensures FiredTitle(EfficiencyInsight(r)) ==
      if r.recoveryEfficiency.Some? && r.recoveryEfficiency.value < POOR_EFFICIENCY then ["Poor Stress Recovery"]
      else if r.recoveryEfficiency.Some? && r.recoveryEfficiency.value >= EXCELLENT_EFFICIENCY then ["Excellent Stress Resilience"]
      else []
  {
  }

  lemma OccupationalTitle(r: StressAnalysisResult)
    ensures FiredTitle(OccupationalInsight(r)) ==
      if OccupationalCondition(r) then ["Occupational Stress Detected"] else []
  {
    if PositiveAverages(r.weekdayAvg, WEEKEND_NAMES) != [] {
      PositiveAveragesFromMap(r.weekdayAvg, WEEKEND_NAMES);
    }
  }

  lemma WorkPeakTitle(r: StressAnalysisResult)
    ensures FiredTitle(WorkPeakInsight(r)) ==
      if r.peakStressTime.Some? && WORK_START_HOUR <= r.peakStressTime.value <= WORK_END_HOUR
      then ["Work Hours Stress Peak"] else []
  {
  }

  lemma SlowRecoveryTitle(r: StressAnalysisResult)
    ensures FiredTitle(SlowRecoveryInsight(r)) ==
      if r.avgRecoveryTimeMinutes.Some? && r.avgRecoveryTimeMinutes.value > SLOW_RECOVERY_MINUTES
      then ["Slow Autonomic Recovery"] else []
  {
  }

  lemma IncompleteTitle(r: StressAnalysisResult)
    ensures FiredTitle(IncompleteRecoveryInsight(r)) ==
      if SomeNotRecovered(r.postActivityPatterns)
      then ["Incomplete Post-Activity Recovery"] else []
  {
    var incomplete := Filter(r.postActivityPatterns, NotRecovered);
    if exists i :: 0 <= i < |r.postActivityPatterns| && NotRecovered(r.postActivityPatterns[i]) {
      var i :| 0 <= i < |r.postActivityPatterns| && NotRecovered(r.postActivityPatterns[i]);
      assert r.postActivityPatterns[i] in incomplete;
    }
    if incomplete != [] {
      assert incomplete[0] in incomplete;
    }
  }

  /** The titles the six rules contribute, given which of their conditions hold. */
  function RuleTitles(high: bool, poor: bool, excellent: bool, occupational: bool,
                      workPeak: bool, slow: bool, incomplete: bool): seq<string>
  {
    (if high then ["High Cumulative Stress"] else [])
    + (if poor then ["Poor Stress Recovery"] else if excellent then ["Excellent Stress Resilience"] else [])
    + (if occupational then ["Occupational Stress Detected"] else [])
    + (if workPeak then ["Work Hours Stress Peak"] else [])
    + (if slow then ["Slow Autonomic Recovery"] else [])
    + (if incomplete then ["Incomplete Post-Activity Recovery"] else [])
  }

  predicate SomeNotRecovered(ps: seq<PostActivityStressPattern>)
  {
    exists i :: 0 <= i < |ps| && NotRecovered(ps[i])
  }

  /** The insight titles are those of the rules whose conditions hold, in rule order. */
  lemma StressTitles(r: StressAnalysisResult)
    requires InsightsDefined(r)
    ensures Titles(StressInsights(r)) == RuleTitles(HighLoadCondition(r),
      r.recoveryEfficiency.Some? && r.recoveryEfficiency.value < POOR_EFFICIENCY,
      r.recoveryEfficiency.Some? && r.recoveryEfficiency.value >= EXCELLENT_EFFICIENCY,
      OccupationalCondition(r),
      r.peakStressTime.Some? && WORK_START_HOUR <= r.peakStressTime.value <= WORK_END_HOUR,
      r.avgRecoveryTimeMinutes.Some? && r.avgRecoveryTimeMinutes.value > SLOW_RECOVERY_MINUTES,
      SomeNotRecovered(r.postActivityPatterns))
  {
    InsightTitles(r);
    HighLoadTitle(r);
    EfficiencyTitle(r);
    OccupationalTitle(r);
    WorkPeakTitle(r);
    SlowRecoveryTitle(r);
    IncompleteTitle(r);
  }

  /** The rule titles of a result, with the membership facts of `RuleTitlesMembership`. */
  lemma RuleTitlesFor(r: StressAnalysisResult)
    requires InsightsDefined(r)
    ensures var e, pk, av := r.recoveryEfficiency, r.peakStressTime, r.avgRecoveryTimeMinutes;
      var t := RuleTitles(HighLoadCondition(r), e.Some? && e.value < POOR_EFFICIENCY,
        e.Some? && e.value >= EXCELLENT_EFFICIENCY, OccupationalCondition(r),
        pk.Some? && WORK_START_HOUR <= pk.value <= WORK_END_HOUR,
        av.Some? && av.value > SLOW_RECOVERY_MINUTES, SomeNotRecovered(r.postActivityPatterns));
      && ("High Cumulative Stress" in t <==> HighLoadCondition(r))
      && ("Poor Stress Recovery" in t <==> e.Some? && e.value < POOR_EFFICIENCY)
      && ("Excellent Stress Resilience" in t <==> e.Some? && e.value >= EXCELLENT_EFFICIENCY)
      && ("Occupational Stress Detected" in t <==> OccupationalCondition(r))
      && ("Work Hours Stress Peak" in t <==> pk.Some? && WORK_START_HOUR <= pk.value <= WORK_END_HOUR)
      && ("Slow Autonomic Recovery" in t <==> av.Some? && av.value > SLOW_RECOVERY_MINUTES)
      && ("Incomplete Post-Activity Recovery" in t <==> SomeNotRecovered(r.postActivityPatterns))
  {
    var e, pk, av := r.recoveryEfficiency, r.peakStressTime, r.avgRecoveryTimeMinutes;
    RuleTitlesMembership(RuleTitles(HighLoadCondition(r), e.Some? && e.value < POOR_EFFICIENCY,
        e.Some? && e.value >= EXCELLENT_EFFICIENCY, OccupationalCondition(r),
        pk.Some? && WORK_START_HOUR <= pk.value <= WORK_END_HOUR,
        av.Some? && av.value > SLOW_RECOVERY_MINUTES, SomeNotRecovered(r.postActivityPatterns)),
      HighLoadCondition(r), e.Some? && e.value < POOR_EFFICIENCY,
      e.Some? && e.value >= EXCELLENT_EFFICIENCY, OccupationalCondition(r),
      pk.Some? && WORK_START_HOUR <= pk.value <= WORK_END_HOUR,
      av.Some? && av.value > SLOW_RECOVERY_MINUTES, SomeNotRecovered(r.postActivityPatterns));
  }

  /** The insight is reported exactly for a daily load above 500 per day of the period. */
  lemma HighCumulativeStressRule(r: StressAnalysisResult)
    requires InsightsDefined(r)
    ensures "High Cumulative Stress" in Titles(StressInsights(r)) <==> HighLoadCondition(r)
  {
    StressTitles(r);
    RuleTitlesFor(r);
  }

  /** The insight is reported exactly for a recovery efficiency below 50. */
  lemma PoorStressRecoveryRule(r: StressAnalysisResult)
    requires InsightsDefined(r)
    ensures "Poor Stress Recovery" in Titles(StressInsights(r)) <==>
      r.recoveryEfficiency.Some? && r.recoveryEfficiency.value < POOR_EFFICIENCY
  {
    StressTitles(r);
    RuleTitlesFor(r);
  }

  /** The insight is reported exactly for a recovery efficiency of at least 80. */
  lemma ExcellentResilienceRule(r: StressAnalysisResult)
    requires InsightsDefined(r)
    ensures "Excellent Stress Resilience" in Titles(StressInsights(r)) <==>
      r.recoveryEfficiency.Some? && r.recoveryEfficiency.value >= EXCELLENT_EFFICIENCY
  {
    StressTitles(r);
    RuleTitlesFor(r);
  }

  /** The Poor Stress Recovery and Excellent Stress Resilience insights are never both reported. */
  lemma EfficiencyVerdictsExclusive(r: StressAnalysisResult)
    requires InsightsDefined(r)
    ensures !("Poor Stress Recovery" in Titles(StressInsights(r)) && "Excellent Stress Resilience" in Titles(StressInsights(r)))
  {
    StressTitles(r);
    RuleTitlesFor(r);
  }

  /** The insight is reported exactly for positive workday and weekend averages, workdays above 1.45 times the weekend. */
  lemma OccupationalStressRule(r: StressAnalysisResult)
    requires InsightsDefined(r)
    ensures "Occupational Stress Detected" in Titles(StressInsights(r)) <==> OccupationalCondition(r)
  {
    StressTitles(r);
    RuleTitlesFor(r);
  }

  /** The insight is reported exactly for a peak hour from 09 to 17 inclusive. */
  lemma WorkHoursPeakRule(r: StressAnalysisResult)
    requires InsightsDefined(r)
    ensures "Work Hours Stress Peak" in Titles(StressInsights(r)) <==>
      r.peakStressTime.Some? && WORK_START_HOUR <= r.peakStressTime.value <= WORK_END_HOUR
  {
    StressTitles(r);
    RuleTitlesFor(r);
  }

  /** The insight is reported exactly for an average recovery time above 90 minutes. */
  lemma SlowRecoveryRule(r: StressAnalysisResult)
    requires InsightsDefined(r)
    ensures "Slow Autonomic Recovery" in Titles(StressInsights(r)) <==>
      r.avgRecoveryTimeMinutes.Some? && r.avgRecoveryTimeMinutes.value > SLOW_RECOVERY_MINUTES
  {
    StressTitles(r);
    RuleTitlesFor(r);
  }

  /** The insight is reported exactly for an activity whose stress never returned near the baseline. */
  lemma IncompleteRecoveryRule(r: StressAnalysisResult)
    requires InsightsDefined(r)
    ensures "Incomplete Post-Activity Recovery" in Titles(StressInsights(r)) <==>
      SomeNotRecovered(r.postActivityPatterns)
  {
    StressTitles(r);
    RuleTitlesFor(r);
  }

  /**
   * The incomplete-recovery insight counts the activities without recovery and lists their
   * sports.
   */
  lemma IncompleteRecoveryDataPoints(r: StressAnalysisResult)
    requires SomeNotRecovered(r.postActivityPatterns)
    ensures var o := IncompleteRecoveryInsight(r);
      && o.Some? && o.value.severity == Alert
      && "count" in o.value.dataPoints && "sports" in o.value.dataPoints
      && o.value.dataPoints["count"] == Num(Count(r.postActivityPatterns, NotRecovered) as real)
      && o.value.dataPoints["sports"].Names?
      && forall x :: x in o.value.dataPoints["sports"].names <==>
           exists p :: p in r.postActivityPatterns && NotRecovered(p) && p.activitySport == x
  {
    var incomplete := Filter(r.postActivityPatterns, NotRecovered);
    var i :| 0 <= i < |r.postActivityPatterns| && NotRecovered(r.postActivityPatterns[i]);
    assert r.postActivityPatterns[i] in incomplete;
    forall x
      ensures x in Sports(incomplete) <==>
        exists p :: p in r.postActivityPatterns && NotRecovered(p) && p.activitySport == x
    {
      if exists p :: p in r.postActivityPatterns && NotRecovered(p) && p.activitySport == x {
        var p :| p in r.postActivityPatterns && NotRecovered(p) && p.activitySport == x;
        assert p in incomplete;
      }
    }
  }

  lemma {:induction false} PositiveAveragesConstant(m: map<string, real>, names: seq<string>, c: real)
    requires c > 0.0
    requires forall i :: 0 <= i < |names| ==> names[i] in m && m[names[i]] == c
    ensures |PositiveAverages(m, names)| == |names|
    ensures forall i :: 0 <= i < |names| ==> PositiveAverages(m, names)[i] == c
  {
    if names != [] {
      PositiveAveragesConstant(m, names[..|names| - 1], c);
    }
  }

  /** Weekdays at 50 and a weekend at 20 are flagged as occupational stress. */
  lemma OccupationalExample(r: StressAnalysisResult)
    requires r.weekdayAvg == map["Monday" := 50.0, "Tuesday" := 50.0, "Wednesday" := 50.0,
      "Thursday" := 50.0, "Friday" := 50.0, "Saturday" := 20.0, "Sunday" := 20.0]
    ensures OccupationalCondition(r)
    ensures OccupationalInsight(r).Some?
  {
    var m := r.weekdayAvg;
    PositiveAveragesConstant(m, WORKDAY_NAMES, 50.0);
    PositiveAveragesConstant(m, WEEKEND_NAMES, 20.0);
    MeanConstant(PositiveAverages(m, WORKDAY_NAMES), 50.0);
    MeanConstant(PositiveAverages(m, WEEKEND_NAMES), 20.0);
    PositiveAveragesFromMap(m, WEEKEND_NAMES);
  }

  lemma InSixParts(x: string, t1: seq<string>, t2: seq<string>, t3: seq<string>, t4: seq<string>,
                   t5: seq<string>, t6: seq<string>)
    ensures x in t1 + t2 + t3 + t4 + t5 + t6 <==>
      x in t1 || x in t2 || x in t3 || x in t4 || x in t5 || x in t6
  {
  }

  /** A title is among the rule titles exactly when its own condition holds. */
  lemma RuleTitlesMembership(t: seq<string>, high: bool, poor: bool, excellent: bool, occupational: bool,
                             workPeak: bool, slow: bool, incomplete: bool)
    requires t == RuleTitles(high, poor, excellent, occupational, workPeak, slow, incomplete)
    requires !(poor && excellent)
    ensures "High Cumulative Stress" in t <==> high
    ensures "Poor Stress Recovery" in t <==> poor
    ensures "Excellent Stress Resilience" in t <==> excellent
    ensures "Occupational Stress Detected" in t <==> occupational
    ensures "Work Hours Stress Peak" in t <==> workPeak
    ensures "Slow Autonomic Recovery" in t <==> slow
    ensures "Incomplete Post-Activity Recovery" in t <==> incomplete
  {
    var t1 := if high then ["High Cumulative Stress"] else [];
    var t2 := if poor then ["Poor Stress Recovery"] else if excellent then ["Excellent Stress Resilience"] else [];
    var t3 := if occupational then ["Occupational Stress Detected"] else [];
    var t4 := if workPeak then ["Work Hours Stress Peak"] else [];
    var t5 := if slow then ["Slow Autonomic Recovery"] else [];
    var t6 := if incomplete then ["Incomplete Post-Activity Recovery"] else [];
    assert t == t1 + t2 + t3 + t4 + t5 + t6;
    TitleMembership(t1, t2, t3, t4, t5, t6, high, poor, excellent, occupational, workPeak, slow, incomplete);
  }

  lemma TitleMembership(t1: seq<string>, t2: seq<string>, t3: seq<string>, t4: seq<string>,
                        t5: seq<string>, t6: seq<string>,
                        high: bool, poor: bool, excellent: bool, occupational: bool,
                        workPeak: bool, slow: bool, incomplete: bool)
    requires t1 == if high then ["High Cumulative Stress"] else []
    requires t2 == if poor then ["Poor Stress Recovery"]
                   else if excellent then ["Excellent Stress Resilience"] else []
    requires t3 == if occupational then ["Occupational Stress Detected"] else []
    requires t4 == if workPeak then ["Work Hours Stress Peak"] else []
    requires t5 == if slow then ["Slow Autonomic Recovery"] else []
    requires t6 == if incomplete then ["Incomplete Post-Activity Recovery"] else []
    requires !(poor && excellent)
    ensures var t := t1 + t2 + t3 + t4 + t5 + t6;
      && ("High Cumulative Stress" in t <==> high)
      && ("Poor Stress Recovery" in t <==> poor)
      && ("Excellent Stress Resilience" in t <==> excellent)
      && ("Occupational Stress Detected" in t <==> occupational)
      && ("Work Hours Stress Peak" in t <==> workPeak)
      && ("Slow Autonomic Recovery" in t <==> slow)
      && ("Incomplete Post-Activity Recovery" in t <==> incomplete)
  {
    // The seven titles differ in their first letter.
    assert "High Cumulative Stress"[0] == 'H';
    assert "Poor Stress Recovery"[0] == 'P';
    assert "Excellent Stress Resilience"[0] == 'E';
    assert "Occupational Stress Detected"[0] == 'O';
    assert "Work Hours Stress Peak"[0] == 'W';
    assert "Slow Autonomic Recovery"[0] == 'S';
    assert "Incomplete Post-Activity Recovery"[0] == 'I';
    InSixParts("High Cumulative Stress", t1, t2, t3, t4, t5, t6);
    InSixParts("Poor Stress Recovery", t1, t2, t3, t4, t5, t6);
    InSixParts("Excellent Stress Resilience", t1, t2, t3, t4, t5, t6);
    InSixParts("Occupational Stress Detected", t1, t2, t3, t4, t5, t6);
    InSixParts("Work Hours Stress Peak", t1, t2, t3, t4, t5, t6);
    InSixParts("Slow Autonomic Recovery", t1, t2, t3, t4, t5, t6);
    InSixParts("Incomplete Post-Activity Recovery", t1, t2, t3, t4, t5, t6);
  }

  // ----- the analysis of a period -----

  const TREND_THRESHOLD: real := 3.0

  predicate InPeriod(r: StressRecord, startDate: int, endDate: int)
  {
    startDate <= Day(r.timestamp) <= endDate
  }

  /** `period_records`: the samples dated within `[startDate, endDate]`. */
  function PeriodRecords(records: seq<StressRecord>, startDate: int, endDate: int): seq<StressRecord>
  {
    Filter(records, r => InPeriod(r, startDate, endDate))
  }

  function IsPositive(r: StressRecord): bool
  {
    r.stressLevel > 0
  }

  /** `valid_values`: the positive levels of the period. */
  function ValidValues(period: seq<StressRecord>): seq<int>
  {
    LevelsWhere(period, IsPositive)
  }

  /** The positive levels dated after `endDate - days`: `recent_7d` and `recent_30d`. */
  function RecentValues(period: seq<StressRecord>, endDate: int, days: int): seq<int>
  {
    LevelsWhere(period, (r: StressRecord) => r.stressLevel > 0 && Day(r.timestamp) > endDate - days)
  }

  /**
   * The trend of the seven-day against the thirty-day average: more than three points higher is
   * declining (more stress), more than three lower is improving, anything else, or a missing
   * average, is stable.
   */
  function StressTrend(avg7: Option<real>, avg30: Option<real>): (t: TrendDirection)
    ensures t == Declining <==> avg7.Some? && avg30.Some? && avg7.value - avg30.value > TREND_THRESHOLD
    ensures t == Improving <==> avg7.Some? && avg30.Some? && avg7.value - avg30.value < -TREND_THRESHOLD
  {
    if avg7.Some? && avg30.Some? then
      var diff := avg7.value - avg30.value;
      if diff > TREND_THRESHOLD then Declining
      else if diff < -TREND_THRESHOLD then Improving
      else Stable
    else Stable
  }

  /** `avg_stress_summary` before rounding. */
  function AverageStressSummary(valid: seq<int>, recent7: seq<int>, recent30: seq<int>): MetricSummary
  {
    var avg7 := OptionalMean(recent7);
    var avg30 := OptionalMean(recent30);
    MetricSummary("Average Stress",
      if valid == [] then 0.0 else IntMean(valid),
      "",
      if TruthyReal(avg7) then avg7 else None,
      if TruthyReal(avg30) then avg30 else None,
      if valid == [] then None else Some(SeqMin(Reals(valid))),
      if valid == [] then None else Some(SeqMax(Reals(valid))),
      StressTrend(avg7, avg30),
      None)
  }

  function AvgStressOf(p: HourlyStressPattern): real
  {
    p.avgStress
  }

  function HasSamples(p: HourlyStressPattern): bool
  {
    p.sampleCount > 0
  }

  /** The hour of the first active pattern with the highest average. */
  function PeakStressTime(patterns: seq<HourlyStressPattern>): Option<int>
  {
    var active := Filter(patterns, HasSamples);
    if active == [] then None else Some(active[ArgMaxBy(active, AvgStressOf)].hour)
  }

  /** The hour of the first active pattern with the lowest average. */
  function LowestStressTime(patterns: seq<HourlyStressPattern>): Option<int>
  {
    var active := Filter(patterns, HasSamples);
    if active == [] then None else Some(active[ArgMinBy(active, AvgStressOf)].hour)
  }

  /** `recovery_times`: the recovery times of the activities that recovered, in order. */
  function RecoveryTimes(patterns: seq<PostActivityStressPattern>): (t: seq<int>)
    ensures |t| <= |patterns|
    ensures t == [] <==> forall i :: 0 <= i < |patterns| ==> NotRecovered(patterns[i])
    ensures forall v :: v in t ==> exists i :: 0 <= i < |patterns| && patterns[i].recoveryTimeMinutes == Some(v)
  {
    if patterns == [] then []
    else
      var init := patterns[..|patterns| - 1];
      var last := patterns[|patterns| - 1];
      assert forall i :: 0 <= i < |init| ==> init[i] == patterns[i];
      RecoveryTimes(init) + (if last.recoveryTimeMinutes.Some? then [last.recoveryTimeMinutes.value] else [])
  }

  /** The recovery times are those of exactly the recovered patterns, each once, in order. */
  lemma {:induction false} RecoveryTimesSelects(patterns: seq<PostActivityStressPattern>)
    ensures RecoveryTimes(patterns) == Map(Filter(patterns, Recovered), RecoveryMinutes)
  {
    if patterns != [] {
      var init := patterns[..|patterns| - 1];
      RecoveryTimesSelects(init);
      MapSnoc(Filter(init, Recovered), patterns[|patterns| - 1], RecoveryMinutes);
    }
  }

  /** The positive levels dated on day `d`. */
  function DayValues(period: seq<StressRecord>, d: int): seq<int>
  {
    LevelsWhere(period, (r: StressRecord) => r.stressLevel > 0 && Day(r.timestamp) == d)
  }

  /** `daily_avg` before rounding: every day of the period that has positive samples. */
  function DailyAverages(period: seq<StressRecord>, startDate: int, endDate: int): map<int, real>
  {
    map d | startDate <= d <= endDate && DayValues(period, d) != [] :: IntMean(DayValues(period, d))
  }

  /** The loop of `analyze` that fills `daily_avg`, one day of the period at a time. */
  method CalculateDailyAverages(period: seq<StressRecord>, startDate: int, endDate: int)
    returns (dailyAvg: map<int, real>)
    ensures dailyAvg == DailyAverages(period, startDate, endDate)
  {
    dailyAvg := map[];
    var days := endDate - startDate + 1;
    var d := 0;
    while d < days
      invariant 0 <= d && (d <= days || d == 0)
      invariant dailyAvg ==
        map x | startDate <= x < startDate + d && DayValues(period, x) != [] :: IntMean(DayValues(period, x))
    {
      var currentDate := startDate + d;
      var dayValues := DayValues(period, currentDate);
      if dayValues != [] {
        dailyAvg := dailyAvg[currentDate := IntMean(dayValues)];
      }
      d := d + 1;
    }
    // the days visited are exactly the days of the period, none when it is empty
    assert startDate + d == endDate + 1 || (d == 0 && endDate < startDate);
  }

  /** A sample that satisfies the selection contributes a level. */
  lemma {:induction false} LevelsWhereNonEmpty(s: seq<StressRecord>, p: StressRecord -> bool, k: nat)
    requires k < |s| && p(s[k])
    ensures LevelsWhere(s, p) != []
  {
    if k < |s| - 1 {
      LevelsWhereNonEmpty(s[..|s| - 1], p, k);
    }
  }

  /** The mean of positive levels is positive and lies between their smallest and largest. */
  lemma PositiveMean(values: seq<int>)
    requires values != [] && forall v :: v in values ==> v > 0
    ensures 0.0 < SeqMin(Reals(values)) <= IntMean(values) <= SeqMax(Reals(values))
  {
    var rs := Reals(values);
    IntMeanBounds(values, SeqMin(rs), SeqMax(rs));
    var i :| 0 <= i < |rs| && SeqMin(rs) == rs[i];
    assert values[i] in values;
  }

  predicate HasSampleOn(period: seq<StressRecord>, d: int)
  {
    exists i :: 0 <= i < |period| && period[i].stressLevel > 0 && Day(period[i].timestamp) == d
  }

  /**
   * A day is in `daily_avg` exactly when it lies in the period and has a positive sample; its
   * value is the mean of that day's levels, between their smallest and largest.
   */
  lemma DailyAveragesShape(period: seq<StressRecord>, startDate: int, endDate: int, d: int)
    ensures var avgs := DailyAverages(period, startDate, endDate);
      && (d in avgs <==> startDate <= d <= endDate && HasSampleOn(period, d))
      && (d in avgs ==> SeqMin(Reals(DayValues(period, d))) <= avgs[d] <= SeqMax(Reals(DayValues(period, d))))
  {
    var values := DayValues(period, d);
    if HasSampleOn(period, d) {
      var i :| 0 <= i < |period| && period[i].stressLevel > 0 && Day(period[i].timestamp) == d;
      LevelsWhereNonEmpty(period, (r: StressRecord) => r.stressLevel > 0 && Day(r.timestamp) == d, i);
    }
    if values != [] {
      assert values[0] in values;
      PositiveMean(values);
    }
  }

  /**
   * The summary of the period's levels: the current value is their mean, between the minimum and
   * the maximum, and with no positive level it is 0 with no bounds, no averages and a stable
   * trend; the 7- and 30-day averages are the means of the recent levels, and a recent week with
   * samples implies a recent month with samples.
   */
  lemma AverageStressSummaryShape(period: seq<StressRecord>, endDate: int)
    ensures var valid, r7, r30 := ValidValues(period), RecentValues(period, endDate, 7), RecentValues(period, endDate, 30);
      var m := AverageStressSummary(valid, r7, r30);
      && m.name == "Average Stress"
      && m.average7d == OptionalMean(r7) && m.average30d == OptionalMean(r30)
      && (r7 != [] ==> r30 != [])
      && (valid != [] ==>
            m.minValue.Some? && m.maxValue.Some? && m.minValue.value <= m.currentValue <= m.maxValue.value)
      && (valid == [] ==>
            m.currentValue == 0.0 && m.minValue.None? && m.maxValue.None?
            && m.average7d.None? && m.average30d.None? && m.trend == Stable)
  {
    var valid, r7, r30 := ValidValues(period), RecentValues(period, endDate, 7), RecentValues(period, endDate, 30);
    if valid != [] {
      PositiveMean(valid);
    }
    if r7 != [] {
      assert r7[0] in r7;
      PositiveMean(r7);
      var i :| 0 <= i < |period| && period[i].stressLevel > 0 && Day(period[i].timestamp) > endDate - 7
        && period[i].stressLevel == r7[0];
      LevelsWhereNonEmpty(period, (r: StressRecord) => r.stressLevel > 0 && Day(r.timestamp) > endDate - 30, i);
      LevelsWhereNonEmpty(period, IsPositive, i);
    }
    if r30 != [] {
      assert r30[0] in r30;
      PositiveMean(r30);
      var i :| 0 <= i < |period| && period[i].stressLevel > 0 && Day(period[i].timestamp) > endDate - 30
        && period[i].stressLevel == r30[0];
      LevelsWhereNonEmpty(period, IsPositive, i);
    }
  }

  /**
   * The peak and the lowest hour exist exactly when some hour has samples; each is the hour of
   * the first active pattern whose average is the highest (lowest) among the active ones.
   */
  lemma PeakLowestShape(patterns: seq<HourlyStressPattern>)
    ensures PeakStressTime(patterns).None? <==> forall i :: 0 <= i < |patterns| ==> !HasSamples(patterns[i])
    ensures LowestStressTime(patterns).None? <==> forall i :: 0 <= i < |patterns| ==> !HasSamples(patterns[i])
    ensures PeakStressTime(patterns).Some? ==>
      exists i :: FirstMaxKept(patterns, HasSamples, AvgStressOf, i) && patterns[i].hour == PeakStressTime(patterns).value
    ensures LowestStressTime(patterns).Some? ==>
      exists i :: FirstMinKept(patterns, HasSamples, AvgStressOf, i) && patterns[i].hour == LowestStressTime(patterns).value
  {
    var active := Filter(patterns, HasSamples);
    if exists i :: 0 <= i < |patterns| && HasSamples(patterns[i]) {
      var i :| 0 <= i < |patterns| && HasSamples(patterns[i]);
      assert patterns[i] in active;
    }
    if active != [] {
      ArgMaxByFiltered(patterns, HasSamples, AvgStressOf);
      ArgMinByFiltered(patterns, HasSamples, AvgStressOf);
    }
  }

  /** The peak and the lowest of the hourly patterns are hours of the day. */
  lemma PeakHourOfDay(records: seq<StressRecord>)
    ensures PeakStressTime(HourlyPatterns(records)).Some? ==> 0 <= PeakStressTime(HourlyPatterns(records)).value < 24
    ensures LowestStressTime(HourlyPatterns(records)).Some? ==> 0 <= LowestStressTime(HourlyPatterns(records)).value < 24
  {
    HourlyPatternsShape(records);
    PeakLowestShape(HourlyPatterns(records));
  }

  /**
   * The average recovery time exists exactly when some activity recovered, and lies in
   * `[0, 120]` minutes.
   */
  lemma AverageRecoveryBounds(activities: seq<ActivityRecord>, sorted: seq<StressRecord>, baseline: real)
    ensures var ps := CollectPatterns(activities, sorted, baseline);
      var avg := OptionalMean(RecoveryTimes(ps));
      && (avg.Some? <==> exists i :: 0 <= i < |ps| && !NotRecovered(ps[i]))
      && (avg.Some? ==> 0.0 <= avg.value <= (RECOVERY_WINDOW_HOURS * 60) as real)
  {
    var ps := CollectPatterns(activities, sorted, baseline);
    var times := RecoveryTimes(ps);
    CollectedRecoveryBounds(activities, sorted, baseline);
    if times != [] {
      forall k | 0 <= k < |times|
        ensures 0.0 <= times[k] as real <= (RECOVERY_WINDOW_HOURS * 60) as real
      {
        assert times[k] in times;
      }
      IntMeanBounds(times, 0.0, (RECOVERY_WINDOW_HOURS * 60) as real);
    }
  }

  /** The result `analyze` builds before `_generate_insights` fills in its insights. */
  function StressSummary(startDate: int, endDate: int, stressRecords: seq<StressRecord>,
                         activities: seq<ActivityRecord>): StressAnalysisResult
  {
    var period := PeriodRecords(stressRecords, startDate, endDate);
    var baseline := PersonalBaseline(stressRecords, endDate);
    var valid := ValidValues(period);
    var hourly := HourlyPatterns(period);
    var patterns := PostActivityPatterns(activities, stressRecords, baseline);
    StressAnalysisResult(
      startDate,
      endDate,
      AverageStressSummary(valid, RecentValues(period, endDate, 7), RecentValues(period, endDate, 30)),
      if valid == [] then 0.0 else BandPercent(valid, IsLow),
      if valid == [] then 0.0 else BandPercent(valid, IsMedium),
      if valid == [] then 0.0 else BandPercent(valid, IsHigh),
      PeakStressTime(hourly),
      LowestStressTime(hourly),
      [],
      DailyAverages(period, startDate, endDate),
      StressLoad(period, StartOfDay(startDate), EndOfDay(endDate)),
      hourly,
      WeekdayAverages(period),
      patterns,
      OptionalMean(RecoveryTimes(patterns)),
      RecoveryEfficiency(patterns),
      baseline)
  }

  /** A period of no days has no samples and so no load: the daily-load rule never divides by zero. */
  lemma StressSummaryDefined(startDate: int, endDate: int, stressRecords: seq<StressRecord>,
                             activities: seq<ActivityRecord>)
    ensures InsightsDefined(StressSummary(startDate, endDate, stressRecords, activities))
  {
    if endDate < startDate {
      FilterNone(stressRecords, r => InPeriod(r, startDate, endDate));
      StressLoadEmpty([], StartOfDay(startDate), EndOfDay(endDate));
    }
  }

  /** `analyze`: the summary of the period with the insights of its rules. */
  function StressAnalysis(startDate: int, endDate: int, stressRecords: seq<StressRecord>,
                          activities: seq<ActivityRecord>): StressAnalysisResult
  {
    var summary := StressSummary(startDate, endDate, stressRecords, activities);
    StressSummaryDefined(startDate, endDate, stressRecords, activities);
    summary.(insights := StressInsights(summary))
  }

  /** `StressSummary` in terms of the intermediate values `analyze` computes. */
  lemma StressSummaryIs(startDate: int, endDate: int, stressRecords: seq<StressRecord>,
                        activities: seq<ActivityRecord>, period: seq<StressRecord>, baseline: real,
                        valid: seq<int>, hourly: seq<HourlyStressPattern>,
                        patterns: seq<PostActivityStressPattern>)
    requires period == PeriodRecords(stressRecords, startDate, endDate)
    requires baseline == PersonalBaseline(stressRecords, endDate)
    requires valid == ValidValues(period)
    requires hourly == HourlyPatterns(period)
    requires patterns == PostActivityPatterns(activities, stressRecords, baseline)
    ensures StressSummary(startDate, endDate, stressRecords, activities) == StressAnalysisResult(
      startDate,
      endDate,
      AverageStressSummary(valid, RecentValues(period, endDate, 7), RecentValues(period, endDate, 30)),
      if valid == [] then 0.0 else BandPercent(valid, IsLow),
      if valid == [] then 0.0 else BandPercent(valid, IsMedium),
      if valid == [] then 0.0 else BandPercent(valid, IsHigh),
      PeakStressTime(hourly),
      LowestStressTime(hourly),
      [],
      DailyAverages(period, startDate, endDate),
      StressLoad(period, StartOfDay(startDate), EndOfDay(endDate)),
      hourly,
      WeekdayAverages(period),
      patterns,
      OptionalMean(RecoveryTimes(patterns)),
      RecoveryEfficiency(patterns),
      baseline)
  {
  }

  lemma StressAnalysisIs(startDate: int, endDate: int, stressRecords: seq<StressRecord>,
                         activities: seq<ActivityRecord>, summary: StressAnalysisResult)
    requires summary == StressSummary(startDate, endDate, stressRecords, activities)
    ensures InsightsDefined(summary)
    ensures StressAnalysis(startDate, endDate, stressRecords, activities)
      == summary.(insights := StressInsights(summary))
  {
    StressSummaryDefined(startDate, endDate, stressRecords, activities);
  }

  /**
   * `analyze` on the samples and activities the repository returned: the samples from fourteen
   * days before `startDate` to `endDate` and the activities of the period.
   */
  method Analyze(startDate: int, endDate: int, stressRecords: seq<StressRecord>, activities: seq<ActivityRecord>)
    returns (result: StressAnalysisResult)
    ensures result == StressAnalysis(startDate, endDate, stressRecords, activities)
  {
    var periodRecords := PeriodRecords(stressRecords, startDate, endDate);
    var personalBaseline := PersonalBaseline(stressRecords, endDate);
    var validValues := ValidValues(periodRecords);
    var lowPct, medPct, highPct := 0.0, 0.0, 0.0;
    if validValues != [] {
      lowPct := BandPercent(validValues, IsLow);
      medPct := BandPercent(validValues, IsMedium);
      highPct := BandPercent(validValues, IsHigh);
    }
    var recent7d := RecentValues(periodRecords, endDate, 7);
    var recent30d := RecentValues(periodRecords, endDate, 30);
    var avgStressSummary := AverageStressSummary(validValues, recent7d, recent30d);
    var stressLoad := CalculateStressLoad(periodRecords, StartOfDay(startDate), EndOfDay(endDate));
    var hourlyPatterns := CalculateHourlyPatterns(periodRecords);
    var weekdayAvg := CalculateWeekdayAverages(periodRecords);
    var peakStressTime := PeakStressTime(hourlyPatterns);
    var lowestStressTime := LowestStressTime(hourlyPatterns);
    var postActivityPatterns := AnalyzePostActivityRecovery(activities, stressRecords, personalBaseline);
    var recoveryEfficiency := RecoveryEfficiency(postActivityPatterns);
    var avgRecoveryTime := OptionalMean(RecoveryTimes(postActivityPatterns));
    var dailyAvg := CalculateDailyAverages(periodRecords, startDate, endDate);
    result := StressAnalysisResult(startDate, endDate, avgStressSummary, lowPct, medPct, highPct,
      peakStressTime, lowestStressTime, [], dailyAvg, stressLoad, hourlyPatterns, weekdayAvg,
      postActivityPatterns, avgRecoveryTime, recoveryEfficiency, personalBaseline);
    StressSummaryIs(startDate, endDate, stressRecords, activities, periodRecords, personalBaseline,
      validValues, hourlyPatterns, postActivityPatterns);
    StressAnalysisIs(startDate, endDate, stressRecords, activities, result);
    var insights := GenerateInsights(result);
    result := result.(insights := result.insights + insights);
  }

  /**
   * The analysis of a period: the three shares are percentages adding up to 100 when the period
   * has a positive sample and are all 0 otherwise; the recovery efficiency is within `[0, 100]`
   * and the average recovery time within `[0, 120]` minutes.
   */
  lemma AnalysisShares(startDate: int, endDate: int, stressRecords: seq<StressRecord>,
                       activities: seq<ActivityRecord>)
    ensures var r := StressAnalysis(startDate, endDate, stressRecords, activities);
      var valid := ValidValues(PeriodRecords(stressRecords, startDate, endDate));
      && r.periodStart == startDate && r.periodEnd == endDate
      && (valid != [] ==> r.lowStressPercent + r.mediumStressPercent + r.highStressPercent == 100.0)
      && (valid == [] ==> r.lowStressPercent == 0.0 && r.mediumStressPercent == 0.0 && r.highStressPercent == 0.0)
      && 0.0 <= r.lowStressPercent <= 100.0
      && 0.0 <= r.mediumStressPercent <= 100.0
      && 0.0 <= r.highStressPercent <= 100.0
  {
    var summary := StressSummary(startDate, endDate, stressRecords, activities);
    StressAnalysisIs(startDate, endDate, stressRecords, activities, summary);
    var valid := ValidValues(PeriodRecords(stressRecords, startDate, endDate));
    if valid != [] {
      DistributionSums(valid);
    }
  }

  lemma AnalysisRecovery(startDate: int, endDate: int, stressRecords: seq<StressRecord>,
                         activities: seq<ActivityRecord>)
    ensures var r := StressAnalysis(startDate, endDate, stressRecords, activities);
      && (r.recoveryEfficiency.Some? ==> 0.0 <= r.recoveryEfficiency.value <= 100.0)
      && (r.avgRecoveryTimeMinutes.Some? ==>
            0.0 <= r.avgRecoveryTimeMinutes.value <= (RECOVERY_WINDOW_HOURS * 60) as real)
      && (r.avgRecoveryTimeMinutes.Some? ==> r.recoveryEfficiency.Some?)
  {
    var summary := StressSummary(startDate, endDate, stressRecords, activities);
    StressAnalysisIs(startDate, endDate, stressRecords, activities, summary);
    var baseline := PersonalBaseline(stressRecords, endDate);
    if activities != [] && stressRecords != [] {
      AverageRecoveryBounds(activities, SortBy(stressRecords, Timestamp), baseline);
    }
  }
}
