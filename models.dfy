/**
 * The result records of the analysis layer (`garmindb/analysis/models.py`): trend and severity
 * enumerations, metric summaries, insights and the per-analyzer results.  Several result
 * records are built by the analyzers with fields that the shown `models.py` does not declare
 * (for instance `StressAnalysisResult.stress_load`); those records follow the analyzers'
 * construction sites.
 */
module AnalysisModels {
  import opened Wrappers

  datatype TrendDirection = Improving | Declining | Stable

  datatype InsightSeverity = Info | Positive | Warning | Alert

  datatype MetricSummary = MetricSummary(
    name: string,
    currentValue: real,
    unit: string,
    average7d: Option<real>,
    average30d: Option<real>,
    minValue: Option<real>,
    maxValue: Option<real>,
    trend: TrendDirection,
    percentChange: Option<real>)

  /** `MetricSummary(name, current_value, unit)` with every optional field at its default. */
  function NewMetricSummary(name: string, currentValue: real, unit: string): (m: MetricSummary)
    ensures m.name == name && m.currentValue == currentValue && m.unit == unit
    ensures m.average7d.None? && m.average30d.None? && m.minValue.None? && m.maxValue.None?
    ensures m.trend == Stable && m.percentChange.None?
  {
    MetricSummary(name, currentValue, unit, None, None, None, None, Stable, None)
  }

  /** `MetricSummary.trend_icon`: one arrow per direction. */
  function TrendIcon(t: TrendDirection): (icon: string)
    ensures icon != "" && icon != "?"
    ensures t == Improving <==> icon == "\U{2191}"
    ensures t == Declining <==> icon == "\U{2193}"
    ensures t == Stable <==> icon == "\U{2192}"
  {
    match t
    case Improving => "\U{2191}"
    case Declining => "\U{2193}"
    case Stable => "\U{2192}"
  }

  /**
   * An insight's description: the message template and the numbers interpolated into it.
   * Formatting the numbers as text is not modelled.
   */
  datatype Text = Text(template: string, args: seq<real>)

  /** A value of `Insight.data_points`: a number or a list of names. */
  datatype DataValue = Num(number: real) | Names(names: set<string>)

  datatype Insight = Insight(
    title: string,
    description: Text,
    severity: InsightSeverity,
    category: string,
    dataPoints: map<string, DataValue>,
    recommendations: seq<string>)

  /** `Insight(title, description, severity, category)` with no data points and no advice. */
  function NewInsight(title: string, description: Text, severity: InsightSeverity, category: string)
    : (i: Insight)
    ensures i.title == title && i.description == description
    ensures i.severity == severity && i.category == category
    ensures i.dataPoints == map[] && i.recommendations == []
  {
    Insight(title, description, severity, category, map[], [])
  }

  /** `Insight.severity_icon`: one distinct, non-empty icon per severity. */
  function SeverityIcon(s: InsightSeverity): (icon: string)
    ensures icon != ""
    ensures s == Info <==> icon == "\U{2139}\U{FE0F}"
    ensures s == Positive <==> icon == "\U{2705}"
    ensures s == Warning <==> icon == "\U{26A0}\U{FE0F}"
    ensures s == Alert <==> icon == "\U{1F6A8}"
  {
    match s
    case Info => "\U{2139}\U{FE0F}"
    case Positive => "\U{2705}"
    case Warning => "\U{26A0}\U{FE0F}"
    case Alert => "\U{1F6A8}"
  }

  /** The titles of a list of insights, in order. */
  function Titles(insights: seq<Insight>): (t: seq<string>)
    ensures |t| == |insights|
    ensures forall i :: 0 <= i < |insights| ==> t[i] == insights[i].title
  {
    if insights == [] then [] else Titles(insights[..|insights| - 1]) + [insights[|insights| - 1].title]
  }

  /** A rule that fires contributes its insight; one that does not contributes nothing. */
  function Fired(o: Option<Insight>): (r: seq<Insight>)
    ensures |r| <= 1
    ensures r == [] <==> o.None?
  {
    if o.Some? then [o.value] else []
  }

  /** `if ...: insights.append(Insight(...))`. */
  method AppendFired(insights: seq<Insight>, rule: Option<Insight>) returns (result: seq<Insight>)
    ensures result == insights + Fired(rule)
    ensures insights == [] ==> result == Fired(rule)
  {
    result := insights;
    if rule.Some? {
      result := result + [rule.value];
    }
  }

  lemma {:induction false} TitlesConcat(a: seq<Insight>, b: seq<Insight>)
    ensures Titles(a + b) == Titles(a) + Titles(b)
    decreases |b|
  {
    if b == [] {
      assert a + b == a;
    } else {
      var b' := b[..|b| - 1];
      assert (a + b)[..|a + b| - 1] == a + b';
      TitlesConcat(a, b');
    }
  }

  function FiredTitle(o: Option<Insight>): seq<string>
  {
    if o.Some? then [o.value.title] else []
  }

  lemma FiredTitles(o: Option<Insight>)
    ensures Titles(Fired(o)) == FiredTitle(o)
  {
    if o.Some? {
      assert Titles([o.value]) == Titles([o.value][..0]) + [o.value.title];
    }
  }

  /** Every insight of the list has the given category. */
  predicate OfCategory(insights: seq<Insight>, category: string)
  {
    forall i :: 0 <= i < |insights| ==> insights[i].category == category
  }

  lemma OfCategoryConcat(a: seq<Insight>, b: seq<Insight>, category: string)
    requires OfCategory(a, category) && OfCategory(b, category)
    ensures OfCategory(a + b, category)
  {
  }

  lemma FiredCategory(o: Option<Insight>, category: string)
    requires o.Some? ==> o.value.category == category
    ensures OfCategory(Fired(o), category)
  {
  }

  // ----- sleep -----

  datatype SleepAnalysisResult = SleepAnalysisResult(
    periodStart: int,
    periodEnd: int,
    avgTotalSleep: MetricSummary,
    avgDeepSleep: MetricSummary,
    avgRemSleep: MetricSummary,
    sleepConsistencyScore: real,
    bestSleepDay: Option<string>,
    worstSleepDay: Option<string>,
    optimalBedtime: Option<int>,
    insights: seq<Insight>,
    dailyTotalHours: map<int, real>,
    dailyDeepPercent: map<int, real>)

  // ----- stress -----

  /** Area under the stress curve; `peakLoadHour` is an hour of the day. */
  datatype StressLoadMetric = StressLoadMetric(
    periodMinutes: int,
    totalLoad: real,
    avgIntensity: real,
    peakLoadHour: Option<int>)

  datatype HourlyStressPattern = HourlyStressPattern(
    hour: int,
    avgStress: real,
    sampleCount: nat,
    categoryDistribution: map<string, real>)

  /** Stress after one activity; `activityEndTime` is a timestamp. */
  datatype PostActivityStressPattern = PostActivityStressPattern(
    activityId: string,
    activitySport: string,
    activityEndTime: int,
    preActivityStress: real,
    peakPostStress: real,
    stressLoad2h: real,
    recoveryTimeMinutes: Option<int>)

  /** `peakStressTime` and `lowestStressTime` are hours of the day. */
  datatype StressAnalysisResult = StressAnalysisResult(
    periodStart: int,
    periodEnd: int,
    avgStress: MetricSummary,
    lowStressPercent: real,
    mediumStressPercent: real,
    highStressPercent: real,
    peakStressTime: Option<int>,
    lowestStressTime: Option<int>,
    insights: seq<Insight>,
    dailyAvgStress: map<int, real>,
    stressLoad: StressLoadMetric,
    hourlyPatterns: seq<HourlyStressPattern>,
    weekdayAvg: map<string, real>,
    postActivityPatterns: seq<PostActivityStressPattern>,
    avgRecoveryTimeMinutes: Option<real>,
    recoveryEfficiency: Option<real>,
    personalBaseline: real)

  // ----- recovery -----

  datatype RecoveryAnalysisResult = RecoveryAnalysisResult(
    periodStart: int,
    periodEnd: int,
    recoveryScore: int,
    recoveryTrend: TrendDirection,
    rhrSummary: MetricSummary,
    bodyBatterySummary: MetricSummary,
    trainingLoadSummary: MetricSummary,
    rhrBaseline: real,
    rhrDeviation: real,
    weeklyTss: real,
    acuteChronicRatio: Option<real>,
    insights: seq<Insight>,
    daysAnalyzed: nat,
    highRecoveryDays: nat,
    lowRecoveryDays: nat)

  datatype DailyReadinessResult = DailyReadinessResult(
    analysisDate: int,
    recoveryScore: int,
    readinessScore: int,
    sleepFactor: real,
    stressFactor: real,
    activityFactor: real,
    recommendedIntensity: string,
    bodyBatteryMorning: Option<int>)

  // ----- activity -----

  datatype TrainingStressMetrics = TrainingStressMetrics(
    atl: real,
    ctl: real,
    tsb: real,
    monotony: Option<real>,
    strain: real,
    confidenceScore: real)

  datatype SportSummary = SportSummary(
    name: string,
    count: nat,
    totalDistanceKm: real,
    totalDurationHours: real,
    avgSpeedKmh: Option<real>,
    avgHr: Option<real>,
    maxTrainingEffect: real,
    efficiencyIndex: Option<real>)

  datatype ActivityAnalysisResult = ActivityAnalysisResult(
    periodStart: int,
    periodEnd: int,
    totalActivities: nat,
    totalDurationHours: real,
    totalDistanceKm: real,
    totalCalories: int,
    trainingStress: Option<TrainingStressMetrics>,
    dailyLoadSeries: map<int, real>,
    sportSummaries: map<string, SportSummary>,
    avgAerobicEffect: real,
    avgAnaerobicEffect: real,
    intensityDistribution: map<string, real>,
    weeklyVolumeTrend: TrendDirection,
    insights: seq<Insight>)

  // ----- report -----

  datatype ReportMetadata = ReportMetadata(version: string, analyzers: seq<string>)

  datatype HealthReport = HealthReport(
    generatedAt: int,
    periodStart: int,
    periodEnd: int,
    sleep: Option<SleepAnalysisResult>,
    stress: Option<StressAnalysisResult>,
    recovery: Option<RecoveryAnalysisResult>,
    activities: Option<ActivityAnalysisResult>,
    keyInsights: seq<Insight>,
    metadata: ReportMetadata)
}
