/**
 * The report entry point (`HealthAnalyzer`): the reporting periods of the daily, weekly and
 * monthly reports, the report over a period and the collection of its key insights, the
 * warnings and alerts of the component analyses without repeats.
 */
module HealthAnalyzer {
  import opened Wrappers
  import opened Seqs
  import opened Records
  import opened AnalysisModels
  import SleepAnalyzer

  // ----- reporting periods -----

  /** `daily_report`: the given day, or today, as both bounds. */
  function DailyPeriod(day: Option<int>, today: int): (period: (int, int))
    ensures period.0 == period.1
    ensures period.1 == (if day.Some? then day.value else today)
  {
    var target := day.GetOr(today);
    (target, target)
  }

  /** `weekly_report`: the seven days ending on the given day, or on today. */
  function WeeklyPeriod(endDate: Option<int>, today: int): (period: (int, int))
    ensures period.1 == (if endDate.Some? then endDate.value else today)
    ensures period.1 - period.0 + 1 == 7
  {
    var end := endDate.GetOr(today);
    (end - 6, end)
  }

  /** `monthly_report`: the thirty days ending on the given day, or on today. */
  function MonthlyPeriod(endDate: Option<int>, today: int): (period: (int, int))
    ensures period.1 == (if endDate.Some? then endDate.value else today)
    ensures period.1 - period.0 + 1 == 30
  {
    var end := endDate.GetOr(today);
    (end - 29, end)
  }

  // ----- key insights -----

  /** The severities that make an insight a key insight. */
  predicate IsKey(i: Insight)
  {
    i.severity == Warning || i.severity == Alert
  }

  /** The insights of every analysis, one analysis after the other. */
  function Flatten(analyses: seq<seq<Insight>>): (r: seq<Insight>)
    ensures forall i :: 0 <= i < |analyses| ==> forall x :: x in analyses[i] ==> x in r
  {
    if analyses == [] then []
    else
      var prefix := analyses[..|analyses| - 1];
      assert forall i :: 0 <= i < |prefix| ==> prefix[i] == analyses[i];
      Flatten(prefix) + analyses[|analyses| - 1]
  }

  /** The key insights of `s`, each kept on its first occurrence only. */
  function Collect(s: seq<Insight>): seq<Insight>
  {
    if s == [] then []
    else
      var kept := Collect(s[..|s| - 1]);
      var x := s[|s| - 1];
      if IsKey(x) && x !in kept then kept + [x] else kept
  }

  /** `_collect_key_insights` over the insight lists of the analyses. */
  function KeyInsights(analyses: seq<seq<Insight>>): seq<Insight>
  {
    Collect(Flatten(analyses))
  }

  /** `_collect_key_insights`: the nested loop over the analyses and over each one's insights. */
  method CollectKeyInsights(analyses: seq<seq<Insight>>) returns (keyInsights: seq<Insight>)
    ensures keyInsights == KeyInsights(analyses)
  {
    keyInsights := [];
    var k := 0;
    while k < |analyses|
      invariant 0 <= k <= |analyses|
      invariant keyInsights == Collect(Flatten(analyses[..k]))
    {
      var insights := analyses[k];
      var done := Flatten(analyses[..k]);
      var j := 0;
      assert done + insights[..j] == done;
      while j < |insights|
        invariant 0 <= j <= |insights|
        invariant keyInsights == Collect(done + insights[..j])
      {
        var insight := insights[j];
        CollectStep(done, insights, j);
        if IsKey(insight) && insight !in keyInsights {
          keyInsights := keyInsights + [insight];
        }
        j := j + 1;
      }
      assert insights[..j] == insights;
      assert analyses[..k + 1][..k] == analyses[..k];
      k := k + 1;
    }
    assert analyses[..k] == analyses;
  }

  /** One more insight of the current analysis: it is kept when it is key and new. */
  lemma CollectStep(done: seq<Insight>, insights: seq<Insight>, j: nat)
    requires j < |insights|
    ensures var kept, x := Collect(done + insights[..j]), insights[j];
      Collect(done + insights[..j + 1]) == if IsKey(x) && x !in kept then kept + [x] else kept
  {
    var t := done + insights[..j + 1];
    assert t[..|t| - 1] == done + insights[..j];
    assert t[|t| - 1] == insights[j];
  }

  /** The insights collected are exactly the warnings and alerts that occur. */
  lemma {:induction false} CollectMembers(s: seq<Insight>)
    ensures forall x :: x in Collect(s) <==> x in s && IsKey(x)
  {
    if s != [] {
      var prefix := s[..|s| - 1];
      CollectMembers(prefix);
      assert s == prefix + [s[|s| - 1]];
    }
  }

  /** No insight is collected twice. */
  lemma {:induction false} CollectDistinct(s: seq<Insight>)
    ensures NoDuplicates(Collect(s))
  {
    if s != [] {
      CollectDistinct(s[..|s| - 1]);
    }
  }

  /** `a` is `b` with some elements left out. */
  predicate Subsequence(a: seq<Insight>, b: seq<Insight>)
    decreases |b|
  {
    if a == [] then true
    else if b == [] then false
    else if a[|a| - 1] == b[|b| - 1] && Subsequence(a[..|a| - 1], b[..|b| - 1]) then true
    else Subsequence(a, b[..|b| - 1])
  }

  /** The collected insights appear in the order of the input, as a subsequence of it. */
  lemma {:induction false} CollectSubsequence(s: seq<Insight>)
    ensures Subsequence(Collect(s), s)
  {
    if s != [] {
      var prefix := s[..|s| - 1];
      CollectSubsequence(prefix);
      var kept := Collect(prefix);
      if IsKey(s[|s| - 1]) && s[|s| - 1] !in kept {
        assert (kept + [s[|s| - 1]])[..|kept|] == kept;
      } else {
        if kept != [] {
          assert Subsequence(kept, s) by {
            SubsequenceDropLast(kept, s);
          }
        }
      }
    }
  }

  lemma SubsequenceDropLast(a: seq<Insight>, b: seq<Insight>)
    requires b != [] && Subsequence(a, b[..|b| - 1])
    ensures Subsequence(a, b)
  {
  }

  /** The position of the first occurrence of `x` in `s`. */
  function FirstPosition(s: seq<Insight>, x: Insight): (k: nat)
    requires x in s
    ensures k < |s| && s[k] == x && x !in s[..k]
  {
    if s[0] == x then 0
    else
      assert s == [s[0]] + s[1..];
      var k := FirstPosition(s[1..], x);
      assert s[..k + 1] == [s[0]] + s[1..][..k];
      k + 1
  }

  /** The elements of `r` occur in `s`, in the order of their first occurrences there. */
  predicate InFirstOccurrenceOrder(r: seq<Insight>, s: seq<Insight>)
  {
    forall i, j :: 0 <= i < j < |r| ==> r[i] in s && r[j] in s && FirstPosition(s, r[i]) < FirstPosition(s, r[j])
  }

  /** An insight is kept exactly at its first occurrence: kept insights come in that order. */
  lemma {:induction false} CollectFirstOccurrenceOrder(s: seq<Insight>)
    ensures InFirstOccurrenceOrder(Collect(s), s)
  {
    if s != [] {
      var prefix, x := s[..|s| - 1], s[|s| - 1];
      CollectFirstOccurrenceOrder(prefix);
      CollectMembers(prefix);
      OrderStep(prefix, x, Collect(prefix));
      assert prefix + [x] == s;
    }
  }

  /** Appending `x` keeps the first positions of the kept insights and places a new one last. */
  lemma OrderStep(prefix: seq<Insight>, x: Insight, kept: seq<Insight>)
    requires forall y :: y in kept <==> y in prefix && IsKey(y)
    requires InFirstOccurrenceOrder(kept, prefix)
    ensures InFirstOccurrenceOrder(if IsKey(x) && x !in kept then kept + [x] else kept, prefix + [x])
  {
    var s := prefix + [x];
    var r := if IsKey(x) && x !in kept then kept + [x] else kept;
    forall i, j | 0 <= i < j < |r|
      ensures r[i] in s && r[j] in s && FirstPosition(s, r[i]) < FirstPosition(s, r[j])
    {
      assert r[i] == kept[i] && kept[i] in prefix;
      PositionInPrefix(prefix, x, r[i]);
      if j < |kept| {
        assert r[j] == kept[j] && kept[j] in prefix;
        PositionInPrefix(prefix, x, r[j]);
      } else {
        assert r[j] == x && x !in prefix;
        LastPosition(prefix, x);
      }
    }
  }

  lemma LastPosition(prefix: seq<Insight>, x: Insight)
    requires x !in prefix
    ensures FirstPosition(prefix + [x], x) == |prefix|
  {
    var s := prefix + [x];
    var k := FirstPosition(s, x);
  }

  lemma PositionInPrefix(prefix: seq<Insight>, x: Insight, y: Insight)
    requires y in prefix
    ensures FirstPosition(prefix + [x], y) == FirstPosition(prefix, y)
  {
    var s := prefix + [x];
    var k, m := FirstPosition(s, y), FirstPosition(prefix, y);
    assert s[m] == y;
    assert s[..m] == prefix[..m];
  }

  /** A list of distinct warnings and alerts is its own key-insight list. */
  lemma {:induction false} CollectKeyDistinct(s: seq<Insight>)
    requires NoDuplicates(s)
    requires forall x :: x in s ==> IsKey(x)
    ensures Collect(s) == s
  {
    if s != [] {
      var prefix := s[..|s| - 1];
      CollectKeyDistinct(prefix);
    }
  }

  /**
   * The key insights of the analyses: exactly their warnings and alerts, without repeats, in the
   * order of first occurrence, as a subsequence of all their insights; collecting them again
   * changes nothing.
   */
  lemma KeyInsightsSpec(analyses: seq<seq<Insight>>)
    ensures var r := KeyInsights(analyses);
      var all := Flatten(analyses);
      && (forall x :: x in r <==> x in all && IsKey(x))
      && NoDuplicates(r)
      && Subsequence(r, all)
      && InFirstOccurrenceOrder(r, all)
      && KeyInsights([r]) == r
  {
    var all := Flatten(analyses);
    var r := Collect(all);
    CollectMembers(all);
    CollectDistinct(all);
    CollectSubsequence(all);
    CollectFirstOccurrenceOrder(all);
    assert Flatten([r]) == r by {
      assert [r][..0] == [];
    }
    CollectKeyDistinct(r);
  }

  // ----- the report -----

  const REPORT_METADATA: ReportMetadata := ReportMetadata("1.0", ["sleep"])

  /**
   * `generate_report`: the sleep analysis of the period and its key insights; the clock reading
   * and the nights the repository returns are parameters.
   */
  function HealthReportOf(startDate: int, endDate: int, sleepData: seq<SleepRecord>, sqrt: real -> real,
                          generatedAt: int): HealthReport
  {
    var sleep := SleepAnalyzer.SleepAnalysis(startDate, endDate, sleepData, sqrt);
    HealthReport(generatedAt, startDate, endDate, Some(sleep), None, None, None, KeyInsights([sleep.insights]),
      REPORT_METADATA)
  }

  method GenerateReport(startDate: int, endDate: int, sleepData: seq<SleepRecord>, sqrt: real -> real,
                        generatedAt: int) returns (report: HealthReport)
    ensures report == HealthReportOf(startDate, endDate, sleepData, sqrt, generatedAt)
  {
    var sleep := SleepAnalyzer.Analyze(startDate, endDate, sleepData, sqrt);
    var keyInsights := CollectKeyInsights([sleep.insights]);
    report := HealthReport(generatedAt, startDate, endDate, Some(sleep), None, None, None, keyInsights,
      REPORT_METADATA);
  }

  /**
   * The report covers the requested period, holds the sleep analysis of that period as its only
   * component, and its key insights are the distinct warnings and alerts of that analysis.
   */
  lemma HealthReportSpec(startDate: int, endDate: int, sleepData: seq<SleepRecord>, sqrt: real -> real,
                         generatedAt: int)
    ensures var report := HealthReportOf(startDate, endDate, sleepData, sqrt, generatedAt);
      && report.periodStart == startDate && report.periodEnd == endDate
      && report.sleep.Some? && report.sleep.value.periodStart == startDate && report.sleep.value.periodEnd == endDate
      && report.stress.None? && report.recovery.None? && report.activities.None?
      && NoDuplicates(report.keyInsights)
      && (forall x :: x in report.keyInsights <==> x in report.sleep.value.insights && IsKey(x))
      && report.metadata.version == "1.0" && report.metadata.analyzers == ["sleep"]
  {
    var sleep := SleepAnalyzer.SleepAnalysis(startDate, endDate, sleepData, sqrt);
    assert Flatten([sleep.insights]) == sleep.insights by {
      assert [sleep.insights][..0] == [];
    }
    KeyInsightsSpec([sleep.insights]);
    if sleepData != [] {
      assert sleep.periodStart == startDate;
    }
  }

  /** A headline sleep average below 7 hours always puts the sleep-debt warning among the key insights. */
  lemma SleepDebtIsKey(startDate: int, endDate: int, sleepData: seq<SleepRecord>, sqrt: real -> real,
                       generatedAt: int)
    requires sleepData != []
    requires SleepAnalyzer.Headline(SleepAnalyzer.MetricSummaryOf("Total Sleep",
               SleepAnalyzer.Values(sleepData, SleepAnalyzer.TotalHours), "hours")) < SleepAnalyzer.RECOMMENDED_SLEEP_MIN
    ensures var report := HealthReportOf(startDate, endDate, sleepData, sqrt, generatedAt);
      exists x :: x in report.keyInsights && x.title == "Sleep Debt Detected"
  {
    var sleep := SleepAnalyzer.SleepAnalysis(startDate, endDate, sleepData, sqrt);
    SleepAnalyzer.SleepDebtFirst(startDate, endDate, sleepData, sqrt);
    KeyInsightKept(sleep.insights, sleep.insights[0]);
  }

  /** A key insight of a single analysis is among the collected ones. */
  lemma KeyInsightKept(insights: seq<Insight>, d: Insight)
    requires d in insights && IsKey(d)
    ensures d in KeyInsights([insights])
  {
    assert Flatten([insights]) == insights by {
      assert [insights][..0] == [];
    }
    CollectMembers(insights);
  }
}
