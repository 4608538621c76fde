/**
 * The records the data-access layer hands to the analyzers (the `...Record` classes of
 * `garmindb/data/repositories/sqlite.py`).  Only the fields the analyzers read are kept.
 * Timestamps are seconds and dates are day numbers (see `Calendar`); `timedelta` durations
 * are whole seconds; distances are kilometres.
 */
module Records {
  import opened Wrappers

  /** A stress sample; the repository only builds one when the level is present. */
  datatype StressRecord = StressRecord(timestamp: int, stressLevel: int)

  datatype ActivityRecord = ActivityRecord(
    activityId: string,
    name: string,
    sport: string,
    startTime: int,
    duration: Option<int>,
    distance: Option<real>,
    calories: Option<int>,
    avgHr: Option<int>,
    maxHr: Option<int>,
    trainingEffect: Option<real>,
    anaerobicEffect: Option<real>,
    trainingLoad: Option<real>)

  datatype DailySummaryRecord = DailySummaryRecord(
    date: int,
    restingHr: Option<int>,
    stressAvg: Option<int>,
    bbMax: Option<int>,
    bbMin: Option<int>,
    bbCharged: Option<int>)

  /**
   * A night of sleep.  `totalHours`, `deepSleepPercent` and `remSleepPercent` are the derived
   * properties the sleep analyzer reads; their definitions live outside the analysis layer.
   */
  datatype SleepRecord = SleepRecord(
    date: int,
    totalHours: real,
    deepSleepPercent: real,
    remSleepPercent: real,
    sleepScore: Option<int>)
}
