/**
 * Calendar arithmetic on the analyzers' timestamps.  A timestamp is a whole number of seconds of
 * local time and a date is a whole number of days, both counted from a midnight that fell on a
 * Monday, so `datetime.date()`, `.hour` and `date.weekday()` become integer divisions.
 */
module Calendar {

  const SECONDS_PER_MINUTE: int := 60
  const SECONDS_PER_HOUR: int := 3600
  const SECONDS_PER_DAY: int := 86400

  /** `timestamp.date()`. */
  function Day(t: int): int
  {
    t / SECONDS_PER_DAY
  }

  /** `timestamp.hour`. */
  function HourOf(t: int): (h: int)
    ensures 0 <= h < 24
  {
    (t / SECONDS_PER_HOUR) % 24
  }

  /** `date.weekday()`: Monday is 0 and Sunday is 6. */
  function Weekday(day: int): (w: int)
    ensures 0 <= w < 7
  {
    day % 7
  }

  const WEEKDAY_NAMES: seq<string> :=
    ["Monday", "Tuesday", "Wednesday", "Thursday", "Friday", "Saturday", "Sunday"]

  /** `date.strftime("%A")`. */
  function WeekdayName(day: int): string
  {
    WEEKDAY_NAMES[Weekday(day)]
  }

  /** `datetime.combine(day, time.min)`. */
  function StartOfDay(day: int): int
  {
    day * SECONDS_PER_DAY
  }

  /** `datetime.combine(day, time.max)`, to the second. */
  function EndOfDay(day: int): int
  {
    day * SECONDS_PER_DAY + SECONDS_PER_DAY - 1
  }

  /** A timestamp lies between the start and the end of a day exactly when it falls on that day. */
  lemma WithinDay(t: int, day: int)
    ensures StartOfDay(day) <= t <= EndOfDay(day) <==> Day(t) == day
  {
  }
}
