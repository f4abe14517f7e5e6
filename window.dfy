/** The reporting window: 06:00 of the previous day to 06:00 of the current
    day, as a half-open interval of seconds. */
module ReportWindow {

  const SecondsPerHour: int := 3600
  const SecondsPerDay: int := 24 * SecondsPerHour

  /** The hour of day at which every window starts and ends. */
  const AnchorHour: int := 6

  /** A half-open interval [start, end) of timestamps, in seconds. */
  datatype Window = Window(start: int, end: int)

  /** A timestamp is the number of seconds since midnight of day 0, on the
      wall clock of the report's time zone (the datetimes compared by the
      script carry no zone, so no offset is involved). */
  function Midnight(day: int): int {
    day * SecondsPerDay
  }

  /** The calendar day a timestamp falls on. */
  function DayOf(t: int): int {
    t / SecondsPerDay
  }

  /** Seconds elapsed since midnight of that day. */
  function TimeOfDay(t: int): int {
    t % SecondsPerDay
  }

  /** The window built from the calendar date `today`:
      start = combine(today - 1 day, 00:00) + 6 h,
      end   = combine(today, 00:00) + 6 h. */
  function WindowFor(today: int): (w: Window)
    ensures w.end - w.start == SecondsPerDay
    ensures DayOf(w.start) == today - 1 && TimeOfDay(w.start) == AnchorHour * SecondsPerHour
    ensures DayOf(w.end) == today && TimeOfDay(w.end) == AnchorHour * SecondsPerHour
  {
    Window(Midnight(today - 1) + AnchorHour * SecondsPerHour,
           Midnight(today) + AnchorHour * SecondsPerHour)
  }

  /** The half-open membership test of the script's row filter:
      start <= t and t < end. */
  predicate Contains(w: Window, t: int) {
    w.start <= t < w.end
  }

  /** Consecutive days give adjacent windows: the end of one is the start of
      the next, so every timestamp lies in exactly one day's window. */
  lemma WindowsTile(today: int, t: int)
    ensures WindowFor(today).end == WindowFor(today + 1).start
    ensures Contains(WindowFor(today), t) ==> !Contains(WindowFor(today + 1), t)
    ensures Contains(WindowFor(today), t) <==> (t - AnchorHour * SecondsPerHour) / SecondsPerDay == today - 1
  {
  }
}
