/** The orchestrator's activation window: frames are processed only while the
    time of day lies in `[from_time, from_time + duration)` on the current
    calendar day. The clock reading is a parameter. */
module TimeGate {
  import opened Errors
  import opened Times
  import Parsers

  /** `from_time` and `duration` as the application stores them. */
  datatype Window = Window(fromTime: Option<Time>, duration: Option<Time>)

  /** The length of the `timedelta` built from a duration: hours, minutes and
      seconds only; its microsecond field takes no part. */
  function DurationMicros(d: Time): int {
    (d.hour * 3600 + d.minute * 60 + d.second) * MicrosPerSecond
  }

  /** `_should_process_based_on_time` / `should_process_based_on_time`, with
      `now` the time-of-day part of `datetime.now()`. Without both fields the
      gate is open at every instant; otherwise it admits exactly the half-open
      interval from the start to the start plus the length. `from_time` is
      combined with today's date, so the comparison happens within one day
      while the end of the window may lie past midnight. */
  predicate ShouldProcess(w: Window, now: Time) {
    if w.fromTime.None? || w.duration.None? then true
    else
      var from := w.fromTime.value.MicrosOfDay();
      from <= now.MicrosOfDay() < from + DurationMicros(w.duration.value)
  }

  /** A `datetime` as microseconds since the start of day 0 of the calendar:
      `combine(date, time)` for the date numbered `day`. */
  function Combine(day: int, t: Time): int {
    day * MicrosPerDay + t.MicrosOfDay()
  }

  /** The gate as the source computes it, on datetimes rather than times of
      day: `from_datetime` is the start combined with the current date,
      `until` adds the duration's `timedelta`, and `current_time` is compared
      with both. */
  predicate DatetimeGate(w: Window, day: int, now: Time) {
    if w.fromTime.None? || w.duration.None? then true
    else
      var fromDatetime := Combine(day, w.fromTime.value);
      var until := fromDatetime + DurationMicros(w.duration.value);
      fromDatetime <= Combine(day, now) < until
  }

  /** On whatever date the clock reads, the time-of-day gate decides as the
      datetime comparison does. */
  lemma ShouldProcessMatchesDatetime(w: Window, day: int, now: Time)
    ensures ShouldProcess(w, now) <==> DatetimeGate(w, day, now)
  {
  }

  /** A window of length zero never admits a frame. */
  lemma ZeroDurationNeverOpen(from: Time, duration: Time, now: Time)
    requires duration.hour == 0 && duration.minute == 0 && duration.second == 0
    ensures !ShouldProcess(Window(Some(from), Some(duration)), now)
  {
  }

  /** A window that runs past midnight does not reopen in the early hours:
      before the start time of day the gate is closed, however long the
      window is. */
  lemma NoWrapPastMidnight(from: Time, duration: Time, now: Time)
    requires now.MicrosOfDay() < from.MicrosOfDay()
    ensures !ShouldProcess(Window(Some(from), Some(duration)), now)
  {
  }

  /** ... and from the start time up to midnight a window that reaches past
      midnight stays open. */
  lemma LateWindowOpenUntilMidnight(from: Time, duration: Time, now: Time)
    requires now.Valid()
    requires from.MicrosOfDay() + DurationMicros(duration) >= MicrosPerDay
    requires from.MicrosOfDay() <= now.MicrosOfDay()
    ensures ShouldProcess(Window(Some(from), Some(duration)), now)
  {
    ValidWithinDay(now);
  }

  /** The repository's gate tests: a window opened at the current time with
      the parsed duration `"5s"` admits any instant of its first five
      seconds, and with `"0s"` admits none. */
  lemma ParsedDurationWindows(from: Time, now: Time)
    ensures Parsers.ParseDuration(Some("5s")) == Ok(Some(Time(0, 0, 5, 0)))
    ensures Parsers.ParseDuration(Some("0s")) == Ok(Some(Time(0, 0, 0, 0)))
    ensures from.MicrosOfDay() <= now.MicrosOfDay() < from.MicrosOfDay() + 5 * MicrosPerSecond ==>
      ShouldProcess(Window(Some(from), Some(Time(0, 0, 5, 0))), now)
    ensures !ShouldProcess(Window(Some(from), Some(Time(0, 0, 0, 0))), now)
  {
    Parsers.DurationExamples();
  }
}
