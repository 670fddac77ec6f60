/** The advisory punch-time check (src/validator.py). It only classifies
    the current time; callers carry on whatever it says. */
module Validator {
  import opened Clock

  /** The recommended windows, both ends included. */
  const InStart := TimeOfDay(8, 45, 0, 0)
  const InEnd := TimeOfDay(9, 0, 0, 0)
  const OutStart := TimeOfDay(18, 0, 0, 0)
  const OutEnd := TimeOfDay(20, 0, 0, 0)

  /** What `validate_time` logs. An out-of-window warning shows the current
      time and the window as `%H:%M`. */
  datatype Advisory =
    | WithinWindow(clockType: string)
    | OutsideWindow(clockType: string, shown: string, start: string, end: string)
    | UnknownType(clockType: string)
  {
    /** Logged at WARNING level (otherwise INFO). */
    predicate IsWarning() {
      !WithinWindow?
    }
  }

  /** The closed interval `[start, end]` of times of day. */
  predicate InWindow(t: TimeOfDay, start: TimeOfDay, end: TimeOfDay) {
    TimeLe(start, t) && TimeLe(t, end)
  }

  /** `validate_time(clock_type)` with the clock read passed in as `now`.
      It returns a log record and has no failure case. */
  function ValidateTime(clockType: string, now: TimeOfDay): (a: Advisory)
    ensures a.clockType == clockType
    ensures clockType == "in" ==>
      (a.IsWarning() <==> !(31500000000 <= MicrosOfDay(now) <= 32400000000))
    ensures clockType == "out" ==>
      (a.IsWarning() <==> !(64800000000 <= MicrosOfDay(now) <= 72000000000))
    ensures clockType == "in" && a.IsWarning() ==>
      a == OutsideWindow("in", FormatHourMinute(now), "08:45", "09:00")
    ensures clockType == "out" && a.IsWarning() ==>
      a == OutsideWindow("out", FormatHourMinute(now), "18:00", "20:00")
    ensures clockType != "in" && clockType != "out" ==> a == UnknownType(clockType)
  {
    WindowLabels();
    if clockType == "in" then
      if !InWindow(now, InStart, InEnd) then
        OutsideWindow(clockType, FormatHourMinute(now), FormatHourMinute(InStart), FormatHourMinute(InEnd))
      else WithinWindow(clockType)
    else if clockType == "out" then
      if !InWindow(now, OutStart, OutEnd) then
        OutsideWindow(clockType, FormatHourMinute(now), FormatHourMinute(OutStart), FormatHourMinute(OutEnd))
      else WithinWindow(clockType)
    else UnknownType(clockType)
  }

  /** The windows as a warning shows them. */
  lemma WindowLabels()
    ensures FormatHourMinute(InStart) == "08:45" && FormatHourMinute(InEnd) == "09:00"
    ensures FormatHourMinute(OutStart) == "18:00" && FormatHourMinute(OutEnd) == "20:00"
  {
  }

  /** Both ends of each window count as inside. */
  lemma WindowEndsInside()
    ensures !ValidateTime("in", InStart).IsWarning() && !ValidateTime("in", InEnd).IsWarning()
    ensures !ValidateTime("out", OutStart).IsWarning() && !ValidateTime("out", OutEnd).IsWarning()
  {
  }

  /** Comparison is at full precision: one second, or one microsecond, past
      09:00 is already outside, although the warning shows "09:00". */
  lemma FullPrecision()
    ensures ValidateTime("in", TimeOfDay(9, 0, 1, 0)) == OutsideWindow("in", "09:00", "08:45", "09:00")
    ensures ValidateTime("in", TimeOfDay(9, 0, 0, 1)).IsWarning()
    ensures ValidateTime("in", TimeOfDay(8, 44, 59, 999999)).IsWarning()
  {
  }

  /** No time of day lies in both windows. */
  lemma WindowsDisjoint(t: TimeOfDay)
    ensures !(InWindow(t, InStart, InEnd) && InWindow(t, OutStart, OutEnd))
  {
    TimeLeIsInstantOrder(InStart, t);
    TimeLeIsInstantOrder(t, InEnd);
    TimeLeIsInstantOrder(OutStart, t);
  }
}
