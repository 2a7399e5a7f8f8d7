/**
  Shift arithmetic of the dashboard page: the hour count shown while the
  form is filled in (`calculateHours`), the overtime threshold
  (`isOvertime`), and the rule that places the persisted start and end
  instants of a shift (the date advance inside `handleSubmit`).
 */
module Shift {
  import opened Wrappers
  import opened Calendar

  /** A wall-clock "HH:MM" value, already split into its two numbers. */
  datatype ClockTime = ClockTime(hour: int, minute: int)

  predicate ValidClock(t: ClockTime) {
    0 <= t.hour < 24 && 0 <= t.minute < 60
  }

  function MinuteOfDay(t: ClockTime): int {
    t.hour * 60 + t.minute
  }

  /** Overtime starts strictly above twelve hours. */
  const OvertimeThreshold: real := 12.0

  /**
    The fractional hour count of the form. The 24-hour correction looks
    only at the hour difference; the minute difference is added afterwards
    whatever its sign. Measured in minutes, the count is the difference of
    the minutes of day, plus a whole day exactly when the end hour is
    smaller.
   */
  function CalculateHours(start: ClockTime, end: ClockTime): (h: real)
    ensures h * 60.0 ==
      ((if end.hour < start.hour then 24 * 60 else 0) + MinuteOfDay(end) - MinuteOfDay(start)) as real
  {
    var hours := end.hour - start.hour;
    var minutes := (end.minute - start.minute) as real / 60.0;
    (if hours < 0 then 24 + hours else hours) as real + minutes
  }

  /**
    False while either time is still empty; otherwise the strict `> 12`
    test on the form's count. For well-formed times this is a shift of more
    than twelve persisted hours, except when the hours are equal and the end
    minute is smaller: that shift is never overtime, however long it is.
   */
  function IsOvertime(start: Option<ClockTime>, end: Option<ClockTime>): (b: bool)
    ensures b <==> start.Some? && end.Some? && CalculateHours(start.value, end.value) > OvertimeThreshold
    ensures start.Some? && end.Some? && ValidClock(start.value) && ValidClock(end.value) ==>
      (b <==> !(end.value.hour == start.value.hour && end.value.minute < start.value.minute) &&
              ShiftMinutes(start.value, end.value) > 12 * 60)
  {
    if start.None? || end.None? then false
    else if ValidClock(start.value) && ValidClock(end.value) then
      CalculateHoursMatchesShift(start.value, end.value);
      CalculateHours(start.value, end.value) > OvertimeThreshold
    else CalculateHours(start.value, end.value) > OvertimeThreshold
  }

  /** A point in time: a calendar date and a minute of that day. */
  datatype Instant = Instant(date: Date, minute: int)

  predicate InstantBefore(a: Instant, b: Instant) {
    DateBefore(a.date, b.date) || (a.date == b.date && a.minute < b.minute)
  }

  /**
    The minutes between the persisted start and end instants of a shift:
    the end falls on the next day exactly when its minute of day is
    smaller than the start's.
   */
  function ShiftMinutes(start: ClockTime, end: ClockTime): (m: int)
    requires ValidClock(start) && ValidClock(end)
    ensures 0 <= m < 24 * 60
    ensures m % 60 == (end.minute - start.minute) % 60
  {
    var d := MinuteOfDay(end) - MinuteOfDay(start);
    if d < 0 then 24 * 60 + d else d
  }

  /** For well-formed times the form's hour count lies strictly between -1 and 24. */
  lemma CalculateHoursBounds(start: ClockTime, end: ClockTime)
    requires ValidClock(start) && ValidClock(end)
    ensures -1.0 < CalculateHours(start, end) < 24.0
  {
    var hours := end.hour - start.hour;
    var h := if hours < 0 then 24 + hours else hours;
    assert 0 <= h <= 23;
    var dm := end.minute - start.minute;
    assert -59 <= dm <= 59;
    assert -1.0 < dm as real / 60.0 < 1.0;
  }

  /**
    The form's hour count agrees with the persisted shift length exactly
    when it is not the case that the hours are equal and the end minute is
    smaller; in that case the form shows a negative count while the
    persisted end lies on the next day.
   */
  lemma CalculateHoursMatchesShift(start: ClockTime, end: ClockTime)
    requires ValidClock(start) && ValidClock(end)
    ensures CalculateHours(start, end) * 60.0 == ShiftMinutes(start, end) as real
        <==> !(end.hour == start.hour && end.minute < start.minute)
    ensures end.hour == start.hour && end.minute < start.minute ==>
        CalculateHours(start, end) < 0.0 && ShiftMinutes(start, end) > 23 * 60
  {
    var d := MinuteOfDay(end) - MinuteOfDay(start);
    if end.hour < start.hour {
      assert d < 0;
    } else if end.hour > start.hour {
      assert d > 0;
    } else {
      assert d == end.minute - start.minute;
    }
  }

  /**
    09:30 to 09:15: the form shows -0.25 hours, so the shift is submitted as
    regular although its persisted instants are 23 h 45 min apart.
   */
  lemma NegativeQuarterHour()
    ensures CalculateHours(ClockTime(9, 30), ClockTime(9, 15)) == -0.25
    ensures ShiftMinutes(ClockTime(9, 30), ClockTime(9, 15)) == 23 * 60 + 45
    ensures !IsOvertime(Some(ClockTime(9, 30)), Some(ClockTime(9, 15)))
  {
  }

  /** 09:00 to 17:00 is eight hours; 22:00 to 06:00 wraps to eight hours. */
  lemma DayAndNightShifts()
    ensures CalculateHours(ClockTime(9, 0), ClockTime(17, 0)) == 8.0
    ensures CalculateHours(ClockTime(22, 0), ClockTime(6, 0)) == 8.0
  {
  }

  /** Exactly twelve hours is regular; twelve hours and one minute is overtime. */
  lemma OvertimeBoundary()
    ensures !IsOvertime(Some(ClockTime(8, 0)), Some(ClockTime(20, 0)))
    ensures IsOvertime(Some(ClockTime(8, 0)), Some(ClockTime(20, 1)))
  {
  }

  /**
    Where the persisted end of a shift lies: on the selected date, or on
    the next day when its minute of day is smaller than the start's.
   */
  function ShiftEnd(selected: Date, start: ClockTime, end: ClockTime): (to: Instant)
    requires ValidDate(selected)
    ensures to.minute == MinuteOfDay(end)
    ensures to.date == if MinuteOfDay(end) < MinuteOfDay(start) then NextDay(selected) else selected
    ensures !InstantBefore(to, Instant(selected, MinuteOfDay(start)))
  {
    var to := Instant(selected, MinuteOfDay(end));
    if InstantBefore(to, Instant(selected, MinuteOfDay(start))) then to.(date := NextDay(selected)) else to
  }

  /**
    The persisted instants of a shift on the selected date, computed as the
    submit handler does: both on that date, then the end pushed one day
    forward when it lies before the start. For well-formed times the two
    instants are `ShiftMinutes` apart.
   */
  method ShiftInstants(selected: Date, start: ClockTime, end: ClockTime) returns (from: Instant, to: Instant)
    requires ValidDate(selected)
    ensures from == Instant(selected, MinuteOfDay(start))
    ensures to == ShiftEnd(selected, start, end)
    ensures to.date == if MinuteOfDay(end) < MinuteOfDay(start) then NextDay(selected) else selected
    ensures !InstantBefore(to, from)
    ensures ValidClock(start) && ValidClock(end) ==>
      (if to.date == from.date then 0 else 24 * 60) + to.minute - from.minute == ShiftMinutes(start, end)
  {
    from := Instant(selected, MinuteOfDay(start));
    to := Instant(selected, MinuteOfDay(end));
    if InstantBefore(to, from) {
      to := to.(date := NextDay(to.date));
    }
  }

  /** 23:00 to 02:00 on 2024-05-01 ends at 02:00 on 2024-05-02. */
  method OvernightExample() returns (from: Instant, to: Instant)
    ensures from == Instant(Date(2024, 5, 1), 23 * 60)
    ensures to == Instant(Date(2024, 5, 2), 2 * 60)
  {
    from, to := ShiftInstants(Date(2024, 5, 1), ClockTime(23, 0), ClockTime(2, 0));
  }
}
