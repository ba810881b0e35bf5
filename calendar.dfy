/** The monthly attendance calendar: a Monday-first grid of the month's
    days with the weekends marked off, the guard on picking a cell, and the
    arrival label shown for the picked day. Months here are 1..12; a cell's
    date is a day number. */
module Calendar {
  import opened Js
  import opened Strings
  import opened Dates

  /** A grid cell: a blank has no day and no date. */
  datatype CalendarDay = CalendarDay(day: Option<int>, timing: string, isOff: bool, date: Option<int>)

  const Blank: CalendarDay := CalendarDay(None, "", false, None)

  const WorkTiming: string := "9:30 AM - 6:30 PM"

  /** The blanks before the 1st when its weekday is `firstWeekday`
      (Sunday 0): after them, column `n` of the week row is the 1st's
      weekday, counting the columns Monday first. */
  function LeadingBlanks(firstWeekday: int): (n: nat)
    requires 0 <= firstWeekday < 7
    ensures n < 7
    ensures (n + 1) % 7 == firstWeekday
  {
    if firstWeekday == 0 then 6 else firstWeekday - 1
  }

  /** The cell of day `d`: Saturdays and Sundays are off with no timing,
      every other day has the office timing. */
  function DayCell(y: int, m: int, d: int): (c: CalendarDay)
    requires ValidDate(y, m, d)
    ensures c.day == Some(d) && c.date == Some(DayNumber(y, m, d))
    ensures c.isOff <==> Weekday(DayNumber(y, m, d)) in {0, 6}
    ensures c.timing == (if c.isOff then "" else WorkTiming)
  {
    var w := Weekday(DayNumber(y, m, d));
    if w == 0 || w == 6 then CalendarDay(Some(d), "", true, Some(DayNumber(y, m, d)))
    else CalendarDay(Some(d), WorkTiming, false, Some(DayNumber(y, m, d)))
  }

  /** Days of one month are consecutive day numbers. */
  lemma {:induction false} DayOfMonth(y: int, m: int, d: int)
    requires ValidDate(y, m, d)
    ensures DayNumber(y, m, d) == DayNumber(y, m, 1) + d - 1
  {
  }

  lemma {:induction false} WeekdayShift(n: int, j: nat)
    ensures Weekday(n + j) == (Weekday(n) + j) % 7
    decreases j
  {
    if j > 0 {
      WeekdayShift(n, j - 1);
      WeekdayStep(n + j - 1);
      ModSevenStep(Weekday(n) + j - 1);
    }
  }

  lemma ModSevenStep(a: int)
    ensures (a % 7 + 1) % 7 == (a + 1) % 7
  {
  }

  /** The grid lines up: the cell at index `k` of a generated month shows
      a day whose weekday is that of column `k % 7` (Monday first). */
  lemma GridColumns(y: int, m: int, k: int)
    requires 1 <= m <= 12
    requires LeadingBlanks(Weekday(DayNumber(y, m, 1))) <= k
    requires k < LeadingBlanks(Weekday(DayNumber(y, m, 1))) + DaysInMonth(y, m)
    ensures var d := k - LeadingBlanks(Weekday(DayNumber(y, m, 1))) + 1;
      ValidDate(y, m, d) && Weekday(DayNumber(y, m, d)) == (k % 7 + 1) % 7
  {
    var first := DayNumber(y, m, 1);
    var pad := LeadingBlanks(Weekday(first));
    var d := k - pad + 1;
    DayOfMonth(y, m, d);
    WeekdayShift(first, d - 1);
    assert Weekday(DayNumber(y, m, d)) == (Weekday(first) + d - 1) % 7;
    assert (Weekday(first) + d - 1) % 7 == (pad + 1 + d - 1) % 7 by {
      ModSevenStep(pad);
    }
    assert pad + 1 + d - 1 == k + 1;
    ModSevenStep(k);
  }

  /** So the off cells are exactly those in the last two columns. */
  lemma GridWeekends(y: int, m: int, k: int)
    requires 1 <= m <= 12
    requires LeadingBlanks(Weekday(DayNumber(y, m, 1))) <= k
    requires k < LeadingBlanks(Weekday(DayNumber(y, m, 1))) + DaysInMonth(y, m)
    ensures var d := k - LeadingBlanks(Weekday(DayNumber(y, m, 1))) + 1;
      ValidDate(y, m, d) && (DayCell(y, m, d).isOff <==> k % 7 >= 5)
  {
    GridColumns(y, m, k);
  }

  /** An attendance record as the label needs it: the status, the first
      check-in instant (seconds) and the shift start (seconds after
      midnight), each possibly missing. */
  datatype Attendance = Attendance(status: Option<string>, first_check_in: Option<int>, shift_start: Option<int>)

  /** The status map of `getArrivalStatus`. */
  function StatusLabel(status: Option<string>): (r: Option<string>)
    ensures r.Some? ==> r.value in {"Present", "Absent", "Half Day", "Late Arrival", "On Leave"}
    ensures r.Some? <==> status.Some? && status.value in {"present", "absent", "half-day", "late", "on-leave"}
    ensures status == Some("present") ==> r == Some("Present")
    ensures status == Some("absent") ==> r == Some("Absent")
    ensures status == Some("half-day") ==> r == Some("Half Day")
    ensures status == Some("late") ==> r == Some("Late Arrival")
    ensures status == Some("on-leave") ==> r == Some("On Leave")
  {
    if status == Some("present") then Some("Present")
    else if status == Some("absent") then Some("Absent")
    else if status == Some("half-day") then Some("Half Day")
    else if status == Some("late") then Some("Late Arrival")
    else if status == Some("on-leave") then Some("On Leave")
    else None
  }

  /** How far the check-in is past the shift start on the check-in's own
      day, in seconds (negative when early). */
  function LateSeconds(checkIn: int, shiftStart: int): int
  {
    checkIn % SecondsPerDay - shiftStart
  }

  /** A late status with both times present and a check-in after the shift start. */
  predicate LateWithTimes(a: Attendance)
  {
    a.status == Some("late") && a.first_check_in.Some? && a.shift_start.Some?
    && LateSeconds(a.first_check_in.value, a.shift_start.value) > 0
  }

  /** The late-by text for a delay of `mins` whole minutes. */
  function LateText(mins: nat): (r: string)
    ensures StartsWith(r, "Late by ")
    ensures mins < 60 ==> r == "Late by " + NatToString(mins) + " mins"
    ensures mins >= 60 ==> exists h: nat, mm: nat :: (
      mm < 60 && 60 * h + mm == mins &&
      r == "Late by " + NatToString(h) + "h " + NatToString(mm) + "m")
  {
    if mins >= 60 then
      var r := "Late by " + NatToString(mins / 60) + "h " + NatToString(mins % 60) + "m";
      assert r[..8] == "Late by ";
      r
    else
      var r := "Late by " + NatToString(mins) + " mins";
      assert r[..8] == "Late by ";
      r
  }

  /** `getArrivalStatus(att)`. */
  function ArrivalLabel(att: Option<Attendance>): (r: string)
    ensures att.None? ==> r == "Unknown"
    ensures att.Some? && LateWithTimes(att.value) ==>
      r == LateText(LateSeconds(att.value.first_check_in.value, att.value.shift_start.value) / 60)
    ensures att.Some? && !LateWithTimes(att.value) ==>
      (r == "Unknown" <==> StatusLabel(att.value.status).None?)
    ensures att.Some? && !LateWithTimes(att.value) && StatusLabel(att.value.status).Some? ==>
      r == StatusLabel(att.value.status).value
    ensures r in {"Present", "Absent", "Half Day", "Late Arrival", "On Leave", "Unknown"} || StartsWith(r, "Late by ")
  {
    if att.None? then "Unknown"
    else if LateWithTimes(att.value) then
      LateText(LateSeconds(att.value.first_check_in.value, att.value.shift_start.value) / 60)
    else if StatusLabel(att.value.status).Some? then StatusLabel(att.value.status).value
    else "Unknown"
  }

  /** A late-by text is shown only for a record whose status is `late`; no
      status label can be mistaken for one. */
  lemma LateTextOnlyWhenLate(att: Option<Attendance>)
    ensures StartsWith(ArrivalLabel(att), "Late by ") <==> att.Some? && LateWithTimes(att.value)
  {
    var r := ArrivalLabel(att);
    if !(att.Some? && LateWithTimes(att.value)) {
      assert !StartsWith(r, "Late by ") by {
        if r == "Late Arrival" {
          assert r[..8][5] == 'A';
        } else if r == "Half Day" {
          assert r[..8][0] == 'H';
        }
      }
    }
  }

  /** From index `pad` on, cell `k` is the cell of day `k - pad + 1`. */
  predicate DatedCells(cs: seq<CalendarDay>, y: int, m: int, pad: nat)
    requires 1 <= m <= 12
  {
    forall k :: pad <= k < |cs| ==>
      1 <= k - pad + 1 <= DaysInMonth(y, m) && cs[k] == DayCell(y, m, k - pad + 1)
  }

  class CalendarView {
    var calendarDays: seq<CalendarDay>
    var selectedDate: Option<CalendarDay>

    constructor ()
      ensures calendarDays == [] && selectedDate.None?
    {
      calendarDays := [];
      selectedDate := None;
    }

    /** `generateCalendar(date)` for month `m` of year `y`: the leading
        blanks, then one cell per day of the month in order. */
    method GenerateCalendar(y: int, m: int)
      requires 1 <= m <= 12
      modifies this`calendarDays
      ensures var pad := LeadingBlanks(Weekday(DayNumber(y, m, 1)));
        |calendarDays| == pad + DaysInMonth(y, m)
        && (forall k :: 0 <= k < pad ==> calendarDays[k] == Blank)
        && DatedCells(calendarDays, y, m, pad)
    {
      calendarDays := [];
      var pad := LeadingBlanks(Weekday(DayNumber(y, m, 1)));
      var i := 0;
      while i < pad
        invariant 0 <= i <= pad
        invariant |calendarDays| == i
        invariant forall k :: 0 <= k < i ==> calendarDays[k] == Blank
      {
        calendarDays := calendarDays + [Blank];
        i := i + 1;
      }
      var last := DaysInMonth(y, m);
      var day := 1;
      while day <= last
        invariant last == DaysInMonth(y, m)
        invariant 1 <= day <= last + 1
        invariant |calendarDays| == pad + day - 1
        invariant forall k :: 0 <= k < pad ==> calendarDays[k] == Blank
        invariant DatedCells(calendarDays, y, m, pad)
      {
        calendarDays := calendarDays + [DayCell(y, m, day)];
        day := day + 1;
      }
    }

    /** `selectDate(cd)`: a blank cell is ignored; a dated one becomes the
        selection and its date is the one whose details are requested. */
    method SelectDate(cd: CalendarDay) returns (detailsFor: Option<int>)
      modifies this`selectedDate
      ensures cd.date.None? ==> selectedDate == old(selectedDate) && detailsFor.None?
      ensures cd.date.Some? ==> selectedDate == Some(cd) && detailsFor == cd.date
    {
      if cd.date.None? {
        return None;
      }
      selectedDate := Some(cd);
      detailsFor := cd.date;
    }
  }
}
