/** The timesheet entry screen: rows of `HH:mm-HH:mm` time slots where each
    row starts where the previous one ends, the running total of hours, the
    year choices, and the status colours of submitted timesheets. Its list of
    submitted timesheets is a `Pagination.Pager` (with `GoToPage`).

    A time of day is the number of minutes after midnight (0 .. 1439); a slot
    is a pair of such times, shown as `HH:mm-HH:mm` (`SlotText`, which reads
    back by `ParseSlot`). A row without a slot stands for the empty slot
    text. Durations are decimal hours, as the form holds them. */
module WorkTrack {
  import opened Js
  import opened Strings

  const MinutesPerDay: int := 1440

  /* ================= times and slots ================= */

  /** `String(n).padStart(2, '0')`. */
  function Pad2(n: nat): (r: string)
    requires n < 100
    ensures |r| == 2 && AllDigits(r) && ParseDigits(r) == n
  {
    Pad2RoundTrip(n);
    Pad2Length(n);
    PadStart(NatToString(n), 2, '0')
  }

  lemma Pad2Length(n: nat)
    requires n < 100
    ensures |PadStart(NatToString(n), 2, '0')| == 2
  {
    if n >= 10 {
      assert NatToString(n) == NatToString(n / 10) + [Digit(n % 10)];
    }
  }

  /** The pieces of `a`, one character and `b` put together. */
  lemma Around(a: string, c: char, b: string)
    ensures |a + [c] + b| == |a| + 1 + |b|
    ensures (a + [c] + b)[..|a|] == a && (a + [c] + b)[|a|] == c && (a + [c] + b)[|a| + 1..] == b
  {
  }

  lemma MinutesSplit(m: int)
    requires 0 <= m < MinutesPerDay
    ensures 0 <= m / 60 < 24 && 0 <= m % 60 < 60
    ensures (m / 60) * 60 + m % 60 == m
    ensures ((m / 60) * 60 + m % 60) % MinutesPerDay == m
  {
  }

  /** Two two-digit parts around a colon. */
  function Clock(h: nat, mm: nat): (r: string)
    requires h < 100 && mm < 100
    ensures |r| == 5 && r[2] == ':'
    ensures AllDigits(r[..2]) && ParseDigits(r[..2]) == h
    ensures AllDigits(r[3..]) && ParseDigits(r[3..]) == mm
  {
    Around(Pad2(h), ':', Pad2(mm));
    Pad2(h) + [':'] + Pad2(mm)
  }

  /** `formatTime`: `HH:mm` of a time of day, both parts two digits. */
  function FormatTime(m: int): (r: string)
    requires 0 <= m < MinutesPerDay
    ensures |r| == 5 && r[2] == ':'
    ensures AllDigits(r[..2]) && ParseDigits(r[..2]) == m / 60
    ensures AllDigits(r[3..]) && ParseDigits(r[3..]) == m % 60
  {
    MinutesSplit(m);
    Clock(m / 60, m % 60)
  }

  /** Reading `HH:mm` back (`split(':').map(Number)` then `setHours`): the
      hours and minutes, carried over midnight as a `Date` does. Text of any
      other shape is outside the model. */
  function ParseTime(s: string): Option<int>
  {
    if |s| == 5 && s[2] == ':' && AllDigits(s[..2]) && AllDigits(s[3..])
    then Some((ParseDigits(s[..2]) * 60 + ParseDigits(s[3..])) % MinutesPerDay)
    else None
  }

  /** Text with the hours and minutes of `m` reads back as `m`. */
  lemma ParseTimeOf(t: string, m: int)
    requires 0 <= m < MinutesPerDay
    requires |t| == 5 && t[2] == ':'
    requires AllDigits(t[..2]) && ParseDigits(t[..2]) == m / 60
    requires AllDigits(t[3..]) && ParseDigits(t[3..]) == m % 60
    ensures ParseTime(t) == Some(m)
  {
    MinutesSplit(m);
  }

  lemma FormatTimeRoundTrip(m: int)
    requires 0 <= m < MinutesPerDay
    ensures ParseTime(FormatTime(m)) == Some(m)
  {
    ParseTimeOf(FormatTime(m), m);
  }

  datatype Slot = Slot(start: int, end: int)
  {
    predicate Valid()
    {
      0 <= start < MinutesPerDay && 0 <= end < MinutesPerDay
    }
  }

  /** The slot text `HH:mm-HH:mm`. */
  function SlotText(s: Slot): (r: string)
    requires s.Valid()
    ensures |r| == 11 && r[5] == '-'
    ensures r[..5] == FormatTime(s.start) && r[6..] == FormatTime(s.end)
  {
    Around(FormatTime(s.start), '-', FormatTime(s.end));
    FormatTime(s.start) + ['-'] + FormatTime(s.end)
  }

  /** `text.split('-')` of a slot text: the two times around the dash. */
  function ParseSlot(t: string): Option<Slot>
  {
    if |t| == 11 && t[5] == '-' && ParseTime(t[..5]).Some? && ParseTime(t[6..]).Some?
    then Some(Slot(ParseTime(t[..5]).value, ParseTime(t[6..]).value))
    else None
  }

  lemma ParseSlotOf(t: string, a: int, b: int)
    requires |t| == 11 && t[5] == '-'
    requires ParseTime(t[..5]) == Some(a) && ParseTime(t[6..]) == Some(b)
    ensures ParseSlot(t) == Some(Slot(a, b))
  {
  }

  /** A slot text contains its dash, and splitting at it gives back the
      start and the end. */
  lemma SlotTextRoundTrip(s: Slot)
    requires s.Valid()
    ensures Contains(SlotText(s), "-")
    ensures ParseSlot(SlotText(s)) == Some(s)
  {
    var t := SlotText(s);
    assert t[5..6] == "-";
    assert OccursAt(t, "-", 5);
    FormatTimeRoundTrip(s.start);
    FormatTimeRoundTrip(s.end);
    ParseSlotOf(t, s.start, s.end);
  }

  /** JavaScript's conversion of a number to a whole count (toward zero). */
  function Trunc(x: real): (n: int)
    ensures x >= 0.0 ==> n as real <= x < n as real + 1.0
    ensures x < 0.0 ==> n as real - 1.0 < x <= n as real
  {
    if x >= 0.0 then x.Floor else -((-x).Floor)
  }

  /** A whole number added to the value under `Trunc` comes out unchanged
      when the rest is not negative, and at most one lower otherwise. */
  lemma TruncShift(m: int, x: real)
    requires m >= 0
    ensures x >= 0.0 ==> Trunc(m as real + x) == m + Trunc(x)
    ensures Trunc(m as real + x) == m + Trunc(x) || Trunc(m as real + x) == m + Trunc(x) - 1
  {
  }

  /** The minute of the day, before wrapping, that `setMinutes(getMinutes()
      + hours * 60)` reaches from `start`: the start's minute of the hour
      and the added minutes are summed first, and the sum is truncated. */
  function EndMinute(start: int, hours: real): int
  {
    start - start % 60 + Trunc((start % 60) as real + hours * 60.0)
  }

  /** `generateTimeSlotWithDuration(start, hours)`: the slot from `start`
      to `hours` later, the end taken modulo a day. A duration that is not
      negative ends its whole minutes later; a negative one with a
      fraction of a minute may end one minute earlier than that. */
  function SlotWithDuration(start: int, hours: real): (s: Slot)
    requires 0 <= start < MinutesPerDay
    ensures s.Valid() && s.start == start
    ensures hours >= 0.0 ==> (s.end - start - Trunc(hours * 60.0)) % MinutesPerDay == 0
    ensures (s.end - start - Trunc(hours * 60.0)) % MinutesPerDay in {0, MinutesPerDay - 1}
  {
    TruncShift(start % 60, hours * 60.0);
    Slot(start, EndMinute(start, hours) % MinutesPerDay)
  }

  /** A 09:30 row given -0.01 hours ends at 09:29: the sum 30 - 0.6 is
      truncated as a whole. */
  lemma NegativeFractionEndsEarlier()
    ensures SlotWithDuration(570, -0.01) == Slot(570, 569)
  {
    assert (570 % 60) as real + -0.01 * 60.0 == 29.4;
    assert Trunc(29.4) == 29;
  }

  /** A slot of a whole number of hours under a day ends that many hours
      after it starts, or that many hours less a day when it runs past
      midnight. */
  lemma WholeHourSlot(start: int, h: nat)
    requires 0 <= start < MinutesPerDay && h < 24
    ensures var s := SlotWithDuration(start, h as real);
      s.end == start + 60 * h || s.end == start + 60 * h - MinutesPerDay
  {
    assert (h as real * 60.0).Floor == 60 * h;
  }

  /** `Number(v || d)`: a missing or zero value reads as `d`. */
  function HoursOr(v: Option<real>, d: real): (r: real)
    ensures v.Some? && v.value != 0.0 ==> r == v.value
    ensures v.None? || v.value == 0.0 ==> r == d
  {
    if v.Some? && v.value != 0.0 then v.value else d
  }

  /* ================= rows ================= */

  /** One row of the hours breakdown: the slot, the task, the hours. */
  datatype Row = Row(hour: Option<Slot>, task: string, hours: Option<real>)

  /** The slot a row gets from the row before it: starting at that row's
      end and lasting its own hours (1 when unset); a row after an empty
      slot keeps its own. */
  function Follow(prev: Row, cur: Row): (h: Option<Slot>)
    requires prev.hour.Some? ==> prev.hour.value.Valid()
    ensures prev.hour.Some? ==> h.Some? && h.value.start == prev.hour.value.end
    ensures prev.hour.None? ==> h == cur.hour
  {
    if prev.hour.Some? then Some(SlotWithDuration(prev.hour.value.end, HoursOr(cur.hours, 1.0)))
    else cur.hour
  }

  /** `calculateTotalHours`: the sum of the rows' hours, unset ones as 0. */
  function TotalHours(rows: seq<Row>): (t: real)
    ensures rows == [] ==> t == 0.0
    ensures (forall j :: 0 <= j < |rows| && rows[j].hours.Some? ==> rows[j].hours.value >= 0.0) ==> t >= 0.0
  {
    if rows == [] then 0.0
    else TotalHours(rows[..|rows| - 1]) + HoursOr(rows[|rows| - 1].hours, 0.0)
  }

  /** The total is additive over the rows. */
  lemma {:induction false} TotalHoursAppend(a: seq<Row>, b: seq<Row>)
    ensures TotalHours(a + b) == TotalHours(a) + TotalHours(b)
    decreases |b|
  {
    if b == [] {
      assert a + b == a;
    } else {
      var last := b[|b| - 1];
      assert (a + b)[..|a + b| - 1] == a + b[..|b| - 1];
      TotalHoursAppend(a, b[..|b| - 1]);
    }
  }

  /** Once a row has a slot, every row re-chained after it has one too,
      starting where the row before it ends. */
  lemma {:induction false} ChainedFrom(rows: seq<Row>, before: seq<Row>, from: int, k: int)
    requires SlotsValid(rows) && |rows| == |before|
    requires 0 <= from < k < |rows|
    requires forall j :: from < j < |rows| ==> rows[j].hour == Follow(rows[j - 1], before[j])
    requires rows[from].hour.Some?
    ensures rows[k - 1].hour.Some? && rows[k].hour.Some?
    ensures rows[k].hour.value.start == rows[k - 1].hour.value.end
    decreases k
  {
    if k > from + 1 {
      ChainedFrom(rows, before, from, k - 1);
    }
  }

  /** Rows whose slots are all within the day. */
  predicate SlotsValid(rows: seq<Row>)
  {
    forall j :: 0 <= j < |rows| && rows[j].hour.Some? ==> rows[j].hour.value.Valid()
  }

  /** `initializeFirstTimeSlot`'s first slot: for a project assignment its
      start time plus one hour (none when it has no start time); `09:00-10:00`
      otherwise. */
  function FirstSlot(hasProject: bool, assignmentStarts: seq<Option<int>>): (s: Option<Slot>)
    requires forall k :: 0 <= k < |assignmentStarts| && assignmentStarts[k].Some? ==>
      0 <= assignmentStarts[k].value < MinutesPerDay
    ensures !(hasProject && |assignmentStarts| > 0) ==> s == Some(Slot(540, 600))
    ensures hasProject && |assignmentStarts| > 0 ==> (s.None? <==> assignmentStarts[0].None?)
    ensures hasProject && |assignmentStarts| > 0 && s.Some? ==>
      s.value.start == assignmentStarts[0].value &&
      s.value.end == (assignmentStarts[0].value + 60) % MinutesPerDay
    ensures s.Some? ==> s.value.Valid() && s.value.end == (s.value.start + 60) % MinutesPerDay
  {
    if hasProject && |assignmentStarts| > 0 then
      (if assignmentStarts[0].Some? then Some(SlotWithDuration(assignmentStarts[0].value, 1.0)) else None)
    else Some(Slot(540, 600))
  }

  /** The timesheet form: its rows, and the year choices of the filter. */
  class TimesheetForm {
    var rows: seq<Row>
    var years: seq<int>

    constructor ()
      ensures rows == [] && years == []
    {
      rows := [];
      years := [];
    }

    /** `initializeFirstTimeSlot`: clear the rows and add one row of one hour. */
    method InitializeFirstTimeSlot(hasProject: bool, assignmentStarts: seq<Option<int>>)
      requires forall k :: 0 <= k < |assignmentStarts| && assignmentStarts[k].Some? ==>
        0 <= assignmentStarts[k].value < MinutesPerDay
      modifies this`rows
      ensures rows == [Row(FirstSlot(hasProject, assignmentStarts), "", Some(1.0))]
      ensures SlotsValid(rows)
    {
      rows := [Row(FirstSlot(hasProject, assignmentStarts), "", Some(1.0))];
    }

    /** `addRow`: a new one-hour row starting where the last row ends (an
        empty slot when there is no row or the last one has no slot). */
    method AddRow()
      requires SlotsValid(rows)
      modifies this`rows
      ensures SlotsValid(rows)
      ensures |rows| == |old(rows)| + 1 && rows[..|old(rows)|] == old(rows)
      ensures rows[|rows| - 1].task == "" && rows[|rows| - 1].hours == Some(1.0)
      ensures old(rows) != [] && old(rows)[|old(rows)| - 1].hour.Some? ==>
        rows[|rows| - 1].hour == Some(SlotWithDuration(old(rows)[|old(rows)| - 1].hour.value.end, 1.0))
      ensures old(rows) == [] || old(rows)[|old(rows)| - 1].hour.None? ==> rows[|rows| - 1].hour.None?
      ensures TotalHours(rows) == TotalHours(old(rows)) + 1.0
    {
      var next: Option<Slot> := None;
      if |rows| > 0 {
        var last := rows[|rows| - 1];
        if last.hour.Some? {
          next := Some(SlotWithDuration(last.hour.value.end, 1.0));
        }
      }
      var row := Row(next, "", Some(1.0));
      assert TotalHours([row]) == 1.0 by {
        assert [row][..0] == [];
      }
      TotalHoursAppend(rows, [row]);
      rows := rows + [row];
    }

    /** `onHoursChange(index)`: refit the row's slot to its hours (1 when
        unset) from its own start, then re-chain the rows after it. A row
        without a slot is left alone. */
    method OnHoursChange(index: int)
      requires 0 <= index < |rows| && SlotsValid(rows)
      modifies this`rows
      ensures SlotsValid(rows) && |rows| == |old(rows)|
      ensures old(rows)[index].hour.None? ==> rows == old(rows)
      ensures old(rows)[index].hour.Some? ==>
        rows[index].hour == Some(SlotWithDuration(old(rows)[index].hour.value.start, HoursOr(old(rows)[index].hours, 1.0)))
      ensures old(rows)[index].hour.Some? ==> forall j :: index < j < |rows| ==>
        rows[j].hour == Follow(rows[j - 1], old(rows)[j])
      ensures forall j :: 0 <= j < |rows| ==> rows[j].task == old(rows)[j].task && rows[j].hours == old(rows)[j].hours
      ensures rows[..index] == old(rows)[..index]
    {
      var row := rows[index];
      if row.hour.Some? {
        var slot := SlotWithDuration(row.hour.value.start, HoursOr(row.hours, 1.0));
        rows := rows[index := row.(hour := Some(slot))];
        UpdateSubsequentRows(index);
      }
    }

    /** `updateSubsequentRows(fromIndex)`: every later row, in order, takes
        the slot `Follow` gives it from the (already updated) row before. */
    method UpdateSubsequentRows(fromIndex: int)
      requires 0 <= fromIndex < |rows| && SlotsValid(rows)
      modifies this`rows
      ensures SlotsValid(rows) && |rows| == |old(rows)|
      ensures rows[..fromIndex + 1] == old(rows)[..fromIndex + 1]
      ensures forall j :: fromIndex < j < |rows| ==> rows[j].hour == Follow(rows[j - 1], old(rows)[j])
      ensures forall j :: 0 <= j < |rows| ==> rows[j].task == old(rows)[j].task && rows[j].hours == old(rows)[j].hours
    {
      var i := fromIndex + 1;
      while i < |rows|
        invariant fromIndex + 1 <= i <= |rows| == |old(rows)|
        invariant SlotsValid(rows)
        invariant rows[..fromIndex + 1] == old(rows)[..fromIndex + 1]
        invariant forall j :: i <= j < |rows| ==> rows[j] == old(rows)[j]
        invariant forall j :: fromIndex < j < i ==> rows[j].hour == Follow(rows[j - 1], old(rows)[j])
        invariant forall j :: 0 <= j < |rows| ==> rows[j].task == old(rows)[j].task && rows[j].hours == old(rows)[j].hours
      {
        var prev := rows[i - 1];
        var cur := rows[i];
        if prev.hour.Some? {
          var slot := SlotWithDuration(prev.hour.value.end, HoursOr(cur.hours, 1.0));
          rows := rows[i := cur.(hour := Some(slot))];
        }
        i := i + 1;
      }
    }

    /** `removeRow(i)`: drop row `i` unless it is the only row. */
    method RemoveRow(i: int)
      requires 0 <= i < |rows|
      modifies this`rows
      ensures |old(rows)| > 1 ==> rows == old(rows)[..i] + old(rows)[i + 1..]
      ensures |old(rows)| <= 1 ==> rows == old(rows)
      ensures |rows| >= 1
      ensures SlotsValid(old(rows)) ==> SlotsValid(rows)
    {
      if |rows| > 1 {
        rows := rows[..i] + rows[i + 1..];
      }
    }

    /** `initializeYears`: append the current year and the five before it,
        newest first. */
    method InitializeYears(currentYear: int)
      modifies this`years
      ensures years == old(years) + YearsBack(currentYear, 6)
    {
      var y := currentYear;
      while y >= currentYear - 5
        invariant currentYear - 6 <= y <= currentYear
        invariant years == old(years) + YearsBack(currentYear, currentYear - y)
        decreases y - currentYear + 6
      {
        YearsBackStep(currentYear, currentYear - y);
        years := years + [y];
        y := y - 1;
      }
    }
  }

  /** The `n` years from `y` down to `y - n + 1`. */
  function YearsBack(y: int, n: nat): (r: seq<int>)
    ensures |r| == n
    ensures forall k :: 0 <= k < n ==> r[k] == y - k
    decreases n
  {
    if n == 0 then [] else [y] + YearsBack(y - 1, n - 1)
  }

  lemma YearsBackStep(y: int, n: nat)
    ensures YearsBack(y, n + 1) == YearsBack(y, n) + [y - n]
  {
    var a := YearsBack(y, n + 1);
    var b := YearsBack(y, n) + [y - n];
    assert |a| == |b|;
    assert forall k :: 0 <= k < |a| ==> a[k] == b[k];
  }

  /* ================= status colours ================= */

  /** `getStatusColor`: the chip colour of a timesheet status. */
  function StatusColor(status: Option<string>): (r: string)
    ensures !Truthy(status) ==> r == "warning"
    ensures r in {"accept", "reject", "pending", "warning", "medium"}
    ensures Truthy(status) && ToLower(status.value) in {"verified", "approved"} ==> r == "accept"
    ensures Truthy(status) && ToLower(status.value) == "rejected" ==> r == "reject"
    ensures Truthy(status) && ToLower(status.value) in {"submitted", "pending"} ==> r == "pending"
    ensures r == "medium" <==> (Truthy(status) &&
      ToLower(status.value) !in {"verified", "approved", "rejected", "submitted", "pending"})
  {
    if !Truthy(status) then "warning"
    else
      var s := ToLower(status.value);
      if s == "verified" || s == "approved" then "accept"
      else if s == "rejected" then "reject"
      else if s == "submitted" || s == "pending" then "pending"
      else "medium"
  }

  /** The colour does not depend on the case of the status. */
  lemma StatusColorIgnoresCase(s: string)
    ensures StatusColor(Some(s)) == StatusColor(Some(ToLower(s)))
  {
    ToLowerIdempotent(s);
  }

  /** A status spelt `Approved` is shown as accepted. */
  lemma CapitalisedStatusColor()
    ensures StatusColor(Some("Approved")) == "accept"
  {
    assert ToLower("Approved") == "approved";
  }
}
