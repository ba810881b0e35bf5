/** Calendar arithmetic on day numbers: day 0 is 1970-01-01, a Thursday.
    The application reads and writes dates as `yyyy-mm-dd` strings and
    JavaScript `Date` objects; here a date is the number of days since that
    epoch, and a civil date (year, month 1..12, day) converts to it. */
module Dates {

  /** Seconds in a day and in an hour. */
  const SecondsPerDay: int := 86400
  const SecondsPerHour: int := 3600

  predicate IsLeap(y: int)
  {
    y % 4 == 0 && (y % 100 != 0 || y % 400 == 0)
  }

  function DaysInYear(y: int): int
  {
    if IsLeap(y) then 366 else 365
  }

  /** `new Date(y, m, 0).getDate()`: the number of days of month `m` (1..12). */
  function DaysInMonth(y: int, m: int): (n: int)
    requires 1 <= m <= 12
    ensures 28 <= n <= 31
    ensures m == 2 ==> (n == 29 <==> IsLeap(y))
  {
    if m == 2 then (if IsLeap(y) then 29 else 28)
    else if m == 4 || m == 6 || m == 9 || m == 11 then 30
    else 31
  }

  /** Days of the year before the first of month `m`; month 13 stands for
      the start of the next year. */
  function DaysBeforeMonth(y: int, m: int): (n: int)
    requires 1 <= m <= 13
    ensures 0 <= n <= DaysInYear(y)
    ensures m == 13 <==> n == DaysInYear(y)
  {
    var leap := if IsLeap(y) then 1 else 0;
    if m == 1 then 0
    else if m == 2 then 31
    else if m == 3 then 59 + leap
    else if m == 4 then 90 + leap
    else if m == 5 then 120 + leap
    else if m == 6 then 151 + leap
    else if m == 7 then 181 + leap
    else if m == 8 then 212 + leap
    else if m == 9 then 243 + leap
    else if m == 10 then 273 + leap
    else if m == 11 then 304 + leap
    else if m == 12 then 334 + leap
    else 365 + leap
  }

  /** Leap days from year 1 up to, but excluding, year `y`. */
  function LeapsBefore(y: int): int
  {
    (y - 1) / 4 - (y - 1) / 100 + (y - 1) / 400
  }

  /** Day number of January 1st of year `y`. */
  function YearStart(y: int): int
  {
    365 * (y - 1970) + LeapsBefore(y) - LeapsBefore(1970)
  }

  lemma YearLength(y: int)
    ensures YearStart(y + 1) - YearStart(y) == DaysInYear(y)
  {
    StepOver4(y);
    StepOver100(y);
    StepOver400(y);
  }

  /** Moving from `y - 1` to `y` passes a multiple of 4, 100 or 400 exactly
      when `y` is one. */
  lemma StepOver4(y: int)
    ensures y / 4 - (y - 1) / 4 == (if y % 4 == 0 then 1 else 0)
  {
  }

  lemma StepOver100(y: int)
    ensures y / 100 - (y - 1) / 100 == (if y % 100 == 0 then 1 else 0)
  {
  }

  lemma StepOver400(y: int)
    ensures y / 400 - (y - 1) / 400 == (if y % 400 == 0 then 1 else 0)
  {
  }

  predicate ValidDate(y: int, m: int, d: int)
  {
    1 <= m <= 12 && 1 <= d <= DaysInMonth(y, m)
  }

  /** `new Date(y, m - 1, d)` as a day number. */
  function DayNumber(y: int, m: int, d: int): (n: int)
    requires ValidDate(y, m, d)
    ensures YearStart(y) <= n < YearStart(y) + DaysInYear(y)
  {
    YearStart(y) + DaysBeforeMonth(y, m) + d - 1
  }

  /** A local calendar date as `getFullYear()`, `getMonth() + 1`, `getDate()` give it. */
  datatype Civil = Civil(year: int, month: int, day: int)
  {
    predicate Valid()
    {
      ValidDate(year, month, day)
    }

    function Day(): int
      requires Valid()
    {
      DayNumber(year, month, day)
    }
  }

  /** `getDay()`: 0 for Sunday through 6 for Saturday. */
  function Weekday(n: int): (w: int)
    ensures 0 <= w < 7
  {
    (n + 4) % 7
  }

  /** Every month starts where the previous one ends. */
  lemma MonthStep(y: int, m: int)
    requires 1 <= m <= 12
    ensures DaysBeforeMonth(y, m) + DaysInMonth(y, m) == DaysBeforeMonth(y, m + 1)
  {
  }

  /** The weekday repeats every seven days and advances by one each day. */
  lemma WeekdayStep(n: int)
    ensures Weekday(n + 7) == Weekday(n)
    ensures Weekday(n + 1) == (Weekday(n) + 1) % 7
  {
  }

  lemma EpochIsThursday()
    ensures DayNumber(1970, 1, 1) == 0
    ensures Weekday(0) == 4
  {
  }

  /** Consecutive days of one month have consecutive day numbers, and the
      last day of a month is followed by the first of the next. */
  lemma NextDay(y: int, m: int, d: int)
    requires ValidDate(y, m, d)
    ensures d < DaysInMonth(y, m) ==> DayNumber(y, m, d + 1) == DayNumber(y, m, d) + 1
    ensures d == DaysInMonth(y, m) && m < 12 ==> DayNumber(y, m + 1, 1) == DayNumber(y, m, d) + 1
    ensures d == DaysInMonth(y, m) && m == 12 ==> DayNumber(y + 1, 1, 1) == DayNumber(y, m, d) + 1
  {
    YearLength(y);
    MonthStep(y, m);
  }

  /** Dates compare as their day numbers do, year first, then month, then day. */
  lemma DayNumberOrder(y1: int, m1: int, d1: int, y2: int, m2: int, d2: int)
    requires ValidDate(y1, m1, d1) && ValidDate(y2, m2, d2)
    requires y1 < y2 || (y1 == y2 && (m1 < m2 || (m1 == m2 && d1 <= d2)))
    ensures DayNumber(y1, m1, d1) <= DayNumber(y2, m2, d2)
  {
    if y1 < y2 {
      YearStartMonotone(y1 + 1, y2);
      YearLength(y1);
    } else if m1 < m2 {
      DaysBeforeMonthMonotone(y1, m1 + 1, m2);
    }
  }

  lemma {:induction false} YearStartMonotone(a: int, b: int)
    requires a <= b
    ensures YearStart(a) <= YearStart(b)
    decreases b - a
  {
    if a < b {
      YearLength(a);
      YearStartMonotone(a + 1, b);
    }
  }

  lemma DaysBeforeMonthMonotone(y: int, a: int, b: int)
    requires 1 <= a <= b <= 13
    ensures DaysBeforeMonth(y, a) <= DaysBeforeMonth(y, b)
  {
  }

  /** The days `a`, `a + 1`, ..., `b`; empty when `b < a`. */
  function DayRange(a: int, b: int): (r: seq<int>)
    ensures |r| == (if b < a then 0 else b - a + 1)
    ensures forall i :: 0 <= i < |r| ==> r[i] == a + i
    decreases b - a
  {
    if b < a then [] else [a] + DayRange(a + 1, b)
  }

  lemma DayRangeMembers(a: int, b: int, d: int)
    ensures d in DayRange(a, b) <==> a <= d <= b
  {
    if a <= d <= b {
      assert DayRange(a, b)[d - a] == d;
    }
  }
}
