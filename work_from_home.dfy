/** The work-from-home request form: a date range picked on a small month
    calendar, full or half-day sessions, the day count they give, and the
    guard in front of the request. The two dates are instants in seconds
    (the form starts both at the current time; a picked day is its midnight). */
module WorkFromHome {
  import opened Js
  import opened Dates

  datatype RequestType = Full | Custom
  datatype Session = FullDay | FirstHalf | SecondHalf
  datatype Picker = FromPicker | ToPicker

  /** The request the form sends: the from-day, the mode, the note. */
  datatype Payload = Payload(date: int, work_mode: string, reason: string)

  /** The `prevMonth` move on (month 0..11, year). */
  function PrevMonth(month: int, year: int): (r: (int, int))
    requires 0 <= month <= 11
    ensures 0 <= r.0 <= 11
    ensures month > 0 ==> r == (month - 1, year)
    ensures month == 0 ==> r == (11, year - 1)
  {
    if month - 1 < 0 then (11, year - 1) else (month - 1, year)
  }

  /** The `nextMonth` move on (month 0..11, year). */
  function NextMonth(month: int, year: int): (r: (int, int))
    requires 0 <= month <= 11
    ensures 0 <= r.0 <= 11
    ensures month < 11 ==> r == (month + 1, year)
    ensures month == 11 ==> r == (0, year + 1)
  {
    if month + 1 > 11 then (0, year + 1) else (month + 1, year)
  }

  /** The two moves undo each other, and both keep the months in order:
      twelve steps forward is one year later. */
  lemma MonthMovesInverse(month: int, year: int)
    requires 0 <= month <= 11
    ensures PrevMonth(NextMonth(month, year).0, NextMonth(month, year).1) == (month, year)
    ensures NextMonth(PrevMonth(month, year).0, PrevMonth(month, year).1) == (month, year)
    ensures var n := NextMonth(month, year); 12 * n.1 + n.0 == 12 * year + month + 1
    ensures var p := PrevMonth(month, year); 12 * p.1 + p.0 == 12 * year + month - 1
  {
  }

  /** The day count of the form for the range `fromTime .. toTime`
      (seconds): whole days between them plus one, less half a day for
      each half-day session of a custom request; 0 for a reversed range. */
  function RequestDays(fromTime: int, toTime: int, requestType: RequestType,
                       fromSession: Session, toSession: Session): (d: real)
    ensures toTime < fromTime ==> d == 0.0
    ensures toTime >= fromTime && requestType == Full ==>
      d == ((toTime - fromTime) / SecondsPerDay + 1) as real && d >= 1.0
    ensures toTime >= fromTime && requestType == Custom ==>
      d == ((toTime - fromTime) / SecondsPerDay + 1) as real
        - (if fromSession != FullDay then 0.5 else 0.0)
        - (if toSession != FullDay then 0.5 else 0.0)
    ensures toTime >= fromTime ==> d >= 0.0
  {
    if toTime < fromTime then 0.0
    else
      var diff := (toTime - fromTime) / SecondsPerDay + 1;
      var diff' := if diff <= 0 then 1 else diff;
      if requestType == Full then diff' as real
      else
        var total := diff' as real;
        var total' := if fromSession != FullDay then total - 0.5 else total;
        if toSession != FullDay then total' - 0.5 else total'
  }

  /** A custom request within a single day with the sessions `setType`
      chooses (first half to second half) counts 0 days, and a full request
      over the same day counts 1. */
  lemma SameDayCustomCountsZero(t: int)
    ensures RequestDays(t, t, Custom, FirstHalf, SecondHalf) == 0.0
    ensures RequestDays(t, t, Full, FullDay, FullDay) == 1.0
  {
  }

  /** Picking day `a` as the from-date and day `b` as the to-date of a
      full request counts the days from `a` to `b` inclusive; picking them
      the other way round counts nothing. */
  lemma SelectedDaysCount(a: int, b: int)
    ensures a <= b ==>
      RequestDays(a * SecondsPerDay, b * SecondsPerDay, Full, FullDay, FullDay) == (b - a + 1) as real
    ensures b < a ==> RequestDays(a * SecondsPerDay, b * SecondsPerDay, Full, FullDay, FullDay) == 0.0
  {
    assert b * SecondsPerDay - a * SecondsPerDay == (b - a) * SecondsPerDay;
    assert (b - a) * SecondsPerDay / SecondsPerDay == b - a;
  }

  /** `Array(n).fill(0)`. */
  function Zeros(n: nat): (r: seq<int>)
    ensures |r| == n && forall i :: 0 <= i < n ==> r[i] == 0
  {
    if n == 0 then [] else Zeros(n - 1) + [0]
  }

  /** `Array.from({length: n}, (_, i) => i + 1)`. */
  function OneTo(n: nat): (r: seq<int>)
    ensures |r| == n && forall i :: 0 <= i < n ==> r[i] == i + 1
  {
    if n == 0 then [] else OneTo(n - 1) + [n]
  }

  class WfhForm {
    var pickerOpen: Option<Picker>
    var fromTime: int
    var toTime: int
    var validationError: string
    var totalDays: real
    var requestType: RequestType
    var fromSession: Session
    var toSession: Session
    var note: string
    var currentMonth: int
    var currentYear: int
    var blankDays: seq<int>
    var monthDays: seq<int>

    ghost predicate Valid()
      reads this
    {
      0 <= currentMonth <= 11
    }

    /** The field initialisers and `ngOnInit`, with `now` the current
        instant and (`month`, `year`) its calendar month. */
    constructor (now: int, month: int, year: int)
      requires 0 <= month <= 11
      ensures Valid()
      ensures fromTime == now && toTime == now && pickerOpen.None?
      ensures requestType == Full && fromSession == FullDay && toSession == FullDay
      ensures totalDays == 1.0 && validationError == "" && note == ""
      ensures currentMonth == month && currentYear == year
      ensures blankDays == Zeros(Weekday(DayNumber(year, month + 1, 1)))
      ensures monthDays == OneTo(DaysInMonth(year, month + 1))
    {
      pickerOpen := None;
      fromTime := now;
      toTime := now;
      validationError := "";
      totalDays := 1.0;
      requestType := Full;
      fromSession := FullDay;
      toSession := FullDay;
      note := "";
      currentMonth := month;
      currentYear := year;
      blankDays := Zeros(Weekday(DayNumber(year, month + 1, 1)));
      monthDays := OneTo(DaysInMonth(year, month + 1));
    }

    /** `openPicker(type)`: open it, or close it when it is the open one. */
    method OpenPicker(p: Picker)
      modifies this`pickerOpen
      ensures old(pickerOpen) == Some(p) ==> pickerOpen.None?
      ensures old(pickerOpen) != Some(p) ==> pickerOpen == Some(p)
    {
      pickerOpen := if pickerOpen == Some(p) then None else Some(p);
    }

    /** `generateCalendar`: one blank per weekday before the 1st (Sunday
        first), then the days 1 .. last of the month. */
    method GenerateCalendar()
      requires Valid()
      modifies this`blankDays, this`monthDays
      ensures |blankDays| == Weekday(DayNumber(currentYear, currentMonth + 1, 1))
      ensures forall i :: 0 <= i < |blankDays| ==> blankDays[i] == 0
      ensures |monthDays| == DaysInMonth(currentYear, currentMonth + 1)
      ensures forall i :: 0 <= i < |monthDays| ==> monthDays[i] == i + 1
    {
      blankDays := Zeros(Weekday(DayNumber(currentYear, currentMonth + 1, 1)));
      monthDays := OneTo(DaysInMonth(currentYear, currentMonth + 1));
    }

    method PrevMonthMove()
      requires Valid()
      modifies this`currentMonth, this`currentYear, this`blankDays, this`monthDays
      ensures Valid()
      ensures (currentMonth, currentYear) == PrevMonth(old(currentMonth), old(currentYear))
      ensures |blankDays| == Weekday(DayNumber(currentYear, currentMonth + 1, 1))
      ensures forall i :: 0 <= i < |blankDays| ==> blankDays[i] == 0
      ensures |monthDays| == DaysInMonth(currentYear, currentMonth + 1)
      ensures forall i :: 0 <= i < |monthDays| ==> monthDays[i] == i + 1
    {
      currentMonth := currentMonth - 1;
      if currentMonth < 0 {
        currentMonth := 11;
        currentYear := currentYear - 1;
      }
      GenerateCalendar();
    }

    method NextMonthMove()
      requires Valid()
      modifies this`currentMonth, this`currentYear, this`blankDays, this`monthDays
      ensures Valid()
      ensures (currentMonth, currentYear) == NextMonth(old(currentMonth), old(currentYear))
      ensures |blankDays| == Weekday(DayNumber(currentYear, currentMonth + 1, 1))
      ensures forall i :: 0 <= i < |blankDays| ==> blankDays[i] == 0
      ensures |monthDays| == DaysInMonth(currentYear, currentMonth + 1)
      ensures forall i :: 0 <= i < |monthDays| ==> monthDays[i] == i + 1
    {
      currentMonth := currentMonth + 1;
      if currentMonth > 11 {
        currentMonth := 0;
        currentYear := currentYear + 1;
      }
      GenerateCalendar();
    }

    /** `calculateDays`: a reversed range counts 0 days and sets the
        validation error; any other range clears it. */
    method CalculateDays()
      modifies this`totalDays, this`validationError
      ensures totalDays == RequestDays(fromTime, toTime, requestType, fromSession, toSession)
      ensures toTime < fromTime <==> validationError != ""
      ensures toTime < fromTime ==> validationError == "To date cannot be earlier than From date"
    {
      if toTime < fromTime {
        totalDays := 0.0;
        validationError := "To date cannot be earlier than From date";
        return;
      }
      validationError := "";
      var diff := (toTime - fromTime) / SecondsPerDay + 1;
      if diff <= 0 {
        diff := 1;
      }
      if requestType == Full {
        totalDays := diff as real;
        return;
      }
      var total := diff as real;
      if fromSession != FullDay {
        total := total - 0.5;
      }
      if toSession != FullDay {
        total := total - 0.5;
      }
      totalDays := total;
    }

    /** `setType`: a full request is full days at both ends; a custom one
        starts with the first half and ends with the second. */
    method SetType(t: RequestType)
      modifies this`requestType, this`fromSession, this`toSession, this`totalDays, this`validationError
      ensures requestType == t
      ensures t == Full ==> fromSession == FullDay && toSession == FullDay
      ensures t == Custom ==> fromSession == FirstHalf && toSession == SecondHalf
      ensures totalDays == RequestDays(fromTime, toTime, t, fromSession, toSession)
      ensures toTime < fromTime <==> validationError != ""
    {
      requestType := t;
      if t == Full {
        fromSession := FullDay;
        toSession := FullDay;
      } else {
        fromSession := FirstHalf;
        toSession := SecondHalf;
      }
      CalculateDays();
    }

    /** `selectDate(day)`: the open picker's date (the to-date unless the
        from-picker is open) becomes that day of the shown month, the count
        is redone and the picker closes. */
    method SelectDate(day: int)
      requires Valid() && 1 <= day <= DaysInMonth(currentYear, currentMonth + 1)
      modifies this`fromTime, this`toTime, this`totalDays, this`validationError, this`pickerOpen
      ensures old(pickerOpen) == Some(FromPicker) ==>
        fromTime == DayNumber(currentYear, currentMonth + 1, day) * SecondsPerDay && toTime == old(toTime)
      ensures old(pickerOpen) != Some(FromPicker) ==>
        toTime == DayNumber(currentYear, currentMonth + 1, day) * SecondsPerDay && fromTime == old(fromTime)
      ensures totalDays == RequestDays(fromTime, toTime, requestType, fromSession, toSession)
      ensures toTime < fromTime <==> validationError != ""
      ensures pickerOpen.None?
    {
      var selected := DayNumber(currentYear, currentMonth + 1, day) * SecondsPerDay;
      if pickerOpen == Some(FromPicker) {
        fromTime := selected;
      } else {
        toTime := selected;
      }
      CalculateDays();
      pickerOpen := None;
    }

    /** `submit`: nothing is sent without a note or with a validation
        error; otherwise a WFH request for the from-day. */
    method Submit() returns (request: Option<Payload>)
      ensures request.None? <==> note == "" || validationError != ""
      ensures request.Some? ==> request.value == Payload(fromTime / SecondsPerDay, "WFH", note)
    {
      if note == "" || validationError != "" {
        return None;
      }
      request := Some(Payload(fromTime / SecondsPerDay, "WFH", note));
    }
  }
}
