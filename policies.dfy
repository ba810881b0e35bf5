/** The policy records the screens read from the server: which weekdays a
    weekly-off policy gives off, and when a shift starts. */
module Policies {
  import opened Js

  /** One flag per weekday; the server sends 0 or 1, and a flag is set when
      it is non-zero. */
  datatype WeeklyOffPolicy = WeeklyOffPolicy(
    id: nat,
    sunday_off: int, monday_off: int, tuesday_off: int, wednesday_off: int,
    thursday_off: int, friday_off: int, saturday_off: int,
    is_active: int)

  /** The flag of weekday `w` (0 Sunday .. 6 Saturday). */
  function OffFlag(p: WeeklyOffPolicy, w: int): int
    requires 0 <= w < 7
  {
    if w == 0 then p.sunday_off
    else if w == 1 then p.monday_off
    else if w == 2 then p.tuesday_off
    else if w == 3 then p.wednesday_off
    else if w == 4 then p.thursday_off
    else if w == 5 then p.friday_off
    else p.saturday_off
  }

  /** A shift start `HH:MM[:SS]` already split into numbers; a missing
      seconds part reads as 0. */
  datatype ShiftStart = ShiftStart(hours: int, minutes: int, seconds: Option<int>)

  datatype ShiftPolicy = ShiftPolicy(id: nat, start_time: Option<ShiftStart>)

  /** Seconds after midnight at which the shift starts (`setHours(h, m, s || 0)`). */
  function StartOffset(t: ShiftStart): int
  {
    t.hours * 3600 + t.minutes * 60 + (if t.seconds.Some? then t.seconds.value else 0)
  }
}
