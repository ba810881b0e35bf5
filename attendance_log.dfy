/** The employee's attendance log: the report window, the index of approved
    leave days, the day-by-day report composed from server records, leaves
    and the weekly-off policy, the grouping of raw punches into sessions,
    and the late-arrival rules. Dates are day numbers (see `Dates`),
    timestamps are seconds since the epoch in local time. */
module AttendanceLog {
  import opened Js
  import opened Strings
  import opened Dates
  import opened Seqs
  import opened Policies

  /* ================= report window ================= */

  const MonthCodes: seq<string> :=
    ["JAN", "FEB", "MAR", "APR", "MAY", "JUN", "JUL", "AUG", "SEP", "OCT", "NOV", "DEC"]

  /** The last day a report may show: the window's end, or today if earlier. */
  function ReportBound(end: int, today: int): int
  {
    if end > today then today else end
  }

  /** `getAllDatesBetween`: every day from `start` through the earlier of
      `end` and today, one by one. */
  method AllDatesBetween(start: int, end: int, today: int) returns (dates: seq<int>)
    ensures dates == DayRange(start, ReportBound(end, today))
  {
    var bound := ReportBound(end, today);
    dates := [];
    var d := start;
    while d <= bound
      invariant start <= d <= (if bound < start then start else bound + 1)
      invariant dates == DayRange(start, d - 1)
      decreases bound - d
    {
      dates := dates + [d];
      d := d + 1;
    }
  }

  /* ================= leave index ================= */

  /** A leave as `getMyLeaves` returns it; absent or empty fields are `None`. */
  datatype Leave = Leave(
    status: Option<string>,
    type_name: Option<string>, type_code: Option<string>, leave_type: Option<string>,
    start_date: Option<int>, from_date: Option<int>,
    end_date: Option<int>, to_date: Option<int>)

  /** `(l.status || '').toUpperCase() === 'APPROVED'`. */
  predicate IsApproved(l: Leave)
  {
    ToUpper(OrElse(l.status, "")) == "APPROVED"
  }

  /** The badge text: type name, else type code, else leave type, else `Leave`. */
  function LeaveLabel(l: Leave): (r: string)
    ensures r != ""
    ensures Truthy(l.type_name) ==> r == l.type_name.value
  {
    OrElse(OrOpt(OrOpt(l.type_name, l.type_code), l.leave_type), "Leave")
  }

  function DateOr(a: Option<int>, dflt: int): int
  {
    if a.Some? then a.value else dflt
  }

  /** First day of a leave: start date, else from date, else today. */
  function LeaveFrom(l: Leave, today: int): int
  {
    DateOr(l.start_date, DateOr(l.from_date, today))
  }

  /** Last day of a leave: end date, else to date, else its first day. */
  function LeaveTo(l: Leave, today: int): int
  {
    DateOr(l.end_date, DateOr(l.to_date, LeaveFrom(l, today)))
  }

  /** Leave `l` is approved and covers day `d`. */
  predicate Grants(l: Leave, today: int, d: int)
  {
    IsApproved(l) && LeaveFrom(l, today) <= d <= LeaveTo(l, today)
  }

  /** `m` with every day from `first` to `last` mapped to `label`. */
  function Overlay(m: map<int, string>, first: int, last: int, badge: string): (r: map<int, string>)
    ensures forall d :: d in r <==> d in m || first <= d <= last
    ensures forall d :: d in r ==> r[d] == (if first <= d <= last then badge else m[d])
    decreases last - first
  {
    if last < first then m else Overlay(m, first, last - 1, badge)[last := badge]
  }

  /** The leave index after the leaves in `leaves`, in order. It never
      holds an empty label, so `if (leaveType)` is the same as "the day is
      in the index". */
  function LeaveIndex(leaves: seq<Leave>, today: int): (m: map<int, string>)
    ensures forall d :: d in m ==> m[d] != ""
    decreases |leaves|
  {
    if leaves == [] then map[]
    else
      var m := LeaveIndex(leaves[..|leaves| - 1], today);
      var l := leaves[|leaves| - 1];
      if IsApproved(l) then Overlay(m, LeaveFrom(l, today), LeaveTo(l, today), LeaveLabel(l)) else m
  }

  /** One leave more: a day it grants gets its label, every other day keeps
      what the shorter index says. */
  lemma LeaveIndexStep(leaves: seq<Leave>, today: int, d: int)
    requires leaves != []
    ensures var n := |leaves| - 1;
      Grants(leaves[n], today, d) ==>
        d in LeaveIndex(leaves, today) && LeaveIndex(leaves, today)[d] == LeaveLabel(leaves[n])
    ensures var n := |leaves| - 1;
      !Grants(leaves[n], today, d) ==>
        (d in LeaveIndex(leaves, today) <==> d in LeaveIndex(leaves[..n], today))
        && (d in LeaveIndex(leaves[..n], today) ==> LeaveIndex(leaves, today)[d] == LeaveIndex(leaves[..n], today)[d])
  {
  }

  /** A day is in the leave index exactly when some approved leave covers it. */
  lemma {:induction false} LeaveIndexCovers(leaves: seq<Leave>, today: int, d: int)
    ensures d in LeaveIndex(leaves, today) <==> exists i :: 0 <= i < |leaves| && Grants(leaves[i], today, d)
    decreases |leaves|
  {
    if leaves != [] {
      var n := |leaves| - 1;
      var init := leaves[..n];
      LeaveIndexStep(leaves, today, d);
      LeaveIndexCovers(init, today, d);
      assert forall i :: 0 <= i < n ==> init[i] == leaves[i];
    }
  }

  /** The position of the last approved leave covering day `d`, if any. */
  function LastGrant(leaves: seq<Leave>, today: int, d: int): (r: Option<nat>)
    ensures r.Some? ==> r.value < |leaves| && Grants(leaves[r.value], today, d)
    ensures r.Some? ==> forall k :: r.value < k < |leaves| ==> !Grants(leaves[k], today, d)
    ensures r.None? ==> forall k :: 0 <= k < |leaves| ==> !Grants(leaves[k], today, d)
    decreases |leaves|
  {
    if leaves == [] then None
    else if Grants(leaves[|leaves| - 1], today, d) then Some(|leaves| - 1)
    else
      var n := |leaves| - 1;
      assert forall k :: 0 <= k < n ==> leaves[..n][k] == leaves[k];
      LastGrant(leaves[..n], today, d)
  }

  /** A day in the leave index carries the label of the last approved leave
      that covers it. */
  lemma {:induction false} LeaveIndexLast(leaves: seq<Leave>, today: int, d: int)
    ensures d in LeaveIndex(leaves, today) <==> LastGrant(leaves, today, d).Some?
    ensures d in LeaveIndex(leaves, today) ==>
      LeaveIndex(leaves, today)[d] == LeaveLabel(leaves[LastGrant(leaves, today, d).value])
    decreases |leaves|
  {
    if leaves != [] {
      var n := |leaves| - 1;
      LeaveIndexStep(leaves, today, d);
      LeaveIndexLast(leaves[..n], today, d);
      var g := LastGrant(leaves[..n], today, d);
      if g.Some? {
        assert leaves[..n][g.value] == leaves[g.value];
      }
    }
  }

  /* ================= weekly off ================= */

  /** The weekday numbers whose `*_off` flag is set, ascending; none
      without a policy. */
  function WeekOffDays(policy: Option<WeeklyOffPolicy>): (r: seq<int>)
    ensures policy.None? ==> r == []
    ensures forall w :: w in r <==> policy.Some? && 0 <= w < 7 && OffFlag(policy.value, w) != 0
    ensures forall i, j :: 0 <= i < j < |r| ==> r[i] < r[j]
  {
    if policy.None? then [] else OffFrom(policy.value, 0)
  }

  /** The flagged weekdays from `w` to Saturday, in order. */
  function OffFrom(p: WeeklyOffPolicy, w: int): (r: seq<int>)
    requires 0 <= w <= 7
    ensures forall x :: x in r <==> w <= x < 7 && OffFlag(p, x) != 0
    ensures forall i :: 0 <= i < |r| ==> w <= r[i] < 7
    ensures forall i, j :: 0 <= i < j < |r| ==> r[i] < r[j]
    decreases 7 - w
  {
    if w == 7 then []
    else (if OffFlag(p, w) != 0 then [w] else []) + OffFrom(p, w + 1)
  }

  /* ================= monthly report ================= */

  /** A day's record as the monthly report endpoint returns it. */
  datatype AttendanceRecord = AttendanceRecord(
    attendance_date: int, status: Option<string>, first_check_in: Option<int>)

  /** One line of the report. */
  datatype ReportRow =
    | OnLeave(date: int, leaveType: string)
    | WeekOff(date: int)
    | Logged(record: AttendanceRecord)
    | Absent(date: int)
  {
    function Date(): int
    {
      match this
      case OnLeave(d, _) => d
      case WeekOff(d) => d
      case Logged(r) => r.attendance_date
      case Absent(d) => d
    }

    /** The `status` field of the row. */
    function Status(): Option<string>
    {
      match this
      case OnLeave(_, _) => Some("on-leave")
      case WeekOff(_) => Some("weekend")
      case Logged(r) => r.status
      case Absent(_) => Some("absent")
    }

    /** The `leaveType` badge: the leave's label, or `Full day week off`. */
    function Badge(): Option<string>
    {
      match this
      case OnLeave(_, t) => Some(t)
      case WeekOff(_) => Some("Full day week off")
      case _ => None
    }

    /** `noLogs`: true unless the row is the server's record. */
    predicate NoLogs()
    {
      !this.Logged?
    }
  }

  /** The server records keyed by day; a later record for the same day
      replaces an earlier one. */
  function RecordsByDate(items: seq<AttendanceRecord>): (m: map<int, AttendanceRecord>)
    ensures forall d :: d in m ==> m[d].attendance_date == d
    decreases |items|
  {
    if items == [] then map[]
    else
      var last := items[|items| - 1];
      RecordsByDate(items[..|items| - 1])[last.attendance_date := last]
  }

  /** A day has a record exactly when some item is dated that day, and the
      record kept is the last such item. */
  lemma {:induction false} RecordsByDateLastWins(items: seq<AttendanceRecord>, d: int)
    ensures d in RecordsByDate(items) <==> exists i :: 0 <= i < |items| && items[i].attendance_date == d
    ensures d in RecordsByDate(items) ==>
      exists j :: 0 <= j < |items| && RecordsByDate(items)[d] == items[j] &&
        forall k :: j < k < |items| ==> items[k].attendance_date != d
    decreases |items|
  {
    if items != [] {
      var n := |items| - 1;
      var init := items[..n];
      RecordsByDateLastWins(init, d);
      assert forall i :: 0 <= i < n ==> init[i] == items[i];
      if items[n].attendance_date != d && d in RecordsByDate(init) {
        var j :| 0 <= j < n && RecordsByDate(init)[d] == init[j] &&
          forall k :: j < k < n ==> init[k].attendance_date != d;
        assert RecordsByDate(items)[d] == items[j];
      }
    }
  }

  /** The row of one day: leave first, then week off, then the server's
      record, and absent when there is none. */
  function ComposeDay(date: int, leaves: map<int, string>, weekOff: seq<int>,
                      byDate: map<int, AttendanceRecord>): (r: ReportRow)
    requires forall d :: d in byDate ==> byDate[d].attendance_date == d
    ensures r.Date() == date
    ensures r.OnLeave? <==> date in leaves
    ensures r.WeekOff? <==> date !in leaves && Weekday(date) in weekOff
    ensures r.Logged? <==> date !in leaves && Weekday(date) !in weekOff && date in byDate
    ensures r.Logged? ==> r.record == byDate[date]
    ensures r.OnLeave? ==> r.leaveType == leaves[date]
  {
    if date in leaves then OnLeave(date, leaves[date])
    else if Weekday(date) in weekOff then WeekOff(date)
    else if date in byDate then Logged(byDate[date])
    else Absent(date)
  }

  /** A leave that falls on a week-off day shows as leave. */
  lemma LeaveOnWeekOffIsLeave(date: int, leaves: map<int, string>, weekOff: seq<int>,
                              byDate: map<int, AttendanceRecord>)
    requires forall d :: d in byDate ==> byDate[d].attendance_date == d
    requires date in leaves && Weekday(date) in weekOff
    ensures ComposeDay(date, leaves, weekOff, byDate).Status() == Some("on-leave")
  {
  }

  /* ================= punches and sessions ================= */

  /** A raw punch of `getAttendanceDetailsByDate` / `getTodayAttendance`. */
  datatype Punch = Punch(
    punch_type: string, punch_time: int, work_mode: Option<string>,
    location: Option<string>, notes: Option<string>, approved: Option<bool>)

  /** A check-in/check-out session shown in the log details. */
  datatype Session = Session(
    check_in: int, check_out: Option<int>, work_mode: string,
    location: Option<string>, notes: Option<string>, approved: Option<bool>)

  /** The optional text lower-cased contains `word`. */
  predicate Mentions(a: Option<string>, word: string)
  {
    Truthy(a) && Contains(ToLower(a.value), word)
  }

  /** The session mode of a punch-in: `Remote` when the punch says so or
      its location or notes mention "remote"; otherwise its mode or `Office`. */
  function SessionMode(p: Punch): (r: string)
    ensures r == "Remote" <==> p.work_mode == Some("Remote") || Mentions(p.location, "remote") ||
                               Mentions(p.notes, "remote")
    ensures r != "Remote" ==> r == OrElse(p.work_mode, "Office")
  {
    if p.work_mode == Some("Remote") || Mentions(p.location, "remote") || Mentions(p.notes, "remote")
    then "Remote"
    else OrElse(p.work_mode, "Office")
  }

  function Opened(p: Punch): Session
  {
    Session(p.punch_time, None, SessionMode(p), p.location, p.notes, p.approved)
  }

  /** The sessions so far and the one still open, which is always the last. */
  datatype MapState = MapState(records: seq<Session>, current: Option<nat>)
  {
    predicate Valid()
    {
      current.Some? ==> current.value == |records| - 1
    }
  }

  /** One punch: an `in` opens a new session, an `out` closes the open one,
      and an `out` without an open session changes nothing. */
  function Step(st: MapState, p: Punch): (r: MapState)
    requires st.Valid()
    ensures r.Valid()
    ensures p.punch_type == "in" ==> r.records == st.records + [Opened(p)]
    ensures p.punch_type == "out" && st.current.None? ==> r == st
    ensures p.punch_type == "out" && st.current.Some? ==>
      r.current.None? && |r.records| == |st.records| &&
      r.records[st.current.value] == st.records[st.current.value].(check_out := Some(p.punch_time)) &&
      forall k :: 0 <= k < |st.records| && k != st.current.value ==> r.records[k] == st.records[k]
  {
    if p.punch_type == "in" then
      MapState(st.records + [Opened(p)], Some(|st.records|))
    else if p.punch_type == "out" && st.current.Some? then
      var c := st.current.value;
      MapState(st.records[c := st.records[c].(check_out := Some(p.punch_time))], None)
    else st
  }

  /** The state after the punches, in order. */
  function Run(punches: seq<Punch>): (r: MapState)
    ensures r.Valid()
    decreases |punches|
  {
    if punches == [] then MapState([], None)
    else Step(Run(punches[..|punches| - 1]), punches[|punches| - 1])
  }

  /** `mapPunches`. */
  method MapPunches(punches: seq<Punch>) returns (records: seq<Session>)
    ensures records == Run(punches).records
  {
    records := [];
    var current: Option<nat> := None;
    var i := 0;
    while i < |punches|
      invariant 0 <= i <= |punches|
      invariant MapState(records, current) == Run(punches[..i])
    {
      var p := punches[i];
      if p.punch_type == "in" {
        records := records + [Opened(p)];
        current := Some(|records| - 1);
      }
      if p.punch_type == "out" && current.Some? {
        var c := current.value;
        records := records[c := records[c].(check_out := Some(p.punch_time))];
        current := None;
      }
      assert punches[..i + 1][..i] == punches[..i];
      i := i + 1;
    }
    assert punches[..i] == punches;
  }

  /** The punch-ins among the punches, in order. */
  function Ins(punches: seq<Punch>): (r: seq<Punch>)
    decreases |punches|
  {
    if punches == [] then []
    else
      var last := punches[|punches| - 1];
      Ins(punches[..|punches| - 1]) + (if last.punch_type == "in" then [last] else [])
  }

  /** There is one session per punch-in, the k-th session comes from the
      k-th punch-in and differs from it only in its check-out. */
  lemma {:induction false} SessionsFollowIns(punches: seq<Punch>)
    ensures |Run(punches).records| == |Ins(punches)|
    ensures forall k :: 0 <= k < |Ins(punches)| ==>
      Run(punches).records[k].(check_out := None) == Opened(Ins(punches)[k])
    decreases |punches|
  {
    if punches != [] {
      SessionsFollowIns(punches[..|punches| - 1]);
    }
  }

  /** A second punch-in before any punch-out leaves the first session open. */
  lemma SecondInLeavesFirstOpen(a: Punch, b: Punch)
    requires a.punch_type == "in" && b.punch_type == "in"
    ensures Run([a, b]).records == [Opened(a), Opened(b)]
  {
    assert [a, b][..1] == [a];
    assert [a][..0] == [];
    assert Run([a]) == MapState([Opened(a)], Some(0));
  }

  /* ================= record filters ================= */

  /** A session with a `pendingApproval` marker, as the remote list shows it. */
  datatype RemoteRecord = RemoteRecord(session: Session, pendingApproval: bool)

  function LowerLocation(r: Session): string
  {
    ToLower(OrElse(r.location, ""))
  }

  /** An office session: the location mentions the office or Mumbai, or
      the mode is `Office` and the location does not mention home. */
  predicate IsOfficeSession(r: Session)
  {
    Contains(LowerLocation(r), "office") || Contains(LowerLocation(r), "mumbai")
    || (r.work_mode == "Office" && !Contains(LowerLocation(r), "home"))
  }

  /** A WFH session: the location mentions home or the mode is `WFH`, and
      the location does not mention the office. */
  predicate IsWfhSession(r: Session)
  {
    (Contains(LowerLocation(r), "home") || r.work_mode == "WFH") && !Contains(LowerLocation(r), "office")
  }

  /** `getOfficeRecords`. */
  function OfficeRecords(records: seq<Session>): (r: seq<Session>)
    ensures forall x :: x in r <==> x in records && IsOfficeSession(x)
    ensures Sublist(r, records)
  {
    Filter(records, IsOfficeSession)
  }

  /** `getWFHRecords`. */
  function WfhRecords(records: seq<Session>): (r: seq<Session>)
    ensures forall x :: x in r <==> x in records && IsWfhSession(x)
    ensures Sublist(r, records)
  {
    Filter(records, IsWfhSession)
  }

  /** The WFH and remote lists never share a session; a session whose
      location mentions the office is listed as office and not as WFH. */
  lemma SessionListsSeparate(r: Session)
    ensures IsWfhSession(r) ==> !IsRemoteSession(r)
    ensures Contains(LowerLocation(r), "office") ==> IsOfficeSession(r) && !IsWfhSession(r)
  {
    if IsWfhSession(r) && r.work_mode == "Remote" {
      assert r.work_mode != "WFH" by { assert "Remote"[0] != "WFH"[0]; }
    }
  }

  /** Mode `Remote` with a location mentioning neither home nor office. */
  predicate IsRemoteSession(r: Session)
  {
    r.work_mode == "Remote" && !Contains(LowerLocation(r), "home") && !Contains(LowerLocation(r), "office")
  }

  function MarkRemote(r: Session): (m: RemoteRecord)
    ensures m.pendingApproval <==> r.approved != Some(true)
    ensures !m.pendingApproval ==> m.session == r
    ensures m.pendingApproval ==> m.session == r.(notes := Some(if Truthy(r.notes) then r.notes.value + " | " else ""))
  {
    if r.approved != Some(true) then
      RemoteRecord(r.(notes := Some(if Truthy(r.notes) then r.notes.value + " | " else "")), true)
    else RemoteRecord(r, false)
  }

  /** `getRemoteRecords`: the remote sessions in order, those not approved
      marked pending with a ` | ` appended to non-empty notes. */
  function RemoteRecords(records: seq<Session>): (r: seq<RemoteRecord>)
    ensures |r| == |Filter(records, IsRemoteSession)|
    ensures forall i :: 0 <= i < |r| ==> r[i] == MarkRemote(Filter(records, IsRemoteSession)[i])
  {
    var kept := Filter(records, IsRemoteSession);
    seq(|kept|, i requires 0 <= i < |kept| => MarkRemote(kept[i]))
  }

  /** Every listed remote session is a remote session of the input, and the
      only field changed is the notes. */
  lemma RemoteRecordsFromInput(records: seq<Session>, i: int)
    requires 0 <= i < |RemoteRecords(records)|
    ensures RemoteRecords(records)[i].session.(notes := None) in
      set r | r in records && IsRemoteSession(r) :: r.(notes := None)
  {
    var kept := Filter(records, IsRemoteSession);
    assert kept[i] in kept;
  }

  /* ================= arrival ================= */

  /** `getArrivalStatus`'s label for a status string. */
  function StatusLabel(s: string): string
  {
    if s == "present" then "On Time"
    else if s == "absent" then "Absent"
    else if s == "half-day" then "Half Day"
    else if s == "late" then "Late Arrival"
    else if s == "on-leave" then "On Leave"
    else "Unknown"
  }

  /** Seconds between the shift start on the check-in's day and the check-in. */
  function SinceShiftStart(checkIn: int, t: ShiftStart): int
  {
    checkIn - (checkIn - checkIn % SecondsPerDay + StartOffset(t))
  }

  /** The present record checked in more than 15 minutes after the shift start. */
  predicate LateCheckIn(log: AttendanceRecord, shift: Option<ShiftPolicy>)
  {
    log.status == Some("present") && log.first_check_in.Some? &&
    shift.Some? && shift.value.start_time.Some? &&
    SinceShiftStart(log.first_check_in.value, shift.value.start_time.value) > 15 * 60
  }

  /** `getArrivalStatus`. */
  function ArrivalStatus(log: Option<AttendanceRecord>, shift: Option<ShiftPolicy>): (r: string)
    ensures log.None? || !Truthy(log.value.status) ==> r == "Unknown"
    ensures r == "Late Arrival" <==>
      log.Some? && (log.value.status == Some("late") || LateCheckIn(log.value, shift))
    ensures log.Some? && log.value.status == Some("present") && !LateCheckIn(log.value, shift) ==> r == "On Time"
    ensures log.Some? && log.value.status == Some("absent") ==> r == "Absent"
    ensures log.Some? && log.value.status == Some("half-day") ==> r == "Half Day"
    ensures log.Some? && log.value.status == Some("on-leave") ==> r == "On Leave"
    ensures log.Some? && log.value.status.Some? &&
      log.value.status.value !in {"present", "absent", "half-day", "late", "on-leave"}
      ==> r == "Unknown"
  {
    if log.None? || !Truthy(log.value.status) then "Unknown"
    else if LateCheckIn(log.value, shift) then "Late Arrival"
    else StatusLabel(log.value.status.value)
  }

  /** `H:` when the delay reaches an hour, else nothing. */
  function HoursField(diff: nat): string
  {
    if diff / 3600 > 0 then NatToString(diff / 3600) + ":" else ""
  }

  /** The minutes, padded to two digits only when there is an hour part. */
  function MinutesField(diff: nat): string
  {
    PadStart(NatToString((diff % 3600) / 60), if diff / 3600 > 0 then 2 else 1, '0')
  }

  /** The seconds, always two digits. */
  function SecondsField(diff: nat): string
  {
    PadStart(NatToString(diff % 60), 2, '0')
  }

  /** `H:MM:SS late` at an hour or more, `M:SS late` below. */
  function LateText(diff: nat): string
  {
    HoursField(diff) + MinutesField(diff) + ":" + SecondsField(diff) + " late"
  }

  /** The late text names the hours, minutes and seconds that add up to
      the delay; seconds always take two digits, minutes take two only
      when there is an hour part or ten minutes or more. */
  lemma LateTextReadsBack(diff: nat)
    ensures diff < 3600 <==> HoursField(diff) == ""
    ensures var hs := HoursField(diff);
      diff >= 3600 ==> |hs| >= 2 && hs[|hs| - 1] == ':' && AllDigits(hs[..|hs| - 1]) &&
                       ParseDigits(hs[..|hs| - 1]) == diff / 3600
    ensures AllDigits(MinutesField(diff)) && AllDigits(SecondsField(diff))
    ensures |SecondsField(diff)| == 2
    ensures |MinutesField(diff)| == (if diff >= 3600 || diff % 3600 >= 600 then 2 else 1)
    ensures (diff / 3600) * 3600 + ParseDigits(MinutesField(diff)) * 60 + ParseDigits(SecondsField(diff)) == diff
  {
    var h := diff / 3600;
    var m := (diff % 3600) / 60;
    var s := diff % 60;
    SplitSeconds(diff);
    PaddedField(m, if h > 0 then 2 else 1);
    PaddedField(s, 2);
    HoursFieldReadsBack(diff);
  }

  lemma HoursFieldReadsBack(diff: nat)
    ensures diff < 3600 <==> HoursField(diff) == ""
    ensures var hs := HoursField(diff);
      diff >= 3600 ==> |hs| >= 2 && hs[|hs| - 1] == ':' && AllDigits(hs[..|hs| - 1]) &&
                       ParseDigits(hs[..|hs| - 1]) == diff / 3600
  {
    if diff >= 3600 {
      var h := diff / 3600;
      var hs := HoursField(diff);
      assert hs == NatToString(h) + ":";
      assert hs[..|hs| - 1] == NatToString(h);
      ParseNatToString(h);
    }
  }

  /** Hours, minutes and seconds of a delay add back up to it. */
  lemma SplitSeconds(diff: nat)
    ensures (diff / 3600) * 3600 + ((diff % 3600) / 60) * 60 + diff % 60 == diff
    ensures (diff % 3600) / 60 < 60
    ensures diff % 3600 >= 600 <==> (diff % 3600) / 60 >= 10
  {
  }

  /** A number below 60 padded to `width` (1 or 2) digits reads back as
      itself and takes two digits exactly when the width or the number asks. */
  lemma PaddedField(n: nat, width: nat)
    requires n < 60 && 1 <= width <= 2
    ensures AllDigits(PadStart(NatToString(n), width, '0'))
    ensures ParseDigits(PadStart(NatToString(n), width, '0')) == n
    ensures |PadStart(NatToString(n), width, '0')| == (if width == 2 || n >= 10 then 2 else 1)
  {
    var t := NatToString(n);
    ParseNatToString(n);
    if n >= 10 {
      assert |NatToString(n / 10)| == 1;
    }
    if |t| < width {
      ParseLeadingZeros(width - |t|, t);
    }
  }

  /** `getLateDuration`: the delay after the shift start, when it exceeds
      the 15-minute grace. */
  function LateDuration(log: Option<AttendanceRecord>, shift: Option<ShiftPolicy>): (r: string)
    ensures log.None? || log.value.status != Some("present") ==> r == ""
    ensures r != "" <==> log.Some? && LateCheckIn(log.value, shift)
    ensures r != "" ==> ArrivalStatus(log, shift) == "Late Arrival"
  {
    if log.Some? && LateCheckIn(log.value, shift) then
      LateText(SinceShiftStart(log.value.first_check_in.value, shift.value.start_time.value))
    else ""
  }

  /** For a present record, a late duration is shown exactly when the
      arrival is labelled late. */
  lemma LateDurationAgreesWithStatus(log: AttendanceRecord, shift: Option<ShiftPolicy>)
    requires log.status == Some("present")
    ensures LateDuration(Some(log), shift) != "" <==> ArrivalStatus(Some(log), shift) == "Late Arrival"
  {
  }

  /** A 09:20 check-in against a 09:00 shift start reads `20:00 late`. */
  lemma TwentyMinutesLate()
    ensures var log := AttendanceRecord(0, Some("present"), Some(9 * 3600 + 20 * 60));
      var shift := Some(ShiftPolicy(1, Some(ShiftStart(9, 0, Some(0)))));
      ArrivalStatus(Some(log), shift) == "Late Arrival" && LateDuration(Some(log), shift) == "20:00 late"
  {
    var shift := ShiftStart(9, 0, Some(0));
    assert SinceShiftStart(9 * 3600 + 20 * 60, shift) == 1200;
    LateTextOf1200();
  }

  lemma LateTextOf1200()
    ensures LateText(1200) == "20:00 late"
  {
    assert HoursField(1200) == "";
    Minutes1200();
    Seconds1200();
    assert LateText(1200) == "" + "20" + ":" + "00" + " late";
  }

  lemma Minutes1200()
    ensures MinutesField(1200) == "20"
  {
    assert (1200 % 3600) / 60 == 20;
    var m := NatToString(20);
    assert m == NatToString(2) + [Digit(0)];
    assert PadStart(m, 1, '0') == m;
  }

  lemma Seconds1200()
    ensures SecondsField(1200) == "00"
  {
    assert 1200 % 60 == 0;
    var z := NatToString(0);
    assert z == ['0'];
    var s := PadStart(z, 2, '0');
    assert s == Repeat('0', 1) + z;
    assert Repeat('0', 1) == ['0'];
  }

  /* ================= the component ================= */

  class AttendanceLogView {
    var monthButtons: seq<string>
    var currentYear: int
    var currentMonth: int
    var startDate: int
    var endDate: int
    var selectedPeriod: string
    var leaveDaysMap: map<int, string>
    var weeklyOffPolicy: Option<WeeklyOffPolicy>
    var shiftPolicy: Option<ShiftPolicy>
    var currentMonthreport: seq<ReportRow>

    /** The window opens on the current month; the period reads `30DAYS`. */
    constructor(now: Civil)
      requires now.Valid()
      ensures currentYear == now.year && currentMonth == now.month
      ensures startDate == DayNumber(now.year, now.month, 1)
      ensures endDate == DayNumber(now.year, now.month, DaysInMonth(now.year, now.month))
      ensures selectedPeriod == "30DAYS"
      ensures leaveDaysMap == map[] && currentMonthreport == []
      ensures weeklyOffPolicy.None? && shiftPolicy.None?
      ensures monthButtons == PreviousMonths(now.month - 1)
    {
      currentYear := now.year;
      currentMonth := now.month;
      startDate := DayNumber(now.year, now.month, 1);
      endDate := DayNumber(now.year, now.month, DaysInMonth(now.year, now.month));
      selectedPeriod := "30DAYS";
      leaveDaysMap := map[];
      weeklyOffPolicy := None;
      shiftPolicy := None;
      currentMonthreport := [];
      new;
      InitializeMonthButtons(now.month - 1);
    }

    /** `initializeMonthButtons`: the six months before the current one,
        most recent first. */
    method InitializeMonthButtons(currentMonthIndex: int)
      requires 0 <= currentMonthIndex < 12
      modifies this`monthButtons
      ensures monthButtons == PreviousMonths(currentMonthIndex)
    {
      monthButtons := [];
      var i := 1;
      while i <= 6
        invariant 1 <= i <= 7
        invariant |monthButtons| == i - 1
        invariant forall k :: 0 <= k < i - 1 ==> monthButtons[k] == MonthBackCode(currentMonthIndex, k)
      {
        var mIdx := currentMonthIndex - i;
        if mIdx < 0 {
          mIdx := mIdx + 12;
        }
        assert MonthCodes[mIdx] == MonthBackCode(currentMonthIndex, i - 1) by {
          MonthBack(currentMonthIndex, i);
        }
        monthButtons := monthButtons + [MonthCodes[mIdx]];
        i := i + 1;
      }
      PreviousMonthsAt(currentMonthIndex);
    }

    /** The leave index of the leaves fetched for the year; a failed fetch
        leaves it empty. */
    method LoadLeaveDays(response: Option<seq<Leave>>, today: int)
      modifies this`leaveDaysMap
      ensures response.None? ==> leaveDaysMap == map[]
      ensures response.Some? ==> leaveDaysMap == LeaveIndex(response.value, today)
    {
      leaveDaysMap := map[];
      if response.None? {
        return;
      }
      var leaves := response.value;
      var i := 0;
      while i < |leaves|
        invariant 0 <= i <= |leaves|
        invariant leaveDaysMap == LeaveIndex(leaves[..i], today)
      {
        var l := leaves[i];
        assert leaves[..i + 1][..i] == leaves[..i];
        if IsApproved(l) {
          var badge := LeaveLabel(l);
          var first := LeaveFrom(l, today);
          var last := LeaveTo(l, today);
          MarkLeaveDays(first, last, badge);
        }
        i := i + 1;
      }
      assert leaves[..i] == leaves;
    }

    /** The `while (d <= end)` loop: every day from `first` to `last` is
        mapped to `badge`. */
    method MarkLeaveDays(first: int, last: int, badge: string)
      modifies this`leaveDaysMap
      ensures leaveDaysMap == Overlay(old(leaveDaysMap), first, last, badge)
    {
      ghost var base := leaveDaysMap;
      var d := first;
      while d <= last
        invariant first <= d && (d <= last + 1 || d == first)
        invariant leaveDaysMap == Overlay(base, first, d - 1, badge)
        decreases last - d
      {
        leaveDaysMap := leaveDaysMap[d := badge];
        d := d + 1;
      }
    }

    /** The report window as one value. */
    function Window(): ReportWindow
      reads this
    {
      ReportWindow(startDate, endDate, currentMonth, currentYear)
    }

    /** The report holds one row per day of the window up to today, newest
        first, each composed from the leave index, the week-off days and the
        server records; after a failed fetch it is empty. */
    predicate ReportShows(response: Option<seq<AttendanceRecord>>, today: int)
      reads this
    {
      if response.None? then currentMonthreport == []
      else
        var dates := DayRange(startDate, ReportBound(endDate, today));
        |currentMonthreport| == |dates| &&
        (forall i :: 0 <= i < |dates| ==>
          currentMonthreport[i] == ComposeDay(dates[|dates| - 1 - i], leaveDaysMap,
                                              WeekOffDays(weeklyOffPolicy), RecordsByDate(response.value))) &&
        forall i :: 0 <= i < |currentMonthreport| ==>
          currentMonthreport[i].Date() == ReportBound(endDate, today) - i
    }

    /** `loadMonthlyReport`: one row per day of the window up to today,
        newest first; a failed fetch leaves the report empty. */
    method LoadMonthlyReport(response: Option<seq<AttendanceRecord>>, today: int)
      modifies this`currentMonthreport
      ensures ReportShows(response, today)
    {
      if response.None? {
        currentMonthreport := [];
        return;
      }
      var byDate := RecordsByDate(response.value);
      var dates := AllDatesBetween(startDate, endDate, today);
      var weekOff := WeekOffDays(weeklyOffPolicy);
      var leaves := leaveDaysMap;
      var rows := seq(|dates|, i requires 0 <= i < |dates| => ComposeDay(dates[i], leaves, weekOff, byDate));
      currentMonthreport := rows;
      ReverseReport();
      NewestFirst(dates, rows, currentMonthreport, leaves, weekOff, byDate, startDate, ReportBound(endDate, today));
    }

    /** `currentMonthreport.reverse()`, swapping from both ends. */
    method ReverseReport()
      modifies this`currentMonthreport
      ensures currentMonthreport == Reversed(old(currentMonthreport))
    {
      ghost var s := currentMonthreport;
      var n := |currentMonthreport|;
      var lo := 0;
      while lo < n - 1 - lo
        invariant 0 <= lo <= n - lo
        invariant |currentMonthreport| == n
        invariant forall k :: 0 <= k < lo ==> currentMonthreport[k] == s[n - 1 - k] && currentMonthreport[n - 1 - k] == s[k]
        invariant forall k :: lo <= k < n - lo ==> currentMonthreport[k] == s[k]
      {
        var hi := n - 1 - lo;
        var t := currentMonthreport[lo];
        currentMonthreport := currentMonthreport[lo := currentMonthreport[hi]][hi := t];
        lo := lo + 1;
      }
    }

    /** `filterByPeriod`: `30DAYS` shows the thirty days up to today; a month
        code shows that month of this year, or of last year when it lies
        after the current month; anything else keeps the window. The report
        is then rebuilt from `response`. */
    method FilterByPeriod(period: string, now: Civil, response: Option<seq<AttendanceRecord>>)
      requires now.Valid()
      modifies this`selectedPeriod, this`startDate, this`endDate, this`currentMonth,
               this`currentYear, this`currentMonthreport
      ensures selectedPeriod == period
      ensures Window() == PeriodWindow(period, now, old(Window()))
      ensures ReportShows(response, now.Day())
    {
      selectedPeriod := period;
      SelectWindow(period, now);
      LoadMonthlyReport(response, now.Day());
    }

    /** The window changes of `filterByPeriod`, before the report is rebuilt. */
    method SelectWindow(period: string, now: Civil)
      requires now.Valid()
      modifies this`startDate, this`endDate, this`currentMonth, this`currentYear
      ensures Window() == PeriodWindow(period, now, old(Window()))
    {
      if period == "30DAYS" {
        startDate := now.Day() - 30;
        endDate := now.Day();
      } else {
        var monthIndex := FindMonth(period);
        if monthIndex != -1 {
          var year := now.year;
          var localMonth := now.month - 1;
          if monthIndex > localMonth {
            year := year - 1;
          }
          startDate := DayNumber(year, monthIndex + 1, 1);
          endDate := DayNumber(year, monthIndex + 1, DaysInMonth(year, monthIndex + 1));
          currentMonth := monthIndex + 1;
          currentYear := year;
        }
      }
    }
  }

  /** The dates a report covers and the month and year it is labelled with. */
  datatype ReportWindow = ReportWindow(startDate: int, endDate: int, month: int, year: int)

  /** The window `filterByPeriod` selects: `30DAYS` is the thirty days up to
      today; a month code is that month of this year, or of last year when
      it lies after the current month; anything else keeps `w`. */
  function PeriodWindow(period: string, now: Civil, w: ReportWindow): (r: ReportWindow)
    requires now.Valid()
    ensures period == "30DAYS" ==> r == w.(startDate := now.Day() - 30, endDate := now.Day())
    ensures period != "30DAYS" && period !in MonthCodes ==> r == w
    ensures period != "30DAYS" && period in MonthCodes ==>
      r.month == IndexOf(period) + 1 && MonthCodes[r.month - 1] == period &&
      r.year == (if r.month > now.month then now.year - 1 else now.year) &&
      ValidDate(r.year, r.month, 1) && r.startDate == DayNumber(r.year, r.month, 1) &&
      r.endDate - r.startDate + 1 == DaysInMonth(r.year, r.month) &&
      r.startDate <= now.Day()
  {
    if period == "30DAYS" then w.(startDate := now.Day() - 30, endDate := now.Day())
    else if period in MonthCodes then
      var idx := IndexOf(period);
      var year := if idx > now.month - 1 then now.year - 1 else now.year;
      DayNumberOrder(year, idx + 1, 1, now.year, now.month, now.day);
      ReportWindow(DayNumber(year, idx + 1, 1), DayNumber(year, idx + 1, DaysInMonth(year, idx + 1)), idx + 1, year)
    else w
  }

  /** The six month codes before month index `current`, most recent first. */
  function PreviousMonths(current: int): (r: seq<string>)
    requires 0 <= current < 12
    ensures |r| == 6
    ensures MonthCodes[current] !in r
  {
    seq(6, k requires 0 <= k < 6 => MonthBackCode(current, k))
  }

  /** The code of the month `k + 1` months before month index `current`. */
  function MonthBackCode(current: int, k: int): string
    requires 0 <= current < 12 && 0 <= k < 6
  {
    MonthCodes[(current - 1 - k + 12) % 12]
  }

  lemma PreviousMonthsAt(current: int)
    requires 0 <= current < 12
    ensures |PreviousMonths(current)| == 6
    ensures forall k :: 0 <= k < 6 ==> PreviousMonths(current)[k] == MonthBackCode(current, k)
  {
  }

  /** The rows of `dates` in reverse are the rows of the days from `bound`
      backwards, newest first. */
  lemma NewestFirst(dates: seq<int>, rows: seq<ReportRow>, rev: seq<ReportRow>, leaves: map<int, string>,
                    weekOff: seq<int>, byDate: map<int, AttendanceRecord>, start: int, bound: int)
    requires forall d :: d in byDate ==> byDate[d].attendance_date == d
    requires dates == DayRange(start, bound)
    requires |rows| == |dates|
    requires forall i :: 0 <= i < |dates| ==> rows[i] == ComposeDay(dates[i], leaves, weekOff, byDate)
    requires rev == Reversed(rows)
    ensures |rev| == |dates|
    ensures forall i :: 0 <= i < |dates| ==> rev[i] == ComposeDay(dates[|dates| - 1 - i], leaves, weekOff, byDate)
    ensures forall i :: 0 <= i < |rev| ==> rev[i].Date() == bound - i
  {
    var n := |dates|;
    forall i | 0 <= i < n
      ensures rev[i] == ComposeDay(dates[n - 1 - i], leaves, weekOff, byDate)
      ensures rev[i].Date() == bound - i
    {
      assert rev[i] == rows[n - 1 - i];
    }
  }

  /** Stepping `i` months back from month index `c`, wrapping into the year before. */
  lemma MonthBack(c: int, i: int)
    requires 0 <= c < 12 && 1 <= i <= 6
    ensures (if c - i < 0 then c - i + 12 else c - i) == (c - 1 - (i - 1) + 12) % 12
  {
  }

  /** `months.indexOf(code)`. */
  function IndexOf(code: string): (i: int)
    requires code in MonthCodes
    ensures 0 <= i < 12 && MonthCodes[i] == code
  {
    if code == "JAN" then 0 else if code == "FEB" then 1 else if code == "MAR" then 2
    else if code == "APR" then 3 else if code == "MAY" then 4 else if code == "JUN" then 5
    else if code == "JUL" then 6 else if code == "AUG" then 7 else if code == "SEP" then 8
    else if code == "OCT" then 9 else if code == "NOV" then 10 else 11
  }

  /** `months.indexOf(code)`, -1 when absent, by a linear search. */
  method FindMonth(code: string) returns (i: int)
    ensures code in MonthCodes ==> i == IndexOf(code)
    ensures code !in MonthCodes ==> i == -1
  {
    i := 0;
    while i < |MonthCodes|
      invariant 0 <= i <= |MonthCodes|
      invariant forall k :: 0 <= k < i ==> MonthCodes[k] != code
    {
      if MonthCodes[i] == code {
        return;
      }
      i := i + 1;
    }
    i := -1;
  }
}
