/** The team page: the day's attendance report merged into the team list,
    the status filter and the text search over it, the real-time punch
    status that upgrades an absent member who has clocked in, the summary
    counts recomputed after that, and the manager's queue of remote
    clock-in requests. */
module MyTeam {
  import opened Js
  import opened Strings
  import opened Seqs
  import AppShell

  /** What the report says about a member's day (`check_in` .. `total_punches`). */
  datatype Detail = Detail(
    check_in: Option<int>, check_out: Option<int>, total_hours: Option<real>,
    work_mode: Option<string>, location: Option<string>, total_punches: Option<int>)

  /** A member's `attendance` object: the status and, when known, the detail. */
  datatype MemberAttendance = MemberAttendance(status: string, detail: Option<Detail>)

  /** A team member: the fields the page reads, and the attendance object
      the report adds. */
  datatype Member = Member(
    id: int, fullName: Option<string>, workEmail: Option<string>,
    department_name: Option<string>, attendance: Option<MemberAttendance>)

  /** One record of the team attendance report. */
  datatype ReportRecord = ReportRecord(
    employee_id: int, status: Option<string>,
    first_check_in: Option<int>, last_check_out: Option<int>,
    gross_hours: Option<real>, total_work_hours: Option<real>,
    work_mode: Option<string>, location: Option<string>, total_punches: Option<int>)

  /* ================= merge ================= */

  /** `attendanceData.find(att => att.employee_id === id)`. */
  function FindRecord(records: seq<ReportRecord>, id: int): Option<ReportRecord>
  {
    FindById(records, id, (r: ReportRecord) => r.employee_id)
  }

  /** `gross_hours || total_work_hours`. */
  function HoursOf(rec: ReportRecord): Option<real>
  {
    if rec.gross_hours.Some? && rec.gross_hours.value != 0.0 then rec.gross_hours else rec.total_work_hours
  }

  /** The attendance object built from a report record, or `absent` with no
      detail when the member has none. */
  function AttendanceFrom(rec: Option<ReportRecord>): (a: MemberAttendance)
    ensures rec.None? ==> a == MemberAttendance("absent", None)
    ensures rec.Some? ==> a.status == OrElse(rec.value.status, "present") && a.detail.Some?
  {
    if rec.None? then MemberAttendance("absent", None)
    else
      var r := rec.value;
      MemberAttendance(OrElse(r.status, "present"),
        Some(Detail(r.first_check_in, r.last_check_out, HoursOf(r), r.work_mode, r.location, r.total_punches)))
  }

  /** The merge of `loadAttendanceData`: each member keeps its fields and
      gets the attendance of the first report record with its id. */
  function MergeAll(members: seq<Member>, records: seq<ReportRecord>): (r: seq<Member>)
    ensures |r| == |members|
    ensures forall i :: 0 <= i < |r| ==>
      r[i] == members[i].(attendance := Some(AttendanceFrom(FindRecord(records, members[i].id))))
  {
    if members == [] then []
    else
      [members[0].(attendance := Some(AttendanceFrom(FindRecord(records, members[0].id))))]
        + MergeAll(members[1..], records)
  }

  /** A merged member is `present` by default when the report has a record
      for it (whatever non-empty status that record gives), and `absent`
      without detail otherwise. */
  lemma MergedStatus(members: seq<Member>, records: seq<ReportRecord>, i: int)
    requires 0 <= i < |members|
    ensures var m := MergeAll(members, records)[i];
      m.id == members[i].id && m.fullName == members[i].fullName
      && m.workEmail == members[i].workEmail && m.department_name == members[i].department_name
    ensures (forall k :: 0 <= k < |records| ==> records[k].employee_id != members[i].id) ==>
      StatusOf(MergeAll(members, records)[i]) == "absent"
      && MergeAll(members, records)[i].attendance.value.detail.None?
    ensures forall k :: (0 <= k < |records| && records[k].employee_id == members[i].id
      && (forall j :: 0 <= j < k ==> records[j].employee_id != members[i].id)) ==>
      StatusOf(MergeAll(members, records)[i]) == OrElse(records[k].status, "present")
  {
    var id := members[i].id;
    forall k | 0 <= k < |records| && records[k].employee_id == id
      && (forall j :: 0 <= j < k ==> records[j].employee_id != id)
      ensures FindRecord(records, id) == Some(records[k])
    {
      var r := FindRecord(records, id);
      assert r.Some?;
      var k' :| 0 <= k' < |records| && records[k'] == r.value && r.value.employee_id == id
        && forall j :: 0 <= j < k' ==> records[j].employee_id != id;
      assert k' == k;
    }
  }

  /* ================= status and filters ================= */

  /** `getAttendanceStatus`: `attendance?.status || 'absent'`. */
  function StatusOf(m: Member): (s: string)
    ensures s != ""
    ensures m.attendance.None? ==> s == "absent"
    ensures m.attendance.Some? && m.attendance.value.status != "" ==> s == m.attendance.value.status
    ensures m.attendance.Some? && m.attendance.value.status == "" ==> s == "absent"
  {
    if m.attendance.Some? && m.attendance.value.status != "" then m.attendance.value.status else "absent"
  }

  /** The members whose status equals `filter`, in order. */
  function WithStatus(members: seq<Member>, filter: string): (r: seq<Member>)
    ensures forall m :: m in r <==> m in members && StatusOf(m) == filter
    ensures Sublist(r, members)
  {
    if members == [] then []
    else if StatusOf(members[0]) == filter then [members[0]] + WithStatus(members[1..], filter)
    else WithStatus(members[1..], filter)
  }

  /** `applyAttendanceFilter`: every member for `all`, otherwise those of
      the chosen status. */
  function AttendanceFiltered(members: seq<Member>, filter: string): (r: seq<Member>)
    ensures filter == "all" ==> r == members
    ensures filter != "all" ==> forall m :: m in r <==> m in members && StatusOf(m) == filter
    ensures Sublist(r, members)
  {
    if filter == "all" then
      SublistRefl(members);
      members
    else WithStatus(members, filter)
  }

  lemma {:induction false} SublistRefl<T(!new)>(s: seq<T>)
    ensures Sublist(s, s)
  {
    if s != [] {
      SublistRefl(s[1..]);
    }
  }

  /** `m.field?.toLowerCase().includes(text)`. */
  predicate FieldMatches(field: Option<string>, text: string)
  {
    field.Some? && Contains(ToLower(field.value), text)
  }

  /** `filterTeam`'s test: name, e-mail or department contains the
      lower-cased search text. */
  predicate Matches(m: Member, text: string)
  {
    FieldMatches(m.fullName, text) || FieldMatches(m.workEmail, text) || FieldMatches(m.department_name, text)
  }

  /** `filterTeam`. */
  function SearchTeam(members: seq<Member>, searchText: string): (r: seq<Member>)
    ensures forall m :: m in r <==> m in members && Matches(m, ToLower(searchText))
    ensures Sublist(r, members)
  {
    if members == [] then []
    else if Matches(members[0], ToLower(searchText)) then [members[0]] + SearchTeam(members[1..], searchText)
    else SearchTeam(members[1..], searchText)
  }

  /** An empty search keeps every member that has a name, an e-mail or a
      department. */
  lemma EmptySearchKeepsNamed(members: seq<Member>, m: Member)
    requires m in members && m.fullName.Some?
    ensures m in SearchTeam(members, "")
  {
    ContainsEmpty(ToLower(m.fullName.value));
  }

  /* ================= real-time status ================= */

  /** A member's latest punch as the bulk-status endpoint reports it. */
  datatype PunchStatus = PunchStatus(status: string, work_mode: Option<string>, last_punch_time: Option<string>)

  /** `getEmployeePunchStatus`: the known status, or clocked out. */
  function EmployeePunchStatus(statusMap: map<int, PunchStatus>, id: int): (p: PunchStatus)
    ensures id in statusMap ==> p == statusMap[id]
    ensures id !in statusMap ==> p == PunchStatus("out", None, None)
  {
    if id in statusMap then statusMap[id] else PunchStatus("out", None, None)
  }

  /** The sync's change to one member: clocked in now means an `absent`
      (or missing) attendance becomes `present`, and a missing work mode is
      taken from the punch. */
  function Synced(m: Member, statusMap: map<int, PunchStatus>): (r: Member)
    ensures r.(attendance := m.attendance) == m
    ensures !(m.id in statusMap && statusMap[m.id].status == "in") ==> r == m
  {
    if m.id in statusMap && statusMap[m.id].status == "in" then
      var rt := statusMap[m.id];
      var att := if m.attendance.None? then MemberAttendance("absent", None) else m.attendance.value;
      var att2 := if att.status == "absent" then att.(status := "present") else att;
      var att3 :=
        if Truthy(rt.work_mode) && (att2.detail.None? || !Truthy(att2.detail.value.work_mode)) then
          var d := if att2.detail.None? then Detail(None, None, None, None, None, None) else att2.detail.value;
          att2.(detail := Some(d.(work_mode := rt.work_mode)))
        else att2;
      m.(attendance := Some(att3))
    else m
  }

  /** The sync changes a member's status only when the member is clocked
      in, and then only from `absent` to `present`. */
  lemma SyncOnlyUpgradesAbsent(m: Member, statusMap: map<int, PunchStatus>)
    ensures StatusOf(Synced(m, statusMap)) != StatusOf(m) ==>
      m.id in statusMap && statusMap[m.id].status == "in"
      && StatusOf(m) == "absent" && StatusOf(Synced(m, statusMap)) == "present"
    ensures (m.id in statusMap && statusMap[m.id].status == "in"
      && (m.attendance.None? || m.attendance.value.status == "absent")) ==>
      StatusOf(Synced(m, statusMap)) == "present"
  {
  }

  /** The summary counts of the page. */
  datatype Summary = Summary(present: int, absent: int, on_leave: int, total_team: int)

  /** The recount: `present`, `on_leave`, and every other status as absent. */
  function Recount(members: seq<Member>): (s: Summary)
    ensures s.present + s.on_leave + s.absent == s.total_team == |members|
    ensures s.present >= 0 && s.on_leave >= 0 && s.absent >= 0
  {
    if members == [] then Summary(0, 0, 0, 0)
    else
      var s := Recount(members[..|members| - 1]);
      var st := StatusOf(members[|members| - 1]);
      if st == "present" then s.(present := s.present + 1, total_team := s.total_team + 1)
      else if st == "on_leave" then s.(on_leave := s.on_leave + 1, total_team := s.total_team + 1)
      else s.(absent := s.absent + 1, total_team := s.total_team + 1)
  }

  /** The counts agree with the status filter: `present` counts exactly
      the members the `present` filter shows. */
  lemma {:induction false} RecountMatchesFilter(members: seq<Member>)
    ensures Recount(members).present == |WithStatus(members, "present")|
    ensures Recount(members).on_leave == |WithStatus(members, "on_leave")|
  {
    if members != [] {
      var init := members[..|members| - 1];
      var last := members[|members| - 1];
      assert members == init + [last];
      RecountMatchesFilter(init);
      WithStatusAppend(init, last, "present");
      WithStatusAppend(init, last, "on_leave");
      assert "present" != "on_leave" by { assert "present"[0] != "on_leave"[0]; }
    }
  }

  lemma {:induction false} WithStatusAppend(s: seq<Member>, x: Member, filter: string)
    ensures WithStatus(s + [x], filter) == WithStatus(s, filter) + (if StatusOf(x) == filter then [x] else [])
  {
    if s == [] {
      assert [] + [x] == [x];
      assert [x][1..] == [];
    } else {
      assert (s + [x])[0] == s[0];
      assert (s + [x])[1..] == s[1..] + [x];
      WithStatusAppend(s[1..], x, filter);
    }
  }

  /** A pending remote clock-in request. */
  datatype RemoteRequest = RemoteRequest(id: int, employee_id: int, reason: string)

  /** `requests.filter(r => r.id !== id)`. */
  function WithoutRequest(requests: seq<RemoteRequest>, id: int): (r: seq<RemoteRequest>)
    ensures forall x :: x in r <==> x in requests && x.id != id
    ensures Sublist(r, requests)
    ensures (forall k :: 0 <= k < |requests| ==> requests[k].id != id) ==> r == requests
  {
    if requests == [] then []
    else if requests[0].id != id then [requests[0]] + WithoutRequest(requests[1..], id)
    else WithoutRequest(requests[1..], id)
  }

  class MyTeamView {
    var teamMembers: seq<Member>
    var filteredMembers: seq<Member>
    var attendanceFilter: string
    var attendanceSummary: Option<Summary>
    var employeeStatusMap: map<int, PunchStatus>
    var pendingRemoteClockinRequests: seq<RemoteRequest>
    var searchText: string
    var userRole: Option<string>
    var isManager: bool

    constructor ()
      ensures teamMembers == [] && filteredMembers == [] && attendanceFilter == "all"
      ensures attendanceSummary.None? && employeeStatusMap == map[]
      ensures pendingRemoteClockinRequests == [] && searchText == ""
      ensures userRole.None? && !isManager
    {
      teamMembers := [];
      filteredMembers := [];
      attendanceFilter := "all";
      attendanceSummary := None;
      employeeStatusMap := map[];
      pendingRemoteClockinRequests := [];
      searchText := "";
      userRole := None;
      isManager := false;
    }

    /** `updateRole`: HR counts as a manager on this page. */
    method UpdateRole(guardRole: Option<string>)
      modifies this`userRole, this`isManager
      ensures userRole == AppShell.RoleFromGuard(guardRole)
      ensures isManager <==> AppShell.IsManagerOrAbove(userRole)
    {
      userRole := AppShell.RoleFromGuard(guardRole);
      isManager := userRole == Some("manager") || userRole == Some("hr");
    }

    /** `applyAttendanceFilter`. */
    method ApplyAttendanceFilter()
      modifies this`filteredMembers
      ensures filteredMembers == AttendanceFiltered(teamMembers, attendanceFilter)
    {
      if attendanceFilter == "all" {
        filteredMembers := teamMembers;
      } else {
        filteredMembers := WithStatus(teamMembers, attendanceFilter);
      }
    }

    /** `filterTeam`. */
    method FilterTeam()
      modifies this`filteredMembers
      ensures filteredMembers == SearchTeam(teamMembers, searchText)
    {
      filteredMembers := SearchTeam(teamMembers, searchText);
    }

    /** The answer of `loadAttendanceData`: merge the report into the team,
        take its summary, filter, then sync the real-time status. */
    method LoadAttendanceData(records: seq<ReportRecord>, summary: Option<Summary>, isToday: bool)
      modifies this`teamMembers, this`filteredMembers, this`attendanceSummary
      ensures |teamMembers| == |old(teamMembers)|
      ensures !isToday || old(teamMembers) == [] ==>
        teamMembers == MergeAll(old(teamMembers), records) && attendanceSummary == summary
      ensures isToday && old(teamMembers) != [] ==>
        teamMembers == SyncedAll(MergeAll(old(teamMembers), records), employeeStatusMap)
        && attendanceSummary == (if summary.Some? then Some(Recount(teamMembers)) else None)
      ensures filteredMembers == AttendanceFiltered(teamMembers, attendanceFilter)
    {
      teamMembers := MergeAll(teamMembers, records);
      attendanceSummary := summary;
      ApplyAttendanceFilter();
      SyncRealTimeStatus(isToday);
    }

    /** `syncRealTimeStatusToTeamMembers`: nothing unless the selected day
        is today and the team is not empty; otherwise sync every member,
        recount the summary when there is one, and filter again. */
    method SyncRealTimeStatus(isToday: bool)
      modifies this`teamMembers, this`attendanceSummary, this`filteredMembers
      ensures !isToday || old(teamMembers) == [] ==>
        teamMembers == old(teamMembers) && attendanceSummary == old(attendanceSummary)
        && filteredMembers == old(filteredMembers)
      ensures isToday && old(teamMembers) != [] ==>
        teamMembers == SyncedAll(old(teamMembers), employeeStatusMap)
        && attendanceSummary == (if old(attendanceSummary).Some? then Some(Recount(teamMembers)) else None)
        && filteredMembers == AttendanceFiltered(teamMembers, attendanceFilter)
    {
      if !isToday || |teamMembers| == 0 {
        return;
      }
      SyncMembers();
      if attendanceSummary.Some? {
        var summary := CountSummary(teamMembers);
        attendanceSummary := Some(summary);
      }
      ApplyAttendanceFilter();
    }

    /** The `forEach` of the sync: each member in turn. */
    method SyncMembers()
      modifies this`teamMembers
      ensures teamMembers == SyncedAll(old(teamMembers), employeeStatusMap)
    {
      var i := 0;
      while i < |teamMembers|
        invariant 0 <= i <= |teamMembers| == |old(teamMembers)|
        invariant teamMembers[..i] == SyncedAll(old(teamMembers)[..i], employeeStatusMap)
        invariant teamMembers[i..] == old(teamMembers)[i..]
      {
        SyncedAllAppend(old(teamMembers)[..i], old(teamMembers)[i], employeeStatusMap);
        assert old(teamMembers)[..i + 1] == old(teamMembers)[..i] + [old(teamMembers)[i]];
        teamMembers := teamMembers[i := Synced(teamMembers[i], employeeStatusMap)];
        i := i + 1;
      }
      assert teamMembers == teamMembers[..i];
      assert old(teamMembers) == old(teamMembers)[..i];
    }

    /** A successful decision on a remote clock-in request takes exactly
        the requests with that id off the queue; a failed one keeps it. */
    method DecideRemoteClockinRequest(id: int, succeeded: bool)
      modifies this`pendingRemoteClockinRequests
      ensures succeeded ==> pendingRemoteClockinRequests == WithoutRequest(old(pendingRemoteClockinRequests), id)
      ensures !succeeded ==> pendingRemoteClockinRequests == old(pendingRemoteClockinRequests)
    {
      if succeeded {
        pendingRemoteClockinRequests := WithoutRequest(pendingRemoteClockinRequests, id);
      }
    }
  }

  /** The recount loop of the sync: one pass over the members. */
  method CountSummary(members: seq<Member>) returns (summary: Summary)
    ensures summary == Recount(members)
  {
    var present, absent, leave := 0, 0, 0;
    var j := 0;
    while j < |members|
      invariant 0 <= j <= |members|
      invariant Recount(members[..j]) == Summary(present, absent, leave, j)
    {
      assert members[..j + 1][..j] == members[..j];
      var s := StatusOf(members[j]);
      if s == "present" {
        present := present + 1;
      } else if s == "on_leave" {
        leave := leave + 1;
      } else {
        absent := absent + 1;
      }
      j := j + 1;
    }
    assert members[..j] == members;
    summary := Summary(present, absent, leave, |members|);
  }

  /** The sync applied to every member. */
  function SyncedAll(members: seq<Member>, statusMap: map<int, PunchStatus>): (r: seq<Member>)
    ensures |r| == |members|
    ensures forall i :: 0 <= i < |r| ==> r[i] == Synced(members[i], statusMap)
  {
    if members == [] then [] else SyncedAll(members[..|members| - 1], statusMap) + [Synced(members[|members| - 1], statusMap)]
  }

  lemma SyncedAllAppend(s: seq<Member>, x: Member, statusMap: map<int, PunchStatus>)
    ensures SyncedAll(s + [x], statusMap) == SyncedAll(s, statusMap) + [Synced(x, statusMap)]
  {
    assert (s + [x])[..|s + [x]| - 1] == s;
  }
}
