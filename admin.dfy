/** The administration screen: the access test, the weekly-off policy form,
    the announcement form with its completeness guard, and the name fields
    of the designation and business-unit editors. Its seven paged tables are
    `Pagination.Pager` instances; reloading any of them goes back to page 1
    (`Pager.Reload`). */
module Admin {
  import opened Js
  import opened Strings
  import opened Policies
  import AppShell
  import AttendanceLog

  /** The weekly-off policy form. */
  datatype WeeklyOffForm = WeeklyOffForm(
    policy_code: string, name: string, description: string, effective_date: string,
    is_active: int,
    sunday_off: int, monday_off: int, tuesday_off: int, wednesday_off: int,
    thursday_off: int, friday_off: int, saturday_off: int,
    is_payable: int, holiday_overlap_rule: string, sandwich_rule: int,
    minimum_work_days: int)

  /** The empty form: active, no day off, nothing payable. */
  const BlankWeeklyOffForm: WeeklyOffForm :=
    WeeklyOffForm("", "", "", "", 1, 0, 0, 0, 0, 0, 0, 0, 0, "", 0, 0)

  /** The policy a saved form becomes, as the attendance screens read it. */
  function AsPolicy(f: WeeklyOffForm, id: nat): (p: WeeklyOffPolicy)
    ensures forall w :: 0 <= w < 7 ==> OffFlag(p, w) == FormFlag(f, w)
    ensures p.is_active == f.is_active
  {
    WeeklyOffPolicy(id, f.sunday_off, f.monday_off, f.tuesday_off, f.wednesday_off,
                    f.thursday_off, f.friday_off, f.saturday_off, f.is_active)
  }

  /** The form's flag for weekday `w` (0 Sunday .. 6 Saturday). */
  function FormFlag(f: WeeklyOffForm, w: int): int
    requires 0 <= w < 7
  {
    if w == 0 then f.sunday_off
    else if w == 1 then f.monday_off
    else if w == 2 then f.tuesday_off
    else if w == 3 then f.wednesday_off
    else if w == 4 then f.thursday_off
    else if w == 5 then f.friday_off
    else f.saturday_off
  }

  /** A policy saved from a form gives no day of the week off exactly when
      every day flag of the form is 0, as in the blank form. */
  lemma NoFlagNoWeekOff(f: WeeklyOffForm, id: nat)
    ensures AttendanceLog.WeekOffDays(Some(AsPolicy(f, id))) == [] <==>
      forall w :: 0 <= w < 7 ==> FormFlag(f, w) == 0
  {
    var p := AsPolicy(f, id);
    var r := AttendanceLog.WeekOffDays(Some(p));
    if r != [] {
      assert r[0] in r;
      assert OffFlag(p, r[0]) != 0;
      assert FormFlag(f, r[0]) != 0;
    }
    if !(forall w :: 0 <= w < 7 ==> FormFlag(f, w) == 0) {
      var w :| 0 <= w < 7 && FormFlag(f, w) != 0;
      assert OffFlag(p, w) != 0;
      assert w in r;
    }
  }

  /** The blank form gives no day of the week off. */
  lemma BlankFormNoWeekOff(id: nat)
    ensures AttendanceLog.WeekOffDays(Some(AsPolicy(BlankWeeklyOffForm, id))) == []
  {
    assert forall w :: 0 <= w < 7 ==> FormFlag(BlankWeeklyOffForm, w) == 0;
    NoFlagNoWeekOff(BlankWeeklyOffForm, id);
  }

  /** The announcement form; its fields are strings bound to inputs. */
  datatype AnnouncementForm = AnnouncementForm(title: string, body: string, starts_at: string, ends_at: string)

  /** The guard of `saveAnnouncement` and `updateAnnouncement`: no field empty. */
  predicate Complete(f: AnnouncementForm)
  {
    f.title != "" && f.body != "" && f.starts_at != "" && f.ends_at != ""
  }

  /** A request the screen sends to the server. */
  datatype Request =
    | CreateAnnouncement(form: AnnouncementForm)
    | UpdateAnnouncement(announcementId: Option<int>, form: AnnouncementForm)
    | UpdateDesignation(id: int, name: string)
    | UpdateBusinessUnit(id: int, name: string)

  /** `ngOnInit`: `guard?.toLowerCase() || stored?.toLowerCase() || null`. */
  function UserRole(guardRole: Option<string>, storedRole: Option<string>): (r: Option<string>)
    ensures guardRole.Some? && guardRole.value != "" ==> r == Some(ToLower(guardRole.value))
    ensures (guardRole.None? || guardRole.value == "") ==> r == AppShell.RoleFromGuard(storedRole)
    ensures r.Some? ==> r.value != "" && ToLower(r.value) == r.value
  {
    if guardRole.Some? && guardRole.value != "" then AppShell.RoleFromGuard(guardRole)
    else AppShell.RoleFromGuard(storedRole)
  }

  /** The letter case of a role, from the route or from storage, never
      changes the resolved role; so an admin or HR role in any case, read
      from storage alone, passes `isAdminOrHR`. */
  lemma UserRoleIgnoresCase(g: Option<string>, st: Option<string>, s: string)
    ensures UserRole(g, Some(s)) == UserRole(g, Some(ToLower(s)))
    ensures UserRole(Some(s), st) == UserRole(Some(ToLower(s)), st)
    ensures ToLower(s) in {"admin", "hr"} ==> AppShell.IsAdminOrHR(UserRole(None, Some(s)))
  {
    ToLowerIdempotent(s);
    assert s == "" <==> ToLower(s) == "";
  }

  class AdminView {
    var userRole: Option<string>
    var weeklyOffPolicyForm: WeeklyOffForm
    var editingWeeklyOffPolicyId: Option<int>
    var announcementForm: AnnouncementForm
    var showAnnouncementForm: bool
    var editingAnnouncementId: Option<int>
    var designationName: string
    var editingDesignationId: Option<int>
    var businessUnitName: string
    var editingBusinessUnitId: Option<int>

    /** The field initialisers. */
    constructor ()
      ensures userRole.None?
      ensures weeklyOffPolicyForm == BlankWeeklyOffForm && editingWeeklyOffPolicyId.None?
      ensures announcementForm == AnnouncementForm("", "", "", "") && !showAnnouncementForm
      ensures designationName == "" && editingDesignationId.None?
      ensures businessUnitName == "" && editingBusinessUnitId.None?
    {
      userRole := None;
      weeklyOffPolicyForm := BlankWeeklyOffForm;
      editingWeeklyOffPolicyId := None;
      announcementForm := AnnouncementForm("", "", "", "");
      showAnnouncementForm := false;
      editingAnnouncementId := None;
      designationName := "";
      editingDesignationId := None;
      businessUnitName := "";
      editingBusinessUnitId := None;
    }

    method Init(guardRole: Option<string>, storedRole: Option<string>)
      modifies this`userRole
      ensures userRole == UserRole(guardRole, storedRole)
    {
      userRole := UserRole(guardRole, storedRole);
    }

    /** The `isAdminOrHR` getter. */
    predicate IsAdminOrHR(): (b: bool)
      reads this
      ensures b <==> userRole == Some("admin") || userRole == Some("hr")
    {
      AppShell.IsAdminOrHR(userRole)
    }

    /** `editWeeklyOffPolicy(item)`: copy the row into the form. */
    method EditWeeklyOffPolicy(item: WeeklyOffForm, id: int)
      modifies this`weeklyOffPolicyForm, this`editingWeeklyOffPolicyId
      ensures weeklyOffPolicyForm == item && editingWeeklyOffPolicyId == Some(id)
    {
      editingWeeklyOffPolicyId := Some(id);
      weeklyOffPolicyForm := item;
    }

    /** `cancelWeeklyOffPolicy`: leave edit mode and reset the form, every
        day flag back to 0 and the policy active. */
    method CancelWeeklyOffPolicy()
      modifies this`weeklyOffPolicyForm, this`editingWeeklyOffPolicyId
      ensures editingWeeklyOffPolicyId.None?
      ensures weeklyOffPolicyForm == BlankWeeklyOffForm
      ensures forall w :: 0 <= w < 7 ==> FormFlag(weeklyOffPolicyForm, w) == 0
      ensures weeklyOffPolicyForm.is_active == 1
    {
      editingWeeklyOffPolicyId := None;
      weeklyOffPolicyForm := BlankWeeklyOffForm;
    }

    /** `openAddAnnouncement`. */
    method OpenAddAnnouncement()
      modifies this`showAnnouncementForm, this`editingAnnouncementId, this`announcementForm
      ensures showAnnouncementForm && editingAnnouncementId.None?
      ensures announcementForm == AnnouncementForm("", "", "", "") && !Complete(announcementForm)
    {
      showAnnouncementForm := true;
      editingAnnouncementId := None;
      announcementForm := AnnouncementForm("", "", "", "");
    }

    /** `saveAnnouncement`: nothing is sent while a field is empty (the
        screen shows a toast instead); otherwise the form is sent. */
    method SaveAnnouncement() returns (request: Option<Request>)
      ensures request.None? <==> !Complete(announcementForm)
      ensures request.Some? ==> request.value == CreateAnnouncement(announcementForm)
    {
      if announcementForm.title == "" || announcementForm.body == ""
        || announcementForm.starts_at == "" || announcementForm.ends_at == "" {
        return None;
      }
      request := Some(CreateAnnouncement(announcementForm));
    }

    /** `updateAnnouncement`: the same guard, then the form under the id
        being edited. */
    method UpdateAnnouncementRequest() returns (request: Option<Request>)
      ensures request.None? <==> !Complete(announcementForm)
      ensures request.Some? ==> request.value == UpdateAnnouncement(editingAnnouncementId, announcementForm)
    {
      if announcementForm.title == "" || announcementForm.body == ""
        || announcementForm.starts_at == "" || announcementForm.ends_at == "" {
        return None;
      }
      request := Some(UpdateAnnouncement(editingAnnouncementId, announcementForm));
    }

    /** `cancelAnnouncement`. */
    method CancelAnnouncement()
      modifies this`showAnnouncementForm
      ensures !showAnnouncementForm
    {
      showAnnouncementForm := false;
    }

    /** `editDesignation(item)`. */
    method EditDesignation(name: string, id: int)
      modifies this`designationName, this`editingDesignationId
      ensures designationName == name && editingDesignationId == Some(id)
    {
      designationName := name;
      editingDesignationId := Some(id);
    }

    /** `updateDesignation`: sent only under a truthy (present, non-zero)
        editing id. */
    method UpdateDesignationRequest() returns (request: Option<Request>)
      ensures request.Some? <==> editingDesignationId.Some? && editingDesignationId.value != 0
      ensures request.Some? ==> request.value == UpdateDesignation(editingDesignationId.value, designationName)
    {
      if editingDesignationId.Some? && editingDesignationId.value != 0 {
        request := Some(UpdateDesignation(editingDesignationId.value, designationName));
      } else {
        request := None;
      }
    }

    /** `cancelDesignation` (also `openAddDesignation`). */
    method CancelDesignation()
      modifies this`designationName, this`editingDesignationId
      ensures designationName == "" && editingDesignationId.None?
    {
      designationName := "";
      editingDesignationId := None;
    }

    /** `editBusinessUnit(item)`. */
    method EditBusinessUnit(name: string, id: int)
      modifies this`businessUnitName, this`editingBusinessUnitId
      ensures businessUnitName == name && editingBusinessUnitId == Some(id)
    {
      businessUnitName := name;
      editingBusinessUnitId := Some(id);
    }

    /** `updateBusinessUnit`: sent only under a truthy editing id. */
    method UpdateBusinessUnitRequest() returns (request: Option<Request>)
      ensures request.Some? <==> editingBusinessUnitId.Some? && editingBusinessUnitId.value != 0
      ensures request.Some? ==> request.value == UpdateBusinessUnit(editingBusinessUnitId.value, businessUnitName)
    {
      if editingBusinessUnitId.Some? && editingBusinessUnitId.value != 0 {
        request := Some(UpdateBusinessUnit(editingBusinessUnitId.value, businessUnitName));
      } else {
        request := None;
      }
    }

    /** `cancelBusinessUnit` (also `openAddBusinessUnit`). */
    method CancelBusinessUnit()
      modifies this`businessUnitName, this`editingBusinessUnitId
      ensures businessUnitName == "" && editingBusinessUnitId.None?
    {
      businessUnitName := "";
      editingBusinessUnitId := None;
    }
  }
}
