/** The application shell: who the user is (the role the route guard
    holds), which menu entries the side menu shows, and the flags the shell
    sets on every navigation. A role is the lower-cased role string, absent
    when the guard holds none or an empty one. */
module AppShell {
  import opened Js
  import opened Strings

  predicate IsAdminOnly(role: Option<string>)
  {
    role == Some("admin")
  }

  predicate IsHROnly(role: Option<string>)
  {
    role == Some("hr")
  }

  predicate IsAdminOrHR(role: Option<string>)
  {
    role == Some("admin") || role == Some("hr")
  }

  predicate IsManager(role: Option<string>)
  {
    role == Some("manager")
  }

  predicate IsManagerOrAbove(role: Option<string>)
  {
    role == Some("manager") || role == Some("hr")
  }

  predicate IsEmployeeOrManagerOrHr(role: Option<string>)
  {
    role == Some("employee") || role == Some("manager") || role == Some("hr")
  }

  predicate IsEmployee(role: Option<string>)
  {
    role == Some("employee")
  }

  /** How the role predicates relate: the admin-or-HR test is the union of
      the two single-role tests, "manager or above" is manager or HR, the
      work-track audience adds employees to it, and an administrator is in
      none of the employee-side groups. */
  lemma RoleHierarchy(role: Option<string>)
    ensures IsAdminOrHR(role) <==> IsAdminOnly(role) || IsHROnly(role)
    ensures IsManagerOrAbove(role) <==> IsManager(role) || IsHROnly(role)
    ensures IsEmployeeOrManagerOrHr(role) <==> IsEmployee(role) || IsManagerOrAbove(role)
    ensures IsAdminOnly(role) ==> !IsEmployeeOrManagerOrHr(role) && !IsManagerOrAbove(role)
  {
  }

  /** `guardRole?.toLowerCase() || null`. */
  function RoleFromGuard(guardRole: Option<string>): (r: Option<string>)
    ensures r.None? <==> guardRole.None? || guardRole.value == ""
    ensures r.Some? ==> r.value != "" && ToLower(r.value) == r.value && |r.value| == |guardRole.value|
  {
    if guardRole.None? || guardRole.value == "" then None
    else
      ToLowerIdempotent(guardRole.value);
      Some(ToLower(guardRole.value))
  }

  /** `guardRole?.trim().toLowerCase() || ''`, the string `ngOnInit` tests. */
  function TrimmedRole(guardRole: Option<string>): (r: string)
    ensures guardRole.None? ==> r == ""
    ensures guardRole.Some? ==> r == ToLower(Trim(guardRole.value))
  {
    if guardRole.None? then "" else ToLower(Trim(guardRole.value))
  }

  /** `shouldShowWorkTrack()`: only employees, managers and HR, and never
      for someone whose (trimmed, lower-cased) department is `management`. */
  function WorkTrackVisible(role: Option<string>, department: Option<string>): (b: bool)
    ensures b ==> IsEmployeeOrManagerOrHr(role)
    ensures Truthy(department) && ToLower(Trim(department.value)) == "management" ==> !b
  {
    if !IsEmployeeOrManagerOrHr(role) then false
    else if Truthy(department) && ToLower(Trim(department.value)) == "management" then false
    else true
  }

  /** `shouldShowLeave()`: hidden only for the CEO. */
  function LeaveVisible(designation: Option<string>): (b: bool)
    ensures !b <==> Truthy(designation) && ToLower(Trim(designation.value)) == "ceo"
  {
    !(Truthy(designation) && ToLower(Trim(designation.value)) == "ceo")
  }

  /** The work-track entry is shown exactly to the employee-side roles
      outside the management department; administrators never see it. */
  lemma WorkTrackAudience(role: Option<string>, department: Option<string>)
    ensures WorkTrackVisible(role, department) <==>
      IsEmployeeOrManagerOrHr(role) && !(Truthy(department) && ToLower(Trim(department.value)) == "management")
    ensures IsAdminOnly(role) ==> !WorkTrackVisible(role, department)
    ensures department.None? ==> (WorkTrackVisible(role, department) <==> IsEmployeeOrManagerOrHr(role))
  {
  }

  /** `ngOnInit` trims the role before its admin test, the role predicates
      do not: a guard role with leading white space (such as `" HR"`) is
      tested by `ngOnInit` as if the space were not there, while
      `isAdminOrHR()` is false for it. */
  lemma AdminFlagTrimsRole(r: string)
    requires r != [] && IsSpace(r[0])
    ensures TrimmedRole(Some(r)) == TrimmedRole(Some(r[1..]))
    ensures !IsAdminOrHR(RoleFromGuard(Some(r)))
  {
    assert SkipSpaces(r) == SkipSpaces(r[1..]);
    var l := ToLower(r);
    assert l[0] == r[0];
    assert l != "admin" by { assert "admin"[0] == 'a'; }
    assert l != "hr" by { assert "hr"[0] == 'h'; }
  }

  /** A designation that reads "ceo" in any letter case hides the leave
      entry, with or without a space on either side. */
  lemma CeoHasNoLeaveEntry(d: string)
    requires ToLower(d) == "ceo"
    ensures !LeaveVisible(Some(d))
    ensures !LeaveVisible(Some(" " + d + " "))
  {
    var l := ToLower(d);
    assert LowerChar(d[0]) == 'c' && LowerChar(d[2]) == 'o';
    TrimUnpadded(d);
  }

  /** Leading white space in the designation does not change whether the
      leave entry is shown. */
  lemma LeaveIgnoresLeadingSpace(d: string)
    requires d != [] && IsSpace(d[0])
    ensures LeaveVisible(Some(d)) == LeaveVisible(Some(d[1..]))
  {
    assert SkipSpaces(d) == SkipSpaces(d[1..]);
  }

  /** The shell's navigation state. */
  class Shell {
    var showMenu: bool
    var isLoginPage: bool
    var isAdmin: bool
    var userRole: Option<string>
    var userDesignation: Option<string>
    var userDepartment: Option<string>

    /** The field initialisers. */
    constructor ()
      ensures showMenu && !isLoginPage && !isAdmin
      ensures userRole.None? && userDesignation.None? && userDepartment.None?
    {
      showMenu := true;
      isLoginPage := false;
      isAdmin := false;
      userRole := None;
      userDesignation := None;
      userDepartment := None;
    }

    /** The `NavigationEnd` handler: the menu is hidden exactly on the login
        page, and the admin flag follows the role predicates. */
    method OnNavigation(url: string, guardRole: Option<string>)
      modifies this`showMenu, this`isLoginPage, this`userRole, this`isAdmin
      ensures isLoginPage <==> Contains(url, "/login")
      ensures showMenu == !isLoginPage
      ensures userRole == RoleFromGuard(guardRole)
      ensures isAdmin <==> IsAdminOrHR(userRole)
    {
      showMenu := !Contains(url, "/login");
      isLoginPage := Contains(url, "/login");
      userRole := RoleFromGuard(guardRole);
      var role := if userRole.Some? then userRole.value else "";
      isAdmin := role == "admin" || role == "hr";
    }

    /** The profile answer: `(x_name || x || '').toLowerCase()` for the
        designation and the department. */
    method OnProfile(designation_name: Option<string>, designation: Option<string>,
                     department_name: Option<string>, department: Option<string>)
      modifies this`userDesignation, this`userDepartment
      ensures userDesignation == Some(ToLower(OrElse(OrOpt(designation_name, designation), "")))
      ensures userDepartment == Some(ToLower(OrElse(OrOpt(department_name, department), "")))
    {
      userDesignation := Some(ToLower(OrElse(OrOpt(designation_name, designation), "")));
      userDepartment := Some(ToLower(OrElse(OrOpt(department_name, department), "")));
    }

    /** `ngOnInit`: the admin flag holds iff the trimmed, lower-cased role is
        `admin` or `hr`. */
    method Init(guardRole: Option<string>)
      modifies this`userRole, this`isAdmin
      ensures userRole == RoleFromGuard(guardRole)
      ensures isAdmin <==> TrimmedRole(guardRole) == "admin" || TrimmedRole(guardRole) == "hr"
    {
      userRole := RoleFromGuard(guardRole);
      isAdmin := false;
      var role := TrimmedRole(guardRole);
      if role == "admin" || role == "hr" {
        isAdmin := true;
      }
    }
  }
}
