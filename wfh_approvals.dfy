/** The manager's queue of pending work-from-home requests: the mode each
    request is shown with, the search and mode filters over the queue, the
    chip colours and icons, and the rule that a rejection needs remarks. */
module WfhApprovals {
  import opened Js
  import opened Strings
  import opened Seqs

  /** A pending request with the fields the page reads; `work_mode` is the
      one the page adds. */
  datatype WfhRequest = WfhRequest(
    id: int, FirstName: Option<string>, LastName: Option<string>,
    EmployeeNumber: Option<string>, leave_type: Option<string>,
    status: Option<string>, work_mode: string)

  /** The response's request with `work_mode` set from its leave type. */
  function Normalized(r: WfhRequest): (n: WfhRequest)
    ensures n.work_mode == "WFH" <==> r.leave_type == Some("WFH")
    ensures n.work_mode == "WFH" || n.work_mode == "WFO"
    ensures n.(work_mode := r.work_mode) == r
  {
    r.(work_mode := if r.leave_type == Some("WFH") then "WFH" else "WFO")
  }

  /** The normalising `map` over the response. */
  function NormalizeAll(rs: seq<WfhRequest>): (ns: seq<WfhRequest>)
    ensures |ns| == |rs|
    ensures forall i :: 0 <= i < |rs| ==> ns[i] == Normalized(rs[i])
  {
    if rs == [] then [] else [Normalized(rs[0])] + NormalizeAll(rs[1..])
  }

  /** A name part inside a template string: a missing one reads `undefined`. */
  function NamePart(s: Option<string>): string
  {
    if s.Some? then s.value else "undefined"
  }

  /** `${FirstName} ${LastName}`. */
  function FullName(r: WfhRequest): string
  {
    NamePart(r.FirstName) + " " + NamePart(r.LastName)
  }

  /** The search test: no term, or the lower-cased term inside the
      lower-cased full name or employee number. */
  predicate MatchesSearch(r: WfhRequest, term: string)
  {
    term == ""
    || Contains(ToLower(FullName(r)), ToLower(term))
    || (r.EmployeeNumber.Some? && Contains(ToLower(r.EmployeeNumber.value), ToLower(term)))
  }

  /** The mode test: `all`, or the request's mode exactly. */
  predicate MatchesMode(r: WfhRequest, modeFilter: string)
  {
    modeFilter == "all" || r.work_mode == modeFilter
  }

  /** `applyFilters` over `rs`. */
  function Filtered(rs: seq<WfhRequest>, term: string, modeFilter: string): (fs: seq<WfhRequest>)
    ensures Sublist(fs, rs)
    ensures forall r :: r in fs <==> r in rs && MatchesSearch(r, term) && MatchesMode(r, modeFilter)
  {
    Filter(rs, r => MatchesSearch(r, term) && MatchesMode(r, modeFilter))
  }

  /** An empty search under the `all` filter keeps the whole queue. */
  lemma EmptySearchKeepsAll(rs: seq<WfhRequest>)
    ensures Filtered(rs, "", "all") == rs
  {
    FilterKeepsAll(rs, r => MatchesSearch(r, "") && MatchesMode(r, "all"));
  }

  /** After normalisation, the `WFH` filter keeps exactly the requests whose
      leave type is `WFH` and the `WFO` filter exactly the others. */
  lemma ModeFilterFollowsLeaveType(rs: seq<WfhRequest>, r: WfhRequest)
    ensures r in Filtered(NormalizeAll(rs), "", "WFH") <==>
      r in NormalizeAll(rs) && r.leave_type == Some("WFH")
    ensures r in Filtered(NormalizeAll(rs), "", "WFO") <==>
      r in NormalizeAll(rs) && r.leave_type != Some("WFH")
  {
    var ns := NormalizeAll(rs);
    assert "WFH" != "all" && "WFO" != "all" && "WFH" != "WFO" by {
      assert "WFH"[0] != "all"[0] && "WFO"[0] != "all"[0] && "WFH"[2] != "WFO"[2];
    }
    if r in ns {
      var i :| 0 <= i < |ns| && ns[i] == r;
      assert r == Normalized(rs[i]);
      assert r.work_mode == "WFH" <==> r.leave_type == Some("WFH");
      assert r.work_mode == "WFH" || r.work_mode == "WFO";
    }
    assert MatchesSearch(r, "");
  }

  /** `getStatusColor`. */
  function StatusColor(status: Option<string>): (c: string)
    ensures status.None? ==> c == "medium"
    ensures c in {"pending", "accept", "reject", "medium"}
    ensures status.Some? && ToLower(status.value) == "pending" ==> c == "pending"
    ensures status.Some? && ToLower(status.value) == "approved" ==> c == "accept"
    ensures status.Some? && ToLower(status.value) == "rejected" ==> c == "reject"
    ensures c == "medium" <==> (status.None? ||
      (ToLower(status.value) != "pending" && ToLower(status.value) != "approved" && ToLower(status.value) != "rejected"))
  {
    if status.None? then "medium"
    else
      var s := ToLower(status.value);
      if s == "pending" then "pending"
      else if s == "approved" then "accept"
      else if s == "rejected" then "reject"
      else "medium"
  }

  /** The colour does not depend on the case of the status. */
  lemma StatusColorIgnoresCase(s: string)
    ensures StatusColor(Some(s)) == StatusColor(Some(ToLower(s)))
  {
    ToLowerIdempotent(s);
  }

  /** A status spelt `Rejected` is shown as rejected. */
  lemma CapitalisedStatusColor()
    ensures StatusColor(Some("Rejected")) == "reject"
  {
    assert ToLower("Rejected") == "rejected";
  }

  /** `getModeColor` and `getModeIcon`: `WFH` is told apart from every other mode. */
  function ModeChip(mode: string): (r: (string, string))
    ensures mode == "WFH" <==> r == ("secondary", "home")
    ensures mode != "WFH" <==> r == ("tertiary", "business")
  {
    if mode == "WFH" then ("secondary", "home") else ("tertiary", "business")
  }

  /** The rejection call the alert's handler makes. */
  datatype Rejection = Rejection(id: int, remarks: string)

  /** The `Reject` button: without remarks the alert stays open and nothing
      is sent; otherwise the request is rejected with those remarks. */
  function RejectHandler(request: WfhRequest, remarks: Option<string>): (r: Option<Rejection>)
    ensures r.None? <==> !Truthy(remarks)
    ensures r.Some? ==> r.value.id == request.id && r.value.remarks == remarks.value && r.value.remarks != ""
  {
    if !Truthy(remarks) then None else Some(Rejection(request.id, remarks.value))
  }

  class ApprovalsView {
    var pendingWFHRequests: seq<WfhRequest>
    var filteredRequests: seq<WfhRequest>
    var searchTerm: string
    var modeFilter: string

    ghost predicate Valid()
      reads this
    {
      filteredRequests == Filtered(pendingWFHRequests, searchTerm, modeFilter)
    }

    constructor ()
      ensures Valid()
      ensures pendingWFHRequests == [] && filteredRequests == []
      ensures searchTerm == "" && modeFilter == "all"
    {
      pendingWFHRequests := [];
      filteredRequests := [];
      searchTerm := "";
      modeFilter := "all";
    }

    method ApplyFilters()
      modifies this`filteredRequests
      ensures Valid()
    {
      filteredRequests := Filtered(pendingWFHRequests, searchTerm, modeFilter);
    }

    /** `loadPendingWFHRequests`: the normalised response, filtered; a
        failed fetch changes nothing. */
    method LoadPending(response: Option<seq<WfhRequest>>)
      requires Valid()
      modifies this`pendingWFHRequests, this`filteredRequests
      ensures Valid()
      ensures response.Some? ==> pendingWFHRequests == NormalizeAll(response.value)
      ensures response.None? ==> (pendingWFHRequests, filteredRequests) == old((pendingWFHRequests, filteredRequests))
    {
      if response.Some? {
        pendingWFHRequests := NormalizeAll(response.value);
        ApplyFilters();
      }
    }

    /** `onSearchChange`: a missing value is the empty search. */
    method OnSearchChange(value: Option<string>)
      modifies this`searchTerm, this`filteredRequests
      ensures searchTerm == OrElse(value, "")
      ensures Valid()
    {
      searchTerm := OrElse(value, "");
      ApplyFilters();
    }

    method OnModeFilterChange(value: string)
      modifies this`modeFilter, this`filteredRequests
      ensures modeFilter == value
      ensures Valid()
    {
      modeFilter := value;
      ApplyFilters();
    }
  }
}
