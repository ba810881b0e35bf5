/** The leave request form: the day count of the requested range, the
    order in which a submission is refused, the check that no requested
    day is already taken by an existing leave, the hundred-word limit on
    the remarks, and the list of colleagues to notify. */
module LeaveRequest {
  import opened Js
  import opened Strings
  import opened Seqs
  import opened Dates

  /* ================= existing leaves ================= */

  /** A leave as `getMyLeaves` returns it; absent or empty dates are `None`. */
  datatype ServerLeave = ServerLeave(
    status: Option<string>,
    start_date: Option<int>, from_date: Option<int>,
    end_date: Option<int>, to_date: Option<int>)

  /** The range and status kept for the date check. */
  datatype ExistingLeave = ExistingLeave(from_date: Option<int>, to_date: Option<int>, status: string)

  /** Status exactly `PENDING`, `APPROVED` or `REJECTED`. */
  predicate IsTracked(l: ServerLeave)
  {
    l.status == Some("PENDING") || l.status == Some("APPROVED") || l.status == Some("REJECTED")
  }

  function FirstDate(a: Option<int>, b: Option<int>): (r: Option<int>)
    ensures a.Some? ==> r == a
    ensures a.None? ==> r == b
  {
    if a.Some? then a else b
  }

  /** The kept range: start date, else from date; end date, else to date,
      else the first day. */
  function Track(l: ServerLeave): (r: ExistingLeave)
    requires l.status.Some?
    ensures r.from_date == FirstDate(l.start_date, l.from_date)
    ensures r.to_date == FirstDate(FirstDate(l.end_date, l.to_date), r.from_date)
    ensures r.status == l.status.value
  {
    ExistingLeave(FirstDate(l.start_date, l.from_date),
                  FirstDate(FirstDate(l.end_date, l.to_date), FirstDate(l.start_date, l.from_date)),
                  l.status.value)
  }

  /** The `existingLeaves` list built by `loadPendingLeaves`. */
  function ExistingLeavesOf(leaves: seq<ServerLeave>): (r: seq<ExistingLeave>)
    ensures |r| == |Filter(leaves, IsTracked)|
    ensures forall i :: 0 <= i < |r| ==> r[i] == Track(Filter(leaves, IsTracked)[i])
    ensures forall i :: 0 <= i < |r| ==> r[i].status in {"PENDING", "APPROVED", "REJECTED"}
  {
    var kept := Filter(leaves, IsTracked);
    seq(|kept|, i requires 0 <= i < |kept| => assert kept[i] in kept; Track(kept[i]))
  }

  /** An existing leave takes day `d`; a leave with a missing end of its
      range takes no day, as an invalid `Date` ends the loop at once. */
  predicate Takes(l: ExistingLeave, d: int)
  {
    l.from_date.Some? && l.to_date.Some? && l.from_date.value <= d <= l.to_date.value
  }

  /** Some day from `first` to `last` is taken by some existing leave,
      whatever its status. */
  predicate Conflicts(first: int, last: int, existing: seq<ExistingLeave>)
  {
    exists i, d :: 0 <= i < |existing| && first <= d <= last && Takes(existing[i], d)
  }

  /** The day-by-day check agrees with comparing ranges: two ranges share
      a day exactly when the later start is not after the earlier end. */
  lemma ConflictsIffOverlap(first: int, last: int, existing: seq<ExistingLeave>)
    ensures Conflicts(first, last, existing) <==>
      exists i :: 0 <= i < |existing| && existing[i].from_date.Some? && existing[i].to_date.Some? &&
        Max(first, existing[i].from_date.value) <= Min(last, existing[i].to_date.value)
  {
    if exists i :: 0 <= i < |existing| && existing[i].from_date.Some? && existing[i].to_date.Some? &&
        Max(first, existing[i].from_date.value) <= Min(last, existing[i].to_date.value) {
      var i :| 0 <= i < |existing| && existing[i].from_date.Some? && existing[i].to_date.Some? &&
        Max(first, existing[i].from_date.value) <= Min(last, existing[i].to_date.value);
      var d := Max(first, existing[i].from_date.value);
      assert Takes(existing[i], d);
    }
  }

  function Max(a: int, b: int): int { if a < b then b else a }
  function Min(a: int, b: int): int { if a < b then a else b }

  /** The nested loops of `submitRequest`: each requested day against each
      day of each existing leave, stopping at the first match. */
  method HasDateConflict(first: int, last: int, existing: seq<ExistingLeave>) returns (dateConflict: bool)
    ensures dateConflict <==> Conflicts(first, last, existing)
  {
    dateConflict := false;
    var d := first;
    while d <= last
      invariant !dateConflict
      invariant first <= d || last < first
      invariant forall i, e :: 0 <= i < |existing| && first <= e < d && e <= last ==> !Takes(existing[i], e)
      decreases last - d
    {
      var j := 0;
      while j < |existing|
        invariant 0 <= j <= |existing|
        invariant !dateConflict
        invariant forall i :: 0 <= i < j ==> !Takes(existing[i], d)
      {
        var l := existing[j];
        if l.from_date.Some? && l.to_date.Some? {
          var ld := l.from_date.value;
          while ld <= l.to_date.value
            invariant l.from_date.value <= ld || l.to_date.value < l.from_date.value
            invariant d < l.from_date.value || ld <= d
            decreases l.to_date.value - ld
          {
            if d == ld {
              dateConflict := true;
              break;
            }
            ld := ld + 1;
          }
        }
        if dateConflict {
          assert Takes(existing[j], d);
          break;
        }
        j := j + 1;
      }
      if dateConflict {
        assert first <= d <= last;
        break;
      }
      d := d + 1;
    }
  }

  /* ================= the form ================= */

  /** The form values; a date or type left empty is `None`. */
  datatype LeaveForm = LeaveForm(
    leave_type: Option<int>, start_date: Option<int>, end_date: Option<int>,
    remarks: string, notify: string)

  /** What `Validators.required` demands: a type, both dates and remarks. */
  predicate FormValid(f: LeaveForm)
  {
    f.leave_type.Some? && f.start_date.Some? && f.end_date.Some? && f.remarks != ""
  }

  /** `leaveForm.reset()`. */
  const EmptyForm := LeaveForm(None, None, None, "", "")

  /** A balance row; `available` is `Number(available_days) || 0`. */
  datatype LeaveType = LeaveType(id: int, name: string, code: string, available: real)

  /** `leaveTypes.find(l => l.id === id)`: the first type with that id. */
  function FindType(types: seq<LeaveType>, id: int): Option<LeaveType>
  {
    FindById(types, id, (t: LeaveType) => t.id)
  }

  /** The number of calendar days from `start` to `end` inclusive, 0 when
      a date is missing or the end comes first. */
  function TotalDays(start: Option<int>, end: Option<int>): (r: int)
    ensures r > 0 <==> start.Some? && end.Some? && start.value <= end.value
    ensures start.Some? && end.Some? ==> r == |DayRange(start.value, end.value)|
    ensures !(start.Some? && end.Some?) ==> r == 0
  {
    if start.Some? && end.Some? && end.value >= start.value then end.value - start.value + 1 else 0
  }

  /** The request sent to `applyLeave`. */
  datatype Payload = Payload(leave_type_id: int, start_date: int, end_date: int, total_days: int, reason: string)

  /** Why a submission stopped, or what it sent. */
  datatype Outcome =
    | MissingFields
    | InvalidType
    | InsufficientBalance(available: real)
    | DateConflict
    | Sent(payload: Payload)

  /** A colleague picked for notification. */
  datatype Employee = Employee(id: int, name: string)

  function Ids(es: seq<Employee>): (r: seq<int>)
    ensures |r| == |es| && forall i :: 0 <= i < |es| ==> r[i] == es[i].id
  {
    if es == [] then [] else [es[0].id] + Ids(es[1..])
  }

  /** No id appears twice. */
  predicate DistinctIds(es: seq<Employee>)
  {
    forall i, j :: 0 <= i < j < |es| ==> es[i].id != es[j].id
  }

  /** The `notify` field: the selected ids joined by commas. */
  function NotifyText(es: seq<Employee>): string
  {
    JoinWith(seq(|es|, i requires 0 <= i < |es| => IntToString(es[i].id)), ",")
  }

  /** The search results whose id is not among `ids`, in order. */
  function Unselected(results: seq<Employee>, ids: seq<int>): (r: seq<Employee>)
    ensures forall x :: x in r <==> x in results && x.id !in ids
    ensures Sublist(r, results)
  {
    if results == [] then []
    else if results[0].id !in ids then [results[0]] + Unselected(results[1..], ids)
    else Unselected(results[1..], ids)
  }

  class LeaveRequestView {
    var form: LeaveForm
    var total_days: int
    var wordsCount: int
    var leaveTypes: seq<LeaveType>
    var existingLeaves: seq<ExistingLeave>
    var selectedEmployees: seq<Employee>
    var searchResults: seq<Employee>
    var showDropdown: bool
    var searchQuery: string

    constructor()
      ensures form == EmptyForm && total_days == 0 && wordsCount == 0
      ensures leaveTypes == [] && existingLeaves == [] && selectedEmployees == []
      ensures searchResults == [] && !showDropdown && searchQuery == ""
    {
      form := EmptyForm;
      total_days := 0;
      wordsCount := 0;
      leaveTypes := [];
      existingLeaves := [];
      selectedEmployees := [];
      searchResults := [];
      showDropdown := false;
      searchQuery := "";
    }

    /** `loadPendingLeaves`: the tracked leaves, or none after an error. */
    method LoadPendingLeaves(response: Option<seq<ServerLeave>>)
      modifies this`existingLeaves
      ensures response.None? ==> existingLeaves == []
      ensures response.Some? ==> existingLeaves == ExistingLeavesOf(response.value)
    {
      if response.None? {
        existingLeaves := [];
      } else {
        existingLeaves := ExistingLeavesOf(response.value);
      }
    }

    /** `handleDateChanges`: the form changed to `f`. */
    method HandleDateChanges(f: LeaveForm)
      modifies this`form, this`total_days
      ensures form == f
      ensures total_days == TotalDays(f.start_date, f.end_date)
    {
      form := f;
      if f.start_date.Some? && f.end_date.Some? && f.end_date.value >= f.start_date.value {
        var diff := f.end_date.value - f.start_date.value;
        total_days := diff + 1;
      } else {
        total_days := 0;
      }
    }

    /** `submitRequest`: refused for missing fields or no days, then for an
        unknown type, then for too few days left, then for a day already
        taken; otherwise the payload is sent. */
    method SubmitRequest() returns (outcome: Outcome)
      ensures outcome.MissingFields? <==> !FormValid(form) || total_days <= 0
      ensures outcome.InvalidType? <==>
        FormValid(form) && total_days > 0 && FindType(leaveTypes, form.leave_type.value).None?
      ensures outcome.InsufficientBalance? <==>
        FormValid(form) && total_days > 0 && FindType(leaveTypes, form.leave_type.value).Some? &&
        total_days as real > FindType(leaveTypes, form.leave_type.value).value.available
      ensures outcome.DateConflict? <==>
        FormValid(form) && total_days > 0 && FindType(leaveTypes, form.leave_type.value).Some? &&
        total_days as real <= FindType(leaveTypes, form.leave_type.value).value.available &&
        Conflicts(form.start_date.value, form.end_date.value, existingLeaves)
      ensures outcome.Sent? ==>
        outcome.payload == Payload(form.leave_type.value, form.start_date.value, form.end_date.value,
                                   total_days, form.remarks) &&
        !Conflicts(form.start_date.value, form.end_date.value, existingLeaves)
    {
      if !FormValid(form) || total_days <= 0 {
        return MissingFields;
      }
      var selectedLeave := FindType(leaveTypes, form.leave_type.value);
      if selectedLeave.None? {
        return InvalidType;
      }
      if total_days as real > selectedLeave.value.available {
        return InsufficientBalance(selectedLeave.value.available);
      }
      var dateConflict := HasDateConflict(form.start_date.value, form.end_date.value, existingLeaves);
      if dateConflict {
        return DateConflict;
      }
      outcome := Sent(Payload(form.leave_type.value, form.start_date.value, form.end_date.value,
                              total_days, form.remarks));
    }

    /** The success handler of `applyLeave`: the form is cleared. */
    method OnSubmitted()
      modifies this`form, this`total_days
      ensures form == EmptyForm && total_days == 0
    {
      form := EmptyForm;
      total_days := 0;
    }

    /** `validateWordLimit`: counts the words of `value` and, beyond a
        hundred, keeps only the first hundred, joined by single spaces. */
    method ValidateWordLimit(value: string)
      modifies this`wordsCount, this`form
      ensures wordsCount == (if |Words(value)| > 100 then 100 else |Words(value)|)
      ensures |Words(value)| > 100 ==> form == old(form).(remarks := JoinWith(Words(value)[..100], " "))
      ensures |Words(value)| <= 100 ==> form == old(form)
    {
      var words := Words(value);
      wordsCount := |words|;
      if |words| > 100 {
        form := form.(remarks := JoinWith(words[..100], " "));
        wordsCount := 100;
      }
    }

    /** `onNotifySearch`: a query under two characters clears the results
        without searching; otherwise the results are those of `response`
        whose id is not selected yet. */
    method OnNotifySearch(query: string, response: Option<seq<Employee>>)
      modifies this`searchQuery, this`searchResults, this`showDropdown
      ensures searchQuery == Trim(query)
      ensures |searchQuery| < 2 || response.None? ==> searchResults == [] && !showDropdown
      ensures |searchQuery| >= 2 && response.Some? ==>
        searchResults == Unselected(response.value, Ids(selectedEmployees)) &&
        showDropdown == (|searchResults| > 0)
      ensures forall r :: r in searchResults ==> r.id !in Ids(selectedEmployees)
    {
      var q := Trim(query);
      searchQuery := q;
      if |q| < 2 || response.None? {
        searchResults := [];
        showDropdown := false;
        return;
      }
      var selectedIds := Ids(selectedEmployees);
      var found := Unselected(response.value, selectedIds);
      assert forall r :: r in found ==> r.id !in selectedIds;
      searchResults := found;
      showDropdown := |found| > 0;
    }

    /** `selectEmployee`: appended unless its id is already selected; the
        `notify` field then lists the selected ids. */
    method SelectEmployee(e: Employee)
      modifies this`selectedEmployees, this`form, this`searchQuery, this`searchResults, this`showDropdown
      ensures e.id in Ids(old(selectedEmployees)) ==> selectedEmployees == old(selectedEmployees)
      ensures e.id !in Ids(old(selectedEmployees)) ==> selectedEmployees == old(selectedEmployees) + [e]
      ensures DistinctIds(old(selectedEmployees)) ==> DistinctIds(selectedEmployees)
      ensures form == old(form).(notify := NotifyText(selectedEmployees))
      ensures searchQuery == "" && searchResults == [] && !showDropdown
    {
      if e.id !in Ids(selectedEmployees) {
        selectedEmployees := selectedEmployees + [e];
      }
      form := form.(notify := NotifyText(selectedEmployees));
      searchQuery := "";
      searchResults := [];
      showDropdown := false;
    }

    /** `removeEmployee`: drops exactly the entries with that id. */
    method RemoveEmployee(e: Employee)
      modifies this`selectedEmployees, this`form
      ensures selectedEmployees == Filter(old(selectedEmployees), (x: Employee) => x.id != e.id)
      ensures e.id !in Ids(selectedEmployees)
      ensures forall x :: x in old(selectedEmployees) && x.id != e.id ==> x in selectedEmployees
      ensures DistinctIds(old(selectedEmployees)) ==> DistinctIds(selectedEmployees)
      ensures form == old(form).(notify := NotifyText(selectedEmployees))
    {
      var before := selectedEmployees;
      selectedEmployees := Filter(before, (x: Employee) => x.id != e.id);
      if DistinctIds(before) {
        SublistKeepsDistinct(selectedEmployees, before);
      }
      form := form.(notify := NotifyText(selectedEmployees));
    }
  }

  /** After the limit, the remarks hold exactly the first hundred words. */
  lemma TruncatedRemarksWords(value: string)
    requires |Words(value)| > 100
    ensures Words(JoinWith(Words(value)[..100], " ")) == Words(value)[..100]
  {
    var ws := Words(value)[..100];
    WordsAreWords(value);
    assert forall i :: 0 <= i < |ws| ==> IsWord(ws[i]);
    WordsJoinRoundTrip(ws);
  }

  lemma {:induction false} SublistKeepsDistinct(r: seq<Employee>, s: seq<Employee>)
    requires Sublist(r, s) && DistinctIds(s)
    ensures DistinctIds(r)
    decreases |s|
  {
    if r != [] && s != [] {
      if r[0] == s[0] && Sublist(r[1..], s[1..]) {
        SublistKeepsDistinct(r[1..], s[1..]);
        SublistMembers(r[1..], s[1..]);
        forall i, j | 0 <= i < j < |r| ensures r[i].id != r[j].id {
          if i > 0 {
            assert r[i] == r[1..][i - 1] && r[j] == r[1..][j - 1];
          } else {
            assert r[j] in s[1..];
          }
        }
      } else {
        SublistKeepsDistinct(r, s[1..]);
      }
    }
  }
}
