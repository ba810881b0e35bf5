/** The candidate and employee service: the cached candidate list and the
    current candidate, the employee restored from browser storage, the
    logged-in employee id, and what logging out leaves in storage. Storage
    is a map from keys to stored values; a stored record stands for its
    JSON text, and reading one back gives the record. */
module PreOnboarding {
  import opened Js
  import opened Strings

  datatype Employee = Employee(employee_id: int, full_name: string)
  datatype Candidate = Candidate(id: int, name: string)

  /** A storage value: plain text, or the JSON of a record. */
  datatype StoredValue = Text(s: string) | EmployeeJson(e: Employee) | CandidateJson(c: Candidate)

  const ActiveEmployeeKey: string := "activeEmployeeId"
  const ActiveUserKey: string := "activeUserId"
  const IntroSeenKey: string := "introSeen"
  const AttendancePrefix: string := "attendance_"

  function EmployeeKey(id: string): string
  {
    "loggedInEmployee_" + id
  }

  function CandidateKey(id: string): string
  {
    "loggedInCandidate_" + id
  }

  /** What `normalizeCandidates` may be given: a falsy value, an array, an
      object holding a `candidates` array, or any other truthy value (one
      candidate). */
  datatype Payload =
    | Falsy
    | List(items: seq<Candidate>)
    | Wrapper(candidates: seq<Candidate>)
    | Single(c: Candidate)

  /** `normalizeCandidates(data)`. */
  function NormalizeCandidates(data: Payload): (r: seq<Candidate>)
    ensures data.Falsy? <==> r == [] && !(data.List? || data.Wrapper?)
    ensures data.List? ==> r == data.items
    ensures data.Wrapper? ==> r == data.candidates
    ensures data.Single? ==> r == [data.c]
    ensures r == [] <==> data.Falsy? || (data.List? && data.items == []) || (data.Wrapper? && data.candidates == [])
    ensures forall x :: x in r ==> data.Single? || (data.List? && x in data.items) || (data.Wrapper? && x in data.candidates)
  {
    match data
    case Falsy => []
    case List(items) => items
    case Wrapper(candidates) => candidates
    case Single(c) => [c]
  }

  /** The cache `map` of `updateLocalCache`: every entry with the id of `c`
      becomes `c`. */
  function ReplaceById(cs: seq<Candidate>, c: Candidate): (r: seq<Candidate>)
    ensures |r| == |cs|
    ensures forall i :: 0 <= i < |cs| ==> r[i] == (if cs[i].id == c.id then c else cs[i])
  {
    if cs == [] then [] else [if cs[0].id == c.id then c else cs[0]] + ReplaceById(cs[1..], c)
  }

  /** Replacing twice is replacing once, and a candidate whose id is not in
      the list changes nothing. */
  lemma {:induction false} ReplaceByIdProperties(cs: seq<Candidate>, c: Candidate)
    ensures ReplaceById(ReplaceById(cs, c), c) == ReplaceById(cs, c)
    ensures (forall i :: 0 <= i < |cs| ==> cs[i].id != c.id) ==> ReplaceById(cs, c) == cs
  {
    if cs != [] {
      ReplaceByIdProperties(cs[1..], c);
    }
  }

  /** The storage keys `logout` keeps, with their values. */
  function AttendanceEntries(storage: map<string, StoredValue>): (m: map<string, StoredValue>)
    ensures forall k :: k in m <==> k in storage && StartsWith(k, AttendancePrefix)
    ensures forall k :: k in m ==> m[k] == storage[k]
  {
    map k | k in storage && StartsWith(k, AttendancePrefix) :: storage[k]
  }

  /** The text of an id as `String(id)` writes it; never empty. */
  lemma IdTextNonEmpty(id: int)
    ensures IntToString(id) != ""
  {
  }

  class CandidateService {
    var storage: map<string, StoredValue>
    var candidates: seq<Candidate>
    var currentCandidate: Option<Candidate>
    var currentEmployee: Option<Employee>
    var profileImage: Option<string>
    var currentLoggedEmployeeId: Option<int>

    /** `getStoredEmployee`: the record stored under the active employee id;
        none when that id is missing or empty or nothing is stored under it. */
    function StoredEmployee(): (r: Option<Employee>)
      reads this
      ensures (ActiveEmployeeKey !in storage || storage[ActiveEmployeeKey] == Text("")) ==> r.None?
      ensures r.Some? ==> (ActiveEmployeeKey in storage && storage[ActiveEmployeeKey].Text?
        && EmployeeKey(storage[ActiveEmployeeKey].s) in storage
        && storage[EmployeeKey(storage[ActiveEmployeeKey].s)] == EmployeeJson(r.value))
      ensures ActiveEmployeeKey in storage && storage[ActiveEmployeeKey].Text? && storage[ActiveEmployeeKey].s != ""
        && EmployeeKey(storage[ActiveEmployeeKey].s) in storage && storage[EmployeeKey(storage[ActiveEmployeeKey].s)].EmployeeJson?
        ==> r == Some(storage[EmployeeKey(storage[ActiveEmployeeKey].s)].e)
    {
      if ActiveEmployeeKey !in storage || !storage[ActiveEmployeeKey].Text? || storage[ActiveEmployeeKey].s == "" then None
      else
        var key := EmployeeKey(storage[ActiveEmployeeKey].s);
        if key in storage && storage[key].EmployeeJson? then Some(storage[key].e) else None
    }

    /** `getStoredCandidate`, the same lookup under the active user id. */
    function StoredCandidate(): (r: Option<Candidate>)
      reads this
      ensures (ActiveUserKey !in storage || storage[ActiveUserKey] == Text("")) ==> r.None?
      ensures r.Some? ==> (ActiveUserKey in storage && storage[ActiveUserKey].Text?
        && CandidateKey(storage[ActiveUserKey].s) in storage
        && storage[CandidateKey(storage[ActiveUserKey].s)] == CandidateJson(r.value))
      ensures ActiveUserKey in storage && storage[ActiveUserKey].Text? && storage[ActiveUserKey].s != ""
        && CandidateKey(storage[ActiveUserKey].s) in storage && storage[CandidateKey(storage[ActiveUserKey].s)].CandidateJson?
        ==> r == Some(storage[CandidateKey(storage[ActiveUserKey].s)].c)
    {
      if ActiveUserKey !in storage || !storage[ActiveUserKey].Text? || storage[ActiveUserKey].s == "" then None
      else
        var key := CandidateKey(storage[ActiveUserKey].s);
        if key in storage && storage[key].CandidateJson? then Some(storage[key].c) else None
    }

    /** The field initialisers: the current candidate and employee are
        restored from storage. */
    constructor (stored: map<string, StoredValue>)
      ensures storage == stored && candidates == []
      ensures currentCandidate == StoredCandidate() && currentEmployee == StoredEmployee()
      ensures profileImage.None? && currentLoggedEmployeeId.None?
    {
      storage := stored;
      candidates := [];
      profileImage := None;
      currentLoggedEmployeeId := None;
      new;
      currentCandidate := StoredCandidate();
      currentEmployee := StoredEmployee();
    }

    method SetLoggedEmployeeId(id: int)
      modifies this`currentLoggedEmployeeId
      ensures currentLoggedEmployeeId == Some(id)
    {
      currentLoggedEmployeeId := Some(id);
    }

    /** `getLoggedEmployeeId`: the last id set, none before the first. */
    method GetLoggedEmployeeId() returns (id: Option<int>)
      ensures id == currentLoggedEmployeeId
    {
      id := currentLoggedEmployeeId;
    }

    /** `updateLocalCache(c)`: the cached entries with the id of `c` become
        `c`; the current candidate, and its stored copy, follow only when
        it has the same id. */
    method UpdateLocalCache(c: Candidate)
      modifies this`candidates, this`currentCandidate, this`storage
      ensures candidates == ReplaceById(old(candidates), c)
      ensures old(currentCandidate).Some? && old(currentCandidate).value.id == c.id ==>
        currentCandidate == Some(c) && storage == old(storage)[CandidateKey(IntToString(c.id)) := CandidateJson(c)]
      ensures !(old(currentCandidate).Some? && old(currentCandidate).value.id == c.id) ==>
        currentCandidate == old(currentCandidate) && storage == old(storage)
      ensures (old(currentCandidate).Some? && old(currentCandidate).value.id == c.id
        && ActiveUserKey in old(storage) && old(storage)[ActiveUserKey] == Text(IntToString(c.id))) ==>
        StoredCandidate() == Some(c)
    {
      candidates := ReplaceById(candidates, c);
      if currentCandidate.Some? && currentCandidate.value.id == c.id {
        currentCandidate := Some(c);
        IdTextNonEmpty(c.id);
        assert CandidateKey(IntToString(c.id))[0] != ActiveUserKey[0];
        storage := storage[CandidateKey(IntToString(c.id)) := CandidateJson(c)];
      }
    }

    /** `setCurrentEmployee(e)`: an employee with a (non-zero) id is stored
        under its own key and becomes the active one; otherwise the active
        id is removed. */
    method SetCurrentEmployee(e: Option<Employee>)
      modifies this`currentEmployee, this`storage
      ensures currentEmployee == e
      ensures e.Some? && e.value.employee_id != 0 ==>
        storage == old(storage)[EmployeeKey(IntToString(e.value.employee_id)) := EmployeeJson(e.value)]
                               [ActiveEmployeeKey := Text(IntToString(e.value.employee_id))]
      ensures !(e.Some? && e.value.employee_id != 0) ==> storage == old(storage) - {ActiveEmployeeKey}
      ensures StoredEmployee() == (if e.Some? && e.value.employee_id != 0 then e else None)
    {
      currentEmployee := e;
      if e.Some? && e.value.employee_id != 0 {
        var id := IntToString(e.value.employee_id);
        IdTextNonEmpty(e.value.employee_id);
        assert EmployeeKey(id)[0] != ActiveEmployeeKey[0];
        storage := storage[EmployeeKey(id) := EmployeeJson(e.value)];
        storage := storage[ActiveEmployeeKey := Text(id)];
      } else {
        storage := storage - {ActiveEmployeeKey};
      }
    }

    /** `logout`: storage keeps exactly the `attendance_` entries, plus
        `introSeen` set to `'false'`; the current candidate, employee and
        profile image are cleared. */
    method Logout()
      modifies this`storage, this`currentCandidate, this`currentEmployee, this`profileImage
      ensures storage == AttendanceEntries(old(storage))[IntroSeenKey := Text("false")]
      ensures forall k :: k in storage <==> k == IntroSeenKey || (k in old(storage) && StartsWith(k, AttendancePrefix))
      ensures currentCandidate.None? && currentEmployee.None? && profileImage.None?
      ensures StoredEmployee().None? && StoredCandidate().None?
    {
      var kept: map<string, StoredValue> := map[];
      var rest := storage.Keys;
      while rest != {}
        invariant rest <= storage.Keys
        invariant forall k :: k in kept <==> k in storage && k !in rest && StartsWith(k, AttendancePrefix)
        invariant forall k :: k in kept ==> kept[k] == storage[k]
        decreases rest
      {
        var key :| key in rest;
        if StartsWith(key, AttendancePrefix) {
          kept := kept[key := storage[key]];
        }
        rest := rest - {key};
      }
      assert kept == AttendanceEntries(storage);
      storage := kept[IntroSeenKey := Text("false")];
      assert !StartsWith(ActiveEmployeeKey, AttendancePrefix) by {
        assert ActiveEmployeeKey[..|AttendancePrefix|][1] != AttendancePrefix[1];
      }
      assert !StartsWith(ActiveUserKey, AttendancePrefix) by {
        assert ActiveUserKey[..|AttendancePrefix|][1] != AttendancePrefix[1];
      }
      currentCandidate := None;
      currentEmployee := None;
      profileImage := None;
    }
  }
}
