/** The "me" page: the employee's shift and weekly-off policy picked out of
    the policy lists by the ids in the profile, the week-off day names the
    page shows, and the strip of this week's days. An id the source tests
    for truthiness is absent or 0 when missing. */
module MePage {
  import opened Js
  import opened Dates
  import opened Policies
  import AttendanceLog
  import Seqs

  /** The lower-case English name of weekday `w` (0 Sunday .. 6 Saturday). */
  function DayName(w: int): (s: string)
    requires 0 <= w < 7
  {
    ["sunday", "monday", "tuesday", "wednesday", "thursday", "friday", "saturday"][w]
  }

  /** Different weekdays have different names. */
  lemma DayNamesDistinct(v: int, w: int)
    requires 0 <= v < 7 && 0 <= w < 7
    ensures DayName(v) == DayName(w) <==> v == w
  {
    if v != w {
      var a, b := DayName(v), DayName(w);
      assert a[0] != b[0] || a[1] != b[1] || |a| != |b|;
    }
  }

  /** `r` names the weekdays `vs`, which run upwards from `w` or later. */
  predicate NamedInOrder(r: seq<string>, vs: seq<int>, w: int)
  {
    |vs| == |r| &&
    (forall i :: 0 <= i < |r| ==> 0 <= w <= vs[i] < 7 && r[i] == DayName(vs[i])) &&
    (forall i, j :: 0 <= i < j < |vs| ==> vs[i] < vs[j])
  }

  /** Naming one more weekday `w` in front keeps the order. */
  lemma NamedInOrderCons(rest: seq<string>, vs: seq<int>, w: int)
    requires 0 <= w < 7 && NamedInOrder(rest, vs, w + 1)
    ensures NamedInOrder([DayName(w)] + rest, [w] + vs, w)
  {
    var r, us := [DayName(w)] + rest, [w] + vs;
    assert forall i :: 0 < i < |r| ==> r[i] == rest[i - 1] && us[i] == vs[i - 1];
  }

  /** The names of the weekdays from `w` to Saturday whose flag is exactly
      1, in weekday order. */
  function LabelsFrom(p: WeeklyOffPolicy, w: int): (r: seq<string>)
    requires 0 <= w <= 7
    ensures |r| <= 7 - w
    ensures exists vs :: NamedInOrder(r, vs, w)
    decreases 7 - w
  {
    if w == 7 then
      assert NamedInOrder([], [], w);
      []
    else
      var rest := LabelsFrom(p, w + 1);
      var vs :| NamedInOrder(rest, vs, w + 1);
      if OffFlag(p, w) == 1 then
        NamedInOrderCons(rest, vs, w);
        [DayName(w)] + rest
      else
        assert NamedInOrder(rest, vs, w);
        rest
  }

  lemma {:induction false} LabelsFromMembers(p: WeeklyOffPolicy, w: int, v: int)
    requires 0 <= w <= 7 && 0 <= v < 7
    ensures DayName(v) in LabelsFrom(p, w) <==> w <= v && OffFlag(p, v) == 1
    decreases 7 - w
  {
    if w < 7 {
      LabelsFromMembers(p, w + 1, v);
      DayNamesDistinct(v, w);
    }
  }

  lemma {:induction false} LabelsFromAreNames(p: WeeklyOffPolicy, w: int, s: string)
    requires 0 <= w <= 7
    ensures s in LabelsFrom(p, w) ==> exists v :: w <= v < 7 && s == DayName(v)
    decreases 7 - w
  {
    if w < 7 {
      LabelsFromAreNames(p, w + 1, s);
    }
  }

  /** The `serverWeekOff` list a weekly-off policy gives: Sunday first. */
  function WeekOffLabels(p: WeeklyOffPolicy): (r: seq<string>)
    ensures |r| <= 7
    ensures exists vs :: NamedInOrder(r, vs, 0)
  {
    LabelsFrom(p, 0)
  }

  /** A weekday's name is listed exactly when its flag is 1 (a flag of 2 is
      not a week off here, though the attendance log counts any non-zero
      flag), and only weekday names are listed. */
  lemma WeekOffLabelsMembers(p: WeeklyOffPolicy)
    ensures forall v :: 0 <= v < 7 ==> (DayName(v) in WeekOffLabels(p) <==> OffFlag(p, v) == 1)
    ensures forall s :: s in WeekOffLabels(p) ==> exists v :: 0 <= v < 7 && s == DayName(v)
  {
    forall v | 0 <= v < 7
      ensures DayName(v) in WeekOffLabels(p) <==> OffFlag(p, v) == 1
    {
      LabelsFromMembers(p, 0, v);
    }
    forall s | s in WeekOffLabels(p)
      ensures exists v :: 0 <= v < 7 && s == DayName(v)
    {
      LabelsFromAreNames(p, 0, s);
    }
  }

  /** For a policy whose flags are 0 or 1, the days this page lists are the
      days the attendance log treats as weekly off. */
  lemma WeekOffAgreesWithAttendanceLog(p: WeeklyOffPolicy)
    requires forall v :: 0 <= v < 7 ==> OffFlag(p, v) == 0 || OffFlag(p, v) == 1
    ensures forall v :: 0 <= v < 7 ==>
      (DayName(v) in WeekOffLabels(p) <==> v in AttendanceLog.WeekOffDays(Some(p)))
  {
    WeekOffLabelsMembers(p);
  }

  /** `list.find(p => p.id === id)` over weekly-off policies. */
  function FindWeekend(ps: seq<WeeklyOffPolicy>, id: int): Option<WeeklyOffPolicy>
  {
    Seqs.FindById(ps, id, (p: WeeklyOffPolicy) => p.id)
  }

  /** `list.find(p => p.id === id)` over shift policies. */
  function FindShift(ps: seq<ShiftPolicy>, id: int): Option<ShiftPolicy>
  {
    Seqs.FindById(ps, id, (p: ShiftPolicy) => p.id)
  }

  /** A truthy id: present and not 0. */
  predicate IdSet(id: Option<int>)
  {
    id.Some? && id.value != 0
  }

  /** The Monday of the week of day `today`; a Sunday belongs to the week
      that started six days before. */
  function WeekStart(today: int): (s: int)
    ensures Weekday(s) == 1
    ensures s <= today < s + 7
  {
    var dow := Weekday(today);
    today - dow + (if dow == 0 then -6 else 1)
  }

  class MePageView {
    var shift_id: Option<int>
    var weekend_id: Option<int>
    var allShiftPolicies: seq<ShiftPolicy>
    var allWeekendPolicies: seq<WeeklyOffPolicy>
    var shift_policy: Option<ShiftPolicy>
    var serverWeekOff: seq<string>
    var days: seq<int>

    /** The field initialisers, then `generateDays` for the week of
        `today`, as the constructor body does. */
    constructor (today: int)
      ensures shift_id.None? && weekend_id.None? && shift_policy.None?
      ensures allShiftPolicies == [] && allWeekendPolicies == []
      ensures serverWeekOff == []
      ensures |days| == 7
      ensures forall i :: 0 <= i < 7 ==> days[i] == WeekStart(today) + i
      ensures Weekday(days[0]) == 1 && today in days
    {
      shift_id := None;
      weekend_id := None;
      allShiftPolicies := [];
      allWeekendPolicies := [];
      shift_policy := None;
      serverWeekOff := [];
      days := [];
      new;
      GenerateDays(today);
    }

    /** `matchEmployeeShift`: without an id or policies nothing changes;
        otherwise the first policy with the id (none if no policy has it). */
    method MatchEmployeeShift()
      modifies this`shift_policy
      ensures !IdSet(shift_id) || allShiftPolicies == [] ==> shift_policy == old(shift_policy)
      ensures IdSet(shift_id) && allShiftPolicies != [] ==>
        shift_policy == FindShift(allShiftPolicies, shift_id.value)
    {
      if !IdSet(shift_id) || |allShiftPolicies| == 0 {
        return;
      }
      shift_policy := FindShift(allShiftPolicies, shift_id.value);
    }

    /** `matchEmployeeWeekend`: the week-off names of the matching policy;
        nothing changes without an id, without policies or without a match. */
    method MatchEmployeeWeekend()
      modifies this`serverWeekOff
      ensures !IdSet(weekend_id) || FindWeekend(allWeekendPolicies, weekend_id.value).None? ==>
        serverWeekOff == old(serverWeekOff)
      ensures IdSet(weekend_id) && FindWeekend(allWeekendPolicies, weekend_id.value).Some? ==>
        serverWeekOff == WeekOffLabels(FindWeekend(allWeekendPolicies, weekend_id.value).value)
    {
      if !IdSet(weekend_id) || |allWeekendPolicies| == 0 {
        return;
      }
      var policy := FindWeekend(allWeekendPolicies, weekend_id.value);
      if policy.None? {
        return;
      }
      serverWeekOff := WeekOffLabels(policy.value);
    }

    /** `generateDays`: Monday to Sunday of the week of `today`. */
    method GenerateDays(today: int)
      modifies this`days
      ensures |days| == 7
      ensures forall i :: 0 <= i < 7 ==> days[i] == WeekStart(today) + i
      ensures Weekday(days[0]) == 1 && today in days
    {
      var start := WeekStart(today);
      days := [];
      var i := 0;
      while i < 7
        invariant 0 <= i <= 7
        invariant |days| == i
        invariant forall k :: 0 <= k < i ==> days[k] == start + k
      {
        days := days + [start + i];
        i := i + 1;
      }
      assert days[today - start] == today;
    }

    /** `isWeekOffDay(day)`: the day's name is in the week-off list. Once
        the labels come from a policy, that is the policy's flag for the
        day's weekday being 1. */
    predicate IsWeekOffDay(day: int): (b: bool)
      reads this
      ensures serverWeekOff == [] ==> !b
      ensures forall p :: serverWeekOff == WeekOffLabels(p) ==> (b <==> OffFlag(p, Weekday(day)) == 1)
    {
      assert forall p :: serverWeekOff == WeekOffLabels(p) ==>
        (DayName(Weekday(day)) in serverWeekOff <==> OffFlag(p, Weekday(day)) == 1) by {
        forall p | serverWeekOff == WeekOffLabels(p)
          ensures DayName(Weekday(day)) in serverWeekOff <==> OffFlag(p, Weekday(day)) == 1
        {
          WeekOffLabelsMembers(p);
        }
      }
      DayName(Weekday(day)) in serverWeekOff
    }
  }

  /** Once a policy has been matched, a day is a week off exactly when the
      policy's flag for its weekday is 1. */
  lemma WeekOffDayIffFlag(page: MePageView, p: WeeklyOffPolicy, day: int)
    requires page.serverWeekOff == WeekOffLabels(p)
    ensures page.IsWeekOffDay(day) <==> OffFlag(p, Weekday(day)) == 1
  {
    WeekOffLabelsMembers(p);
  }
}
