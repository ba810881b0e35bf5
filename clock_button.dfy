/** The clock-in / clock-out button: whether the user is clocked in, in
    which work mode, whether a remote session is active, and the
    `remoteActive` flag it keeps in browser storage (a string map here).
    Each server call is one step whose outcome is a parameter. */
module ClockButton {
  import opened Js

  const Office: string := "Office"
  const Remote: string := "Remote"
  const Wfh: string := "WFH"

  /** The storage key of the remote flag. */
  const RemoteKey: string := "remoteActive"

  /** A punch of today as the server lists it. */
  datatype Punch = Punch(punch_type: string, work_mode: Option<string>)

  /** The body of a punch-in request. */
  datatype PunchIn = PunchIn(work_mode: string, location: string, notes: string)

  /** The location and notes a clock-in in `mode` sends. */
  function InDetails(mode: string): (r: (string, string))
    ensures mode == Remote ==> r == ("Remote", "Remote Clock-In")
    ensures mode == Wfh ==> r == ("Home", "WFH Clock-In")
    ensures mode != Remote && mode != Wfh ==> r == ("Mumbai Office", "Morning shift")
  {
    if mode == Remote then ("Remote", "Remote Clock-In")
    else if mode == Wfh then ("Home", "WFH Clock-In")
    else ("Mumbai Office", "Morning shift")
  }

  class ClockButtonState {
    var isClockedIn: bool
    var workMode: string
    var remoteActive: bool
    var storage: map<string, string>
    /** The `'todayPunches'` browser-storage entry. It holds punch records
        rather than text, so it is kept apart from `storage`. */
    var todayPunches: Option<seq<Punch>>

    /** The stored flag says `'true'`. */
    predicate StoredRemote()
      reads this
    {
      RemoteKey in storage && storage[RemoteKey] == "true"
    }

    /** The in-memory remote flag mirrors the stored one. */
    predicate Mirrored()
      reads this
    {
      remoteActive <==> StoredRemote()
    }

    /** The field initialisers, over the storage the browser already holds. */
    constructor (stored: map<string, string>)
      ensures !isClockedIn && workMode == Office && !remoteActive
      ensures storage == stored && todayPunches.None?
    {
      isClockedIn := false;
      workMode := Office;
      remoteActive := false;
      storage := stored;
      todayPunches := None;
    }

    /** `loadLastPunch`: with no punches (or a failed fetch) the user is
        clocked out in the office and the flag is removed; otherwise the
        last punch decides, and a remote session is active, in memory and
        in storage, exactly when that punch clocked in remotely. */
    method LoadLastPunch(fetched: Option<seq<Punch>>)
      modifies this`isClockedIn, this`workMode, this`remoteActive, this`storage, this`todayPunches
      ensures fetched.None? || fetched.value == [] ==>
        !isClockedIn && workMode == Office && !remoteActive
        && storage == old(storage) - {RemoteKey} && todayPunches == old(todayPunches)
      ensures fetched.Some? && fetched.value != [] ==>
        var last := fetched.value[|fetched.value| - 1];
        (isClockedIn <==> last.punch_type == "in")
        && workMode == OrElse(last.work_mode, Office)
        && todayPunches == fetched
      ensures remoteActive <==> isClockedIn && workMode == Remote
      ensures Mirrored()
      ensures storage - {RemoteKey} == old(storage) - {RemoteKey}
    {
      if fetched.None? || |fetched.value| == 0 {
        isClockedIn := false;
        workMode := Office;
        remoteActive := false;
        storage := storage - {RemoteKey};
        return;
      }
      var punches := fetched.value;
      var lastPunch := punches[|punches| - 1];
      isClockedIn := lastPunch.punch_type == "in";
      workMode := OrElse(lastPunch.work_mode, Office);
      todayPunches := fetched;
      if isClockedIn && workMode == Remote {
        remoteActive := true;
        storage := storage[RemoteKey := "true"];
      } else {
        remoteActive := false;
        storage := storage - {RemoteKey};
      }
    }

    /** A clock-state event: the clocked-in flag follows the event, the
        remote flag is re-read from storage and, when set, forces the
        remote mode. */
    method OnClockState(clockedIn: bool)
      modifies this`isClockedIn, this`remoteActive, this`workMode
      ensures isClockedIn == clockedIn
      ensures Mirrored()
      ensures StoredRemote() ==> workMode == Remote
      ensures !StoredRemote() ==> workMode == old(workMode)
    {
      isClockedIn := clockedIn;
      remoteActive := RemoteKey in storage && storage[RemoteKey] == "true";
      if remoteActive {
        workMode := Remote;
      }
    }

    /** `clockIn(mode)`: nothing when already clocked in; otherwise the
        user is clocked in in `mode` and the request carries the mode's
        location and notes. Every server answer leaves the user clocked in
        in that mode. A remote clock-in sets the remote flag in memory only. */
    method ClockIn(mode: string) returns (request: Option<PunchIn>)
      requires mode == Office || mode == Remote || mode == Wfh
      modifies this`isClockedIn, this`workMode, this`remoteActive
      ensures old(isClockedIn) ==> request.None? && workMode == old(workMode) && remoteActive == old(remoteActive)
      ensures !old(isClockedIn) ==>
        request == Some(PunchIn(mode, InDetails(mode).0, InDetails(mode).1))
        && workMode == mode
        && remoteActive == (mode == Remote || old(remoteActive))
      ensures isClockedIn
    {
      if isClockedIn {
        return None;
      }
      var details := InDetails(mode);
      if mode == Remote {
        workMode := Remote;
        remoteActive := true;
      } else if mode == Wfh {
        workMode := Wfh;
      } else {
        workMode := Office;
      }
      isClockedIn := true;
      request := Some(PunchIn(mode, details.0, details.1));
    }

    /** `clockOut`: clocked out at once; the notes say whether a WFH session
        ends; a successful answer turns a WFH mode back to the office. */
    method ClockOut(succeeded: bool) returns (notes: string)
      modifies this`isClockedIn, this`workMode
      ensures !isClockedIn
      ensures notes == (if old(workMode) == Wfh then "WFH Clock-Out" else "Going for lunch")
      ensures workMode == (if succeeded && old(workMode) == Wfh then Office else old(workMode))
    {
      isClockedIn := false;
      var wasWFH := workMode == Wfh;
      notes := if wasWFH then "WFH Clock-Out" else "Going for lunch";
      if succeeded && wasWFH {
        workMode := Office;
      }
    }

    /** `remoteClockOut`: clocked out in the office, the remote session
        over and its stored flag removed, whatever the server answers. */
    method RemoteClockOut() returns (notes: string)
      modifies this`isClockedIn, this`remoteActive, this`workMode, this`storage
      ensures !isClockedIn && !remoteActive && workMode == Office
      ensures storage == old(storage) - {RemoteKey}
      ensures Mirrored()
      ensures notes == "Remote Clock-Out"
    {
      isClockedIn := false;
      remoteActive := false;
      workMode := Office;
      storage := storage - {RemoteKey};
      notes := "Remote Clock-Out";
    }
  }

  /** After a remote clock-in from a state without a stored flag, the
      remote flag is set in memory but not in storage, so the next
      clock-state event clears it again (while the mode stays remote). */
  method RemoteClockInIsNotStored(stored: map<string, string>) returns (b: ClockButtonState)
    requires RemoteKey !in stored
    ensures b.isClockedIn && b.workMode == Remote && !b.remoteActive
    ensures !b.StoredRemote()
  {
    b := new ClockButtonState(stored);
    var request := b.ClockIn(Remote);
    assert b.remoteActive && !b.Mirrored();
    b.OnClockState(true);
  }
}
