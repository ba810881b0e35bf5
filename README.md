# HRMS front-end core, modelled in Dafny

This project models the screen logic of the HRMS front-end, an Ionic/Angular app
for attendance, leave, work-from-home and administration. It covers these parts:

- **attendance log**: the date range a monthly report covers, leave days laid
  over the report, week-off days, the report rows, the period filter, how
  punches pair into sessions, the arrival status and how late someone was;
- **leave request**: the day count, the date-conflict check, the order in which
  a submission is validated, the remarks word limit and the notify-people picker;
- **admin functionality**: the weekly-off, announcement, designation and
  business-unit forms, and the client-side pagination shared by the admin
  tables;
- **work track**: formatting and parsing time slots, chaining rows and the
  running total of hours, the year list and the status colours;
- **my team**: merging the attendance report into the team list, the filters
  and search, the real-time punch sync and the summary counts;
- **work from home**: moving between months, counting the days asked for, the
  calendar grid and the rule for submitting;
- **calendar**: the month grid with Saturday and Sunday off, and the arrival
  labels;
- **me page**: the week-off labels, matching the shift and the weekend policy,
  and the current week strip;
- **clock button**: restoring state from the last punch, clocking in and out,
  and the remote-work flag kept in storage;
- **manager WFH approvals**: normalising requests to WFH/WFO, search and mode
  filters, colours and the reject rule;
- **pre-onboarding service**: normalising candidate lists, the local-storage
  cache of the current employee and candidate, and logout;
- **app shell**: the role predicates, which menu entries are visible, and the
  login and admin flags.

How values are represented:

- Dates are day numbers (0 is 1970-01-01, a Thursday) and timestamps are whole
  seconds. Work-track clock times are minutes after midnight.
- A JavaScript value that may be missing or falsy is an `Option`, or 0 for
  numeric ids; `Js.OrElse` and `Js.Truthy` stand for `||`.
- A server call becomes a parameter: its answer, or `None` when the call
  fails.
- `localStorage` is a `map` from keys to stored values.
- Where a component changes its fields step by step, it is a class. Each of
  its methods states its new state in terms of specification functions, and
  lemmas state what the source promises about those functions.

Two behaviours of the attendance log worth knowing:

- **Late duration.** `getLateDuration` shows a delay only past the 15-minute
  grace, but measures it from the shift start
  (attendance-log.component.ts:593, 630). Below an hour it prints minutes and
  seconds, so a 09:20 check-in against a 09:00 shift reads `20:00 late`
  (`AttendanceLog.TwentyMinutesLate`).
- **Second check-in.** In `mapPunches`, every `in` pushes a new record
  (attendance-log.component.ts:507-517), so a second `in` before an `out`
  leaves the first record open (`AttendanceLog.SecondInLeavesFirstOpen`).

## Model

| member | source | states |
|---|---|---|
| AttendanceLog.AllDatesBetween | src/app/Attendance/me/attendance-log/attendance-log.component.ts:132-151 | The report dates are exactly the consecutive days from the start date to the end date, or to today when the end date is later. |
| AttendanceLog.LeaveLabel | src/app/Attendance/me/attendance-log/attendance-log.component.ts:260 | A leave's label is its type name when it has one, otherwise a non-empty default. |
| AttendanceLog.Overlay | src/app/Attendance/me/attendance-log/attendance-log.component.ts:269-274 | Marking a leave range keeps every earlier entry, adds every day of the range, and labels the range days with the badge. |
| AttendanceLog.LeaveIndexCovers | src/app/Attendance/me/attendance-log/attendance-log.component.ts:255-275 | A day is in the leave-days map exactly when some approved leave in the response covers it. |
| AttendanceLog.LeaveIndexLast | src/app/Attendance/me/attendance-log/attendance-log.component.ts:258-274 | When leaves overlap, the label of a day comes from the last leave in the response that covers it. |
| AttendanceLog.LeaveIndex | src/app/Attendance/me/attendance-log/attendance-log.component.ts:255-275 | Every day in the leave-days map has a non-empty label, so a truthy label test is the same as membership. |
| AttendanceLog.WeekOffDays | src/app/Attendance/me/attendance-log/attendance-log.component.ts:308-317 | With no policy there are no week-off days; otherwise weekday w is a week-off day exactly when its flag is non-zero; the list is strictly increasing. |
| AttendanceLog.RecordsByDateLastWins | src/app/Attendance/me/attendance-log/attendance-log.component.ts:297-303 | A date has a record exactly when some record carries it, and the last record for a date wins. |
| AttendanceLog.ComposeDay | src/app/Attendance/me/attendance-log/attendance-log.component.ts:318-355 | A report row is a leave day when the date has a leave; otherwise a week-off when its weekday is off; otherwise a logged day when a record exists. A logged row carries that record. |
| AttendanceLog.LeaveOnWeekOffIsLeave | src/app/Attendance/me/attendance-log/attendance-log.component.ts:323-333 | A leave that falls on a week-off day shows as on-leave. |
| AttendanceLog.NewestFirst | src/app/Attendance/me/attendance-log/attendance-log.component.ts:318-356 | After the reversal, row i describes the date i days before the last report date. |
| AttendanceLog.AttendanceLogView.constructor | src/app/Attendance/me/attendance-log/attendance-log.component.ts:33-56 | The screen opens on the current month's first-to-last-day window, with the 30-day period selected and six month buttons. |
| AttendanceLog.AttendanceLogView.InitializeMonthButtons | src/app/Attendance/me/attendance-log/attendance-log.component.ts:80-94 | The month buttons are the six months before the current one. |
| AttendanceLog.AttendanceLogView.LoadLeaveDays | src/app/Attendance/me/attendance-log/attendance-log.component.ts:251-284 | The leave-days map is built from the response; a failed request leaves it empty. |
| AttendanceLog.AttendanceLogView.MarkLeaveDays | src/app/Attendance/me/attendance-log/attendance-log.component.ts:267-274 | The map grows by the leave's range under its label, and nothing else changes. |
| AttendanceLog.AttendanceLogView.LoadMonthlyReport | src/app/Attendance/me/attendance-log/attendance-log.component.ts:289-364 | There is one row per report date, newest first, and row i is dated i days before the end bound; a failed request shows no rows. |
| AttendanceLog.AttendanceLogView.ReverseReport | src/app/Attendance/me/attendance-log/attendance-log.component.ts:356 | The report is the reverse of the earlier one. |
| AttendanceLog.AttendanceLogView.FilterByPeriod | src/app/Attendance/me/attendance-log/attendance-log.component.ts:379-409 | The selected period sets the report window as the period rule says, then the report is reloaded. |
| AttendanceLog.PeriodWindow | src/app/Attendance/me/attendance-log/attendance-log.component.ts:383-407 | "30DAYS" covers the last 30 days up to today. A month code after the current month means that month last year. Any other code leaves the window unchanged. |
| AttendanceLog.PreviousMonths | src/app/Attendance/me/attendance-log/attendance-log.component.ts:80-94 | There are six month buttons, and the current month is not among them. |
| AttendanceLog.PreviousMonthsAt | src/app/Attendance/me/attendance-log/attendance-log.component.ts:87-93 | Button k is the month k+1 months before the current one, wrapping past January. |
| AttendanceLog.IndexOf | src/app/Attendance/me/attendance-log/attendance-log.component.ts:390-391 | The index of a month code points back at that code. |
| AttendanceLog.FindMonth | src/app/Attendance/me/attendance-log/attendance-log.component.ts:391-392 | A known month code gives its index; an unknown code gives -1. |
| AttendanceLog.Step | src/app/Attendance/me/attendance-log/attendance-log.component.ts:501-525 | An `in` opens a new record; an `out` with no open record is ignored; an `out` closes the open record with the check-out time. |
| AttendanceLog.Run | src/app/Attendance/me/attendance-log/attendance-log.component.ts:498-525 | Folding the punches keeps the open record, if any, as the last record. |
| AttendanceLog.MapPunches | src/app/Attendance/me/attendance-log/attendance-log.component.ts:495-529 | The loop yields the same records as folding the punches one by one. |
| AttendanceLog.SessionsFollowIns | src/app/Attendance/me/attendance-log/attendance-log.component.ts:501-525 | There is exactly one record per `in` punch, in order, each opened by that punch. |
| AttendanceLog.SecondInLeavesFirstOpen | src/app/Attendance/me/attendance-log/attendance-log.component.ts:507-516 | Two `in` punches in a row give two records, and the first stays open. |
| AttendanceLog.SessionMode | src/app/Attendance/me/attendance-log/attendance-log.component.ts:505-511 | A session is Remote exactly when its work mode is Remote or its location or notes mention remote; otherwise it takes the work mode, defaulting to Office. |
| AttendanceLog.OfficeRecords | src/app/Attendance/me/attendance-log/attendance-log.component.ts:532-540 | The office list holds exactly the office sessions, in their order. |
| AttendanceLog.WfhRecords | src/app/Attendance/me/attendance-log/attendance-log.component.ts:542-550 | The WFH list holds exactly the WFH sessions, in their order. |
| AttendanceLog.SessionListsSeparate | src/app/Attendance/me/attendance-log/attendance-log.component.ts:532-550 | A WFH session is never remote. A session whose location says office is in the office list and not in the WFH list. |
| AttendanceLog.MarkRemote | src/app/Attendance/me/attendance-log/attendance-log.component.ts:560-569 | A remote record is pending exactly when it is not approved. A pending record gets " \| " appended to its notes. |
| AttendanceLog.RemoteRecords | src/app/Attendance/me/attendance-log/attendance-log.component.ts:556-573 | The remote list marks each remote session in order. |
| AttendanceLog.RemoteRecordsFromInput | src/app/Attendance/me/attendance-log/attendance-log.component.ts:556-573 | Every remote entry comes from a session in the input. |
| AttendanceLog.ArrivalStatus | src/app/Attendance/me/attendance-log/attendance-log.component.ts:575-604 | No log or no status gives "Unknown". "Late Arrival" is given exactly for status late, or a present check-in more than 15 minutes after the shift start. Otherwise present reads "On Time", absent "Absent", half-day "Half Day", on-leave "On Leave", and any other status "Unknown" (statuses naming an inherited object property are left out). |
| AttendanceLog.LateDuration | src/app/Attendance/me/attendance-log/attendance-log.component.ts:619-648 | A duration is shown exactly for a present check-in more than 15 minutes after the shift start, never for another status, and whenever one is shown the arrival reads "Late Arrival". |
| AttendanceLog.LateTextReadsBack | src/app/Attendance/me/attendance-log/attendance-log.component.ts:633-643 | The late text's hours, minutes and seconds add back up to the delay. The hours appear only from one hour on. The seconds always take two digits. The minutes take two digits only beside hours or from ten minutes on. |
| AttendanceLog.LateDurationAgreesWithStatus | src/app/Attendance/me/attendance-log/attendance-log.component.ts:619-632 | A late duration is shown exactly when the arrival status is "Late Arrival". |
| AttendanceLog.TwentyMinutesLate | src/app/Attendance/me/attendance-log/attendance-log.component.ts:619-648 | A 09:20 check-in against a 09:00 shift reads "20:00 late". |
| LeaveRequest.FirstDate | src/app/Attendance/me/leaves/leave-request/leave-request.component.ts:87-90 | The first date present is taken, else the fallback. |
| LeaveRequest.Track | src/app/Attendance/me/leaves/leave-request/leave-request.component.ts:87-91 | A tracked leave takes its start and end dates, falling back to the legacy fields and then to the start date. |
| LeaveRequest.ExistingLeavesOf | src/app/Attendance/me/leaves/leave-request/leave-request.component.ts:80-91 | Only pending, approved and rejected leaves are kept, in order, each tracked. |
| LeaveRequest.ConflictsIffOverlap | src/app/Attendance/me/leaves/leave-request/leave-request.component.ts:176-200 | A range conflicts exactly when some tracked leave (pending, approved or rejected, whatever its status) overlaps it, that is when the later start is at or before the earlier end. |
| LeaveRequest.HasDateConflict | src/app/Attendance/me/leaves/leave-request/leave-request.component.ts:176-200 | The loop reports a conflict exactly when the requested range conflicts with an existing leave. |
| LeaveRequest.TotalDays | src/app/Attendance/me/leaves/leave-request/leave-request.component.ts:111-123 | The count is 0 when either date is missing, and positive exactly when both dates are set and in order; then it equals the number of days in the range. |
| LeaveRequest.Ids | src/app/Attendance/me/leaves/leave-request/leave-request.component.ts:307 | The id list lines up with the employees. |
| LeaveRequest.Unselected | src/app/Attendance/me/leaves/leave-request/leave-request.component.ts:289-290 | Search results keep exactly the employees not already selected, in order. |
| LeaveRequest.LeaveRequestView.constructor | src/app/Attendance/me/leaves/leave-request/leave-request.component.ts:40-59 | The form starts empty with no days, types, leaves or selections. |
| LeaveRequest.LeaveRequestView.LoadPendingLeaves | src/app/Attendance/me/leaves/leave-request/leave-request.component.ts:76-97 | The tracked leaves come from the response; a failed request leaves none. |
| LeaveRequest.LeaveRequestView.HandleDateChanges | src/app/Attendance/me/leaves/leave-request/leave-request.component.ts:111-123 | The day count follows the chosen dates. |
| LeaveRequest.LeaveRequestView.SubmitRequest | src/app/Attendance/me/leaves/leave-request/leave-request.component.ts:142-215 | The checks run in order: missing fields, unknown type, insufficient balance, date conflict. Each outcome holds exactly when its check is the first to fail, and a request is sent only when none fails. |
| LeaveRequest.LeaveRequestView.OnSubmitted | src/app/Attendance/me/leaves/leave-request/leave-request.component.ts:218-225 | A submission resets the form and the day count. |
| LeaveRequest.LeaveRequestView.ValidateWordLimit | src/app/Attendance/me/leaves/leave-request/leave-request.component.ts:239-250 | The word count is capped at 100. Longer remarks are cut to their first 100 words; shorter ones are left unchanged. |
| LeaveRequest.TruncatedRemarksWords | src/app/Attendance/me/leaves/leave-request/leave-request.component.ts:241-248 | Re-splitting the truncated remarks gives exactly the first 100 words. |
| LeaveRequest.LeaveRequestView.OnNotifySearch | src/app/Attendance/me/leaves/leave-request/leave-request.component.ts:276-298 | The query is trimmed. Fewer than two characters or a failed search clears the results. Results never include an already selected employee. |
| LeaveRequest.LeaveRequestView.SelectEmployee | src/app/Attendance/me/leaves/leave-request/leave-request.component.ts:300-312 | An employee is added once only, so distinct ids stay distinct. The notify field lists the selection, and the search is cleared. |
| LeaveRequest.LeaveRequestView.RemoveEmployee | src/app/Attendance/me/leaves/leave-request/leave-request.component.ts:314-321 | Every entry with that id is removed, and all other entries are kept. Distinct ids stay distinct, and the notify field follows. |
| LeaveRequest.SublistKeepsDistinct | src/app/Attendance/me/leaves/leave-request/leave-request.component.ts:314-317 | Keeping part of a selection with distinct ids keeps the ids distinct. |
| Strings.WordsJoinRoundTrip | src/app/Attendance/me/leaves/leave-request/leave-request.component.ts:241-246 | Joining words with single spaces and splitting again gives the same words. |
| Admin.AsPolicy | src/app/Administration/admin-functionality/admin-functionality.component.ts:174-176 | The policy built from the form has the form's weekday flags and active flag. |
| Admin.NoFlagNoWeekOff | src/app/Administration/admin-functionality/admin-functionality.component.ts:178-198 | A policy from the form has no week-off days exactly when every weekday flag is 0. |
| Admin.BlankFormNoWeekOff | src/app/Administration/admin-functionality/admin-functionality.component.ts:178-198 | The reset form gives no week-off days. |
| Admin.UserRole | src/app/Administration/admin-functionality/admin-functionality.component.ts:133-135 | The route role, lower-cased, wins when it is set; otherwise the stored role is used. The result is lower-case and non-empty. |
| Admin.UserRoleIgnoresCase | src/app/Administration/admin-functionality/admin-functionality.component.ts:133-135 | The role read from the token or from storage does not depend on letter case, and a stored role that lower-cases to admin or hr counts as admin-or-HR. |
| Admin.AdminView.constructor | src/app/Administration/admin-functionality/admin-functionality.component.ts:20-124 | All forms start blank, with nothing being edited. |
| Admin.AdminView.Init | src/app/Administration/admin-functionality/admin-functionality.component.ts:133-137 | The user role is resolved from the route and storage. |
| Admin.AdminView.IsAdminOrHR | src/app/Administration/admin-functionality/admin-functionality.component.ts:21-23 | True exactly when the user role is "admin" or "hr". |
| Admin.AdminView.EditWeeklyOffPolicy | src/app/Administration/admin-functionality/admin-functionality.component.ts:175 | The form takes the policy, and its id is being edited. |
| Admin.AdminView.CancelWeeklyOffPolicy | src/app/Administration/admin-functionality/admin-functionality.component.ts:178-198 | The form resets to all flags 0 and active 1, and nothing is being edited. |
| Admin.AdminView.OpenAddAnnouncement | src/app/Administration/admin-functionality/admin-functionality.component.ts:295 | An empty, incomplete form opens for a new announcement. |
| Admin.AdminView.SaveAnnouncement | src/app/Administration/admin-functionality/admin-functionality.component.ts:296-312 | A create request is made exactly when the form is complete. |
| Admin.AdminView.UpdateAnnouncementRequest | src/app/Administration/admin-functionality/admin-functionality.component.ts:314-330 | An update request is made exactly when the form is complete. |
| Admin.AdminView.CancelAnnouncement | src/app/Administration/admin-functionality/admin-functionality.component.ts:332 | The form closes. |
| Admin.AdminView.EditDesignation | src/app/Administration/admin-functionality/admin-functionality.component.ts:362-365 | The name and id of the designation are loaded for editing. |
| Admin.AdminView.UpdateDesignationRequest | src/app/Administration/admin-functionality/admin-functionality.component.ts:367-381 | An update request is made exactly when the edited id is set and non-zero. |
| Admin.AdminView.CancelDesignation | src/app/Administration/admin-functionality/admin-functionality.component.ts:395-398 | The name and the edited id are cleared. |
| Admin.AdminView.EditBusinessUnit | src/app/Administration/admin-functionality/admin-functionality.component.ts:431-434 | The name and id of the business unit are loaded for editing. |
| Admin.AdminView.UpdateBusinessUnitRequest | src/app/Administration/admin-functionality/admin-functionality.component.ts:436-449 | An update request is made exactly when the edited id is set and non-zero. |
| Admin.AdminView.CancelBusinessUnit | src/app/Administration/admin-functionality/admin-functionality.component.ts:462-465 | The name and the edited id are cleared. |
| Pagination.PageCount | src/app/Administration/admin-functionality/admin-functionality.component.ts:474-477 | The page count is the ceiling of items over page size, and zero exactly when there are no items. |
| Pagination.PageView | src/app/Administration/admin-functionality/admin-functionality.component.ts:479-483 | A page holds at most a page of items, taken contiguously from its offset. It is full when enough items remain, and empty exactly past the end. |
| Pagination.Window | src/app/Administration/admin-functionality/admin-functionality.component.ts:480-482 | The slice holds items[start..], cut at the size and at the end of the list. |
| Pagination.ItemOnPage | src/app/Administration/admin-functionality/admin-functionality.component.ts:479-483 | Item k appears on page k/size+1 at position k mod size, and that page is within the count. |
| Pagination.PagesWithinCountAreFull | src/app/Administration/admin-functionality/admin-functionality.component.ts:474-483 | A page is non-empty exactly when its number is at most the page count. |
| Pagination.Pager.constructor | src/app/Administration/admin-functionality/admin-functionality.component.ts:57-60 | A table starts empty on page 1. |
| Pagination.Pager.UpdateView | src/app/Administration/admin-functionality/admin-functionality.component.ts:479-483 | The view is the current page of the items. |
| Pagination.Pager.Calculate | src/app/Administration/admin-functionality/admin-functionality.component.ts:474-477 | The total pages and the view follow the items. |
| Pagination.Pager.Reload | src/app/Administration/admin-functionality/admin-functionality.component.ts:216-221 | New items reset the table to page 1. |
| Pagination.Pager.Next | src/app/Administration/admin-functionality/admin-functionality.component.ts:485-490 | Next moves one page forward only while pages remain; otherwise nothing changes. |
| Pagination.Pager.Previous | src/app/Administration/admin-functionality/admin-functionality.component.ts:492-497 | Previous moves back only from page 2 on; otherwise nothing changes. |
| Pagination.Pager.GoToPage | src/app/Today_@_Work/work-track/work-track.component.ts:468-473 | A jump lands only on an existing page; otherwise nothing changes. |
| Pagination.Pager.PageInRange | src/app/Administration/admin-functionality/admin-functionality.component.ts:485-497 | The page always stays between 1 and the page count, and the view is empty only when there are no items. |
| WorkTrack.Pad2 | src/app/Today_@_Work/work-track/work-track.component.ts:235-236 | The two-digit text reads back as the number. |
| WorkTrack.FormatTime | src/app/Today_@_Work/work-track/work-track.component.ts:234-238 | A minute of the day prints as HH:MM, whose fields read back as its hours and minutes. |
| WorkTrack.FormatTimeRoundTrip | src/app/Today_@_Work/work-track/work-track.component.ts:234-238 | Parsing a formatted time gives back the minute. |
| WorkTrack.SlotText | src/app/Today_@_Work/work-track/work-track.component.ts:322-326 | A slot prints as start and end times joined by "-". |
| WorkTrack.SlotTextRoundTrip | src/app/Today_@_Work/work-track/work-track.component.ts:248-250 | A printed slot contains "-" and parses back to the same slot. |
| WorkTrack.Trunc | src/app/Today_@_Work/work-track/work-track.component.ts:320 | Truncation toward zero, as `setMinutes` applies to a fractional minute count. |
| WorkTrack.SlotWithDuration | src/app/Today_@_Work/work-track/work-track.component.ts:305-331 | The slot starts at the start time. The minute of the hour of the start plus the duration in minutes is truncated as a whole, so a non-negative duration ends its whole minutes later, modulo a day, and any duration ends at most one minute before that. |
| WorkTrack.TruncShift | src/app/Today_@_Work/work-track/work-track.component.ts:320 | Adding whole minutes before truncating shifts the result by those minutes for a non-negative fraction, and by one less at most for a negative one. |
| WorkTrack.NegativeFractionEndsEarlier | src/app/Today_@_Work/work-track/work-track.component.ts:318-320 | A duration of -0.01 hours from 09:30 ends at 09:29, one minute before the start, not at the start. |
| WorkTrack.WholeHourSlot | src/app/Today_@_Work/work-track/work-track.component.ts:252 | A whole number of hours ends that many hours later on the clock. |
| WorkTrack.HoursOr | src/app/Today_@_Work/work-track/work-track.component.ts:268 | Missing or zero hours fall back to the default. |
| WorkTrack.Follow | src/app/Today_@_Work/work-track/work-track.component.ts:288-300 | A row after a timed row starts at that row's end; after an untimed row it keeps its slot. |
| WorkTrack.TotalHoursAppend | src/app/Today_@_Work/work-track/work-track.component.ts:339-344 | The total hours of joined lists is the sum of their totals. |
| WorkTrack.TotalHours | src/app/Today_@_Work/work-track/work-track.component.ts:339-344 | No rows total 0, and rows whose hours are all non-negative total a non-negative number. |
| WorkTrack.ChainedFrom | src/app/Today_@_Work/work-track/work-track.component.ts:283-302 | After an update, every row after the edited one starts where the row before it ends. |
| WorkTrack.FirstSlot | src/app/Today_@_Work/work-track/work-track.component.ts:180-205 | Without a project or assignments, the first slot is 09:00-10:00. With a project, there is a slot exactly when the first assignment has a start time, and it runs one hour from that start on the clock. |
| WorkTrack.TimesheetForm.constructor | src/app/Today_@_Work/work-track/work-track.component.ts:165-173 | The timesheet starts with no rows and no years. |
| WorkTrack.TimesheetForm.InitializeFirstTimeSlot | src/app/Today_@_Work/work-track/work-track.component.ts:180-205 | The timesheet holds one one-hour row with the first slot. |
| WorkTrack.TimesheetForm.AddRow | src/app/Today_@_Work/work-track/work-track.component.ts:240-263 | One empty one-hour row is appended after the old rows. It starts where the last row ends, or has no slot when the last row has none. The total grows by one hour. |
| WorkTrack.TimesheetForm.OnHoursChange | src/app/Today_@_Work/work-track/work-track.component.ts:266-280 | A timed row gets a slot for its new duration and the rows after it are re-chained; every row keeps its task and hours; an untimed row changes nothing. |
| WorkTrack.TimesheetForm.UpdateSubsequentRows | src/app/Today_@_Work/work-track/work-track.component.ts:283-302 | Rows up to the given one are kept. Each later row follows the row before it, and tasks and hours are unchanged. |
| WorkTrack.TimesheetForm.RemoveRow | src/app/Today_@_Work/work-track/work-track.component.ts:333-337 | A row is removed only while more than one remains, so at least one row stays. |
| WorkTrack.TimesheetForm.InitializeYears | src/app/Today_@_Work/work-track/work-track.component.ts:122-127 | The year list gains the current year and the five before it, newest first. |
| WorkTrack.YearsBack | src/app/Today_@_Work/work-track/work-track.component.ts:124-126 | Entry k is k years before the given year. |
| WorkTrack.StatusColor | src/app/Today_@_Work/work-track/work-track.component.ts:548-564 | The colour is chosen by the lower-cased status. A missing status gives warning, and any unlisted status gives medium. |
| WorkTrack.StatusColorIgnoresCase | src/app/Today_@_Work/work-track/work-track.component.ts:551 | The colour does not depend on letter case. |
| WorkTrack.CapitalisedStatusColor | src/app/Today_@_Work/work-track/work-track.component.ts:551-555 | "Approved" is shown as accepted. |
| MyTeam.AttendanceFrom | src/app/my-team/my-team.page.ts:221-234 | With a record, the status defaults to present and details are attached; without one, the member is absent. |
| MyTeam.MergeAll | src/app/my-team/my-team.page.ts:216-236 | Each member keeps its place and gets the attendance of its first matching record. |
| MyTeam.MergedStatus | src/app/my-team/my-team.page.ts:216-236 | With no record a member is absent. The first matching record decides the status, which defaults to present. |
| MyTeam.StatusOf | src/app/my-team/my-team.page.ts:300-303 | The attendance status when it is non-empty, and absent without attendance or with an empty status. |
| MyTeam.WithStatus | src/app/my-team/my-team.page.ts:291-294 | The filtered list holds exactly the members with the status, in order. |
| MyTeam.AttendanceFiltered | src/app/my-team/my-team.page.ts:287-296 | "all" keeps the whole team; any other filter keeps exactly the members with that status. |
| MyTeam.SearchTeam | src/app/my-team/my-team.page.ts:355-363 | The search keeps exactly the members matching the lower-cased text, in order. |
| MyTeam.EmptySearchKeepsNamed | src/app/my-team/my-team.page.ts:356-359 | An empty search keeps every member that has a name. |
| MyTeam.EmployeePunchStatus | src/app/my-team/my-team.page.ts:438-442 | An unknown employee reads as clocked out with no times. |
| MyTeam.Synced | src/app/my-team/my-team.page.ts:471-489 | Syncing changes only attendance, and only for a member whose live status is in. |
| MyTeam.SyncOnlyUpgradesAbsent | src/app/my-team/my-team.page.ts:471-489 | A sync changes a status only from absent to present, and does so for every absent member whose live status is in. |
| MyTeam.SyncedAll | src/app/my-team/my-team.page.ts:471-490 | Every member is synced in place. |
| MyTeam.Recount | src/app/my-team/my-team.page.ts:493-509 | Present, on-leave and absent add up to the team total, which is the team size. |
| MyTeam.RecountMatchesFilter | src/app/my-team/my-team.page.ts:493-509 | The present and on-leave counts equal the sizes of the matching filters. |
| MyTeam.CountSummary | src/app/my-team/my-team.page.ts:494-503 | The counting loop yields the summary. |
| MyTeam.WithoutRequest | src/app/my-team/my-team.page.ts:111 | Exactly the requests with other ids stay, in order; an unknown id changes nothing. |
| MyTeam.MyTeamView.constructor | src/app/my-team/my-team.page.ts:33-57 | The page starts with an empty team, the "all" filter and no role. |
| MyTeam.MyTeamView.UpdateRole | src/app/my-team/my-team.page.ts:567-571 | The manager flag is set exactly for manager-or-above roles. |
| MyTeam.MyTeamView.ApplyAttendanceFilter | src/app/my-team/my-team.page.ts:287-296 | The shown list is the team under the chosen filter. |
| MyTeam.MyTeamView.FilterTeam | src/app/my-team/my-team.page.ts:355-363 | The shown list is the team under the search. |
| MyTeam.MyTeamView.LoadAttendanceData | src/app/my-team/my-team.page.ts:196-253 | The team keeps its size and takes the merged attendance; for today it is synced with live punches; the filter is reapplied. |
| MyTeam.MyTeamView.SyncRealTimeStatus | src/app/my-team/my-team.page.ts:467-512 | Only for today with a non-empty team are members synced and the counts recomputed; otherwise nothing changes. |
| MyTeam.MyTeamView.SyncMembers | src/app/my-team/my-team.page.ts:471-490 | Every member is synced against the live status map. |
| MyTeam.MyTeamView.DecideRemoteClockinRequest | src/app/my-team/my-team.page.ts:107-119 | A decided request leaves the pending list; a failed call keeps it. |
| WorkFromHome.PrevMonth | src/app/Attendance/me/work-from-home/work-from-home.component.ts:110-117 | Going back from January gives December of the year before. |
| WorkFromHome.NextMonth | src/app/Attendance/me/work-from-home/work-from-home.component.ts:119-126 | Going on from December gives January of the next year. |
| WorkFromHome.MonthMovesInverse | src/app/Attendance/me/work-from-home/work-from-home.component.ts:110-126 | The next and previous month moves undo each other, and each moves one month in the year-month count. |
| WorkFromHome.RequestDays | src/app/Attendance/me/work-from-home/work-from-home.component.ts:154-181 | An end before the start counts 0. A full request counts the whole days, at least 1. A custom request takes half a day off for each end that is not a full-day session. |
| WorkFromHome.SameDayCustomCountsZero | src/app/Attendance/me/work-from-home/work-from-home.component.ts:166-180 | A same-day custom request from first half to second half counts 0 days, while the full same-day request counts 1. |
| WorkFromHome.Zeros | src/app/Attendance/me/work-from-home/work-from-home.component.ts:78 | The blank cells are n zeros. |
| WorkFromHome.OneTo | src/app/Attendance/me/work-from-home/work-from-home.component.ts:79 | The day cells are 1 to n. |
| WorkFromHome.WfhForm.constructor | src/app/Attendance/me/work-from-home/work-from-home.component.ts:30-62 | The form starts today, full-day, one day, with the current month's grid. |
| WorkFromHome.WfhForm.OpenPicker | src/app/Attendance/me/work-from-home/work-from-home.component.ts:70-72 | Opening the open picker closes it; otherwise it opens. |
| WorkFromHome.WfhForm.GenerateCalendar | src/app/Attendance/me/work-from-home/work-from-home.component.ts:74-80 | The grid has as many blanks as the weekday of the 1st, then days 1 to the month's length. |
| WorkFromHome.WfhForm.PrevMonthMove | src/app/Attendance/me/work-from-home/work-from-home.component.ts:110-117 | The month moves back with a year carry. The grid has as many blanks as the weekday of the first day of the new month, followed by the days 1 to its length. |
| WorkFromHome.WfhForm.NextMonthMove | src/app/Attendance/me/work-from-home/work-from-home.component.ts:119-126 | The month moves on with a year carry. The grid has as many blanks as the weekday of the first day of the new month, followed by the days 1 to its length. |
| WorkFromHome.WfhForm.CalculateDays | src/app/Attendance/me/work-from-home/work-from-home.component.ts:154-181 | The day count follows the request, and an error is shown exactly when the end is before the start. |
| WorkFromHome.WfhForm.SetType | src/app/Attendance/me/work-from-home/work-from-home.component.ts:140-152 | A full request uses full-day sessions, a custom one first half to second half, and the count is recomputed. |
| WorkFromHome.WfhForm.SelectDate | src/app/Attendance/me/work-from-home/work-from-home.component.ts:82-94 | The chosen day sets the from or to date, the picker closes, the count is recomputed, and a validation error is shown exactly when the to date is before the from date. |
| WorkFromHome.SelectedDaysCount | src/app/Attendance/me/work-from-home/work-from-home.component.ts:154-181 | For a full-day request from day a to day b, the count is b - a + 1 when a is not after b, and 0 otherwise. |
| WorkFromHome.WfhForm.Submit | src/app/Attendance/me/work-from-home/work-from-home.component.ts:184-191 | A request is sent exactly when there is a note and no validation error. |
| Calendar.LeadingBlanks | src/app/Attendance/me/calendar/calendar.component.ts:87-91 | The Monday-first grid starts with the right number of blanks for the weekday of the 1st. |
| Calendar.DayCell | src/app/Attendance/me/calendar/calendar.component.ts:92-104 | A day is off exactly on Saturday and Sunday, with no timing. Other days show the office hours. |
| Calendar.GridColumns | src/app/Attendance/me/calendar/calendar.component.ts:82-106 | Cell k holds day k-blanks+1, and its column is that day's weekday counted from Monday. |
| Calendar.GridWeekends | src/app/Attendance/me/calendar/calendar.component.ts:93-99 | A day cell is off exactly in the last two columns. |
| Calendar.StatusLabel | src/app/Attendance/me/calendar/calendar.component.ts:126-132 | present reads Present, absent Absent, half-day Half Day, late Late Arrival and on-leave On Leave; no other status has a label. |
| Calendar.LateText | src/app/Attendance/me/calendar/calendar.component.ts:143-149 | Under an hour reads "Late by N mins"; from an hour on it reads hours and minutes that add up to the delay. |
| Calendar.ArrivalLabel | src/app/Attendance/me/calendar/calendar.component.ts:123-157 | No attendance reads "Unknown", a late arrival with times reads the delay, and a known status otherwise reads its status label. |
| Calendar.LateTextOnlyWhenLate | src/app/Attendance/me/calendar/calendar.component.ts:134-156 | The label starts "Late by" exactly for a late arrival with times. |
| Calendar.CalendarView.constructor | src/app/Attendance/me/calendar/calendar.component.ts:21-26 | The calendar starts with no cells and no selected date. |
| Calendar.CalendarView.GenerateCalendar | src/app/Attendance/me/calendar/calendar.component.ts:82-106 | The cells are the leading blanks followed by each day of the month, dated. |
| Calendar.CalendarView.SelectDate | src/app/Attendance/me/calendar/calendar.component.ts:44-48 | A blank cell is ignored; a dated cell becomes selected and its details are asked for. |
| MePage.DayNamesDistinct | src/app/Attendance/me/me.page.ts:200-208 | The seven day names are distinct. |
| MePage.LabelsFrom | src/app/Attendance/me/me.page.ts:210-212 | The labels are the names of distinct weekdays from the given one on, in weekday order. |
| MePage.NamedInOrderCons | src/app/Attendance/me/me.page.ts:210-212 | Putting the name of an earlier day in front of labels in weekday order keeps them in weekday order. |
| MePage.WeekOffLabels | src/app/Attendance/me/me.page.ts:200-212 | The labels are names of distinct weekdays, in weekday order from Sunday to Saturday. |
| MePage.WeekOffLabelsMembers | src/app/Attendance/me/me.page.ts:210-212 | A day name is listed exactly when its flag is 1, and every label is a day name. |
| MePage.WeekOffAgreesWithAttendanceLog | src/app/Attendance/me/me.page.ts:210-212 | The me page's labels and the attendance log's week-off days agree on 0/1 flags. |
| Seqs.FindById | src/app/Attendance/me/me.page.ts:175-191 | The first element carrying the id is found, and none exactly when no element has it. The shift and weekend lookups (`MePage.FindShift`, `MePage.FindWeekend`) use it, as do the leave-type lookup (`LeaveRequest.FindType`, leave-request.component.ts:149-153) and the report-record lookup (`MyTeam.FindRecord`, my-team.page.ts:217). |
| MePage.WeekStart | src/app/Attendance/me/me.page.ts:258-261 | The week starts on the Monday on or before today. |
| MePage.MePageView.constructor | src/app/Attendance/me/me.page.ts:102-115 | The page opens holding the seven days of the current week, Monday first, with today among them and no week-off labels. |
| MePage.MePageView.MatchEmployeeShift | src/app/Attendance/me/me.page.ts:173-178 | With an id and policies loaded, the shift is the matching one; otherwise it is unchanged. |
| MePage.MePageView.MatchEmployeeWeekend | src/app/Attendance/me/me.page.ts:180-215 | A matching weekend policy sets the week-off labels; without one they are unchanged. |
| MePage.MePageView.GenerateDays | src/app/Attendance/me/me.page.ts:257-269 | The strip is the seven days from that Monday, and includes today. |
| MePage.WeekOffDayIffFlag | src/app/Attendance/me/me.page.ts:275-280 | A day is marked week-off exactly when its weekday's flag is 1. |
| MePage.MePageView.IsWeekOffDay | src/app/Attendance/me/me.page.ts:275-280 | When the labels are those of a weekly-off policy, a day is a week-off day exactly when that policy flags its weekday with 1; with no labels, no day is. |
| ClockButton.InDetails | src/app/services/clock-button/clock-button.component.ts:151-165 | Remote, WFH and office clock-ins carry their own location and notes. |
| ClockButton.ClockButtonState.constructor | src/app/services/clock-button/clock-button.component.ts:66-68 | The button starts clocked out in office mode. |
| ClockButton.ClockButtonState.LoadLastPunch | src/app/services/clock-button/clock-button.component.ts:111-143 | The last punch decides the clocked-in state and mode. Remote is active exactly when clocked in remotely, and the stored flag mirrors it. The punches written under `todayPunches` (line 126) are kept as a field of their own; the other storage keys are untouched. |
| ClockButton.ClockButtonState.OnClockState | src/app/services/clock-button/clock-button.component.ts:94-106 | The stored remote flag forces remote mode; otherwise the mode is kept. |
| ClockButton.ClockButtonState.ClockIn | src/app/services/clock-button/clock-button.component.ts:146-208 | A clocked-in button sends nothing; otherwise it clocks in with the mode's details. |
| ClockButton.ClockButtonState.ClockOut | src/app/services/clock-button/clock-button.component.ts:211-235 | Clock-out notes depend on WFH. A successful WFH clock-out returns to office mode. |
| ClockButton.ClockButtonState.RemoteClockOut | src/app/services/clock-button/clock-button.component.ts:238-260 | A remote clock-out returns to office mode and clears the stored flag. |
| ClockButton.RemoteClockInIsNotStored | src/app/services/clock-button/clock-button.component.ts:97-104 | After a remote clock-in and a clock-state event, the button is still in remote mode but remote is not active, since the flag was never stored. |
| WfhApprovals.Normalized | src/app/manager-wfh-approvals/manager-wfh-approvals.page.ts:49-52 | The mode is WFH exactly for a WFH leave type, otherwise WFO, and nothing else changes. |
| WfhApprovals.NormalizeAll | src/app/manager-wfh-approvals/manager-wfh-approvals.page.ts:49-52 | Each request is normalised in place. |
| WfhApprovals.Filtered | src/app/manager-wfh-approvals/manager-wfh-approvals.page.ts:65-85 | The list keeps exactly the requests matching the search and mode, in order. |
| WfhApprovals.EmptySearchKeepsAll | src/app/manager-wfh-approvals/manager-wfh-approvals.page.ts:69-80 | No search and mode "all" keeps every request. |
| WfhApprovals.ModeFilterFollowsLeaveType | src/app/manager-wfh-approvals/manager-wfh-approvals.page.ts:49-80 | After normalising, the WFH filter keeps exactly the WFH leave types and the WFO filter the rest. |
| WfhApprovals.StatusColor | src/app/manager-wfh-approvals/manager-wfh-approvals.page.ts:174-180 | The colour is chosen by the lower-cased status; a missing or unknown status gives medium (statuses naming an inherited object property are left out). |
| WfhApprovals.StatusColorIgnoresCase | src/app/manager-wfh-approvals/manager-wfh-approvals.page.ts:179 | The colour does not depend on letter case. |
| WfhApprovals.CapitalisedStatusColor | src/app/manager-wfh-approvals/manager-wfh-approvals.page.ts:179 | "Rejected" is shown as rejected. |
| WfhApprovals.ModeChip | src/app/manager-wfh-approvals/manager-wfh-approvals.page.ts:182-188 | WFH gets the home chip; every other mode gets the business chip. |
| WfhApprovals.RejectHandler | src/app/manager-wfh-approvals/manager-wfh-approvals.page.ts:127-134 | A rejection is sent exactly when the remarks are non-empty, with the request's id. |
| WfhApprovals.ApprovalsView.constructor | src/app/manager-wfh-approvals/manager-wfh-approvals.page.ts:23-28 | The page starts with no requests, no search and mode "all". |
| WfhApprovals.ApprovalsView.ApplyFilters | src/app/manager-wfh-approvals/manager-wfh-approvals.page.ts:65-85 | The shown list is the requests under the current search and mode. |
| WfhApprovals.ApprovalsView.LoadPending | src/app/manager-wfh-approvals/manager-wfh-approvals.page.ts:42-63 | Loaded requests are normalised and filtered; a failed request changes nothing. |
| WfhApprovals.ApprovalsView.OnSearchChange | src/app/manager-wfh-approvals/manager-wfh-approvals.page.ts:87-90 | The search text is set and the filter reapplied. |
| WfhApprovals.ApprovalsView.OnModeFilterChange | src/app/manager-wfh-approvals/manager-wfh-approvals.page.ts:92-95 | The mode is set and the filter reapplied. |
| PreOnboarding.NormalizeCandidates | src/app/services/pre-onboarding.service.ts:326-332 | A list is kept, a wrapper gives its candidates, a single object becomes a one-item list, and anything else gives an empty list. The result is empty exactly for a falsy payload or an empty list or wrapper, and holds only candidates from the payload. |
| PreOnboarding.ReplaceById | src/app/services/pre-onboarding.service.ts:431-433 | Each candidate with the id is replaced; the rest stay in place. |
| PreOnboarding.ReplaceByIdProperties | src/app/services/pre-onboarding.service.ts:430-434 | Replacing twice is the same as once, and an unknown id changes nothing. |
| PreOnboarding.AttendanceEntries | src/app/services/pre-onboarding.service.ts:524-530 | Exactly the attendance-prefixed entries are kept, with their values. |
| PreOnboarding.IdTextNonEmpty | src/app/services/pre-onboarding.service.ts:560 | An employee id always gives a non-empty storage key. |
| PreOnboarding.CandidateService.StoredEmployee | src/app/services/pre-onboarding.service.ts:192-198 | No active id, or an empty one, means no stored employee. With a non-empty active id whose key holds an employee record, the result is that record, and any result comes from that key. |
| PreOnboarding.CandidateService.StoredCandidate | src/app/services/pre-onboarding.service.ts:199-205 | No active id, or an empty one, means no stored candidate. With a non-empty active id whose key holds a candidate record, the result is that record, and any result comes from that key. |
| PreOnboarding.CandidateService.constructor | src/app/services/pre-onboarding.service.ts:165-186 | The service restores the current candidate and employee from storage. |
| PreOnboarding.CandidateService.SetLoggedEmployeeId | src/app/services/pre-onboarding.service.ts:250-252 | The logged employee id is set. |
| PreOnboarding.CandidateService.GetLoggedEmployeeId | src/app/services/pre-onboarding.service.ts:254-256 | The logged employee id is read back. |
| PreOnboarding.CandidateService.UpdateLocalCache | src/app/services/pre-onboarding.service.ts:430-443 | The candidate replaces its entry in the cache, and also the current candidate and its stored copy when it is current. |
| PreOnboarding.CandidateService.SetCurrentEmployee | src/app/services/pre-onboarding.service.ts:551-564 | An employee with an id is stored under its key and made active; otherwise the active key is removed. Reading back gives the same employee. |
| PreOnboarding.CandidateService.Logout | src/app/services/pre-onboarding.service.ts:518-545 | Only attendance entries survive, the intro flag is reset, and no candidate or employee remains. |
| AppShell.RoleHierarchy | src/app/app.component.ts:129-149 | Admin-or-HR is admin or HR. Manager-or-above is manager or HR. Employee-or-above includes managers. An admin is neither. |
| AppShell.RoleFromGuard | src/app/app.component.ts:65 | An empty or missing role gives none; otherwise the lower-cased role. |
| AppShell.TrimmedRole | src/app/app.component.ts:101 | The role is trimmed and lower-cased. |
| AppShell.WorkTrackVisible | src/app/app.component.ts:116-122 | Work track is shown only to employees, managers and HR, and never to the management department. |
| AppShell.LeaveVisible | src/app/app.component.ts:124-127 | Leave is hidden exactly for the CEO designation. |
| AppShell.WorkTrackAudience | src/app/app.component.ts:116-122 | Work track is shown exactly to employees, managers and HR outside management, and never to admins. |
| AppShell.AdminFlagTrimsRole | src/app/app.component.ts:99-104 | A leading space does not change the trimmed role used for the admin flag, but the untrimmed role is not admin-or-HR. |
| AppShell.CeoHasNoLeaveEntry | src/app/app.component.ts:124-127 | Any designation that lower-cases to "ceo", padded with spaces or not, has no leave entry. |
| AppShell.LeaveIgnoresLeadingSpace | src/app/app.component.ts:126 | A leading space does not change the leave entry's visibility. |
| AppShell.Shell.constructor | src/app/app.component.ts:30-47 | The shell starts with the menu shown, not on login and not admin. |
| AppShell.Shell.OnNavigation | src/app/app.component.ts:59-67 | On a login URL the menu is hidden, and the admin flag follows the role. |
| AppShell.Shell.OnProfile | src/app/app.component.ts:89-92 | The designation and department are taken lower-cased, preferring the name fields. |
| AppShell.Shell.Init | src/app/app.component.ts:98-104 | The admin flag is set exactly for a trimmed admin or HR role. |

## Left out

- Server calls, RxJS subscriptions and the order in which chained requests finish are not modelled. Each answer is a parameter, and `None` stands for the error callback.
- The attendance log's reload chain is not modelled: `reloadAttendance`, `loadShiftPolicyAndProceed`, `refreshEmployeeProfileAndWeekOff`, `loadLeaveDaysAndMonthlyReport` and `loadTodayAttendance`. The policies those steps select are fields of the model, set directly.
- The attendance log's detail slider is not modelled (`openLogDetails`, `loadLogDetails`, `closeSlider`), nor is `getSelectedPeriodLabel`, which only formats display text.
- Timers and polling are not modelled: the intro timer, `setInterval` refreshes, `setTimeout` delays and `handlePageRefresh`, which has no effect on state.
- Toasts, alerts, modals, routing, page lifecycle hooks, Angular form validators, profile pictures and `console.log` are not modelled. This covers `notifyProfileImageUpdate`, `getProfileImageUrl`, `clearProfileImage` and the app shell's `logout`, which clears both storages, resets the intro flag and navigates to login.
- `localStorage` is a map. JSON encoding and decoding are structural: a stored employee or candidate is a value, not a string.
- Floating point is not modelled: `formatHours`, `TimeFormatPipe`, `parseFloat` and `Math.round` in displays. Work-track hours are real numbers; the end of a slot truncates the minute of the hour of the start plus the duration in minutes, as `setMinutes` does.
- JavaScript `Date` is not modelled: string parsing, time zones, daylight saving, `toLocaleString` and the IST conversion. Dates are day numbers and times are seconds or minutes after midnight. A shift start is already split into numbers.
- `generateTimeSlot` is not modelled as a method. Its cases are covered by `WorkTrack.FirstSlot` and `WorkTrack.SlotWithDuration`.
- Excel download, the email service and the profile, task-template and environment files are not part of this model.
- Display helpers that only pick an icon or colour are not modelled: `getAttendanceBadgeColor`, `getAttendanceIcon`, `isSelected` and `updateDisplayDates`.
- The calendar's month buttons are not modelled. They move `currentMonth` with `Date.setMonth`, which overflows the day of the month (31 January moves on to early March), and regenerate the grid. `loadDateDetails` only fetches data. Month arithmetic is modelled in `WorkFromHome.PrevMonth` and `WorkFromHome.NextMonth`.
- The me page's data loaders, `wfhClockIn`, `setTab` and the other tab and UI methods are not modelled. They fetch data or switch views.
- The approve and reject service calls of the approvals and my-team pages are not modelled. Only the state changes after an answer are.
- The admin location, department and shift create, update and delete calls are not modelled beyond the shared pagination. They follow the same form pattern as designations.
- `loadLeaveBalance` only fetches data. The balances are part of the leave types passed to `SubmitRequest`.
- ClockButton.ClockButtonState.ClockIn: the server's answer is not modelled. Clocking in always succeeds, and the error alerts are left out.
- LeaveRequest.LeaveRequestView.LoadPendingLeaves: dates arrive as day numbers, so the string forms the server may send are not normalised.
- Ids that JavaScript treats as falsy are modelled as 0. Text that `Number()` cannot parse (NaN) is not modelled.
- PreOnboarding.CandidateService.Logout: the closing call to the route guard's `logout` (pre-onboarding.service.ts:544) is not modelled; the route guard service is not part of this model.
- Case folding and trimming are ASCII-only: `Strings.ToLower` maps only A-Z and `Strings.Trim` drops only ASCII white space, where JavaScript's `toLowerCase` and `trim` cover Unicode (É, İ, the no-break space).
- AttendanceLog.ArrivalStatus: a status naming a property every JavaScript object inherits, such as "constructor", "toString" or "__proto__", finds that property in the status map (attendance-log.component.ts:603), so the source shows it instead of "Unknown". The model's map holds only the listed keys.
- Calendar.ArrivalLabel: the same inherited-key lookup applies to its status map (calendar.component.ts:156) and is not modelled.
- WfhApprovals.StatusColor: for a lower-cased status naming an inherited property, the object literal yields that property (manager-wfh-approvals.page.ts:175-179), not "medium". The contract's four colours hold only for other statuses.
- WfhApprovals.NamePart: a name part the server sends as JSON `null` reads "null" in `${FirstName} ${LastName}` (manager-wfh-approvals.page.ts:71). The model has only present and missing (`undefined`) name parts.
