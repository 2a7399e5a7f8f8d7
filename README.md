# King Kebab staff portal: time-entry and profile rules

A Dafny model of the business rules in the two dashboard pages of the
King Kebab staff portal. It does not model rendering.

- **Dashboard** (`src/app/dashboard/page.tsx`)
  - The form's shift-hour count and the 12-hour overtime threshold.
  - How the submit handler builds the payload from the form:
    - the persisted start and end instants, where an overnight shift ends on the next day;
    - clearing the overtime fields for a regular shift;
    - the "Company Request" check.
  - The overtime-reason select, which clears a stale responsible person.
  - The entry list: append on save, replace on edit, drop on delete.
  - The monthly view: filter by month and year, newest date first, hour total and the regular/overtime split.
- **Profile** (`src/app/dashboard/profile/page.tsx`)
  - The statistics over the user's entries.
  - The duplicate-free skill list.
  - The "time with us" bucket.
  - The avatar URL function.
  - The precedence rule for the photo URL: a locally stored image wins.
  - The save that falls back to browser storage when the backend is unreachable.
  - The size and type checks on a chosen image.

Files, one module each:

- `wrappers.dfy`: `Option` and `Result`.
- `calendar.dfy`: dates as (year, month, day) and the next calendar day.
- `shift.dfy`: `CalculateHours`, `IsOvertime`, the persisted instants of a shift, and how the two disagree.
- `entries.dfy`: the time entry, the month filter, and hour sums and counts. Both pages use these.
- `month_view.dfy`: replace and remove by id, the stable newest-first sort, and the monthly view.
- `dashboard.dfy`: the form, the payload, `Submission`, and the `DashboardPage` class.
- `profile.dfy`: statistics, skills, tenure, photo URLs, browser storage, the image checks, and the `ProfilePage` class.

Values that come from outside become parameters:

- the backend's answers (the stored entry, the updated user, whether a delete succeeded);
- the user's confirmation;
- the login token's claims;
- the clock (today's date, the current month and year, the number of days since the hire date, the current time as an ISO string).

The form's hour count wraps past midnight only when the *hour* difference
is negative. So 09:30 to 09:15 gives -0.25 hours. The model keeps this
behaviour, as the source has it. `Shift.CalculateHoursMatchesShift` states
exactly when the count differs from the persisted shift length: equal hours
with a smaller end minute. In that case the count is negative while the
persisted end lies on the next day, 23 hours and more later, and
`Shift.IsOvertime` shows such a shift is never submitted as overtime.

Two behaviours of the submit handler are easy to miss:

- The submit handler does not reject an overtime shift whose reason is left
  empty. Only the browser's `required` attribute on the select does that, and
  that attribute is not modelled.
- For a reason other than "Company Request", the handler sends
  `formData.responsiblePerson || ''` rather than forcing `''`. The payload is
  still consistent because the reason select clears the person. The
  `DashboardPage.Valid` invariant says so, and `Dashboard.Submission`
  proves the payload consistent from it.

## Model

| member | source | states |
|---|---|---|
| `Shift.IsOvertime` | src/app/dashboard/page.tsx:77-80 | for well-formed times, overtime exactly when the persisted shift is longer than 720 minutes, except that equal hours with a smaller end minute are never overtime; false while either time is empty |
| `Shift.ShiftMinutes` | src/app/dashboard/page.tsx:198-209 | the shift length in minutes lies in [0, 1440) and agrees with the minute difference modulo 60; `Shift.ShiftInstants` proves it is the distance between the persisted instants |
| `Shift.CalculateHours` | src/app/dashboard/page.tsx:59-72 | the hour count times 60 is the minute-of-day difference, plus 1440 exactly when the end hour is below the start hour |
| `Shift.CalculateHoursBounds` | src/app/dashboard/page.tsx:59-72 | for valid HH:MM times the hour count lies strictly between -1 and 24 |
| `Shift.CalculateHoursMatchesShift` | src/app/dashboard/page.tsx:64-69 | the hour count equals the persisted shift length iff not (equal hours and a smaller end minute); in that case the count is negative while the shift is over 23 hours |
| `Shift.NegativeQuarterHour` | src/app/dashboard/page.tsx:64-80 | 09:30 to 09:15 gives -0.25 hours and is not overtime, while the persisted shift is 23 h 45 min |
| `Shift.DayAndNightShifts` | src/app/dashboard/page.tsx:64-71 | 09:00 to 17:00 and 22:00 to 06:00 both give 8 hours |
| `Shift.OvertimeBoundary` | src/app/dashboard/page.tsx:79 | a 12:00 shift is not overtime; a 12:01 shift is |
| `Shift.ShiftEnd` | src/app/dashboard/page.tsx:200-209 | the end instant has the end minute, lies on the next day exactly when its minute of day is below the start's, and is never before the start |
| `Shift.ShiftInstants` | src/app/dashboard/page.tsx:198-209 | the start is the selected date at the start minute; the end is `ShiftEnd`, on the next day exactly when its minute of day is below the start's; the end is never before the start; for well-formed times the instants are `ShiftMinutes` apart |
| `Shift.OvernightExample` | src/app/dashboard/page.tsx:198-209 | 23:00 to 02:00 on 2024-05-01 ends at 02:00 on 2024-05-02 |
| `Calendar.NextDay` | src/app/dashboard/page.tsx:207-209 | the day after a valid date is a valid date strictly after it |
| `Calendar.NextDayIsImmediate` | src/app/dashboard/page.tsx:208 | no valid date lies strictly between a date and its next day |
| `Entries.SumHours` | src/app/dashboard/page.tsx:293 | the reduce of the persisted hours; never negative when no entry's hours are |
| `Entries.CountRegular` | src/app/dashboard/page.tsx:294 | at most the list length, and equal to it exactly when no entry exceeds 12 hours |
| `Entries.CountOvertime` | src/app/dashboard/page.tsx:295 | at most the list length, and zero exactly when no entry exceeds 12 hours |
| `Entries.FilterMonth` | src/app/dashboard/page.tsx:283-290 | an entry is kept iff it is in the list and dated in the given month and year |
| `Entries.RegularOvertimePartition` | src/app/dashboard/page.tsx:294-295 | the counts of entries at most 12 hours and above 12 hours add up to the list length |
| `Entries.MonthSplitsTotal` | src/app/dashboard/profile/page.tsx:99-116 | this month's hours plus the other months' hours are the total hours |
| `Entries.MonthHoursAtMostTotal` | src/app/dashboard/profile/page.tsx:99-116 | with no negative hours, this month's hours never exceed the total |
| `Entries.AppendAddsToMonth` | src/app/dashboard/page.tsx:282-293 | appending a saved entry adds its hours to its own month's total and to no other month |
| `MonthView.ReplaceById` | src/app/dashboard/page.tsx:158-162 | same length; every entry whose id matches becomes the updated entry, every other stays at its index |
| `MonthView.RemoveById` | src/app/dashboard/page.tsx:177 | an entry is kept iff it is in the list and its id differs |
| `MonthView.RemoveByIdOfConcat` | src/app/dashboard/page.tsx:177 | removal distributes over concatenation, so kept entries keep their order |
| `MonthView.RemoveAbsentId` | src/app/dashboard/page.tsx:177 | removing an id no entry carries leaves the list unchanged |
| `MonthView.DeleteUndoesAppend` | src/app/dashboard/page.tsx:234 | deleting a just-appended entry whose id was new restores the list |
| `MonthView.InsertByDate` | src/app/dashboard/page.tsx:291 | inserting into a newest-first list keeps it newest-first and adds exactly that entry |
| `MonthView.SortNewestFirst` | src/app/dashboard/page.tsx:291 | the result is ordered newest date first and is a permutation of the input |
| `MonthView.InsertKeepsSums` | src/app/dashboard/page.tsx:291-295 | insertion adds the entry's hours and counts and changes no other |
| `MonthView.SortKeepsSums` | src/app/dashboard/page.tsx:291-295 | sorting changes neither the hour sum nor the regular and overtime counts |
| `MonthView.MonthlyView` | src/app/dashboard/page.tsx:282-305 | the shown entries are exactly the month's entries, newest first, a permutation of the filtered list; total hours is the persisted-hours sum of the month; regular days count the month's entries of at most 12 hours and overtime days those above 12, together the count shown |
| `MonthView.MarchExample` | src/app/dashboard/page.tsx:282-305 | March 2024 over three entries: 21 hours, one regular and one overtime day, the 15th before the 1st |
| `Dashboard.Submission` | src/app/dashboard/page.tsx:197-231 | a missing time fails; "Company Request" overtime without a person fails; otherwise the payload carries the selected date and the persisted instants, the end on the next day exactly when its minute of day is below the start's; a regular shift sends no reason and no person; an overtime shift sends the form's reason and person; a consistent form yields a consistent payload |
| `Dashboard.BlankForm` | src/app/dashboard/page.tsx:46-52 | the empty form is dated today, is one the selects can produce, is not overtime, and submitting it fails for want of times |
| `Dashboard.CompanyRequestNeedsPerson` | src/app/dashboard/page.tsx:214-221 | a 13-hour "Company Request" shift without a person is rejected, and with "Boss" it is accepted |
| `Dashboard.DashboardPage.constructor` | src/app/dashboard/page.tsx:34-51 | the page starts with no entries, a blank form and today's date selected |
| `Dashboard.DashboardPage.SetStartTime` | src/app/dashboard/page.tsx:431-433 | only the form's start time changes |
| `Dashboard.DashboardPage.SetEndTime` | src/app/dashboard/page.tsx:443-445 | only the form's end time changes |
| `Dashboard.DashboardPage.SelectDate` | src/app/dashboard/page.tsx:419 | only the selected date changes |
| `Dashboard.DashboardPage.SelectReason` | src/app/dashboard/page.tsx:460-469 | the reason becomes the choice; the person is kept for "Company Request" and cleared for anything else; the form invariant holds |
| `Dashboard.DashboardPage.SelectPerson` | src/app/dashboard/page.tsx:489-495 | only the person changes; it is offered only next to "Company Request" |
| `Dashboard.DashboardPage.Submit` | src/app/dashboard/page.tsx:191-261 | the outcome is `Submission` of the form, or a save failure when the backend refuses; on success the stored entry is appended and the form reset; on any failure the entries and the form are unchanged and the error is shown |
| `Dashboard.DashboardPage.UpdateEntry` | src/app/dashboard/page.tsx:156-165 | the entries become `ReplaceById` of the old entries; nothing else changes |
| `Dashboard.DashboardPage.Delete` | src/app/dashboard/page.tsx:168-188 | nothing happens without confirmation; a successful delete drops every entry with the id; a failed one keeps the list and shows the error |
| `Profile.Stats` | src/app/dashboard/profile/page.tsx:92-116 | totalDays is the entry count; totalHours is the hour sum; the average is total over count, or 0 when there are none; thisMonthHours is the sum over exactly the current month's entries, and with the other months it makes up the total |
| `Profile.Average` | src/app/dashboard/profile/page.tsx:104 | for a positive count, the average times the count is the total; zero entries give 0 |
| `Profile.WithSkill` | src/app/dashboard/profile/page.tsx:420-427 | nothing changes for an empty or present skill; otherwise the skill is appended after the unchanged old list; a duplicate-free list stays duplicate-free |
| `Profile.WithoutSkill` | src/app/dashboard/profile/page.tsx:429-434 | a skill is kept iff it was present and differs from the removed one; duplicate-freedom is kept |
| `Profile.WithoutSkillOfConcat` | src/app/dashboard/profile/page.tsx:432 | removal distributes over concatenation, so the other skills keep their order |
| `Profile.WithoutAbsentSkill` | src/app/dashboard/profile/page.tsx:432 | removing an absent skill leaves the list unchanged |
| `Profile.RemoveUndoesAdd` | src/app/dashboard/profile/page.tsx:420-434 | adding an absent skill and then removing it restores the list |
| `Profile.TimeWorkedOf` | src/app/dashboard/profile/page.tsx:445-455 | no hire date gives Unknown; under 30 days gives the days; under 365 gives whole 30-day months (1 to 12); otherwise whole 365-day years (at least 1) |
| `Profile.Label` | src/app/dashboard/profile/page.tsx:446-454 | no hire date reads "Unknown"; otherwise the label is a numeral without leading zeros that reads back as the count, followed by " days", " months" or " years" |
| `Profile.Decimal` | src/app/dashboard/profile/page.tsx:452-454 | the count is printed as a decimal numeral: digits only, no leading zero |
| `Profile.NumeralUnique` | src/app/dashboard/profile/page.tsx:452-454 | a numeral denoting a count is exactly the count's decimal rendering |
| `Profile.DecimalRoundTrip` | src/app/dashboard/profile/page.tsx:452-454 | the digits printed for a day, month or year count read back as that count |
| `Profile.ImageUrl` | src/app/dashboard/profile/page.tsx:281-296 | the result is empty iff the URL is missing or empty; otherwise it is the URL unchanged |
| `Profile.PhotoPrecedence` | src/app/dashboard/profile/page.tsx:162 | a non-empty saved image wins; otherwise the fallback; empty only when both are empty |
| `Profile.LocalPhoto` | src/app/dashboard/profile/page.tsx:162 | the saved image when there is one, else the saved profile's URL |
| `Profile.ApiPhoto` | src/app/dashboard/profile/page.tsx:202 | the saved image when there is one, else the backend's URL |
| `Profile.LocalImageWins` | src/app/dashboard/profile/page.tsx:202 | with a saved local image, the local load and the backend load both show that image, whatever the backend sends |
| `Profile.Overlay` | src/app/dashboard/profile/page.tsx:253-256 | the overlaid user's form fields are the form; id, username, employee id, position, active flag and last login are unchanged |
| `Profile.OverlayOwnForm` | src/app/dashboard/profile/page.tsx:253-256 | overlaying a user's own form fields gives back the user |
| `Profile.KeysNeverClash` | src/app/dashboard/profile/page.tsx:259-265 | no profile key equals any image key |
| `Profile.KeysPerUser` | src/app/dashboard/profile/page.tsx:143-150 | different users have different profile keys and different image keys |
| `Profile.SaveToStorage` | src/app/dashboard/profile/page.tsx:258-267 | the profile key always holds the form; the image key holds the photo iff it is a data URL, else it is untouched; no other key changes |
| `Profile.ReloadAfterLocalSave` | src/app/dashboard/profile/page.tsx:144-162 | after a fallback save, a reload shows the saved data URL; any other URL shows only when no older image is stored |
| `Profile.LocalUser` | src/app/dashboard/profile/page.tsx:141-174 | the token's identity, active, last login now; the photo is `LocalPhoto`; the form fields are the saved profile's, with an empty hire date replaced by now |
| `Profile.LoadAfterLocalSave` | src/app/dashboard/profile/page.tsx:141-174 | a load after a fallback save gives back the saved form, except for the local-image rule on the photo and the default hire date |
| `Profile.CheckImage` | src/app/dashboard/profile/page.tsx:317-327 | accepted iff at most 2 MiB and of an `image/` type; too large iff over 2 MiB, whatever the type |
| `Profile.ProfilePage.constructor` | src/app/dashboard/profile/page.tsx:61-85 | the page starts with no user, the empty form (empty texts, no skills, an empty contact), the given storage, not editing, not uploading |
| `Profile.ProfilePage.Load` | src/app/dashboard/profile/page.tsx:129-236 | without a token nothing is loaded; otherwise the user is `LocalUser`, or the backend's record with the photo `ApiPhoto` when it answers; the form shows the loaded user; storage is untouched |
| `Profile.ProfilePage.AddSkill` | src/app/dashboard/profile/page.tsx:420-427 | the form's skills become `WithSkill` of the old ones; nothing else changes |
| `Profile.ProfilePage.RemoveSkill` | src/app/dashboard/profile/page.tsx:429-434 | the form's skills become `WithoutSkill` of the old ones; nothing else changes |
| `Profile.ProfilePage.Submit` | src/app/dashboard/profile/page.tsx:238-278 | a backend answer replaces the user; with no backend and all writes succeeding, the user becomes the overlay and storage gets `SaveToStorage`; a storage write that throws leaves the user and the editing flag as they were, with storage unchanged or holding only the new profile key; with no user loaded nothing changes |
| `Profile.ProfilePage.BeginImageUpload` | src/app/dashboard/profile/page.tsx:298-329 | no file does nothing; the checks decide; a rejected file changes no state; an accepted one starts the upload |

## Left out

- Rendering, styling, dialogs, toasts, routing and logout. They are presentation only.
- The backend calls. The model receives their outcome as a parameter and does not model how they fail. This covers fetching entries, adding and deleting entries, and fetching and updating the profile.
- Decoding the login token. The user id, name and position it yields are taken as given, and a missing or unreadable token is `None`.
- JavaScript `Date` behaviour. This covers local time against UTC (`getMonth`, `toISOString`), daylight-saving shifts inside `setHours`, and an invalid date typed into the date input. Dates are (year, month, day) records, and instants are a date and a minute of the day.
- `Profile.TimeWorkedOf` takes the day count as given. The millisecond difference and `Math.ceil` that produce it are not modelled. A hire date that does not parse gives "NaN years" in the source; that case is not modelled.
- Floating point. Hours are exact reals. Neither the `Math.round(x * 100) / 100` of the profile statistics nor `toFixed` display rounding is modelled.
- `Profile.Stats` returns unrounded values. It does not model the two-decimal rounding the page applies before display.
- The form's overtime reason: an unselected reason is `None` whether the source holds `null` or `''`. The payload can therefore not tell the two apart.
- The browser's `required` checks on the selects, which stop a submission before the handler runs.
- JSON. A saved profile is stored as a structured value rather than as its text. Other code's writes to the image key, and malformed stored JSON, are not modelled.
- Reading a saved profile: a profile key that holds something other than a saved profile reads as the empty profile. The source's `JSON.parse` would throw there and the load would fail.
- Overlapping handlers. The submit and delete handlers await the backend and then write a list built from the entries they captured before the call (`src/app/dashboard/page.tsx:177`, `:234`). Two overlapping calls can therefore lose an update. The methods here run one after another and cannot show this.
- The `FileReader` preview after an accepted image, and the background upload with its storage update and error-message classification. These are asynchronous I/O. Only the checks and the `uploading` flag are modelled.
- Loading entries: `loadEntries` normalises dates and replaces the list, and refreshes it when the month changes. The model keeps only what the list operations above do.
- `MonthView.SortNewestFirst`: stability (equal dates keep their input order) holds by construction but is not stated as a property.
- `MonthView.MonthlyView`: returns that sort's result, so the order of same-date entries is likewise not stated.
