# Work-time tracker core, in Dafny

This project models the core of a browser app in which employees log in
with their national ID number (cédula), stamp the start, lunch break and
close of their working day, and see the hours and "extra miles" of the
current week. It covers four parts of the app:

- **Login store** (`AuthContext`). It holds whether someone is logged in and
  with which cédula, mirrored in local storage under `userCedula`.
- **Login form** (`LoginForm`). The cédula field keeps only digits. On submit
  the form checks for a blank field, then for missing credentials, then
  looks the cédula up in an Airtable table. It logs in only when the lookup
  returns at least one record.
- **Work tracker** (`WorkContext`, the `WorkProvider` component):
  - `loadData` reads the Monday-to-Sunday week of entries from local storage.
    It totals hours and extra miles, then resumes today's open session or
    drops a stale one.
  - `startWork` opens a session.
  - `endWork` closes it and stores the day's entry with its hours, rounded
    to hundredths.
  - `addExtraMile` counts one extra mile on today's entry.
  - A one-minute tick refreshes the live hours while a session is open.
- **Workday panel** (`WorkdayControl`). Four buttons stamp the minute of the
  start, lunch start, lunch end and close. The stamps are saved under
  `workdayState_<cedula>`. The close posts them to a webhook and clears
  them once the webhook answers.

The work tracker modelled here is the corrected one. As written, the
tracker reads a `userInfo` field that the login store does not provide, so
it never has a user and every operation returns at once (first row of
"## Findings"). `WorkContext.WorkProvider` instead works for
`SessionUser(auth.userCedula)`, the logged-in, non-empty cédula, and its
`Tick` applies the corrected `Ticked` rather than the double-counting
`TickedAsWritten` (second row of "## Findings"). The program as written is
captured by `WorkContext.AsWrittenTrackerIgnoresLogin` and
`WorkContext.TickedAsWritten`.

Local storage is one shared `BrowserStorage.LocalStorage` object whose
`items` map every component reads and writes. The tracker and the panel are
classes whose methods update their fields and the storage in place. Each
method promises exactly a pure function of the state before:
- `WorkContext.Loaded`, `Started`, `Ended`, `MileAdded` and `Ticked` for the tracker.
- `WorkdayControl.Persisted`, `ClosedWorkday` and `ClosedItems` for the panel.

Lemmas about those functions state what the app promises: totals are
day-by-day sums, a reload resumes today's session, a load is idempotent,
and so on.

Units and encodings:
- Dates are day numbers from 1970-01-01, a Thursday.
- Times of day are seconds since midnight (the tracker) or minutes (the panel).
- Hours are integers in hundredths of an hour. The weekly target of 40 hours
  is therefore 4000.
- A date inside a storage key is its decimal day number. It stands in for the
  `YYYY-MM-DD` text and, like that text, is distinct for distinct dates.

## Model

| member | source | states |
|---|---|---|
| Calendar.MinuteOf | src/components/WorkdayControl.tsx:40 | the stamped minute is the minute of the day containing the instant |
| Calendar.Weekday | src/contexts/WorkContext.tsx:45 | `getDay()` lies in 0..6 and agrees modulo 7 with the day number, 1970-01-01 being a Thursday |
| Calendar.WeekStart | src/contexts/WorkContext.tsx:43-50 | the week start is a Monday at most six days before the date; a Sunday belongs to the week that began six days earlier |
| Calendar.WeekStartUnique | src/contexts/WorkContext.tsx:43-50 | that Monday is the only Monday at most six days back, so the week start is well defined |
| Calendar.WeekStartOfWeekDays | src/contexts/WorkContext.tsx:81-84 | each of the seven days `loadData` reads has the same week start |
| Calendar.DayTextInjective | src/contexts/WorkContext.tsx:84 | distinct dates give distinct date texts inside keys |
| Calendar.HoursHundredths | src/contexts/WorkContext.tsx:169 | the hours are the nearest hundredth of the elapsed time, halves rounded up, and 0 when the time is negative |
| Calendar.HoursHundredthsIsNearest | src/contexts/WorkContext.tsx:174 | any non-negative hundredth within half a hundredth of the elapsed time is exactly the stored value |
| BrowserStorage.LocalStorage.GetItem | src/contexts/WorkContext.tsx:86 | `getItem` returns the stored value, or none when the key is absent |
| BrowserStorage.LocalStorage.SetItem | src/contexts/WorkContext.tsx:128 | `setItem` replaces the value under one key and leaves every other key alone |
| BrowserStorage.LocalStorage.RemoveItem | src/contexts/WorkContext.tsx:113 | `removeItem` deletes one key and leaves every other key alone |
| AuthContext.SavedCedula | src/contexts/AuthContext.tsx:24-31 | the cédula restored on mount is the non-empty text under `userCedula`, or none |
| AuthContext.LoginThenReload | src/contexts/AuthContext.tsx:33-37 | after a login a reload restores that cédula, unless it is empty |
| AuthContext.LogoutThenReload | src/contexts/AuthContext.tsx:39-43 | after a logout a reload restores nothing |
| AuthContext.AuthProvider.constructor | src/contexts/AuthContext.tsx:21-22 | the store starts logged out with no cédula |
| AuthContext.AuthProvider.RestoreOnMount | src/contexts/AuthContext.tsx:24-31 | a saved non-empty cédula logs the user in; otherwise nothing changes; logged in iff a cédula is held |
| AuthContext.AuthProvider.Login | src/contexts/AuthContext.tsx:33-37 | logged in with exactly that cédula, saved under `userCedula`, no other key changed |
| AuthContext.AuthProvider.Logout | src/contexts/AuthContext.tsx:39-43 | logged out, no cédula, the `userCedula` key removed, no other key changed |
| LoginForm.DigitsOnly | src/components/LoginForm.tsx:117 | the filtered field holds digits only and is no longer than the input |
| LoginForm.DigitsOnlyAppend | src/components/LoginForm.tsx:117 | filtering a concatenation is concatenating the filtered parts |
| LoginForm.DigitsOnlyFixesDigits | src/components/LoginForm.tsx:117 | the filter leaves a string unchanged iff it is all digits |
| LoginForm.DigitsOnlyIdempotent | src/components/LoginForm.tsx:117 | filtering twice is filtering once |
| LoginForm.DigitsOnlyKeepsDigits | src/components/LoginForm.tsx:117 | every digit is kept as often as it occurs, and nothing else is kept |
| LoginForm.DigitsBlankIffEmpty | src/components/LoginForm.tsx:20 | for a filtered field, `trim()` is empty iff the field is empty |
| LoginForm.IsBlank | src/components/LoginForm.tsx:20 | `cedula.trim()` is empty: every character is JavaScript white space; `DigitsBlankIffEmpty` states what that means for the filtered field |
| LoginForm.LookupUrl | src/components/LoginForm.tsx:37 | the Airtable URL for the base, the encoded table name and the filter formula; `FilterFormula` and `FormulaQuotesOnlyDelimit` state what the formula carries |
| LoginForm.Configured | src/components/LoginForm.tsx:40 | both credentials are present and non-empty, as JavaScript's truthiness test demands; `Decide` states that nothing is requested without them |
| LoginForm.FilterFormula | src/components/LoginForm.tsx:37 | the cédula sits between the two quotes of `({Cedula}='…')` |
| LoginForm.FormulaQuotesOnlyDelimit | src/components/LoginForm.tsx:37 | a filtered cédula adds no quote to the formula, so it cannot break out of the quoted value |
| LoginForm.Decide | src/components/LoginForm.tsx:17-96 | loading is shown iff the field is not blank; a request is made iff also both credentials are set; the user is logged in with the typed cédula iff the response is OK with at least one record; each other path gets its own notice |
| LoginForm.Form.constructor | src/components/LoginForm.tsx:14-15 | the field starts empty and not loading |
| LoginForm.Form.OnChange | src/components/LoginForm.tsx:115-118 | the field becomes the digits of the typed text, so it only ever holds digits |
| LoginForm.Form.HandleSubmit | src/components/LoginForm.tsx:17-96 | the submit follows `Decide`; loading ends false except on a blank field; the login store and its storage change exactly when the user is logged in |
| WorkKeys.StorageKey | src/contexts/WorkContext.tsx:69-71 | `work_<cedula>_<suffix>`, or `work_guest_<suffix>` without a user; `StorageKeysDistinct`, `GuestKeysDistinct` and `SameUserKeys` state when two keys coincide |
| WorkKeys.StorageKeysDistinct | src/contexts/WorkContext.tsx:69-71 | two users whose cédulas have no `_` share no key |
| WorkKeys.GuestKeysDistinct | src/contexts/WorkContext.tsx:69-71 | a user's keys never collide with the guest keys, unless the cédula is `guest` |
| WorkKeys.SameUserKeys | src/contexts/WorkContext.tsx:69-71 | one user's keys with different suffixes differ |
| WorkKeys.EntryKeysDistinct | src/contexts/WorkContext.tsx:127-129 | different days are stored under different keys |
| WorkKeys.ActiveKeyIsNoEntryKey | src/contexts/WorkContext.tsx:100 | the open-session key is never a day's entry key |
| WeeklyTotals.WeekEntries | src/contexts/WorkContext.tsx:80-91 | the week yields at most one entry per day |
| WeeklyTotals.TotalAppend | src/contexts/WorkContext.tsx:94-95 | the `reduce` sum of a concatenation is the sum of the sums |
| WeeklyTotals.WeekTotalByDay | src/contexts/WorkContext.tsx:94-95 | summing the collected entries equals summing day by day, with a missing day counting 0 |
| WeeklyTotals.WeekEntriesFrame | src/contexts/WorkContext.tsx:81-91 | the collected week depends only on the seven entry keys |
| WeeklyTotals.Total | src/contexts/WorkContext.tsx:94-95 | the `reduce` sum of a list; `TotalAppend` and `WeekTotalByDay` state its meaning |
| WeeklyTotals.FindByDate | src/contexts/WorkContext.tsx:96 | `find` by date; `FindByDateSound`, `FindIsFirst` and `FindInWeek` state its meaning |
| WeeklyTotals.FindByDateSound | src/contexts/WorkContext.tsx:96 | `find` returns an entry of the list with that date, or none when no entry has it |
| WeeklyTotals.FindIsFirst | src/contexts/WorkContext.tsx:96 | `find` returns the first entry with that date |
| WeeklyTotals.FindAppend | src/contexts/WorkContext.tsx:96 | searching a concatenation searches the second part only when the first has no match |
| WeeklyTotals.WeekEntriesDates | src/contexts/WorkContext.tsx:81-91 | when keys hold entries of their own dates, every collected entry lies in the week |
| WeeklyTotals.FindInWeek | src/contexts/WorkContext.tsx:96-97 | looking a day of the week up in the collected list finds that day's stored entry |
| WeeklyTotals.Refreshed | src/contexts/WorkContext.tsx:249-253 | the refresh keeps the list's length |
| WeeklyTotals.RefreshedAt | src/contexts/WorkContext.tsx:249-253 | each entry of the session's date gets the live hours and is marked active; every other entry is unchanged |
| WeeklyTotals.RefreshedHours | src/contexts/WorkContext.tsx:255 | the refreshed entries' hours are the other days' hours plus the live hours once per entry of the session's date |
| WeeklyTotals.RefreshedExcept | src/contexts/WorkContext.tsx:249-253 | the refresh changes neither the other days' sums nor the number of entries of the session's date |
| WorkContext.SessionUser | src/contexts/WorkContext.tsx:57 | the corrected tracker's user: the logged-in cédula when it is non-empty, no one otherwise; `SessionUserIsAuthenticated` and `WorkdayControl.TrackerAndPanelShareLogin` state what that means |
| WorkContext.SessionUserIsAuthenticated | src/contexts/AuthContext.tsx:46 | the corrected tracker has a user only while the login store is authenticated, and that user is the store's cédula; logged out, it has none |
| WorkContext.Loaded | src/contexts/WorkContext.tsx:73-125 | `loadData` as a function of the state; `LoadedTotals`, `LoadedSession`, `LoadedIdempotent` and `LoadedIsSynced` state what it promises |
| WorkContext.Started | src/contexts/WorkContext.tsx:131-158 | `startWork` as a function of the state; `StartedOpensSession` states what it promises |
| WorkContext.Ended | src/contexts/WorkContext.tsx:160-186 | `endWork` as a function of the state; `EndedStoresClosedEntry`, `EndedIsNoOpOtherwise` and `EndedTwice` state what it promises |
| WorkContext.EndHours | src/contexts/WorkContext.tsx:167-174 | the closed entry's hours; `EndHoursNearest` states that they are the nearest non-negative hundredth |
| WorkContext.MileAdded | src/contexts/WorkContext.tsx:191-226 | `addExtraMile` as a function of the state; `MileAddedCountsOne` and `MileThenReloadStep` state what it promises |
| WorkContext.LiveHours | src/contexts/WorkContext.tsx:244-246 | the hours since the session's start, rounded to hundredths and never negative |
| WorkContext.TickedAsWritten | src/contexts/WorkContext.tsx:243-262 | the tick as written; `TickedAsWrittenCountsTodayTwice` and `TickedAsWrittenExample` state what it computes |
| WorkContext.Ticked | src/contexts/WorkContext.tsx:243-262 | the corrected tick; `TickedCountsLiveOnce` and `TickedTouchesSessionDateOnly` state what it promises |
| WorkContext.LoadedTotals | src/contexts/WorkContext.tsx:93-97 | the weekly hours and miles are the day-by-day sums over the week of today; today's miles are those of today's stored entry, or 0 |
| WorkContext.LoadedSession | src/contexts/WorkContext.tsx:99-115 | a stored session dated today is resumed; any other stored session is removed and the working flag and current entry stay as they were |
| WorkContext.ActiveKeyOffTheWeek | src/contexts/WorkContext.tsx:113 | removing a stale session changes none of the week's entries |
| WorkContext.LoadedIdempotent | src/contexts/WorkContext.tsx:231-233 | a refresh right after a load changes nothing |
| WorkContext.ReloadResumesSession | src/contexts/WorkContext.tsx:104-110 | a reload during today's session resumes it with its start time |
| WorkContext.StartedOpensSession | src/contexts/WorkContext.tsx:131-158 | start does nothing iff there is no user or a session is open; otherwise it opens an active session for today, starting now, with no hours and today's extra miles, stored under the session key alone |
| WorkContext.EndHoursNearest | src/contexts/WorkContext.tsx:167-174 | a closed entry's hours are never negative and are the nearest hundredth of the time from its start to now |
| WorkContext.EndedStoresClosedEntry | src/contexts/WorkContext.tsx:160-185 | end stores the current entry under its own date with the end time, the hours and `isActive` false, removes the session key and clears the session |
| WorkContext.EndedIsNoOpOtherwise | src/contexts/WorkContext.tsx:161 | end changes nothing iff there is no user, no open session or no current entry |
| WorkContext.EndedTwice | src/contexts/WorkContext.tsx:160-189 | ending twice is ending once |
| WorkContext.NineToFiveIsNineHours | src/contexts/WorkContext.tsx:131-185 | a session started at 08:00 and ended at 17:00 on the same date stores 9.00 hours; the lunch break is not subtracted |
| WorkContext.TodayBase | src/contexts/WorkContext.tsx:195-208 | the entry an extra mile is counted on is dated today |
| WorkContext.MileAddedCountsOne | src/contexts/WorkContext.tsx:191-225 | today's stored entry becomes the in-memory one plus one mile, or a fresh entry with one mile and no hours; the session gains one mile iff the current entry is today's; no other day's entry is written |
| WorkContext.LoadedKeepsDates | src/contexts/WorkContext.tsx:99-115 | a load keeps every entry key holding an entry of its own date |
| WorkContext.StartedKeepsDates | src/contexts/WorkContext.tsx:152 | so does a start |
| WorkContext.EndedKeepsDates | src/contexts/WorkContext.tsx:179-182 | so does an end |
| WorkContext.MileAddedKeepsDates | src/contexts/WorkContext.tsx:222-225 | so does an extra mile |
| WorkContext.LoadedIsSynced | src/contexts/WorkContext.tsx:117-124 | after a load the in-memory week is exactly the stored week |
| WorkContext.MileThenReloadStep | src/contexts/WorkContext.tsx:225-228 | an extra mile followed by its reload raises today's stored miles by one and shows them |
| WorkContext.MilesWithoutReloadCountOnce | src/contexts/WorkContext.tsx:195 | two extra miles before the reload count once, because both start from the same in-memory entry |
| WorkContext.TickedAsWrittenCountsTodayTwice | src/contexts/WorkContext.tsx:248-255 | as written, the tick's total counts the live hours once more than there are entries of the session's date (see Findings) |
| WorkContext.TickedAsWrittenExample | src/contexts/WorkContext.tsx:255 | one hour into a session with today's entry stored, the total as written is 2.00 hours where 1.00 is meant |
| WorkContext.TickedCountsLiveOnce | src/contexts/WorkContext.tsx:248-261 | the corrected total is the other days' hours plus the live hours once; it equals the refreshed list's sum when today has one entry; nothing else in the weekly data changes |
| WorkContext.TickedTouchesSessionDateOnly | src/contexts/WorkContext.tsx:249-253 | the tick rewrites, in place, only the entries of the session's date |
| WorkContext.AsWrittenTrackerIgnoresLogin | src/contexts/WorkContext.tsx:57 | as written, every tracker operation is a no-op even for a logged-in user; with the corrected user, start opens a session |
| WorkContext.WorkProvider.constructor | src/contexts/WorkContext.tsx:56-67 | the corrected tracker starts idle with the initial weekly data, for `SessionUser` of the login store's cédula |
| WorkContext.WorkProvider.LoadData | src/contexts/WorkContext.tsx:73-125 | the state and storage after the load are `Loaded` of the state before |
| WorkContext.WorkProvider.CollectWeek | src/contexts/WorkContext.tsx:80-91 | the loop collects exactly the week's stored entries in day order |
| WorkContext.WorkProvider.RefreshData | src/contexts/WorkContext.tsx:231-233 | a refresh is a load |
| WorkContext.WorkProvider.StartWork | src/contexts/WorkContext.tsx:131-158 | the state and storage after start are `Started` of the state before |
| WorkContext.WorkProvider.EndWork | src/contexts/WorkContext.tsx:160-186 | the state and storage after end are `Ended` of the state before |
| WorkContext.WorkProvider.AddExtraMile | src/contexts/WorkContext.tsx:191-226 | the state and storage after an extra mile are `MileAdded` of the state before |
| WorkContext.WorkProvider.Tick | src/contexts/WorkContext.tsx:243-262 | the weekly data after a tick is the corrected `Ticked`; the session is unchanged |
| WorkdayControl.WorkdayKey | src/components/WorkdayControl.tsx:13 | the panel has a key iff a non-empty cédula is logged in, and the key is `workdayState_` followed by it |
| WorkdayControl.WorkdayKeyIsForeign | src/components/WorkdayControl.tsx:13 | the panel's key is neither the login key nor any tracker key |
| WorkdayControl.InitialWorkday | src/components/WorkdayControl.tsx:16-29 | the stamps a mount starts from; `SaveThenRemount` and `MountPersistRewritesNothing` state what it promises |
| WorkdayControl.Persisted | src/components/WorkdayControl.tsx:32-39 | the storage after the save effect; `SaveThenRemount` and `MountPersistRewritesNothing` state what it promises |
| WorkdayControl.SaveThenRemount | src/components/WorkdayControl.tsx:16-37 | stamps saved while a start or lunch stamp is set are exactly what the next mount starts from; without a logged-in cédula the panel starts empty and never writes storage |
| WorkdayControl.MountPersistRewritesNothing | src/components/WorkdayControl.tsx:16-39 | the save that runs on mount leaves storage unchanged |
| WorkdayControl.StartEnabled | src/components/WorkdayControl.tsx:93 | "Iniciar" is enabled exactly while no start is stamped and the tracker is not working |
| WorkdayControl.LunchEnabled | src/components/WorkdayControl.tsx:99 | "Almuerzo" is enabled exactly while the start is stamped and lunch has not started |
| WorkdayControl.EndLunchEnabled | src/components/WorkdayControl.tsx:102 | "Fin Almuerzo" is enabled exactly while lunch has started and not ended |
| WorkdayControl.CloseEnabled | src/components/WorkdayControl.tsx:105 | "Cerrar" is enabled exactly while the start is stamped |
| WorkdayControl.Pressed | src/components/WorkdayControl.tsx:42-59 | one click; `StampsStick`, `RunKeepsChain`, `RunKeepsOrder` and `RunStampedBy` state what clicks promise |
| WorkdayControl.ClosedWorkday | src/components/WorkdayControl.tsx:61-84 | the stamps after a close; `CloseOutcome` states what it promises |
| WorkdayControl.ClosedItems | src/components/WorkdayControl.tsx:61-84 | the storage after a close; `CloseOutcome` states what it promises |
| WorkdayControl.StampsStick | src/components/WorkdayControl.tsx:91-106 | a set start or lunch stamp is never overwritten; only an answered close clears the stamps |
| WorkdayControl.PressedKeepsOrder | src/components/WorkdayControl.tsx:42-105 | one click keeps the stamps in order and no later than itself |
| WorkdayControl.RunKeepsChain | src/components/WorkdayControl.tsx:91-106 | from no stamps, any clicks through the enabled buttons leave lunch end only after lunch start and lunch start only after the day start |
| WorkdayControl.RunKeepsOrder | src/components/WorkdayControl.tsx:91-106 | clicks made in time order through the enabled buttons keep lunch after start, lunch end after lunch start and close after start |
| WorkdayControl.CloseBodyOrdered | src/components/WorkdayControl.tsx:61-76 | after clicks in time order through the enabled buttons from no stamps, the body posted at the close carries a start stamp, with lunch start, lunch end and close in order after it wherever present |
| WorkdayControl.RunStampedBy | src/components/WorkdayControl.tsx:42-59 | no click sequence leaves a stamp later than its latest click |
| WorkdayControl.TrackerAndPanelShareLogin | src/components/WorkdayControl.tsx:13 | the corrected tracker and the panel have a user for exactly the same logins, and both key their storage by that cédula |
| WorkdayControl.HandlersArePresses | src/components/WorkdayControl.tsx:42-105 | for each enabled button, the click model stamps exactly what the button's handler stamps, and an enabled close ends as the close outcome for the webhook's delivery |
| WorkdayControl.UnguardedLunchBreaksChain | src/components/WorkdayControl.tsx:99 | a lunch stamp without a start stamp breaks the chain; the disabled "Almuerzo" button leaves the stamps as they were |
| WorkdayControl.CloseOutcome | src/components/WorkdayControl.tsx:61-84 | any answer, whatever its status, removes the saved workday and nothing else, and a remount starts empty; no answer leaves it saved with the close stamp |
| WorkdayControl.Panel.constructor | src/components/WorkdayControl.tsx:11-39 | the panel mounts with the saved stamps for its key and leaves storage unchanged |
| WorkdayControl.Panel.SaveEffect | src/components/WorkdayControl.tsx:32-39 | storage after the save effect is `Persisted` of the stamps |
| WorkdayControl.Panel.HandleStartWorkday | src/components/WorkdayControl.tsx:42-47 | the start is stamped, the tracker performs `Started`, and the stamps are saved; when "Iniciar" is enabled the new stamps are the click model's `Pressed` |
| WorkdayControl.Panel.HandleStartLunch | src/components/WorkdayControl.tsx:49-53 | the lunch start is stamped and saved; when "Almuerzo" is enabled the new stamps are `Pressed` |
| WorkdayControl.Panel.HandleEndLunch | src/components/WorkdayControl.tsx:55-59 | the lunch end is stamped and saved; when "Fin Almuerzo" is enabled the new stamps are `Pressed` |
| WorkdayControl.Panel.HandleEndWorkday | src/components/WorkdayControl.tsx:61-84 | the close is stamped, the tracker performs `Ended`, the body posted is `CloseBody`, and stamps and storage follow the webhook's outcome; when "Cerrar" is enabled the new stamps are `Pressed` with the close answered exactly when the webhook responded |

## Left out

- The browser's `Date` API is not modelled. A `Calendar.Clock` parameter supplies today's date, the second of the day and the epoch milliseconds. The mismatch between the UTC date (`toISOString`) and the local time of day (`toTimeString`) is not modelled: both come from the same clock.
- Entry ids, dates and times are integers (`Records.EntryId`, `Day`, `Second`), not the tracker's `YYYY-MM-DD` and `HH:MM:SS` texts. Only their distinctness and their arithmetic are kept.
- WorkdayControl.CloseBodyOrdered: the panel's stamps are texts from `toLocaleTimeString('es-CO', { hour: '2-digit', minute: '2-digit' })`. Under the es-CO locale these are 12-hour texts with "a. m." or "p. m.", such as "02:05 p. m.". A `Minute` keeps their time of day but not their text. The order proved therefore holds for the times of day, not for the texts posted to the webhook, which do not sort in time order.
- Floating-point hours are not modelled. Hours are exact integers in hundredths, and `targetHours` (40) is 4000 hundredths.
- JSON serialisation is not modelled. Storage holds typed values (`BrowserStorage.Value`). A value that is not an entry where an entry is expected reads as absent, and such a value under the session key counts as a stale session. Text that `JSON.parse` would reject is not modelled.
- WorkContext.EndHours and WorkContext.LiveHours: an entry without a start time yields 0 hours, where the source computes `NaN`.
- The timers are not modelled: the `setTimeout(loadData, 100)` after `endWork` and `addExtraMile`, the one-minute `setInterval` of the tick, and the mount effect that calls `loadData`. The caller invokes `LoadData` and `Tick`. `MileThenReloadStep` and `MilesWithoutReloadCountOnce` state the two orders in which an extra mile and its reload can happen.
- The webhook and Airtable requests are not modelled as network calls. Their outcomes are inputs (`WorkdayControl.Delivery`, `LoginForm.Reply`), and what is sent is an output (`Submission`, the lookup URL).
- Toasts, console output, rendering, the badge texts and disabled inputs are not modelled. The only button behaviour kept is whether each button is enabled (`WorkdayControl.Enabled`).
- LoginForm.IsBlank: JavaScript's white-space set is listed character by character. Unicode categories are not derived.
- LoginForm.Decide: the body of a non-OK response is not modelled. Reading it or failing to read it leads to the same failure notice.
- The other components (`ExtraMileForm`, `WeeklySummary`, `UserInfoCard`, `AppLayout`, `Index`) and the UI library are not part of this model.

## Findings

| source | as written | input that shows it | evidently intended | confidence | as-written member | corrected member |
|---|---|---|---|---|---|---|
| src/contexts/WorkContext.tsx:57 | the tracker reads `userInfo` from the login store, which provides only `isAuthenticated`, `userCedula`, `login` and `logout` (src/contexts/AuthContext.tsx:3-8), so the user is always undefined and `loadData`, `startWork`, `endWork` and `addExtraMile` all return at once | log in as `123`, then press "Iniciar": no session is opened and nothing is stored | the tracker works for the logged-in cédula, as its keys `work_<cedula>_…` intend | high, not executed | WorkContext.AsWrittenTrackerIgnoresLogin | WorkContext.SessionUser |
| src/contexts/WorkContext.tsx:255 | the live total adds the live hours to the sum of the refreshed entries, which already carry the live hours on today's entry, so today counts twice | latent until the first row is fixed: as written no session ever opens, so the tick never runs; once the tracker has a user, today's entry stored with 0 hours, session started 08:00, tick at 09:00 gives a total of 2.00 hours | today's hours counted once: the other days' hours plus the live hours | high, not executed | WorkContext.TickedAsWrittenExample | WorkContext.TickedCountsLiveOnce |
