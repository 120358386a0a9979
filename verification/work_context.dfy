/**
 * The work-session tracker (`WorkProvider`): the user's open session, the
 * week's entries and totals, and the transitions `loadData`, `startWork`,
 * `endWork`, `addExtraMile` and the live refresh tick.
 *
 * Each transition is first a function from the state before to the state
 * after (`Loaded`, `Started`, `Ended`, `MileAdded`, `Ticked`); the
 * `WorkProvider` class then performs it in place on its fields and on the
 * shared local storage, and promises exactly that function's result.
 */
module WorkContext {
  import opened Wrappers
  import opened Calendar
  import opened Records
  import opened BrowserStorage
  import opened WorkKeys
  import opened WeeklyTotals
  import AuthContext

  /** The weekly target of 40 hours, in hundredths. */
  const TargetHours: int := 4000

  datatype WeeklyData = WeeklyData(
    totalHours: int,
    targetHours: int,
    dailyExtraMiles: int,
    weeklyExtraMiles: int,
    isCurrentlyActive: bool,
    currentWeekEntries: seq<WorkEntry>)

  const InitialWeekly: WeeklyData := WeeklyData(0, TargetHours, 0, 0, false, [])

  /** The tracker's in-memory state together with the contents of local storage. */
  datatype WorkState = WorkState(
    isWorking: bool,
    currentEntry: Option<WorkEntry>,
    weekly: WeeklyData,
    items: map<string, Value>)

  // The user the tracker works for.

  /**
   * The user as the tracker reads it: the auth context offers
   * `isAuthenticated`, `userCedula`, `login` and `logout`, and no
   * `userInfo`, so the field read is always undefined.
   */
  function UserInfoAsWritten(isAuthenticated: bool, userCedula: Option<string>): Option<string>
  {
    None
  }

  /** The user the tracker is meant to work for: the logged-in, non-empty cédula. */
  function SessionUser(userCedula: Option<string>): Option<string>
  {
    if userCedula.Some? && userCedula.value != "" then userCedula else None
  }

  /** The corrected tracker has a user only while the login store holds a logged-in session. */
  lemma SessionUserIsAuthenticated(auth: AuthContext.AuthProvider)
    requires auth.Valid()
    ensures SessionUser(auth.userCedula).Some? ==> auth.isAuthenticated && SessionUser(auth.userCedula) == auth.userCedula
    ensures !auth.isAuthenticated ==> SessionUser(auth.userCedula).None?
  {
  }

  // loadData

  /** `loadData`: collect the week, total it, and resume or drop the stored open session. */
  function Loaded(user: Option<string>, s: WorkState, today: Day): WorkState
  {
    if user.None? then s
    else
      var entries := WeekEntries(s.items, user, WeekStart(today), 7);
      var todayEntry := FindByDate(entries, today);
      var key := ActiveKey(user);
      var session := EntryAt(s.items, key);
      var resume := session.Some? && session.value.date == today;
      var weekly := WeeklyData(
        Total(entries, HoursOf), TargetHours,
        if todayEntry.Some? then todayEntry.value.extraMiles else 0,
        Total(entries, MilesOf), resume, entries);
      if resume then WorkState(true, session, weekly, s.items)
      else WorkState(s.isWorking, s.currentEntry, weekly, s.items - {key})
  }

  /**
   * The load's totals are day-by-day sums over the Monday-based week of
   * `today`, missing days counting 0; today's extra miles are those of
   * today's stored entry, or 0.
   */
  lemma LoadedTotals(user: Option<string>, s: WorkState, today: Day)
    requires user.Some?
    ensures Loaded(user, s, today).weekly.totalHours == DaysTotal(s.items, user, WeekStart(today), 7, HoursOf)
    ensures Loaded(user, s, today).weekly.weeklyExtraMiles == DaysTotal(s.items, user, WeekStart(today), 7, MilesOf)
    ensures DatesConsistent(s.items, user) ==>
      Loaded(user, s, today).weekly.dailyExtraMiles == DayAmount(s.items, user, today, MilesOf)
  {
    var r := Loaded(user, s, today);
    var entries := WeekEntries(s.items, user, WeekStart(today), 7);
    assert r.weekly.totalHours == Total(entries, HoursOf) && r.weekly.weeklyExtraMiles == Total(entries, MilesOf);
    assert r.weekly.dailyExtraMiles == if FindByDate(entries, today).Some? then FindByDate(entries, today).value.extraMiles else 0;
    WeekTotalByDay(s.items, user, WeekStart(today), 7, HoursOf);
    WeekTotalByDay(s.items, user, WeekStart(today), 7, MilesOf);
    if DatesConsistent(s.items, user) {
      FindInWeek(s.items, user, WeekStart(today), 7, today);
    }
  }

  /**
   * A stored session dated today is resumed; any other stored session is
   * removed and leaves `isWorking` and the current entry as they were.
   */
  lemma LoadedSession(user: Option<string>, s: WorkState, today: Day)
    requires user.Some?
    ensures var r := Loaded(user, s, today);
      var session := EntryAt(s.items, ActiveKey(user));
      if session.Some? && session.value.date == today then
        r.isWorking && r.currentEntry == session && r.weekly.isCurrentlyActive && r.items == s.items
      else
        && r.isWorking == s.isWorking && r.currentEntry == s.currentEntry && !r.weekly.isCurrentlyActive
        && r.items == s.items - {ActiveKey(user)}
  {
  }

  /** Dropping the open session does not change any day's entry. */
  lemma ActiveKeyOffTheWeek(items: map<string, Value>, user: Option<string>, weekStart: Day)
    ensures WeekEntries(items - {ActiveKey(user)}, user, weekStart, 7) == WeekEntries(items, user, weekStart, 7)
  {
    forall d | weekStart <= d < weekStart + 7
      ensures Stored(items - {ActiveKey(user)}, user, d) == Stored(items, user, d)
    {
      ActiveKeyIsNoEntryKey(user, d);
    }
    WeekEntriesFrame(items - {ActiveKey(user)}, items, user, weekStart, 7);
  }

  /** Refreshing is idempotent: a second load right after a first changes nothing. */
  lemma LoadedIdempotent(user: Option<string>, s: WorkState, today: Day)
    ensures Loaded(user, Loaded(user, s, today), today) == Loaded(user, s, today)
  {
    if user.Some? {
      ActiveKeyOffTheWeek(s.items, user, WeekStart(today));
    }
  }

  /** A reload in the middle of today's session resumes it with its start time. */
  lemma ReloadResumesSession(user: Option<string>, items: map<string, Value>, today: Day, session: WorkEntry)
    requires user.Some?
    requires ActiveKey(user) in items && items[ActiveKey(user)] == EntryValue(session)
    requires session.date == today
    ensures var r := Loaded(user, WorkState(false, None, InitialWeekly, items), today);
      r.isWorking && r.currentEntry == Some(session) && r.currentEntry.value.startTime == session.startTime
  {
  }

  // startWork

  /**
   * `startWork`: unless there is no user or a session is already open, open
   * one for today that starts now, carrying today's extra miles, and store
   * it as the active session.
   */
  function Started(user: Option<string>, s: WorkState, clock: Clock): WorkState
  {
    if user.None? || s.isWorking then s
    else
      var e := WorkEntry(EntryId(clock.today, clock.epochMillis), clock.today, Some(clock.secondOfDay),
                         None, 0, s.weekly.dailyExtraMiles, true);
      WorkState(true, Some(e), s.weekly.(isCurrentlyActive := true), s.items[ActiveKey(user) := EntryValue(e)])
  }

  lemma StartedOpensSession(user: Option<string>, s: WorkState, clock: Clock)
    ensures var r := Started(user, s, clock);
      && (r == s <==> user.None? || s.isWorking)
      && (r != s ==>
            && r.isWorking && r.weekly.isCurrentlyActive
            && r.currentEntry.Some? && r.currentEntry.value.date == clock.today
            && r.currentEntry.value.startTime == Some(clock.secondOfDay)
            && r.currentEntry.value.endTime == None && r.currentEntry.value.hoursWorked == 0
            && r.currentEntry.value.isActive
            && r.currentEntry.value.extraMiles == s.weekly.dailyExtraMiles
            && r.items == s.items[ActiveKey(user) := EntryValue(r.currentEntry.value)])
  {
  }

  // endWork

  /**
   * The hours of a session that ends at `endSecond` of the session's own
   * date: both times are read against that date, so a session that
   * crosses midnight yields 0.
   */
  function EndHours(c: WorkEntry, endSecond: Second): nat
  {
    match c.startTime
    case Some(st) => HoursHundredths(endSecond - st)
    case None => 0
  }

  /**
   * `endWork`: unless there is no user, no open session or no current
   * entry, store the current entry under its date, closed now, and drop
   * the active session.
   */
  function Ended(user: Option<string>, s: WorkState, clock: Clock): WorkState
  {
    if user.None? || !s.isWorking || s.currentEntry.None? then s
    else
      var c := s.currentEntry.value;
      var closed := c.(endTime := Some(clock.secondOfDay), hoursWorked := EndHours(c, clock.secondOfDay), isActive := false);
      WorkState(false, None, s.weekly, s.items[EntryKey(user, c.date) := EntryValue(closed)] - {ActiveKey(user)})
  }

  /** The hours of a session are never negative and are the nearest hundredth of an hour elapsed. */
  lemma EndHoursNearest(c: WorkEntry, endSecond: Second)
    ensures EndHours(c, endSecond) >= 0
    ensures c.startTime.Some? && endSecond - c.startTime.value >= -18 ==>
      36 * EndHours(c, endSecond) - 18 <= endSecond - c.startTime.value < 36 * EndHours(c, endSecond) + 18
    ensures c.startTime.None? ==> EndHours(c, endSecond) == 0
  {
  }

  /** Ending stores the current entry, closed now, under its own date and drops the active session. */
  lemma EndedStoresClosedEntry(user: Option<string>, s: WorkState, clock: Clock)
    requires user.Some? && s.isWorking && s.currentEntry.Some?
    ensures var r := Ended(user, s, clock);
      var c := s.currentEntry.value;
      && !r.isWorking && r.currentEntry == None && ActiveKey(user) !in r.items
      && Stored(r.items, user, c.date)
         == Some(c.(endTime := Some(clock.secondOfDay), hoursWorked := EndHours(c, clock.secondOfDay), isActive := false))
      && r.weekly == s.weekly
  {
    ActiveKeyIsNoEntryKey(user, s.currentEntry.value.date);
  }

  lemma EndedIsNoOpOtherwise(user: Option<string>, s: WorkState, clock: Clock)
    ensures Ended(user, s, clock) == s <==> user.None? || !s.isWorking || s.currentEntry.None?
  {
  }

  /** Ending twice in a row: the second end does nothing. */
  lemma EndedTwice(user: Option<string>, s: WorkState, clock1: Clock, clock2: Clock)
    ensures Ended(user, Ended(user, s, clock1), clock2) == Ended(user, s, clock1)
  {
  }

  /**
   * A day started at 08:00 with a lunch break and closed at 17:00 on the
   * same date is worth 9.00 hours: the lunch break is not subtracted.
   */
  lemma NineToFiveIsNineHours(cedula: string, items: map<string, Value>, weekly: WeeklyData, today: Day, millis: int)
    requires cedula != ""
    ensures var user := Some(cedula);
      var started := Started(user, WorkState(false, None, weekly, items), Clock(today, 8 * 3600, millis));
      var ended := Ended(user, started, Clock(today, 17 * 3600, millis + 9 * 3600 * 1000));
      Stored(ended.items, user, today).Some? && Stored(ended.items, user, today).value.hoursWorked == 900
  {
    ActiveKeyIsNoEntryKey(Some(cedula), today);
  }

  // addExtraMile

  /** The entry `addExtraMile` increments: today's entry in the loaded week, or a fresh empty one. */
  function TodayBase(s: WorkState, clock: Clock): (e: WorkEntry)
    ensures e.date == clock.today
  {
    FindByDateSound(s.weekly.currentWeekEntries, clock.today);
    match FindByDate(s.weekly.currentWeekEntries, clock.today)
    case Some(e) => e
    case None => WorkEntry(EntryId(clock.today, clock.epochMillis), clock.today, None, None, 0, 0, false)
  }

  /**
   * `addExtraMile`: store today's entry with one more extra mile, and, when
   * the current entry is today's, count it there and in the active
   * session too.
   */
  function MileAdded(user: Option<string>, s: WorkState, clock: Clock): WorkState
  {
    if user.None? then s
    else
      var base := TodayBase(s, clock);
      var updated := base.(extraMiles := base.extraMiles + 1);
      if s.currentEntry.Some? && s.currentEntry.value.date == clock.today then
        var cur := s.currentEntry.value.(extraMiles := s.currentEntry.value.extraMiles + 1);
        WorkState(s.isWorking, Some(cur), s.weekly,
                  s.items[ActiveKey(user) := EntryValue(cur)][EntryKey(user, updated.date) := EntryValue(updated)])
      else
        WorkState(s.isWorking, s.currentEntry, s.weekly, s.items[EntryKey(user, updated.date) := EntryValue(updated)])
  }

  /**
   * One extra mile: today's stored entry is the in-memory one plus one mile
   * (a fresh entry with one mile if there was none), the active session
   * gains one mile exactly when the current entry is today's, and no other
   * day's entry is written.
   */
  lemma MileAddedCountsOne(user: Option<string>, s: WorkState, clock: Clock)
    requires user.Some?
    ensures var r := MileAdded(user, s, clock);
      var base := TodayBase(s, clock);
      && Stored(r.items, user, clock.today) == Some(base.(extraMiles := base.extraMiles + 1))
      && (FindByDate(s.weekly.currentWeekEntries, clock.today).None? ==>
            && Stored(r.items, user, clock.today).value.extraMiles == 1
            && Stored(r.items, user, clock.today).value.hoursWorked == 0
            && Stored(r.items, user, clock.today).value.startTime == None)
      && (forall d :: d != clock.today ==> Stored(r.items, user, d) == Stored(s.items, user, d))
      && (if s.currentEntry.Some? && s.currentEntry.value.date == clock.today then
            && r.currentEntry == Some(s.currentEntry.value.(extraMiles := s.currentEntry.value.extraMiles + 1))
            && EntryAt(r.items, ActiveKey(user)) == r.currentEntry
          else
            && r.currentEntry == s.currentEntry
            && EntryAt(r.items, ActiveKey(user)) == EntryAt(s.items, ActiveKey(user)))
  {
    var today := clock.today;
    ActiveKeyIsNoEntryKey(user, today);
    forall d | d != today
      ensures Stored(MileAdded(user, s, clock).items, user, d) == Stored(s.items, user, d)
    {
      EntryKeysDistinct(user, today, d);
      ActiveKeyIsNoEntryKey(user, d);
    }
  }

  // Every transition keeps each entry key holding an entry of its own date.

  lemma LoadedKeepsDates(user: Option<string>, s: WorkState, today: Day)
    requires DatesConsistent(s.items, user)
    ensures DatesConsistent(Loaded(user, s, today).items, user)
  {
    forall d ensures DateMatches(Loaded(user, s, today).items, user, d) {
      ActiveKeyIsNoEntryKey(user, d);
      assert DateMatches(s.items, user, d);
    }
  }

  lemma StartedKeepsDates(user: Option<string>, s: WorkState, clock: Clock)
    requires DatesConsistent(s.items, user)
    ensures DatesConsistent(Started(user, s, clock).items, user)
  {
    forall d ensures DateMatches(Started(user, s, clock).items, user, d) {
      ActiveKeyIsNoEntryKey(user, d);
      assert DateMatches(s.items, user, d);
    }
  }

  lemma EndedKeepsDates(user: Option<string>, s: WorkState, clock: Clock)
    requires DatesConsistent(s.items, user)
    ensures DatesConsistent(Ended(user, s, clock).items, user)
  {
    if user.Some? && s.isWorking && s.currentEntry.Some? {
      var c := s.currentEntry.value;
      forall d ensures DateMatches(Ended(user, s, clock).items, user, d) {
        ActiveKeyIsNoEntryKey(user, d);
        if d != c.date {
          EntryKeysDistinct(user, c.date, d);
          assert DateMatches(s.items, user, d);
        }
      }
    }
  }

  lemma MileAddedKeepsDates(user: Option<string>, s: WorkState, clock: Clock)
    requires DatesConsistent(s.items, user)
    ensures DatesConsistent(MileAdded(user, s, clock).items, user)
  {
    if user.Some? {
      MileAddedCountsOne(user, s, clock);
      forall d ensures DateMatches(MileAdded(user, s, clock).items, user, d) {
        assert DateMatches(s.items, user, d);
      }
    }
  }

  // Extra miles over several presses.

  /** The in-memory week is the one stored, as right after a load. */
  ghost predicate Synced(user: Option<string>, s: WorkState, today: Day)
  {
    && DatesConsistent(s.items, user)
    && s.weekly.currentWeekEntries == WeekEntries(s.items, user, WeekStart(today), 7)
  }

  lemma LoadedIsSynced(user: Option<string>, s: WorkState, today: Day)
    requires user.Some? && DatesConsistent(s.items, user)
    ensures Synced(user, Loaded(user, s, today), today)
  {
    LoadedKeepsDates(user, s, today);
    ActiveKeyOffTheWeek(s.items, user, WeekStart(today));
  }

  /** One press followed by its reload raises today's stored count by one and shows it. */
  lemma MileThenReloadStep(user: Option<string>, s: WorkState, clock: Clock)
    requires user.Some? && Synced(user, s, clock.today)
    ensures var r := Loaded(user, MileAdded(user, s, clock), clock.today);
      && Synced(user, r, clock.today)
      && DayAmount(r.items, user, clock.today, MilesOf) == DayAmount(s.items, user, clock.today, MilesOf) + 1
      && r.weekly.dailyExtraMiles == DayAmount(r.items, user, clock.today, MilesOf)
  {
    var today := clock.today;
    var added := MileAdded(user, s, clock);
    FindInWeek(s.items, user, WeekStart(today), 7, today);
    MileAddedCountsOne(user, s, clock);
    MileAddedKeepsDates(user, s, clock);
    LoadedIsSynced(user, added, today);
    LoadedTotals(user, added, today);
    ActiveKeyIsNoEntryKey(user, today);
  }

  /**
   * Two presses without the reload in between count once: the second
   * press starts again from the same in-memory entry.
   */
  lemma MilesWithoutReloadCountOnce(user: Option<string>, s: WorkState, clock: Clock)
    requires user.Some? && Synced(user, s, clock.today)
    ensures var twice := MileAdded(user, MileAdded(user, s, clock), clock);
      DayAmount(twice.items, user, clock.today, MilesOf) == DayAmount(s.items, user, clock.today, MilesOf) + 1
  {
    var once := MileAdded(user, s, clock);
    FindInWeek(s.items, user, WeekStart(clock.today), 7, clock.today);
    MileAddedCountsOne(user, s, clock);
    MileAddedCountsOne(user, once, clock);
  }

  // The live refresh tick.

  /** The live hours of the current entry at `clock`, measured from its start, never negative. */
  function LiveHours(c: WorkEntry, clock: Clock): nat
  {
    match c.startTime
    case Some(st) => HoursHundredths((clock.today - c.date) * SecondsPerDay + clock.secondOfDay - st)
    case None => 0
  }

  /** The tick's total as written: the refreshed entries' hours plus the live hours. */
  function TickedAsWritten(w: WeeklyData, c: WorkEntry, clock: Clock): WeeklyData
  {
    var live := LiveHours(c, clock);
    var es := Refreshed(w.currentWeekEntries, c.date, live);
    w.(totalHours := Total(es, HoursOf) + live, currentWeekEntries := es)
  }

  /** As written, the live hours are counted once more for every entry of the session's date. */
  lemma TickedAsWrittenCountsTodayTwice(w: WeeklyData, c: WorkEntry, clock: Clock)
    ensures TickedAsWritten(w, c, clock).totalHours
         == TotalExcept(w.currentWeekEntries, c.date, HoursOf) + LiveHours(c, clock) * (CountOn(w.currentWeekEntries, c.date) + 1)
  {
    RefreshedHours(w.currentWeekEntries, c.date, LiveHours(c, clock));
  }

  /** One hour into a session, with today's entry already stored, the total as written shows two hours. */
  lemma TickedAsWrittenExample(today: Day, millis: int)
    ensures var today0 := WorkEntry(EntryId(today, millis), today, None, None, 0, 1, false);
      var c := WorkEntry(EntryId(today, millis), today, Some(8 * 3600), None, 0, 1, true);
      var w := InitialWeekly.(currentWeekEntries := [today0]);
      var clock := Clock(today, 9 * 3600, millis);
      TickedAsWritten(w, c, clock).totalHours == 200 && Ticked(w, c, clock).totalHours == 100
  {
    var today0 := WorkEntry(EntryId(today, millis), today, None, None, 0, 1, false);
    var c := WorkEntry(EntryId(today, millis), today, Some(8 * 3600), None, 0, 1, true);
    var w := InitialWeekly.(currentWeekEntries := [today0]);
    var clock := Clock(today, 9 * 3600, millis);
    assert LiveHours(c, clock) == 100;
    TickedAsWrittenCountsTodayTwice(w, c, clock);
    TickedCountsLiveOnce(w, c, clock);
    assert [today0][..0] == [];
  }

  /**
   * The live refresh: put the live hours on the session date's entries and
   * count them once in the total, beside the other days' stored hours.
   */
  function Ticked(w: WeeklyData, c: WorkEntry, clock: Clock): WeeklyData
  {
    var live := LiveHours(c, clock);
    var es := Refreshed(w.currentWeekEntries, c.date, live);
    w.(totalHours := TotalExcept(es, c.date, HoursOf) + live, currentWeekEntries := es)
  }

  /**
   * The refreshed total counts the live hours exactly once; with one entry
   * for the session's date it equals the sum of the refreshed entries, and
   * with none it is that sum plus the live hours. Nothing else changes.
   */
  lemma TickedCountsLiveOnce(w: WeeklyData, c: WorkEntry, clock: Clock)
    ensures var r := Ticked(w, c, clock);
      && r.totalHours == TotalExcept(w.currentWeekEntries, c.date, HoursOf) + LiveHours(c, clock)
      && (CountOn(w.currentWeekEntries, c.date) == 1 ==> r.totalHours == Total(r.currentWeekEntries, HoursOf))
      && (CountOn(w.currentWeekEntries, c.date) == 0 ==> r.totalHours == Total(r.currentWeekEntries, HoursOf) + LiveHours(c, clock))
      && r.(totalHours := w.totalHours, currentWeekEntries := w.currentWeekEntries) == w
  {
    var live := LiveHours(c, clock);
    var es := Refreshed(w.currentWeekEntries, c.date, live);
    var count := CountOn(w.currentWeekEntries, c.date);
    assert Ticked(w, c, clock).currentWeekEntries == es;
    RefreshedExcept(w.currentWeekEntries, c.date, live, HoursOf);
    RefreshedHours(w.currentWeekEntries, c.date, live);
    if count == 0 {
      assert live * count == 0;
    } else if count == 1 {
      assert live * count == live;
    }
  }

  /** The tick rewrites only the entries of the session's date, in place. */
  lemma TickedTouchesSessionDateOnly(w: WeeklyData, c: WorkEntry, clock: Clock, i: int)
    requires 0 <= i < |w.currentWeekEntries|
    ensures var e := w.currentWeekEntries[i];
      var r := Ticked(w, c, clock);
      && |r.currentWeekEntries| == |w.currentWeekEntries|
      && r.currentWeekEntries[i] == if e.date == c.date then e.(hoursWorked := LiveHours(c, clock), isActive := true) else e
  {
    RefreshedAt(w.currentWeekEntries, c.date, LiveHours(c, clock), i);
  }

  /** As written, the tracker ignores a login: every transition leaves the state as it was. */
  lemma AsWrittenTrackerIgnoresLogin(cedula: string, s: WorkState, clock: Clock)
    requires cedula != ""
    ensures var u := UserInfoAsWritten(true, Some(cedula));
      && Loaded(u, s, clock.today) == s && Started(u, s, clock) == s
      && Ended(u, s, clock) == s && MileAdded(u, s, clock) == s
    ensures !s.isWorking ==> Started(SessionUser(Some(cedula)), s, clock).isWorking
  {
  }

  /** The tracker component: its state, over the local storage it shares with the other components. */
  class WorkProvider {
    const user: Option<string>
    const storage: LocalStorage
    var isWorking: bool
    var currentEntry: Option<WorkEntry>
    var weeklyData: WeeklyData

    function State(): WorkState
      reads this, storage
    {
      WorkState(isWorking, currentEntry, weeklyData, storage.items)
    }

    /** A tracker for whoever the auth store has logged in, before its first load. */
    constructor (auth: AuthContext.AuthProvider, storage: LocalStorage)
      ensures user == SessionUser(auth.userCedula) && this.storage == storage
      ensures !isWorking && currentEntry == None && weeklyData == InitialWeekly
    {
      user := SessionUser(auth.userCedula);
      this.storage := storage;
      isWorking := false;
      currentEntry := None;
      weeklyData := InitialWeekly;
    }

    method LoadData(clock: Clock)
      modifies this, storage
      ensures State() == Loaded(user, old(State()), clock.today)
    {
      if user.None? {
        return;
      }
      ghost var want := Loaded(user, State(), clock.today);
      var today := clock.today;
      var entries := CollectWeek(WeekStart(today));
      assert entries == want.weekly.currentWeekEntries;
      var totalHours := Total(entries, HoursOf);
      var weeklyExtraMiles := Total(entries, MilesOf);
      var todayEntry := FindByDate(entries, today);
      var dailyExtraMiles := if todayEntry.Some? then todayEntry.value.extraMiles else 0;
      var session := storage.GetItem(ActiveKey(user));
      var isCurrentlyActive := false;
      if session.Some? {
        if session.value.EntryValue? && session.value.entry.date == today {
          isCurrentlyActive := true;
          isWorking := true;
          currentEntry := Some(session.value.entry);
        } else {
          storage.RemoveItem(ActiveKey(user));
        }
      }
      weeklyData := WeeklyData(totalHours, TargetHours, dailyExtraMiles, weeklyExtraMiles, isCurrentlyActive, entries);
    }

    /** The stored entries of the seven days from `weekStart` on, read one key at a time. */
    method CollectWeek(weekStart: Day) returns (entries: seq<WorkEntry>)
      ensures entries == WeekEntries(storage.items, user, weekStart, 7)
    {
      entries := [];
      for i := 0 to 7
        invariant entries == WeekEntries(storage.items, user, weekStart, i)
      {
        var stored := storage.GetItem(EntryKey(user, weekStart + i));
        var found := if stored.Some? && stored.value.EntryValue? then Some(stored.value.entry) else None;
        assert found == Stored(storage.items, user, weekStart + i);
        entries := entries + AsList(found);
      }
    }

    /** `refreshData`: the same load. */
    method RefreshData(clock: Clock)
      modifies this, storage
      ensures State() == Loaded(user, old(State()), clock.today)
    {
      LoadData(clock);
    }

    method StartWork(clock: Clock)
      modifies this, storage
      ensures State() == Started(user, old(State()), clock)
    {
      if user.None? || isWorking {
        return;
      }
      var entry := WorkEntry(EntryId(clock.today, clock.epochMillis), clock.today, Some(clock.secondOfDay),
                             None, 0, weeklyData.dailyExtraMiles, true);
      currentEntry := Some(entry);
      isWorking := true;
      storage.SetItem(ActiveKey(user), EntryValue(entry));
      weeklyData := weeklyData.(isCurrentlyActive := true);
    }

    method EndWork(clock: Clock)
      modifies this, storage
      ensures State() == Ended(user, old(State()), clock)
    {
      if user.None? || !isWorking || currentEntry.None? {
        return;
      }
      var c := currentEntry.value;
      var hours := EndHours(c, clock.secondOfDay);
      var closed := c.(endTime := Some(clock.secondOfDay), hoursWorked := hours, isActive := false);
      storage.SetItem(EntryKey(user, c.date), EntryValue(closed));
      storage.RemoveItem(ActiveKey(user));
      currentEntry := None;
      isWorking := false;
    }

    method AddExtraMile(clock: Clock)
      modifies this, storage
      ensures State() == MileAdded(user, old(State()), clock)
    {
      if user.None? {
        return;
      }
      var today := clock.today;
      var found := FindByDate(weeklyData.currentWeekEntries, today);
      var todayEntry := if found.Some? then found.value
                        else WorkEntry(EntryId(today, clock.epochMillis), today, None, None, 0, 0, false);
      var updated := todayEntry.(extraMiles := todayEntry.extraMiles + 1);
      if currentEntry.Some? && currentEntry.value.date == today {
        var cur := currentEntry.value.(extraMiles := currentEntry.value.extraMiles + 1);
        currentEntry := Some(cur);
        storage.SetItem(ActiveKey(user), EntryValue(cur));
      }
      storage.SetItem(EntryKey(user, updated.date), EntryValue(updated));
    }

    /** One tick of the live refresh, which only runs while a session is open. */
    method Tick(clock: Clock)
      requires isWorking && currentEntry.Some?
      modifies this
      ensures isWorking == old(isWorking) && currentEntry == old(currentEntry)
      ensures weeklyData == Ticked(old(weeklyData), currentEntry.value, clock)
    {
      weeklyData := Ticked(weeklyData, currentEntry.value, clock);
    }
  }

}
