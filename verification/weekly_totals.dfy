/**
 * Reading a week of entries out of storage and summing them, as the work
 * tracker's load and its live refresh do.
 */
module WeeklyTotals {
  import opened Wrappers
  import opened Calendar
  import opened Records
  import opened BrowserStorage
  import opened WorkKeys

  /** The entry stored under `key`, if the value there is an entry. */
  function EntryAt(items: map<string, Value>, key: string): Option<WorkEntry>
  {
    if key in items && items[key].EntryValue? then Some(items[key].entry) else None
  }

  /** The user's stored entry for day `d`. */
  function Stored(items: map<string, Value>, user: Option<string>, d: Day): Option<WorkEntry>
  {
    EntryAt(items, EntryKey(user, d))
  }

  function AsList(e: Option<WorkEntry>): seq<WorkEntry>
  {
    if e.Some? then [e.value] else []
  }

  /**
   * The entries found for the `n` days from `weekStart` on, in day order;
   * a day without an entry adds nothing.
   */
  function WeekEntries(items: map<string, Value>, user: Option<string>, weekStart: Day, n: nat): (es: seq<WorkEntry>)
    ensures |es| <= n
  {
    if n == 0 then []
    else WeekEntries(items, user, weekStart, n - 1) + AsList(Stored(items, user, weekStart + n - 1))
  }

  /** The `reduce((sum, e) => sum + f(e), 0)` of a list of entries. */
  function Total(es: seq<WorkEntry>, f: WorkEntry -> int): int
  {
    if es == [] then 0 else Total(es[..|es| - 1], f) + f(es[|es| - 1])
  }

  function HoursOf(e: WorkEntry): int
  {
    e.hoursWorked
  }

  function MilesOf(e: WorkEntry): int
  {
    e.extraMiles
  }

  lemma {:induction false} TotalAppend(a: seq<WorkEntry>, b: seq<WorkEntry>, f: WorkEntry -> int)
    ensures Total(a + b, f) == Total(a, f) + Total(b, f)
  {
    if b == [] {
      assert a + b == a;
    } else {
      assert (a + b)[..|a + b| - 1] == a + b[..|b| - 1];
      TotalAppend(a, b[..|b| - 1], f);
    }
  }

  /** What day `d` contributes to a weekly sum: its entry's amount, or 0 without one. */
  function DayAmount(items: map<string, Value>, user: Option<string>, d: Day, f: WorkEntry -> int): int
  {
    match Stored(items, user, d)
    case Some(e) => f(e)
    case None => 0
  }

  /** The day-by-day sum over the `n` days from `weekStart` on. */
  function DaysTotal(items: map<string, Value>, user: Option<string>, weekStart: Day, n: nat, f: WorkEntry -> int): int
  {
    if n == 0 then 0
    else DaysTotal(items, user, weekStart, n - 1, f) + DayAmount(items, user, weekStart + n - 1, f)
  }

  /** Summing the collected entries is summing day by day, missing days counting 0. */
  lemma {:induction false} WeekTotalByDay(items: map<string, Value>, user: Option<string>, weekStart: Day, n: nat, f: WorkEntry -> int)
    ensures Total(WeekEntries(items, user, weekStart, n), f) == DaysTotal(items, user, weekStart, n, f)
  {
    if n > 0 {
      var prev := WeekEntries(items, user, weekStart, n - 1);
      var last := Stored(items, user, weekStart + n - 1);
      WeekTotalByDay(items, user, weekStart, n - 1, f);
      TotalPlusDay(prev, last, f, DaysTotal(items, user, weekStart, n - 1, f),
        WeekEntries(items, user, weekStart, n), DaysTotal(items, user, weekStart, n, f));
    }
  }

  /** Adding one day's entry list to a sum adds that entry's amount, or 0. */
  lemma TotalPlusDay(prev: seq<WorkEntry>, o: Option<WorkEntry>, f: WorkEntry -> int, before: int, es: seq<WorkEntry>, after: int)
    requires Total(prev, f) == before && es == prev + AsList(o)
    requires after == before + match o case Some(e) => f(e) case None => 0
    ensures Total(es, f) == after
  {
    TotalAppend(prev, AsList(o), f);
    TotalOfDay(o, f);
  }

  /** The sum over one day's entry list is that entry's amount, or 0. */
  lemma TotalOfDay(o: Option<WorkEntry>, f: WorkEntry -> int)
    ensures Total(AsList(o), f) == match o case Some(e) => f(e) case None => 0
  {
    if o.Some? {
      assert AsList(o)[..0] == [];
    }
  }

  /** Two stores that agree on the user's entries for the days agree on the collected entries. */
  lemma {:induction false} WeekEntriesFrame(items1: map<string, Value>, items2: map<string, Value>, user: Option<string>, weekStart: Day, n: nat)
    requires forall d :: weekStart <= d < weekStart + n ==> Stored(items1, user, d) == Stored(items2, user, d)
    ensures WeekEntries(items1, user, weekStart, n) == WeekEntries(items2, user, weekStart, n)
  {
    if n > 0 {
      WeekEntriesFrame(items1, items2, user, weekStart, n - 1);
      assert Stored(items1, user, weekStart + n - 1) == Stored(items2, user, weekStart + n - 1);
    }
  }

  /** `entries.find(e => e.date === d)`: the first entry dated `d`. */
  function FindByDate(es: seq<WorkEntry>, d: Day): Option<WorkEntry>
  {
    if es == [] then None
    else if es[0].date == d then Some(es[0])
    else FindByDate(es[1..], d)
  }

  /** `find` returns an entry of the list with the date asked for, or none when no entry has it. */
  lemma {:induction false} FindByDateSound(es: seq<WorkEntry>, d: Day)
    ensures FindByDate(es, d).Some? ==> FindByDate(es, d).value in es && FindByDate(es, d).value.date == d
    ensures FindByDate(es, d).None? ==> forall e :: e in es ==> e.date != d
  {
    if es != [] && es[0].date != d {
      FindByDateSound(es[1..], d);
      assert es == [es[0]] + es[1..];
    }
  }

  /** The entry found is the first one of its date. */
  lemma {:induction false} FindIsFirst(es: seq<WorkEntry>, d: Day, i: int)
    requires 0 <= i < |es| && es[i].date == d
    requires forall j :: 0 <= j < i ==> es[j].date != d
    ensures FindByDate(es, d) == Some(es[i])
  {
    if i > 0 {
      FindIsFirst(es[1..], d, i - 1);
    }
  }

  lemma FindInOptional(o: Option<WorkEntry>, d: Day)
    ensures FindByDate(AsList(o), d) == if o.Some? && o.value.date == d then o else None
  {
    if o.Some? {
      assert AsList(o)[1..] == [];
    }
  }

  lemma {:induction false} FindAppend(a: seq<WorkEntry>, b: seq<WorkEntry>, d: Day)
    ensures FindByDate(a + b, d) == if FindByDate(a, d).Some? then FindByDate(a, d) else FindByDate(b, d)
  {
    if a == [] {
      assert a + b == b;
    } else {
      assert (a + b)[0] == a[0] && (a + b)[1..] == a[1..] + b;
      FindAppend(a[1..], b, d);
    }
  }

  /** The entry stored for day `d` carries date `d` (or there is none). */
  predicate DateMatches(items: map<string, Value>, user: Option<string>, d: Day)
  {
    Stored(items, user, d).Some? ==> Stored(items, user, d).value.date == d
  }

  /** Every entry key of the user holds an entry of its own date, as `saveEntry` writes them. */
  ghost predicate DatesConsistent(items: map<string, Value>, user: Option<string>)
  {
    forall d :: DateMatches(items, user, d)
  }

  lemma {:induction false} WeekEntriesDates(items: map<string, Value>, user: Option<string>, weekStart: Day, n: nat)
    requires DatesConsistent(items, user)
    ensures forall e :: e in WeekEntries(items, user, weekStart, n) ==> weekStart <= e.date < weekStart + n
  {
    if n > 0 {
      WeekEntriesDates(items, user, weekStart, n - 1);
      assert DateMatches(items, user, weekStart + n - 1);
    }
  }

  /** Appending a day's entry (if any) does not change the lookup of another date. */
  lemma FindPastOtherDay(prev: seq<WorkEntry>, last: Option<WorkEntry>, lastDay: Day, d: Day)
    requires last.Some? ==> last.value.date == lastDay
    requires d != lastDay
    ensures FindByDate(prev + AsList(last), d) == FindByDate(prev, d)
  {
    FindAppend(prev, AsList(last), d);
    FindInOptional(last, d);
  }

  /** When the earlier entries lack date `d`, the lookup finds the appended entry of day `d`. */
  lemma FindOnLastDay(prev: seq<WorkEntry>, last: Option<WorkEntry>, d: Day)
    requires last.Some? ==> last.value.date == d
    requires FindByDate(prev, d) == None
    ensures FindByDate(prev + AsList(last), d) == last
  {
    FindAppend(prev, AsList(last), d);
    FindInOptional(last, d);
  }

  /** A day after the window is not found among the window's entries. */
  lemma {:induction false} WeekEntriesBefore(items: map<string, Value>, user: Option<string>, weekStart: Day, n: nat, d: Day)
    requires DatesConsistent(items, user)
    requires weekStart + n <= d
    ensures FindByDate(WeekEntries(items, user, weekStart, n), d) == None
  {
    if n > 0 {
      var last := Stored(items, user, weekStart + n - 1);
      assert DateMatches(items, user, weekStart + n - 1);
      WeekEntriesBefore(items, user, weekStart, n - 1, d);
      FindPastOtherDay(WeekEntries(items, user, weekStart, n - 1), last, weekStart + n - 1, d);
    }
  }

  /** Looking a day of the window up among the collected entries finds that day's stored entry. */
  lemma {:induction false} FindInWeek(items: map<string, Value>, user: Option<string>, weekStart: Day, n: nat, d: Day)
    requires DatesConsistent(items, user)
    requires weekStart <= d < weekStart + n
    ensures FindByDate(WeekEntries(items, user, weekStart, n), d) == Stored(items, user, d)
  {
    var prev := WeekEntries(items, user, weekStart, n - 1);
    var lastDay := weekStart + n - 1;
    var last := Stored(items, user, lastDay);
    assert DateMatches(items, user, lastDay);
    if d < lastDay {
      FindInWeek(items, user, weekStart, n - 1, d);
      FindPastOtherDay(prev, last, lastDay, d);
    } else {
      WeekEntriesBefore(items, user, weekStart, n - 1, d);
      FindOnLastDay(prev, last, d);
    }
  }

  // The live refresh of the week's entries.

  /** Put the live hours on an entry of day `d` and mark it active; leave other days alone. */
  function RefreshOne(e: WorkEntry, d: Day, live: int): WorkEntry
  {
    if e.date == d then e.(hoursWorked := live, isActive := true) else e
  }

  function Refreshed(es: seq<WorkEntry>, d: Day, live: int): (r: seq<WorkEntry>)
    ensures |r| == |es|
  {
    if es == [] then [] else Refreshed(es[..|es| - 1], d, live) + [RefreshOne(es[|es| - 1], d, live)]
  }

  /** The refresh changes entries of day `d` only, and keeps the order. */
  lemma {:induction false} RefreshedAt(es: seq<WorkEntry>, d: Day, live: int, i: int)
    requires 0 <= i < |es|
    ensures Refreshed(es, d, live)[i] == RefreshOne(es[i], d, live)
  {
    if i < |es| - 1 {
      RefreshedAt(es[..|es| - 1], d, live, i);
    }
  }

  /** How many entries are dated `d`. */
  function CountOn(es: seq<WorkEntry>, d: Day): nat
  {
    if es == [] then 0 else CountOn(es[..|es| - 1], d) + (if es[|es| - 1].date == d then 1 else 0)
  }

  /** The sum of `f` over the entries not dated `d`. */
  function TotalExcept(es: seq<WorkEntry>, d: Day, f: WorkEntry -> int): int
  {
    if es == [] then 0
    else TotalExcept(es[..|es| - 1], d, f) + (if es[|es| - 1].date == d then 0 else f(es[|es| - 1]))
  }

  /** The hours of the refreshed entries: the other days' hours plus the live value once per entry of day `d`. */
  lemma {:induction false} RefreshedHours(es: seq<WorkEntry>, d: Day, live: int)
    ensures Total(Refreshed(es, d, live), HoursOf) == TotalExcept(es, d, HoursOf) + live * CountOn(es, d)
  {
    if es != [] {
      var init, last := es[..|es| - 1], es[|es| - 1];
      RefreshedHours(init, d, live);
      var r := Refreshed(es, d, live);
      assert r[..|r| - 1] == Refreshed(init, d, live);
      assert Total(r, HoursOf) == Total(Refreshed(init, d, live), HoursOf) + HoursOf(RefreshOne(last, d, live));
      if last.date == d {
        MulSucc(live, CountOn(init, d));
      }
    }
  }

  lemma MulSucc(a: int, b: int)
    ensures a * (b + 1) == a * b + a
  {
  }

  /** The refresh does not touch the other days, so their sum is unchanged. */
  lemma {:induction false} RefreshedExcept(es: seq<WorkEntry>, d: Day, live: int, f: WorkEntry -> int)
    ensures TotalExcept(Refreshed(es, d, live), d, f) == TotalExcept(es, d, f)
    ensures CountOn(Refreshed(es, d, live), d) == CountOn(es, d)
  {
    if es != [] {
      var r := Refreshed(es, d, live);
      RefreshedExcept(es[..|es| - 1], d, live, f);
      assert r[..|r| - 1] == Refreshed(es[..|es| - 1], d, live);
    }
  }

}
