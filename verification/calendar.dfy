/**
 * Dates, times of day and the hours arithmetic of the work tracker.
 *
 * A calendar date is a day number counted from 1970-01-01, which was a
 * Thursday; a time of day is a number of seconds since local midnight.
 * The browser's `Date` API (local and UTC views, `toISOString`,
 * `toTimeString`) is replaced by these integers.
 */
module Calendar {

  /** A calendar date, as days since 1970-01-01. */
  type Day = int

  /** A time of day in seconds since midnight. */
  type Second = int

  /** A time of day in minutes since midnight, as the workday panel shows it. */
  type Minute = nat

  const SecondsPerDay: int := 86400

  const Sunday: int := 0
  const Monday: int := 1

  /** A second of a day: from midnight up to, not including, the next midnight. */
  type SecondOfDay = s: nat | s < SecondsPerDay

  /** What the app reads from the clock at one instant. */
  datatype Clock = Clock(today: Day, secondOfDay: SecondOfDay, epochMillis: int)

  /** The minute shown for an instant (hour and minute only). */
  function MinuteOf(clock: Clock): (m: Minute)
    ensures 60 * m <= clock.secondOfDay < 60 * m + 60
    ensures m < 24 * 60
  {
    clock.secondOfDay / 60
  }

  /** `Date.getDay()`: 0 for Sunday, 1 for Monday, ..., 6 for Saturday. */
  function Weekday(d: Day): (w: int)
    ensures 0 <= w < 7
    ensures (d + 4 - w) % 7 == 0
  {
    (d + 4) % 7
  }

  lemma SameWeekdayDifferByWeeks(a: Day, b: Day)
    requires Weekday(a) == Weekday(b)
    ensures (a - b) % 7 == 0
  {
    var qa, qb := (a + 4) / 7, (b + 4) / 7;
    assert a + 4 == 7 * qa + Weekday(a);
    assert b + 4 == 7 * qb + Weekday(b);
    assert a - b == 7 * (qa - qb);
  }

  /**
   * The Monday that starts the week of `d`: step back to the day of the
   * month `d - weekday + 1`, or six days back from a Sunday.
   */
  function WeekStart(d: Day): (m: Day)
    ensures Weekday(m) == Monday
    ensures 0 <= d - m <= 6
    ensures Weekday(d) == Sunday ==> m == d - 6
  {
    var wd := Weekday(d);
    var m := d - wd + (if wd == 0 then -6 else 1);
    assert m + 4 == 7 * ((d + 4) / 7 + (if wd == 0 then -1 else 0)) + 1;
    m
  }

  /** The week start is the only Monday at most six days before `d`. */
  lemma WeekStartUnique(d: Day, m: Day)
    requires Weekday(m) == Monday
    requires 0 <= d - m <= 6
    ensures m == WeekStart(d)
  {
    var w := WeekStart(d);
    SameWeekdayDifferByWeeks(m, w);
    assert -6 <= m - w <= 6;
  }

  /** All seven days of a week share the same week start. */
  lemma WeekStartOfWeekDays(d: Day, i: int)
    requires 0 <= i < 7
    ensures WeekStart(WeekStart(d) + i) == WeekStart(d)
  {
    WeekStartUnique(WeekStart(d) + i, WeekStart(d));
  }

  function DigitChar(n: nat): (c: char)
    requires n < 10
    ensures '0' <= c <= '9'
  {
    ('0' as int + n) as char
  }

  /** The decimal text of a natural number, without leading zeros. */
  function NatText(n: nat): (s: string)
    ensures 1 <= |s|
    ensures '0' <= s[0] <= '9'
    ensures (|s| == 1) == (n < 10)
  {
    if n < 10 then [DigitChar(n)] else NatText(n / 10) + [DigitChar(n % 10)]
  }

  lemma {:induction false} NatTextInjective(a: nat, b: nat)
    requires NatText(a) == NatText(b)
    ensures a == b
  {
    if 10 <= a && 10 <= b {
      var sa, sb := NatText(a), NatText(b);
      assert sa[..|sa| - 1] == NatText(a / 10);
      assert sb[..|sb| - 1] == NatText(b / 10);
      NatTextInjective(a / 10, b / 10);
      assert DigitChar(a % 10) == sa[|sa| - 1] == sb[|sb| - 1] == DigitChar(b % 10);
    } else if a < 10 && b < 10 {
      assert NatText(a)[0] == NatText(b)[0];
    }
  }

  /**
   * The text of a date inside a storage key. It stands for the source's
   * ISO `YYYY-MM-DD` text; like it, distinct dates have distinct texts.
   */
  function DayText(d: Day): (s: string)
    ensures 1 <= |s|
    ensures (s[0] == '-') == (d < 0)
  {
    if d < 0 then "-" + NatText(-d) else NatText(d)
  }

  lemma DayTextInjective(a: Day, b: Day)
    requires DayText(a) == DayText(b)
    ensures a == b
  {
    if a < 0 && b < 0 {
      assert NatText(-a) == DayText(a)[1..] == DayText(b)[1..] == NatText(-b);
      NatTextInjective(-a, -b);
    } else if a >= 0 && b >= 0 {
      NatTextInjective(a, b);
    }
  }

  /**
   * `Math.max(Math.round(diff / 1 h * 100) / 100, 0)` in hundredths of an
   * hour, for a difference of `diff` seconds: `Math.round(x)` is
   * `floor(x + 0.5)`, so the value is the nearest hundredth, halves
   * rounded up, and never negative.
   */
  function HoursHundredths(diff: int): (h: nat)
    ensures -18 <= diff ==> 36 * h - 18 <= diff < 36 * h + 18
    ensures diff < -18 ==> h == 0
  {
    var rounded := (diff + 18) / 36;
    if rounded < 0 then 0 else rounded
  }

  /** Any `h` within half a hundredth of `diff` (halves up) is the rounded value. */
  lemma HoursHundredthsIsNearest(diff: int, h: int)
    requires 36 * h - 18 <= diff < 36 * h + 18
    requires 0 <= h
    ensures HoursHundredths(diff) == h
  {
  }

}
