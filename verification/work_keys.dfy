/**
 * The work tracker's storage keys: `work_<cedula>_<suffix>` for a user,
 * `work_guest_<suffix>` without one. The suffixes are `entry_<date>` for a
 * day's entry and `active_session` for the open session.
 */
module WorkKeys {
  import opened Wrappers
  import opened Calendar

  function StorageKey(user: Option<string>, suffix: string): string
  {
    if user.Some? then "work_" + user.value + "_" + suffix else "work_guest_" + suffix
  }

  const ActiveSuffix: string := "active_session"

  function EntrySuffix(d: Day): string
  {
    "entry_" + DayText(d)
  }

  function EntryKey(user: Option<string>, d: Day): string
  {
    StorageKey(user, EntrySuffix(d))
  }

  function ActiveKey(user: Option<string>): string
  {
    StorageKey(user, ActiveSuffix)
  }

  /** Where the cédula and the suffix sit inside a user's key. */
  lemma KeyParts(u: string, s: string)
    ensures |StorageKey(Some(u), s)| == |u| + |s| + 6
    ensures StorageKey(Some(u), s)[5 + |u|] == '_'
    ensures StorageKey(Some(u), s)[5..5 + |u|] == u
    ensures StorageKey(Some(u), s)[6 + |u|..] == s
  {
  }

  /**
   * Two users whose cédulas contain no `_` never share a key: equal keys
   * mean equal cédulas and equal suffixes.
   */
  lemma StorageKeysDistinct(u1: string, s1: string, u2: string, s2: string)
    requires '_' !in u1 && '_' !in u2
    requires StorageKey(Some(u1), s1) == StorageKey(Some(u2), s2)
    ensures u1 == u2 && s1 == s2
  {
    KeyParts(u1, s1);
    KeyParts(u2, s2);
  }

  /** A user's keys differ from the guest keys unless the cédula is literally `guest`. */
  lemma GuestKeysDistinct(u: string, s1: string, s2: string)
    requires '_' !in u && u != "guest"
    ensures StorageKey(Some(u), s1) != StorageKey(None, s2)
  {
    assert StorageKey(None, s2) == StorageKey(Some("guest"), s2);
    if StorageKey(Some(u), s1) == StorageKey(None, s2) {
      StorageKeysDistinct(u, s1, "guest", s2);
    }
  }

  /** One user's keys with different suffixes are different. */
  lemma SameUserKeys(user: Option<string>, a: string, b: string)
    requires StorageKey(user, a) == StorageKey(user, b)
    ensures a == b
  {
    var p := if user.Some? then "work_" + user.value + "_" else "work_guest_";
    assert StorageKey(user, a) == p + a && StorageKey(user, b) == p + b;
    assert a == (p + a)[|p|..];
  }

  /** Different days have different entry keys. */
  lemma EntryKeysDistinct(user: Option<string>, d1: Day, d2: Day)
    requires d1 != d2
    ensures EntryKey(user, d1) != EntryKey(user, d2)
  {
    if EntryKey(user, d1) == EntryKey(user, d2) {
      SameUserKeys(user, EntrySuffix(d1), EntrySuffix(d2));
      assert DayText(d1) == EntrySuffix(d1)[6..] == EntrySuffix(d2)[6..] == DayText(d2);
      DayTextInjective(d1, d2);
    }
  }

  /** The open-session key is never a day's entry key. */
  lemma ActiveKeyIsNoEntryKey(user: Option<string>, d: Day)
    ensures ActiveKey(user) != EntryKey(user, d)
  {
    assert ActiveSuffix[0] != EntrySuffix(d)[0];
    if ActiveKey(user) == EntryKey(user, d) {
      SameUserKeys(user, ActiveSuffix, EntrySuffix(d));
    }
  }

}
