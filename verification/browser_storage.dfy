/**
 * The browser's `localStorage`: one key-value store shared by every
 * component. Values are kept typed instead of as JSON text.
 */
module BrowserStorage {
  import opened Wrappers
  import opened Records

  /** A stored value: a serialized work entry, a serialized workday, or raw text. */
  datatype Value =
    | EntryValue(entry: WorkEntry)
    | WorkdayValue(workday: Workday)
    | TextValue(text: string)

  class LocalStorage {
    var items: map<string, Value>

    constructor (initial: map<string, Value>)
      ensures items == initial
    {
      items := initial;
    }

    /** `getItem`: the value under `key`, or nothing. */
    method GetItem(key: string) returns (v: Option<Value>)
      ensures v.Some? <==> key in items
      ensures v.Some? ==> v.value == items[key]
    {
      v := if key in items then Some(items[key]) else None;
    }

    /** `setItem`: store `v` under `key`, replacing any previous value. */
    method SetItem(key: string, v: Value)
      modifies this
      ensures items == old(items)[key := v]
    {
      items := items[key := v];
    }

    /** `removeItem`: drop `key`; a missing key is left missing. */
    method RemoveItem(key: string)
      modifies this
      ensures items == old(items) - {key}
    {
      items := items - {key};
    }
  }

}
