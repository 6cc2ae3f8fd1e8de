/** The browser's `localStorage`: string slots keyed by string, surviving
    reloads. The role selector writes the "role" slot and the application
    shell reads it. */
module BrowserStorage {
  import opened Common

  class LocalStorage {
    var items: map<string, string>

    /** Storage as left by earlier visits. */
    constructor (saved: map<string, string>)
      ensures items == saved
    {
      items := saved;
    }

    /** `getItem`: the stored string, or null when the key was never set. */
    method GetItem(key: string) returns (v: Option<string>)
      ensures v == Lookup(items, key)
    {
      if key in items {
        v := Some(items[key]);
      } else {
        v := None;
      }
    }

    /** `setItem`: overwrites the slot; every other slot is unchanged. */
    method SetItem(key: string, value: string)
      modifies this
      ensures items == old(items)[key := value]
    {
      items := items[key := value];
    }
  }

  /** The slot as a value, for specifications. */
  function Lookup(items: map<string, string>, key: string): (v: Option<string>)
    ensures v.Some? <==> key in items
    ensures v.Some? ==> v.value == items[key]
  {
    if key in items then Some(items[key]) else None
  }
}
