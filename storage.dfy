/**
 * The browser's `localStorage`: one string map shared by every store that persists
 * something. `available` is false during server-side rendering (no `window`, not
 * `process.client`), where reads find nothing and writes are skipped.
 */
module BrowserStorage {
  import opened Base

  class Storage {
    var items: map<string, string>
    const available: bool

    constructor(available: bool, items: map<string, string>)
      ensures this.available == available && this.items == items
    {
      this.available := available;
      this.items := items;
    }

    /** `getItem(key)`, or null off the browser. */
    function Get(key: string): (r: Option<string>)
      reads this
      ensures r.Some? <==> available && key in items
      ensures r.Some? ==> r.value == items[key]
    {
      if available && key in items then Some(items[key]) else None
    }

    method Set(key: string, value: string)
      modifies this
      ensures items == if available then old(items)[key := value] else old(items)
    {
      if available {
        items := items[key := value];
      }
    }

    method Remove(key: string)
      modifies this
      ensures items == if available then old(items) - {key} else old(items)
    {
      if available {
        items := items - {key};
      }
    }
  }
}
