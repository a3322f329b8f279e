/**
 * The browser's `localStorage`, reduced to what the session gate uses: a string-to-string
 * store with `getItem`, `setItem` and `removeItem`. It is one object shared by every
 * component of the page, so it is a class whose single field the methods reassign.
 */
module BrowserStorage {
  import opened Wrappers

  /** `getItem` as a value: the stored string, or `None` where the browser returns `null`. */
  function Lookup(items: map<string, string>, key: string): Option<string>
  {
    if key in items then Some(items[key]) else None
  }

  class LocalStorage {
    var items: map<string, string>

    constructor (initial: map<string, string>)
      ensures items == initial
    {
      items := initial;
    }

    method GetItem(key: string) returns (r: Option<string>)
      ensures r.Some? <==> key in items
      ensures r.Some? ==> r.value == items[key]
    {
      r := Lookup(items, key);
    }

    method SetItem(key: string, value: string)
      modifies this
      ensures items == old(items)[key := value]
    {
      items := items[key := value];
    }

    /** Removing an absent key leaves the store as it was. */
    method RemoveItem(key: string)
      modifies this
      ensures items == old(items) - {key}
    {
      items := items - {key};
    }
  }
}
