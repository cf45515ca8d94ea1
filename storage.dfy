/** The browser's `localStorage`: a mutable string-to-string dictionary. */
module BrowserStorage {
  import opened Wrappers

  /** The two keys the session lives under. */
  const TokenKey: string := "token"
  const UserKey: string := "user"

  /** The store with both session keys removed and every other key kept. */
  function SessionRemoved(m: map<string, string>): (r: map<string, string>)
    ensures TokenKey !in r && UserKey !in r
    ensures forall k :: k in m && k != TokenKey && k != UserKey ==> k in r && r[k] == m[k]
    ensures forall k :: k in r ==> k in m
  {
    m - {TokenKey, UserKey}
  }

  class Storage {
    var items: map<string, string>

    constructor (initial: map<string, string>)
      ensures items == initial
    {
      items := initial;
    }

    /** `localStorage.getItem(key)`: the stored string, or `null`. */
    function GetItem(key: string): (r: Option<string>)
      reads this
      ensures r.Some? <==> key in items
      ensures r.Some? ==> r.value == items[key]
    {
      if key in items then Some(items[key]) else None
    }

    method SetItem(key: string, value: string)
      modifies this
      ensures items == old(items)[key := value]
    {
      items := items[key := value];
    }

    method RemoveItem(key: string)
      modifies this
      ensures items == old(items) - {key}
    {
      items := items - {key};
    }
  }
}
