/** The browser's `localStorage`: a string-keyed map of strings, updated in place. */
module LocalStorage {
  import opened Common

  /** The key the session's bearer token is stored under. */
  const TOKEN_KEY := "bearer_token"

  class Store {
    var items: map<string, string>

    constructor (initial: map<string, string>)
      ensures items == initial
    {
      items := initial;
    }

    /** `localStorage.getItem(key)`: the stored string, or `None` for null. */
    function GetItem(key: string): (r: Option<string>)
      reads this
      ensures r.Some? <==> key in items
      ensures r.Some? ==> r.value == items[key]
    {
      if key in items then Some(items[key]) else None
    }

    /**
     * `localStorage.setItem(key, value)`. The browser may refuse the write (quota exceeded,
     * storage disabled); `accepted` is that decision, and a refused write throws and stores nothing.
     */
    method SetItem(key: string, value: string, accepted: bool) returns (ok: bool)
      modifies this
      ensures ok == accepted
      ensures items == if ok then old(items)[key := value] else old(items)
    {
      ok := accepted;
      if ok {
        items := items[key := value];
      }
    }

    /**
     * `localStorage.removeItem(key)`: only `key` is deleted. The browser may refuse the
     * access (storage disabled); a refused removal throws and deletes nothing.
     */
    method RemoveItem(key: string, accepted: bool) returns (ok: bool)
      modifies this
      ensures ok == accepted
      ensures items == if ok then old(items) - {key} else old(items)
    {
      ok := accepted;
      if ok {
        items := items - {key};
      }
    }
  }
}
