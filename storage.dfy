/**
 * The browser's `localStorage`, reduced to the string-to-string map the client
 * reads and writes, and the two keys that hold the durable session.
 */
module Storage {
  import opened Wrappers

  const AUTH_TOKEN := "auth_token"
  const USER_DATA := "user_data"

  /** The durable session record removed on logout and on a 401: both keys gone, every other entry kept. */
  function WithoutSession(items: map<string, string>): (r: map<string, string>)
    ensures AUTH_TOKEN !in r && USER_DATA !in r
    ensures forall k :: k != AUTH_TOKEN && k != USER_DATA ==> (k in r <==> k in items)
    ensures forall k :: k in r ==> r[k] == items[k]
  {
    items - {AUTH_TOKEN, USER_DATA}
  }

  /** JavaScript truthiness of `localStorage.getItem(key)`: present and not the empty string. */
  predicate HasValue(items: map<string, string>, key: string)
    ensures HasValue(items, key) ==> key in items && |items[key]| > 0
    ensures key !in items ==> !HasValue(items, key)
  {
    key in items && items[key] != ""
  }

  class LocalStorage {
    var items: map<string, string>

    constructor (items: map<string, string>)
      ensures this.items == items
    {
      this.items := items;
    }

    /** `localStorage.getItem(key)`: `None` stands for `null`. */
    function GetItem(key: string): (r: Option<string>)
      reads this
      ensures r.Some? <==> key in items
      ensures r.Some? ==> r.value == items[key]
    {
      if key in items then Some(items[key]) else None
    }

    method SetItem(key: string, value: string)
      modifies this
      ensures items == old(items)[key := value]
    {
      items := items[key := value];
    }

    method RemoveItem(key: string)
      modifies this
      ensures items == old(items) - {key}
    {
      items := items - {key};
    }
  }
}
