/**
 * The browser's `localStorage` as the pages use it: one key, `user`, holding
 * the signed-in account. Values are kept as records rather than JSON text.
 */
module Session {
  import opened Wrappers

  /** The account record stored under `user`. */
  datatype User = User(id: string, email: string, role: string, name: string)

  const UserKey := "user"

  class Storage {
    var items: map<string, User>

    constructor (initial: map<string, User>)
      ensures items == initial
    {
      items := initial;
    }

    /** `localStorage.getItem(key)`: the stored value, or nothing when the key is absent. */
    function GetItem(key: string): (r: Option<User>)
      reads this
      ensures r.Some? <==> key in items
      ensures r.Some? ==> r.value == items[key]
    {
      if key in items then Some(items[key]) else None
    }

    /** `localStorage.setItem(key, value)`. */
    method SetItem(key: string, value: User)
      modifies this
      ensures items == old(items)[key := value]
    {
      items := items[key := value];
    }

    /** `localStorage.removeItem(key)`: an absent key is no error. */
    method RemoveItem(key: string)
      modifies this
      ensures items == old(items) - {key}
    {
      items := items - {key};
    }
  }
}
