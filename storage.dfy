/** The browser's key/value session store, as the session container uses it. */
module Storage {
  import opened Wrappers

  /** The three keys a login writes and a logout removes. */
  const AUTH_TOKEN := "authToken"
  const USER_ID := "userId"
  const USER_NAME := "userName"

  class LocalStorage {
    var items: map<string, string>

    constructor (initial: map<string, string>)
      ensures items == initial
    {
      items := initial;
    }

    /** `getItem`: the stored string, or null when the key is absent. */
    function GetItem(key: string): (value: Option<string>)
      reads this
      ensures value.Some? <==> key in items
      ensures value.Some? ==> value.value == items[key]
    {
      if key in items then Some(items[key]) else None
    }

    method SetItem(key: string, value: string)
      modifies this
      ensures items == old(items)[key := value]
    {
      items := items[key := value];
    }

    method RemoveItem(key: string)
      modifies this
      ensures items == old(items) - {key}
    {
      items := items - {key};
    }
  }
}
