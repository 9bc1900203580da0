/** The browser's `localStorage`, reduced to the string map the client reads
    and writes. Only the bearer token under the key "token" is used here. */
module Storage {
  import opened Wrappers

  const TokenKey: string := "token"

  class LocalStorage {
    var items: map<string, string>

    constructor (initial: map<string, string>)
      ensures items == initial
    {
      items := initial;
    }

    /** `getItem`: the stored value, or null. */
    function GetItem(key: string): Option<string>
      reads this
    {
      if key in items then Some(items[key]) else None
    }

    /** `removeItem`: forget one key; the others are untouched. */
    method RemoveItem(key: string)
      modifies this
      ensures items == old(items) - {key}
    {
      items := items - {key};
    }
  }

  /** The value `getItem('token')` yields as a truthy string: a stored empty
      string counts as no token, as `if (token)` does. */
  function StoredToken(items: map<string, string>): Option<string> {
    if TokenKey in items && items[TokenKey] != "" then Some(items[TokenKey]) else None
  }
}
