/** The browser's `localStorage`, a string-to-string store updated in place. */
module Storage {
  import opened Wrappers

  const TokenKey := "token"
  const RefreshTokenKey := "refreshToken"

  class LocalStorage {
    var items: map<string, string>

    constructor (initial: map<string, string>)
      ensures items == initial
    {
      items := initial;
    }

    /** `getItem(key)`: None stands for JavaScript's `null`. */
    function GetItem(key: string): Option<string>
      reads this
    {
      if key in items then Some(items[key]) else None
    }

    method SetItem(key: string, value: string)
      modifies this
      ensures items == old(items)[key := value]
    {
      items := items[key := value];
    }

    /** `!!localStorage.getItem('token')`: a stored, non-empty token. */
    predicate HasToken()
      reads this
    {
      TokenKey in items && items[TokenKey] != ""
    }
  }
}
