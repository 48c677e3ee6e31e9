/**
 * The browser's two string-to-string stores and the literal keys the storefront
 * uses in them. The key names are inconsistent in the program itself and are kept
 * as written: the API layer uses `access_token`/`refresh_token`, the login page
 * `token`/`isLoggedIn`, and the route guard and the second API instance read
 * `accessToken` from the session store.
 */
module Storage {
  import opened Wrappers

  type Store = map<string, string>

  const AccessTokenKey := "access_token"
  const RefreshTokenKey := "refresh_token"
  const TokenKey := "token"
  const IsLoggedInKey := "isLoggedIn"
  const SessionAccessTokenKey := "accessToken"
  /** The key the checkout page reads from the local store; nothing in the program writes it there. */
  const LocalAccessTokenKey := "accessToken"

  /** `getItem`: the stored string, or null when the key was never set. */
  function GetItem(s: Store, key: string): (r: Option<string>)
    ensures r.Some? <==> key in s
    ensures r.Some? ==> r.value == s[key]
  {
    if key in s then Some(s[key]) else None
  }

  /** `localStorage` and `sessionStorage` of one browser tab. */
  class Browser {
    var local: Store
    var session: Store

    constructor (local: Store, session: Store)
      ensures this.local == local && this.session == session
    {
      this.local := local;
      this.session := session;
    }

    /** `localStorage.setItem(key, value)`. */
    method SetLocal(key: string, value: string)
      modifies this
      ensures local == old(local)[key := value]
      ensures session == old(session)
    {
      local := local[key := value];
    }
  }
}
