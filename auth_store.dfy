/**
  The authentication store: the signed-in user, the authenticated flag and the access
  token, together with the one browser-storage entry it writes directly, the access token
  that the HTTP client reads at start-up.
*/
module AuthStore {
  import opened Wrappers

  /** The user kept in the store; the id arrives later than the rest. */
  datatype AuthUser = AuthUser(id: Option<int>, nombreCompleto: string, email: string, telefonoWhatsapp: Option<string>)

  const AccessTokenKey := "habitora-access-token"

  /** JavaScript truthiness of `string | null`: null and "" are falsy. */
  predicate TruthyToken(token: Option<string>)
  {
    token.Some? && token.value != ""
  }

  class Store {
    var user: Option<AuthUser>
    var isAuthenticated: bool
    var token: Option<string>
    /** The browser's key-value storage. */
    var storage: map<string, string>

    /** The stored access token is present exactly when the token is truthy, and then holds it. */
    predicate TokenStored()
      reads this
    {
      (AccessTokenKey in storage <==> TruthyToken(token))
      && (AccessTokenKey in storage ==> storage[AccessTokenKey] == token.value)
    }

    /** The store's initial state, over whatever the browser storage already holds. */
    constructor (initialStorage: map<string, string>)
      ensures user == None && !isAuthenticated && token == None
      ensures storage == initialStorage
    {
      user := None;
      isAuthenticated := false;
      token := None;
      storage := initialStorage;
    }

    /** `setUser`: the user is signed in; the token is left as it is. */
    method SetUser(u: AuthUser)
      modifies this
      ensures user == Some(u) && isAuthenticated
      ensures token == old(token) && storage == old(storage)
      ensures old(TokenStored()) ==> TokenStored()
    {
      user := Some(u);
      isAuthenticated := true;
    }

    /** `setUserId`: nothing happens without a user; otherwise only the user's id changes and the flag is set. */
    method SetUserId(id: int)
      modifies this
      ensures old(user).None? ==> user == old(user) && isAuthenticated == old(isAuthenticated)
      ensures old(user).Some? ==> user == Some(old(user).value.(id := Some(id))) && isAuthenticated
      ensures token == old(token) && storage == old(storage)
    {
      if user.Some? {
        user := Some(user.value.(id := Some(id)));
        isAuthenticated := true;
      }
    }

    /** `setAuthenticated`: only the flag changes. */
    method SetAuthenticated(value: bool)
      modifies this
      ensures isAuthenticated == value
      ensures user == old(user) && token == old(token) && storage == old(storage)
    {
      isAuthenticated := value;
    }

    /** `setToken`: the token is kept, and written to or removed from the storage by its truthiness. */
    method SetToken(t: Option<string>)
      modifies this
      ensures token == t
      ensures TruthyToken(t) ==> storage == old(storage)[AccessTokenKey := t.value]
      ensures !TruthyToken(t) ==> storage == old(storage) - {AccessTokenKey}
      ensures user == old(user) && isAuthenticated == old(isAuthenticated)
      ensures TokenStored()
    {
      if TruthyToken(t) {
        storage := storage[AccessTokenKey := t.value];
      } else {
        storage := storage - {AccessTokenKey};
      }
      token := t;
    }

    /** `logout`: the stored token is removed and the state goes back to its initial values. */
    method Logout()
      modifies this
      ensures user == None && !isAuthenticated && token == None
      ensures storage == old(storage) - {AccessTokenKey}
      ensures TokenStored()
      ensures forall k :: k in old(storage) && k != AccessTokenKey ==> k in storage && storage[k] == old(storage)[k]
    {
      storage := storage - {AccessTokenKey};
      user := None;
      isAuthenticated := false;
      token := None;
    }
  }
}
