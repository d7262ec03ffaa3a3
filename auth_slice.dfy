/** The authentication slice: the bearer token, whether the user counts as
    logged in, and the user's profile.  The token is mirrored in the
    browser's local storage under the key "token", which is read once when
    the store is created and written by `login` and `logout`. */
module AuthSlice {
  import opened Wrappers

  const TokenKey := "token"

  datatype User = User(id: string, email: string, name: string)

  datatype AuthState = AuthState(token: Option<string>, isAuthenticated: bool, user: Option<User>)

  /** `localStorage.getItem`: a missing key reads as null. */
  function GetItem(items: map<string, string>, key: string): Option<string> {
    if key in items then Some(items[key]) else None
  }

  /** The initial state, read from storage: the stored token as is, logged
      in only when that token is non-empty (`!!` on a string), no user. */
  function InitialAuth(items: map<string, string>): (s: AuthState)
    ensures s.token.Some? <==> TokenKey in items
    ensures s.isAuthenticated <==> TokenKey in items && items[TokenKey] != ""
    ensures s.isAuthenticated ==> s.token.Some?
    ensures s.user == None
  {
    var stored := GetItem(items, TokenKey);
    AuthState(stored, stored.Some? && stored.value != "", None)
  }

  /** `login`: the payload's token and user, logged in whatever the token. */
  function LoginReducer(s: AuthState, token: string, user: Option<User>): (r: AuthState)
    ensures r.isAuthenticated && r.token == Some(token) && r.user == user
  {
    AuthState(Some(token), true, user)
  }

  /** `logout`: everything cleared. */
  function LogoutReducer(s: AuthState): (r: AuthState)
    ensures !r.isAuthenticated && r.token.None? && r.user.None?
  {
    AuthState(None, false, None)
  }

  /** The storage effect of `login` and of `logout`. */
  function StoreToken(items: map<string, string>, token: string): map<string, string> {
    items[TokenKey := token]
  }

  function ForgetToken(items: map<string, string>): map<string, string> {
    items - {TokenKey}
  }

  /** Being logged in always comes with a token, from any reachable state. */
  lemma AuthenticatedHasToken(s: AuthState, token: string, user: Option<User>)
    ensures LoginReducer(s, token, user).isAuthenticated && LoginReducer(s, token, user).token == Some(token)
    ensures !LogoutReducer(s).isAuthenticated && LogoutReducer(s).token == None
  {
  }

  /** What a reload sees: after `login` the stored token is the store's token,
      but the session only survives the reload when that token is non-empty
      and the user profile is always lost; after `logout` a reload gives
      exactly the logged-out state, and logging out twice is logging out
      once. */
  lemma ReloadAfterLoginLogout(items: map<string, string>, s: AuthState, token: string, user: Option<User>)
    ensures InitialAuth(StoreToken(items, token)).token == LoginReducer(s, token, user).token
    ensures InitialAuth(StoreToken(items, token)).isAuthenticated <==> token != ""
    ensures InitialAuth(StoreToken(items, token)).user == None
    ensures InitialAuth(ForgetToken(items)) == LogoutReducer(s)
    ensures LogoutReducer(LogoutReducer(s)) == LogoutReducer(s)
    ensures ForgetToken(ForgetToken(items)) == ForgetToken(items)
  {
  }

  /** The browser's local storage, shared with the rest of the page. */
  class LocalStorage {
    var items: map<string, string>

    constructor (initial: map<string, string>)
      ensures items == initial
    {
      items := initial;
    }
  }

  class AuthStore {
    var token: Option<string>
    var isAuthenticated: bool
    var user: Option<User>
    const storage: LocalStorage

    function State(): AuthState
      reads this
    {
      AuthState(token, isAuthenticated, user)
    }

    /** The store's token is the one in storage, and being logged in implies
        having a token. */
    predicate Synced()
      reads this, storage
    {
      token == GetItem(storage.items, TokenKey) && (isAuthenticated ==> token.Some?)
    }

    constructor (storage: LocalStorage)
      ensures this.storage == storage
      ensures State() == InitialAuth(storage.items)
      ensures Synced()
    {
      this.storage := storage;
      var stored := GetItem(storage.items, TokenKey);
      token := stored;
      isAuthenticated := stored.Some? && stored.value != "";
      user := None;
    }

    method Login(newToken: string, newUser: Option<User>)
      modifies this, storage
      ensures token == Some(newToken) && user == newUser && isAuthenticated
      ensures storage.items == StoreToken(old(storage.items), newToken)
      ensures State() == LoginReducer(old(State()), newToken, newUser)
      ensures Synced()
    {
      token := Some(newToken);
      user := newUser;
      isAuthenticated := true;
      storage.items := StoreToken(storage.items, newToken);
    }

    method Logout()
      modifies this, storage
      ensures token == None && user == None && !isAuthenticated
      ensures storage.items == ForgetToken(old(storage.items))
      ensures State() == LogoutReducer(old(State()))
      ensures Synced()
    {
      token := None;
      user := None;
      isAuthenticated := false;
      storage.items := ForgetToken(storage.items);
    }
  }
}
