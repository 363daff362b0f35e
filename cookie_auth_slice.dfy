/** The older, synchronous authentication store. The `authToken` cookie it
    writes and reads is modelled as an optional token field of the store. */
module CookieAuthSlice {
  import opened Common

  datatype User = User(id: string, email: string, name: string)

  /** The token stored on a successful login. */
  function TokenFor(u: User): (t: string)
    ensures StartsWith(t, "user-token-") && t[|"user-token-"|..] == u.id
    ensures t != ""
  {
    "user-token-" + u.id
  }

  /** A token is present when the cookie is set and not empty. */
  predicate HasToken(token: Option<string>) {
    token.Some? && token.value != ""
  }

  class CookieAuthStore {
    var user: Option<User>
    var isAuthenticated: bool
    var loading: bool
    var token: Option<string>

    /** Whoever is marked authenticated holds a token. */
    predicate Consistent()
      reads this
    {
      isAuthenticated ==> HasToken(token)
    }

    /** `initialState`, with the cookie as found in the browser. */
    constructor (cookie: Option<string>)
      ensures user.None? && !isAuthenticated && !loading && token == cookie
      ensures Consistent()
    {
      user := None;
      isAuthenticated := false;
      loading := false;
      token := cookie;
    }

    /** `loginStart` */
    method LoginStart()
      modifies this`loading
      ensures loading
    {
      loading := true;
    }

    /** `loginSuccess`: the user is stored and the token derived from the
        user's id is written. */
    method LoginSuccess(u: User)
      modifies this`user, this`isAuthenticated, this`loading, this`token
      ensures user == Some(u) && isAuthenticated && !loading
      ensures token == Some(TokenFor(u))
      ensures Consistent()
    {
      user := Some(u);
      isAuthenticated := true;
      loading := false;
      token := Some(TokenFor(u));
    }

    /** `loginFailure`; the token is left as it was. */
    method LoginFailure()
      modifies this`user, this`isAuthenticated, this`loading
      ensures user.None? && !isAuthenticated && !loading
      ensures Consistent()
    {
      loading := false;
      user := None;
      isAuthenticated := false;
    }

    /** `logout`: the user and the token are removed. */
    method Logout()
      modifies this`user, this`isAuthenticated, this`loading, this`token
      ensures user.None? && !isAuthenticated && !loading && token.None?
      ensures Consistent()
    {
      user := None;
      isAuthenticated := false;
      loading := false;
      token := None;
    }

    /** `checkAuth`: a present token marks the session authenticated and
        keeps the user; otherwise the session is cleared. `loading` is not
        touched. */
    method CheckAuth()
      modifies this`user, this`isAuthenticated
      ensures isAuthenticated <==> HasToken(token)
      ensures HasToken(token) ==> user == old(user)
      ensures !HasToken(token) ==> user.None?
      ensures Consistent()
    {
      if HasToken(token) {
        isAuthenticated := true;
      } else {
        isAuthenticated := false;
        user := None;
      }
    }
  }
}
