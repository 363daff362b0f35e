/** The authentication store driven by the login, session-check and logout
    requests. The user record is an opaque type parameter: its shape belongs
    to the user types, which are not part of this model. */
module AuthSlice {
  import opened Common

  class AuthStore<User> {
    var user: Option<User>
    var isAuthenticated: bool
    var loading: bool
    var error: Option<string>

    /** Whoever is marked authenticated has a user record. Every handler but
        the two fulfilled ones restores it. */
    predicate Consistent()
      reads this
    {
      isAuthenticated ==> user.Some?
    }

    /** `initialState`: loading starts true, so the session check runs
        before any guarded page is shown. */
    constructor ()
      ensures user.None? && !isAuthenticated && loading && error.None?
      ensures Consistent()
    {
      user := None;
      isAuthenticated := false;
      loading := true;
      error := None;
    }

    /** `loginThunk.pending` */
    method LoginPending()
      modifies this`loading
      ensures loading
    {
      loading := true;
    }

    /** `loginThunk.fulfilled`: the payload is `res.data.user`, which is
        absent when the response carries no user; the store is marked
        authenticated either way, so it stays consistent only when a user
        came back. */
    method LoginFulfilled(payload: Option<User>)
      modifies this`user, this`isAuthenticated, this`loading
      ensures user == payload && isAuthenticated && !loading
      ensures Consistent() <==> payload.Some?
    {
      user := payload;
      isAuthenticated := true;
      loading := false;
    }

    /** `loginThunk.rejected`: the error is the rejection payload as given,
        possibly absent; the user record is left as it was. */
    method LoginRejected(payload: Option<string>)
      modifies this`loading, this`isAuthenticated, this`error
      ensures !loading && !isAuthenticated && error == payload
      ensures Consistent()
    {
      loading := false;
      isAuthenticated := false;
      error := payload;
    }

    /** `checkAuthThunk.pending` */
    method CheckAuthPending()
      modifies this`loading
      ensures loading
    {
      loading := true;
    }

    /** `checkAuthThunk.fulfilled`: the payload is `res.data.user`, which is
        absent when the response carries no user; the store is marked
        authenticated either way, so it stays consistent only when a user
        came back. */
    method CheckAuthFulfilled(payload: Option<User>)
      modifies this`user, this`isAuthenticated, this`loading
      ensures user == payload && isAuthenticated && !loading
      ensures Consistent() <==> payload.Some?
    {
      user := payload;
      isAuthenticated := true;
      loading := false;
    }

    /** `checkAuthThunk.rejected` */
    method CheckAuthRejected()
      modifies this`user, this`isAuthenticated, this`loading
      ensures user.None? && !isAuthenticated && !loading
      ensures Consistent()
    {
      user := None;
      isAuthenticated := false;
      loading := false;
    }

    /** `logoutThunk.fulfilled` */
    method LogoutFulfilled()
      modifies this`user, this`isAuthenticated, this`loading
      ensures user.None? && !isAuthenticated && !loading
      ensures Consistent()
    {
      user := None;
      isAuthenticated := false;
      loading := false;
    }
  }
}
