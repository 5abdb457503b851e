/** The persisted session store `useAuthStore` (src/store/auth.ts): the signed-in
    user with their bearer token, and the `isAuthenticated` flag. */
module AuthStore {
  import opened AuthTypes

  /** The store's two data fields, as a value. */
  datatype AuthState = AuthState(user: Option<StoredUser>, isAuthenticated: bool)

  /** The invariant both transitions keep: the flag is set exactly when a user is stored. */
  predicate Consistent(s: AuthState)
  {
    s.isAuthenticated <==> s.user.Some?
  }

  /** The state the store is created with. */
  function InitialState(): (s: AuthState)
    ensures Consistent(s) && !s.isAuthenticated && s.user == None
  {
    AuthState(None, false)
  }

  /** `setUser(user, token)`: `set` replaces both fields, so the prior state plays no part. */
  function SetUserState(prior: AuthState, u: User, token: string): (s: AuthState)
    ensures Consistent(s) && s.isAuthenticated
    ensures s.user.Some? && s.user.value.token == token && Profile(s.user.value) == u
  {
    AuthState(Some(WithToken(u, token)), true)
  }

  /** `logout()`: both fields are cleared, whatever they held. */
  function LogoutState(prior: AuthState): (s: AuthState)
    ensures Consistent(s) && !s.isAuthenticated && s.user == None
  {
    AuthState(None, false)
  }

  /** After `logout()` nobody is signed in, whatever the prior state. */
  lemma LogoutClears(prior: AuthState)
    ensures LogoutState(prior) == InitialState()
  {
  }

  /** Both transitions keep `isAuthenticated <==> user != null`, from any state. */
  lemma TransitionsKeepConsistent(prior: AuthState, u: User, token: string)
    ensures Consistent(SetUserState(prior, u, token))
    ensures Consistent(LogoutState(prior))
  {
  }

  lemma LogoutIdempotent(s: AuthState)
    ensures LogoutState(LogoutState(s)) == LogoutState(s)
  {
  }

  /** The last `setUser` wins: an earlier call leaves no trace. */
  lemma LastSetUserWins(s: AuthState, u1: User, t1: string, u2: User, t2: string)
    ensures SetUserState(SetUserState(s, u1, t1), u2, t2) == SetUserState(s, u2, t2)
  {
  }

  /** Signing in and then out returns the store to the state it was created with. */
  lemma SetUserThenLogoutIsInitial(s: AuthState, u: User, token: string)
    ensures LogoutState(SetUserState(s, u, token)) == InitialState()
  {
  }

  /** The store object; its fields are overwritten in place by `setUser` and `logout`. */
  class Store {
    var user: Option<StoredUser>
    var isAuthenticated: bool

    function State(): (s: AuthState)
      reads this
    {
      AuthState(user, isAuthenticated)
    }

    ghost predicate Valid()
      reads this
    {
      Consistent(State())
    }

    constructor ()
      ensures Valid() && State() == InitialState()
    {
      user := None;
      isAuthenticated := false;
    }

    method SetUser(u: User, token: string)
      modifies this
      ensures Valid()
      ensures State() == SetUserState(old(State()), u, token)
    {
      user := Some(WithToken(u, token));
      isAuthenticated := true;
    }

    method Logout()
      modifies this
      ensures Valid()
      ensures State() == LogoutState(old(State()))
    {
      user := None;
      isAuthenticated := false;
    }
  }
}
