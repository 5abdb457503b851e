/** The root page (`Home` in src/app/page.tsx): its effect sends the visitor to
    the dashboard or to the sign-in screen, from the store's `isAuthenticated`. */
module Home {
  import opened Routes
  import opened AuthTypes
  import opened AuthStore

  /** The path the effect passes to `router.push`. */
  function HomeRedirect(isAuthenticated: bool): (route: string)
    ensures route == DashboardPath || route == AuthPath
    ensures route == DashboardPath <==> isAuthenticated
    ensures route == AuthPath <==> !isAuthenticated
  {
    if isAuthenticated then DashboardPath else AuthPath
  }

  /** On a consistent store the redirect goes to the dashboard exactly when a user is stored. */
  lemma RedirectFollowsStoredUser(s: AuthState)
    requires Consistent(s)
    ensures HomeRedirect(s.isAuthenticated) == DashboardPath <==> s.user.Some?
  {
  }

  /** After `setUser` the root page sends the visitor to the dashboard. */
  lemma RedirectAfterSetUser(s: AuthState, u: User, token: string)
    ensures HomeRedirect(SetUserState(s, u, token).isAuthenticated) == DashboardPath
  {
  }

  /** After `logout` the root page sends the visitor to the sign-in screen. */
  lemma RedirectAfterLogout(s: AuthState)
    ensures HomeRedirect(LogoutState(s).isAuthenticated) == AuthPath
  {
  }

  /** A fresh store sends the visitor to the sign-in screen. */
  lemma RedirectInitially()
    ensures HomeRedirect(InitialState().isAuthenticated) == AuthPath
  {
  }

  /** The effect, run against the live store: it reads the store and changes nothing. */
  method HomeEffect(store: Store) returns (route: string)
    ensures route == HomeRedirect(store.isAuthenticated)
    ensures store.Valid() ==> (route == DashboardPath <==> store.user.Some?)
  {
    if store.isAuthenticated {
      route := DashboardPath;
    } else {
      route := AuthPath;
    }
  }
}
