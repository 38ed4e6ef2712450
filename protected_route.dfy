/** The route guard that wraps every signed-in page: a loader while the user
    slice is busy, a redirect to the login page when it is not authenticated,
    and the wrapped page otherwise. */
module ProtectedRoute {
  import opened JsValues
  import opened UserSlice

  datatype Route = ShowLoader | Redirect(path: string) | Children

  const LoginPath := "/login"

  /** What the guard renders for the user slice's two flags. */
  function Decide(loading: bool, isAuthenticated: bool): (r: Route)
    ensures r == ShowLoader <==> loading
    ensures r == Redirect(LoginPath) <==> !loading && !isAuthenticated
    ensures r == Children <==> !loading && isAuthenticated
  {
    if loading then ShowLoader
    else if !isAuthenticated then Redirect(LoginPath)
    else Children
  }

  /** What the guard renders for a user store. */
  function Guard(s: UserState): (r: Route)
    ensures r == ShowLoader <==> s.loading
    ensures r == Redirect(LoginPath) <==> !s.loading && !s.isAuthenticated
    ensures r == Children <==> !s.loading && s.isAuthenticated
  {
    Decide(s.loading, s.isAuthenticated)
  }

  /** Once a logout has settled, either way, the guard sends the user to the
      login page. */
  lemma AfterLogoutRedirects(s: UserState, p: Phase)
    requires !p.Pending?
    ensures Guard(Reduce(s, Run(Logout, p))) == Redirect(LoginPath)
  {
  }

  /** While any user request with a reducer case is pending, the guard shows
      the loader whatever the authentication flag says. */
  lemma PendingShowsLoader(s: UserState, t: Thunk)
    requires HasCases(t)
    ensures Guard(Reduce(s, Run(t, Pending))) == ShowLoader
  {
  }

  lemma FailedLoginRedirects(s: UserState, payload: Value)
    ensures Guard(Reduce(s, Run(Login, Rejected(payload)))) == Redirect(LoginPath)
  {
  }

  /** A successful registration opens the protected pages. */
  lemma RegisterOpensPages(s: UserState, payload: Value)
    requires !Nullish(payload)
    ensures Guard(Reduce(s, Run(Register, Fulfilled(payload)))) == Children
  {
  }

  /** A fulfilled login or profile fetch opens the protected pages exactly when
      the stored user info is truthy. */
  lemma SignInOpensPagesIffUserInfo(s: UserState, t: Thunk, payload: Value)
    requires t in {Login, GetProfile}
    requires !Throws(Run(t, Fulfilled(payload)))
    ensures var r := Reduce(s, Run(t, Fulfilled(payload)));
            Guard(r) == Children <==> Truthy(r.userInfo)
  {
  }

  /** From a fresh store the guard redirects until a sign-in action is
      fulfilled, whatever else is dispatched. */
  lemma {:induction false} NoPagesWithoutSignIn(actions: seq<Action>)
    requires forall i :: 0 <= i < |actions| ==> !Authenticates(actions[i])
    ensures Guard(Replay(InitialState, actions)) != Children
  {
    NoAuthenticationWithoutFulfilled(InitialState, actions);
  }
}
