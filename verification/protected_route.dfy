/** The navigation guard of `src/components/ProtectedRoute.tsx`: a decision
    from the provider's `loading` and `isAuthenticated`, the route's
    `requireAuth` flag and the current location to one of three views. */
module ProtectedRoute {
  import opened Basics
  import AuthContext

  /** The router location the guard sees; `from` carries all of it. */
  datatype Location = Location(pathname: string, search: string, hash: string)

  /** What the guard renders: the spinner, a `<Navigate replace>` (with the
      blocked location as `state.from` when it sends the user to log in), or
      the children. Both redirects replace the current history entry. */
  datatype View = Waiting | Redirect(to: string, from: Option<Location>) | Children

  const LoginPath: string := "/auth/login"
  const RegisterPath: string := "/auth/register"
  const DashboardPath: string := "/dashboard"

  /** `requireAuth` when the route does not say. */
  const DefaultRequireAuth: bool := true

  /** The entry points an authenticated user is sent away from. */
  predicate IsAuthEntry(pathname: string) {
    pathname == LoginPath || pathname == RegisterPath
  }

  /** The guard's checks, in their order. Each of the four views is produced
      under exactly the condition stated, so one and only one applies. */
  function Decide(loading: bool, isAuthenticated: bool, requireAuth: bool, loc: Location): (v: View)
    ensures v == Waiting <==> loading
    ensures v == Redirect(LoginPath, Some(loc)) <==> !loading && requireAuth && !isAuthenticated
    ensures v == Redirect(DashboardPath, None) <==>
              !loading && !requireAuth && isAuthenticated && IsAuthEntry(loc.pathname)
    ensures v == Children <==>
              !loading && (requireAuth ==> isAuthenticated)
              && !(!requireAuth && isAuthenticated && IsAuthEntry(loc.pathname))
    ensures v.Redirect? ==> v == Redirect(LoginPath, Some(loc)) || v == Redirect(DashboardPath, None)
  {
    if loading then Waiting
    else if requireAuth && !isAuthenticated then Redirect(LoginPath, Some(loc))
    else if !requireAuth && isAuthenticated && IsAuthEntry(loc.pathname) then Redirect(DashboardPath, None)
    else Children
  }

  /** The guard as mounted under a provider, whose `isAuthenticated` is
      whether it holds a user. */
  function Guard(p: AuthContext.Provider, requireAuth: bool, loc: Location): (v: View)
    ensures v == Waiting <==> p.loading
    ensures v == Redirect(LoginPath, Some(loc)) <==> !p.loading && requireAuth && p.user.None?
    ensures v == Redirect(DashboardPath, None) <==>
              !p.loading && !requireAuth && p.user.Some? && IsAuthEntry(loc.pathname)
    ensures v == Children <==>
              !p.loading && (requireAuth ==> p.user.Some?)
              && !(!requireAuth && p.user.Some? && IsAuthEntry(loc.pathname))
    ensures v == Children && requireAuth ==> p.user.Some?
  {
    Decide(p.loading, AuthContext.IsAuthenticated(p), requireAuth, loc)
  }

  /** `<ProtectedRoute>` without the prop protects its children: it never
      bounces an authenticated user to the dashboard, and renders only for an
      authenticated user. */
  lemma DefaultProtects(loading: bool, isAuthenticated: bool, loc: Location)
    ensures Decide(loading, isAuthenticated, DefaultRequireAuth, loc) != Redirect(DashboardPath, None)
    ensures Decide(loading, isAuthenticated, DefaultRequireAuth, loc) == Children <==> !loading && isAuthenticated
  {
  }

  /** The loading check comes first: while loading, neither the
      authentication state nor the path matters. */
  lemma LoadingWins(isAuthenticated: bool, requireAuth: bool, loc: Location, isAuthenticated': bool, loc': Location)
    ensures Decide(true, isAuthenticated, requireAuth, loc) == Decide(true, isAuthenticated', requireAuth, loc')
  {
  }

  /** A public route renders for everyone except an authenticated user on
      the login or register page. */
  lemma PublicRoutes(loading: bool, isAuthenticated: bool, loc: Location)
    requires !loading
    ensures !isAuthenticated ==> Decide(loading, isAuthenticated, false, loc) == Children
    ensures isAuthenticated && !IsAuthEntry(loc.pathname) ==> Decide(loading, isAuthenticated, false, loc) == Children
  {
  }
}
