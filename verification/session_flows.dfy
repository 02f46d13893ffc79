/** How the pages, the guard and the provider fit together: the round trip
    through the login page, and the two places where a page changes the
    session's storage without going through the provider, so that the
    provider's `user` and the stored session disagree until a reload.

    The route table is not part of the source, so each lemma takes the
    guard's `requireAuth` flag as given: protected for the dashboard and the
    blocked page, public for the login page. */
module SessionFlows {
  import opened Basics
  import opened AuthModel
  import AuthService
  import AuthContext
  import ProtectedRoute
  import LoginPage
  import RegisterPage
  import Sidebar

  /** The location a `navigate(path)` call arrives at. */
  function Arrive(path: string): ProtectedRoute.Location {
    ProtectedRoute.Location(path, "", "")
  }

  /** An anonymous visitor to a protected page is sent to log in with the
      page recorded; a successful login then goes back to that page's path,
      replacing the login entry, and if that path is mounted under a
      protected guard, the guard now renders it. The query string and
      fragment are not carried back. */
  lemma LoginReturnsToBlockedPage(p: AuthContext.Provider, loc: ProtectedRoute.Location,
                                  f: LoginPage.LoginForm, r: AuthResponse)
    requires !p.loading && !AuthContext.IsAuthenticated(p) && loc.pathname != ""
    ensures ProtectedRoute.Guard(p, true, loc) == ProtectedRoute.Redirect(ProtectedRoute.LoginPath, Some(loc))
    ensures var s := LoginPage.HandleSubmit(f, p, Some(loc), Ok(r));
            && s.nav == Some(LoginPage.Navigation(loc.pathname, true))
            && ProtectedRoute.Guard(s.provider, true, Arrive(loc.pathname)) == ProtectedRoute.Children
  {
  }

  /** Logging in from the login page reached directly, with nothing blocked,
      lands on `/dashboard`; if `/dashboard` is mounted under a protected
      guard, the guard renders it. */
  lemma DirectLoginLandsOnDashboard(p: AuthContext.Provider, f: LoginPage.LoginForm, r: AuthResponse)
    requires !p.loading
    ensures var s := LoginPage.HandleSubmit(f, p, None, Ok(r));
            && s.nav == Some(LoginPage.Navigation(ProtectedRoute.DashboardPath, true))
            && ProtectedRoute.Guard(s.provider, true, Arrive(ProtectedRoute.DashboardPath)) == ProtectedRoute.Children
  {
  }

  /** A failed login leaves the visitor where they were: no navigation, and
      a protected guard still sends its page to the login page. */
  lemma FailedLoginStays(p: AuthContext.Provider, loc: ProtectedRoute.Location,
                         f: LoginPage.LoginForm, e: ApiError)
    requires !p.loading && !AuthContext.IsAuthenticated(p)
    ensures var s := LoginPage.HandleSubmit(f, p, Some(loc), Err(e));
            && s.nav == None
            && ProtectedRoute.Guard(s.provider, true, loc) == ProtectedRoute.Redirect(ProtectedRoute.LoginPath, Some(loc))
  {
  }

  /** The sidebar's logout empties storage but leaves the provider's user in
      place. The provider still counts the session as authenticated although
      no token is stored, so if the login page is mounted under a public
      guard, the move to it is redirected to the dashboard; only a reload
      ends the session. */
  lemma SidebarLogoutKeepsSession(p: AuthContext.Provider)
    requires !p.loading && AuthContext.IsAuthenticated(p)
    ensures var e := Sidebar.HandleLogout(p);
            && AuthContext.IsAuthenticated(e.provider)
            && !AuthService.IsAuthenticated(e.provider.storage)
            && ProtectedRoute.Guard(e.provider, false, Arrive(e.navigateTo))
               == ProtectedRoute.Redirect(ProtectedRoute.DashboardPath, None)
            && !AuthContext.IsAuthenticated(AuthContext.Start(e.provider.storage))
  {
  }

  /** The provider's own `logout`, by contrast, ends the session at once:
      if the login page is mounted under a public guard, it renders. */
  lemma ProviderLogoutEndsSession(p: AuthContext.Provider)
    requires !p.loading
    ensures var q := AuthContext.Logout(p);
            && !AuthContext.IsAuthenticated(q)
            && !AuthService.IsAuthenticated(q.storage)
            && ProtectedRoute.Guard(q, false, Arrive(ProtectedRoute.LoginPath)) == ProtectedRoute.Children
  {
  }

  /** Registration stores a session the provider does not know about: the
      token is stored, yet if the scheduled move's target is mounted under a
      protected guard, it is sent back to the login page. A reload, which
      starts a new provider on the same storage, picks the registered user
      up. */
  lemma {:induction false} RegisterNeedsReload(s: RegisterPage.RegisterPageState, p: AuthContext.Provider,
                                               r: AuthResponse)
    requires RegisterPage.Submittable(s.form)
    requires !p.loading && p.user == None && r.accessToken != ""
    ensures var sub := RegisterPage.HandleSubmit(s, p, Ok(r));
            && sub.scheduled.Some?
            && AuthService.IsAuthenticated(sub.provider.storage)
            && !AuthContext.IsAuthenticated(sub.provider)
            && ProtectedRoute.Guard(sub.provider, true, Arrive(sub.scheduled.value.to))
               == ProtectedRoute.Redirect(ProtectedRoute.LoginPath, Some(Arrive(sub.scheduled.value.to)))
            && AuthContext.Start(sub.provider.storage).user == Some(r.user)
  {
    AuthService.SaveThenRead(p.storage, r);
  }
}
