/** The login form of `src/pages/auth/LoginPage.tsx`: where a successful
    login leads, and what one submission does to the form, the provider
    and the router. */
module LoginPage {
  import opened Basics
  import opened AuthModel
  import AuthContext
  import ProtectedRoute

  datatype LoginForm = LoginForm(email: string, password: string, loading: bool, error: string)

  /** A `navigate(to, { replace })` call. */
  datatype Navigation = Navigation(to: string, replace: bool)

  const LoginFailedText: string := "Error al iniciar sesi\U{00F3}n. Verifica tus credenciales."

  /** The page's state on mount: empty fields, enabled, no error. */
  function Initial(): (f: LoginForm)
    ensures f.email == "" && f.password == "" && f.error == ""
    ensures !InputsDisabled(f)
  {
    LoginForm("", "", false, "")
  }

  /** `location.state?.from?.pathname || '/dashboard'`: the page the guard
      blocked, when there was one with a non-empty path. */
  function Target(from: Option<ProtectedRoute.Location>): (t: string)
    ensures from.Some? && from.value.pathname != "" ==> t == from.value.pathname
    ensures from.None? || from.value.pathname == "" ==> t == ProtectedRoute.DashboardPath
    ensures t != ""
  {
    match from
    case Some(loc) => if loc.pathname != "" then loc.pathname else ProtectedRoute.DashboardPath
    case None => ProtectedRoute.DashboardPath
  }

  /** The email and password inputs and the submit button carry
      `disabled={loading}`. */
  predicate InputsDisabled(f: LoginForm) {
    f.loading
  }

  /** One submission: the form while `login` is awaited, the form afterwards,
      the provider afterwards, and the navigation performed, if any. */
  datatype Submission = Submission(
    pending: LoginForm,
    form: LoginForm,
    provider: AuthContext.Provider,
    nav: Option<Navigation>)

  /** `handleSubmit`, with `reply` the server's answer to the credentials in
      the form. The error is cleared and the form disabled before the call;
      success navigates to the target with `replace`, failure shows the
      server's message or the fixed text and stays; the form is enabled
      again either way. */
  function HandleSubmit(f: LoginForm, p: AuthContext.Provider, from: Option<ProtectedRoute.Location>,
                        reply: ApiReply): (s: Submission)
    ensures s.pending == f.(loading := true, error := "")
    ensures InputsDisabled(s.pending) && !InputsDisabled(s.form)
    ensures s.form.email == f.email && s.form.password == f.password
    ensures s.provider == AuthContext.Login(p, reply).provider
    ensures s.nav.Some? <==> reply.Ok?
    ensures reply.Ok? ==> s.nav == Some(Navigation(Target(from), true)) && s.form.error == ""
    ensures reply.Ok? ==> s.provider.user == Some(reply.value.user)
    ensures reply.Err? ==>
              && s.provider == p
              && s.form.error == MessageOr(reply.error, LoginFailedText)
              && s.form.error != ""
  {
    var pending := f.(loading := true, error := "");
    var step := AuthContext.Login(p, reply);
    match step.thrown
    case None =>
      Submission(pending, pending.(loading := false), step.provider, Some(Navigation(Target(from), true)))
    case Some(err) =>
      Submission(pending, pending.(loading := false, error := MessageOr(err, LoginFailedText)), step.provider, None)
  }
}
