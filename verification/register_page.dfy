/** The registration form of `src/pages/auth/RegisterPage.tsx`: field
    edits, and what one submission does. Registration writes the session
    slots through `AuthService` directly and never tells the provider. */
module RegisterPage {
  import opened Basics
  import opened AuthModel
  import AuthService
  import AuthContext

  datatype Field = Nombre | Email | Telefono | Direccion | Password

  datatype RegisterForm = RegisterForm(
    nombre: string,
    email: string,
    telefono: string,
    direccion: string,
    password: string)

  datatype RegisterPageState = RegisterPageState(
    form: RegisterForm,
    loading: bool,
    error: string,
    success: string)

  const SuccessText: string := "Cuenta creada exitosamente. Redirigiendo..."
  const RegisterFailedText: string := "Error al crear la cuenta. Int\U{00E9}ntalo de nuevo."
  const RedirectDelayMs: nat := 2000
  const MinPasswordLength: nat := 6

  /** The page's state on mount: every field empty, no messages, and a form
      the browser will not submit. */
  function Initial(): (s: RegisterPageState)
    ensures forall field :: Get(s.form, field) == ""
    ensures !s.loading && s.error == "" && s.success == ""
    ensures !Submittable(s.form)
  {
    RegisterPageState(RegisterForm("", "", "", "", ""), false, "", "")
  }

  function Get(f: RegisterForm, field: Field): string {
    match field
    case Nombre => f.nombre
    case Email => f.email
    case Telefono => f.telefono
    case Direccion => f.direccion
    case Password => f.password
  }

  /** `handleChange`: the input named `field` takes the typed value and the
      other fields keep theirs. */
  function HandleChange(f: RegisterForm, field: Field, value: string): (f': RegisterForm)
    ensures Get(f', field) == value
    ensures forall g :: g != field ==> Get(f', g) == Get(f, g)
  {
    match field
    case Nombre => f.(nombre := value)
    case Email => f.(email := value)
    case Telefono => f.(telefono := value)
    case Direccion => f.(direccion := value)
    case Password => f.(password := value)
  }

  /** The browser's constraint validation, which must pass before the submit
      handler runs: `nombre`, `email` and `password` are `required`, and
      `password` has `minLength={6}`; the other two fields are optional. */
  predicate Submittable(f: RegisterForm) {
    f.nombre != "" && f.email != "" && f.password != "" && |f.password| >= MinPasswordLength
  }

  /** The body sent to `POST /auth/register`: the form data as it stands,
      optional fields included even when empty. */
  function Request(f: RegisterForm): (r: RegisterRequest)
    ensures r.nombre == f.nombre && r.email == f.email && r.password == f.password
    ensures r.telefono == Some(f.telefono) && r.direccion == Some(f.direccion)
  {
    RegisterRequest(f.nombre, f.email, Some(f.telefono), Some(f.direccion), f.password)
  }

  /** A `setTimeout(() => navigate(to), delayMs)` left pending. */
  datatype Scheduled = Scheduled(to: string, delayMs: nat)

  datatype Submission = Submission(
    pending: RegisterPageState,
    page: RegisterPageState,
    provider: AuthContext.Provider,
    scheduled: Option<Scheduled>)

  /** `handleSubmit`, with `reply` the server's answer to `Request(form)`.
      Both messages are cleared and the form disabled before the call. On
      success the response is saved to storage, the success text is shown
      and a navigation to the dashboard is scheduled; the provider's user is
      left as it was. On failure storage is untouched and the error shows the
      server's message or the fixed text. The form is enabled again either
      way. */
  function HandleSubmit(s: RegisterPageState, p: AuthContext.Provider, reply: ApiReply): (r: Submission)
    requires Submittable(s.form)
    ensures r.pending == s.(loading := true, error := "", success := "")
    ensures !r.page.loading && r.page.form == s.form
    ensures r.provider.user == p.user && r.provider.loading == p.loading
    ensures reply.Ok? ==>
              && r.provider.storage == AuthService.SaveAuthData(p.storage, reply.value)
              && r.page.success == SuccessText && r.page.error == ""
              && r.scheduled == Some(Scheduled("/dashboard", RedirectDelayMs))
    ensures reply.Err? ==>
              && r.provider == p
              && r.page.error == MessageOr(reply.error, RegisterFailedText) && r.page.error != ""
              && r.page.success == ""
              && r.scheduled == None
  {
    var pending := s.(loading := true, error := "", success := "");
    match reply
    case Ok(resp) =>
      Submission(pending, pending.(loading := false, success := SuccessText),
                 p.(storage := AuthService.SaveAuthData(p.storage, resp)),
                 Some(Scheduled("/dashboard", RedirectDelayMs)))
    case Err(e) =>
      Submission(pending, pending.(loading := false, error := MessageOr(e, RegisterFailedText)), p, None)
  }

  /** Editing one field never changes what another field holds, so two
      edits of different fields commute. */
  lemma EditsCommute(f: RegisterForm, a: Field, va: string, b: Field, vb: string)
    requires a != b
    ensures HandleChange(HandleChange(f, a, va), b, vb) == HandleChange(HandleChange(f, b, vb), a, va)
  {
  }
}
