/** The session provider of `src/contexts/AuthContext.tsx`: the in-memory
    `user` and `loading` state, the storage it shares with the rest of the
    page, the one-shot initialisation effect, and the `login` and `logout`
    transitions. */
module AuthContext {
  import opened Basics
  import opened AuthModel
  import AuthService
  import UserJson

  /** The provider's state together with the `localStorage` it reads and
      writes. */
  datatype Provider = Provider(storage: AuthService.Storage, user: Option<User>, loading: bool)

  /** The state when the provider first renders: no user, still loading. */
  function Mount(st: AuthService.Storage): (p: Provider)
    ensures p.storage == st && p.user == None && p.loading
  {
    Provider(st, None, true)
  }

  /** The initialisation effect. When the token slot is non-empty the user
      slot is read: an absent, empty or `null` slot gives no user, a parsed
      user becomes the session's user, and text that does not parse clears
      both slots and leaves the user as it was. Whatever happens, loading
      ends. */
  function Init(p: Provider): (p': Provider)
    ensures !p'.loading
    ensures !AuthService.IsAuthenticated(p.storage) ==> p'.storage == p.storage && p'.user == p.user
    ensures AuthService.IsAuthenticated(p.storage)
              && (AuthService.UserKey !in p.storage
                  || p.storage[AuthService.UserKey] == ""
                  || p.storage[AuthService.UserKey] == "null")
            ==> p'.storage == p.storage && p'.user == None
    ensures forall u ::
              (&& AuthService.IsAuthenticated(p.storage)
               && AuthService.UserKey in p.storage
               && p.storage[AuthService.UserKey] != ""
               && UserJson.Parse(p.storage[AuthService.UserKey]) == Some(UserJson.Object(u)))
              ==> p'.storage == p.storage && p'.user == Some(u)
    ensures AuthService.IsAuthenticated(p.storage)
              && AuthService.UserKey in p.storage
              && p.storage[AuthService.UserKey] != ""
              && UserJson.Parse(p.storage[AuthService.UserKey]) == None
            ==> p'.storage == AuthService.Logout(p.storage) && p'.user == p.user
  {
    if AuthService.IsAuthenticated(p.storage) then
      match AuthService.GetUser(p.storage)
      case Ok(u) => Provider(p.storage, u, false)
      case Err(_) => Provider(AuthService.Logout(p.storage), p.user, false)
    else
      p.(loading := false)
  }

  /** What the application sees once the provider has mounted and its effect
      has run against the storage `st`: loading is over; without a token
      nothing is read or changed; with one, the user slot's reading becomes
      the session user, or, when it cannot be read, both slots are cleared
      and there is no user. */
  function Start(st: AuthService.Storage): (p: Provider)
    ensures !p.loading
    ensures !AuthService.IsAuthenticated(st) ==> p == Provider(st, None, false)
    ensures (AuthService.IsAuthenticated(st) && AuthService.GetUser(st).Ok?)
              ==> p == Provider(st, AuthService.GetUser(st).value, false)
    ensures (AuthService.IsAuthenticated(st) && AuthService.GetUser(st).Err?)
              ==> p == Provider(AuthService.Logout(st), None, false)
    ensures p.user.Some? ==> AuthService.GetUser(st) == Ok(p.user)
  {
    Init(Mount(st))
  }

  /** The result of a provider `login`: the new state, and the error it
      re-threw, if any. */
  datatype Step = Step(provider: Provider, thrown: Option<ApiError>)

  /** `login(email, password)`, where `reply` is the server's answer to
      `LoginRequest(email, password)`. On success the response is written to
      storage and its user becomes the session's user; on failure the error
      is re-thrown and nothing changes. */
  function Login(p: Provider, reply: ApiReply): (s: Step)
    ensures s.provider.loading == p.loading
    ensures reply.Ok? ==>
              && s.thrown == None
              && s.provider.user == Some(reply.value.user)
              && AuthService.GetToken(s.provider.storage) == Some(reply.value.accessToken)
              && AuthService.GetUser(s.provider.storage) == Ok(Some(reply.value.user))
              && AuthService.SameOutside(p.storage, s.provider.storage, {AuthService.TokenKey, AuthService.UserKey})
    ensures reply.Err? ==> s.thrown == Some(reply.error) && s.provider == p
  {
    match reply
    case Ok(r) =>
      AuthService.SaveThenRead(p.storage, r);
      Step(Provider(AuthService.SaveAuthData(p.storage, r), Some(r.user), p.loading), None)
    case Err(e) => Step(p, Some(e))
  }

  /** `logout()`: both session slots are cleared and the user is dropped at
      once; loading and every other slot are untouched. */
  function Logout(p: Provider): (p': Provider)
    ensures p'.user == None && p'.loading == p.loading
    ensures AuthService.TokenKey !in p'.storage && AuthService.UserKey !in p'.storage
    ensures AuthService.SameOutside(p.storage, p'.storage, {AuthService.TokenKey, AuthService.UserKey})
  {
    Provider(AuthService.Logout(p.storage), None, p.loading)
  }

  /** The context's `isAuthenticated`: `!!user`. */
  predicate IsAuthenticated(p: Provider) {
    p.user.Some?
  }

  const OutsideProviderMessage: string := "useAuth debe ser usado dentro de un AuthProvider"

  /** `useAuth()`: the enclosing provider, or the error raised when there is
      none. */
  function UseAuth(context: Option<Provider>): (r: Result<Provider, string>)
    ensures context.Some? <==> r.Ok?
    ensures r.Ok? ==> r.value == context.value
    ensures r.Err? ==> r.error == OutsideProviderMessage
  {
    match context
    case Some(p) => Ok(p)
    case None => Err(OutsideProviderMessage)
  }

  /** A provider starts out loading and unauthenticated, whatever storage
      holds. */
  lemma MountIsLoadingAndAnonymous(st: AuthService.Storage)
    ensures Mount(st).loading && !IsAuthenticated(Mount(st))
  {
  }

  /** Start-up outcome by storage contents: without a non-empty token there
      is no user and storage is untouched, a token with an unreadable user
      slot clears both slots, a token with a readable user restores that
      user, and a user exists afterwards only when the user slot parsed to
      one. */
  lemma StartOutcomes(st: AuthService.Storage)
    ensures !Start(st).loading
    ensures !AuthService.IsAuthenticated(st) ==> Start(st) == Provider(st, None, false)
    ensures (AuthService.IsAuthenticated(st) && AuthService.GetUser(st).Err?)
              ==> Start(st) == Provider(AuthService.Logout(st), None, false)
    ensures forall u :: AuthService.IsAuthenticated(st) && AuthService.GetUser(st) == Ok(Some(u))
              ==> Start(st) == Provider(st, Some(u), false)
    ensures IsAuthenticated(Start(st)) ==>
              AuthService.IsAuthenticated(st) && AuthService.GetUser(st) == Ok(Start(st).user)
  {
  }

  /** A token without a user slot is not a session. */
  lemma TokenWithoutUserIsAnonymous(st: AuthService.Storage)
    requires AuthService.IsAuthenticated(st) && AuthService.UserKey !in st
    ensures !IsAuthenticated(Start(st)) && Start(st).storage == st
  {
  }

  /** The context's `isAuthenticated` depends on the user alone: the same
      user over any storage gives the same answer, and a state with a user
      but no token counts as authenticated. */
  lemma AuthenticatedIgnoresToken(p: Provider, st: AuthService.Storage)
    ensures IsAuthenticated(p.(storage := st)) == IsAuthenticated(p)
    ensures p.user.Some? && AuthService.TokenKey !in st ==>
              IsAuthenticated(p.(storage := st)) && !AuthService.IsAuthenticated(st)
  {
  }

  /** `logout` is idempotent, and a second call changes nothing. */
  lemma LogoutIdempotent(p: Provider)
    ensures Logout(Logout(p)) == Logout(p)
    ensures !IsAuthenticated(Logout(p))
  {
  }

  /** Once initialisation is over, loading never comes back: login and logout
      leave it false. */
  lemma LoadingNeverReturns(p: Provider, reply: ApiReply)
    requires !p.loading
    ensures !Login(p, reply).provider.loading && !Logout(p).loading
  {
  }

  /** A session created by `login` with a non-empty token survives a reload:
      a fresh provider started on the written storage reaches the same user.
      With an empty token it does not. */
  lemma {:induction false} LoginSurvivesReload(p: Provider, r: AuthResponse)
    ensures var after := Login(p, Ok(r)).provider;
            r.accessToken != "" ==> Start(after.storage).user == after.user
    ensures r.accessToken == "" ==> Start(Login(p, Ok(r)).provider.storage).user == None
  {
    AuthService.SaveThenRead(p.storage, r);
  }
}
