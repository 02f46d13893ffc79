/** The credential store half of `AuthService`
    (`src/services/auth.service.ts`): two slots of the browser's
    `localStorage`, `token` and `user`, written, cleared and read back.

    `localStorage` is modelled as a map from keys to strings that every
    operation takes and returns. The network half of the class (`login`,
    `register`) only forwards the HTTP client's result or re-throws its
    error, so it appears in the model as the `ApiReply` value the callers
    receive; see `AuthContext.Login` and `RegisterPage.HandleSubmit`. */
module AuthService {
  import opened Basics
  import opened AuthModel
  import UserJson

  type Storage = map<string, string>

  const TokenKey: string := "token"
  const UserKey: string := "user"

  /** The slots other than `keys` are present in both maps with the same
      values, or absent from both. */
  ghost predicate SameOutside(st: Storage, st': Storage, keys: set<string>) {
    forall k :: k !in keys ==> (k in st <==> k in st') && (k in st ==> st[k] == st'[k])
  }

  /** `saveAuthData`: the token slot receives the access token, the user slot
      the serialised user, and nothing else changes. */
  function SaveAuthData(st: Storage, r: AuthResponse): (st': Storage)
    ensures TokenKey in st' && st'[TokenKey] == r.accessToken
    ensures UserKey in st' && UserJson.Parse(st'[UserKey]) == Some(UserJson.Object(r.user))
    ensures st'[UserKey] != ""
    ensures st'.Keys == st.Keys + {TokenKey, UserKey}
    ensures SameOutside(st, st', {TokenKey, UserKey})
  {
    UserJson.ParseStringify(UserJson.Object(r.user));
    st[TokenKey := r.accessToken][UserKey := UserJson.Stringify(UserJson.Object(r.user))]
  }

  /** `logout`: removes exactly the two session slots. */
  function Logout(st: Storage): (st': Storage)
    ensures TokenKey !in st' && UserKey !in st'
    ensures st'.Keys == st.Keys - {TokenKey, UserKey}
    ensures SameOutside(st, st', {TokenKey, UserKey})
  {
    st - {TokenKey, UserKey}
  }

  /** `getToken`: the token slot's value, or null when the slot is absent. */
  function GetToken(st: Storage): (r: Option<string>)
    ensures r.Some? <==> TokenKey in st
    ensures r.Some? ==> r.value == st[TokenKey]
  {
    if TokenKey in st then Some(st[TokenKey]) else None
  }

  /** Why `JSON.parse` threw. */
  datatype ReadError = MalformedUser(text: string)

  /** `getUser`: null when the user slot is absent or empty (the truthiness
      check precedes parsing), the parsed value otherwise; text that does
      not parse raises instead of yielding null. */
  function GetUser(st: Storage): (r: Result<Option<User>, ReadError>)
    ensures UserKey !in st || st[UserKey] == "" ==> r == Ok(None)
    ensures r.Err? <==> UserKey in st && st[UserKey] != "" && UserJson.Parse(st[UserKey]).None?
    ensures r.Err? ==> r.error == MalformedUser(st[UserKey])
    ensures r == Ok(None) <==> UserKey !in st || st[UserKey] == "" || st[UserKey] == "null"
    ensures forall u :: r == Ok(Some(u)) <==>
      UserKey in st && st[UserKey] != "" && UserJson.Parse(st[UserKey]) == Some(UserJson.Object(u))
  {
    if UserKey !in st || st[UserKey] == "" then Ok(None)
    else
      match UserJson.Parse(st[UserKey])
      case None => Err(MalformedUser(st[UserKey]))
      case Some(v) => if v.Null? then Ok(None) else Ok(Some(v.user))
  }

  /** `isAuthenticated`: `!!getToken()`, i.e. the token slot is present and
      non-empty. */
  function IsAuthenticated(st: Storage): (b: bool)
    ensures b <==> GetToken(st).Some? && GetToken(st).value != ""
  {
    TokenKey in st && st[TokenKey] != ""
  }

  /** The presence check never consults the user slot: writing or removing
      that slot does not change its answer. */
  lemma IsAuthenticatedIgnoresUserSlot(st: Storage, text: string)
    ensures IsAuthenticated(st[UserKey := text]) == IsAuthenticated(st)
    ensures IsAuthenticated(st - {UserKey}) == IsAuthenticated(st)
  {
    assert TokenKey != UserKey;
  }

  /** Clearing twice leaves the store as clearing once does. */
  lemma LogoutIdempotent(st: Storage)
    ensures Logout(Logout(st)) == Logout(st)
  {
  }

  /** Round trip: what `saveAuthData` writes, `getToken` and `getUser` read
      back, and the store then counts as authenticated exactly when the
      access token is non-empty. */
  lemma SaveThenRead(st: Storage, r: AuthResponse)
    ensures GetToken(SaveAuthData(st, r)) == Some(r.accessToken)
    ensures GetUser(SaveAuthData(st, r)) == Ok(Some(r.user))
    ensures IsAuthenticated(SaveAuthData(st, r)) <==> r.accessToken != ""
  {
  }

  /** After `logout` nothing is read back. */
  lemma LogoutThenRead(st: Storage)
    ensures GetToken(Logout(st)) == None
    ensures GetUser(Logout(st)) == Ok(None)
    ensures !IsAuthenticated(Logout(st))
  {
  }
}
