/** The request, response and user shapes of the session client
    (`src/services/auth.service.ts`, lines 4-35), and the one piece of error
    handling every caller of the client shares. */
module AuthModel {
  import opened Basics

  datatype LoginRequest = LoginRequest(email: string, password: string)

  datatype RegisterRequest = RegisterRequest(
    nombre: string,
    email: string,
    telefono: Option<string>,
    direccion: Option<string>,
    password: string)

  /** The identity snapshot kept in memory and in the `user` slot. */
  datatype User = User(
    id: int,
    nombre: string,
    email: string,
    telefono: Option<string>,
    direccion: Option<string>,
    empresa: Option<string>)

  datatype AuthResponse = AuthResponse(
    accessToken: string,
    tokenType: string,
    expiresIn: int,
    user: User)

  /** What a rejected request carries that the pages look at:
      `err.response?.data?.message`, absent when there was no response or no
      message in its body. */
  datatype ApiError = ApiError(message: Option<string>)

  /** The outcome of one `POST /auth/login` or `POST /auth/register`: the
      response body, or the error the HTTP client threw. */
  type ApiReply = Result<AuthResponse, ApiError>

  /** `err.response?.data?.message || fallback`: the server's text when it
      sent a non-empty one, the caller's fixed text otherwise. */
  function MessageOr(err: ApiError, fallback: string): (m: string)
    ensures err.message.Some? && err.message.value != "" ==> m == err.message.value
    ensures err.message.None? || err.message.value == "" ==> m == fallback
    ensures fallback != "" ==> m != ""
  {
    match err.message
    case Some(text) => if text != "" then text else fallback
    case None => fallback
  }
}
