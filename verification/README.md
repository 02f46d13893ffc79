# catering-Front session and client-form core, in Dafny

This project models the parts of the catering-Front web client (a React and
TypeScript single-page application) that hold logic rather than layout.

- **The credential store** (`AuthService`). It has two `localStorage` slots,
  `token` and `user`, which are written together, removed together and read
  back. The user is held as JSON text.
- **The session provider** (`AuthProvider` and `useAuth`). Its state is the
  storage plus an in-memory `user` and a `loading` flag. It has a one-shot
  initialisation effect, a `login` transition and a `logout` transition.
- **The route guard** (`ProtectedRoute`). It decides between a waiting view,
  a redirect, and rendering the page.
- **The login and registration pages.** The model covers what one submission
  does and where a successful login leads.
- **The dashboard sidebar.** Its logout button and its highlighted item.
- **The sidebar state provider** (`SidebarProvider` and `useSidebar`). This
  is the open/closed and mobile state, driven by the window width and by
  three actions. No component in this model reads it: the sidebar and the
  dashboard layout do not call `useSidebar`.
- **The client form** (`ClientModal`). Validation (including the e-mail
  pattern), submission, field edits and the reset effect.
- **The order history modal.** The case-insensitive status mappers, the
  fetch state, which panel is shown, and the summary block.

Storage is a `map<string, string>`. A server call is a parameter: the reply
it produced, either `Ok(AuthResponse)` or `Err(ApiError)`. JSON text is
modelled by a concrete codec, `UserJson`, whose parser is partial and is
proved to invert its printer. Each module follows one source file:
`AuthService`, `AuthContext`, `ProtectedRoute`, `LoginPage`, `RegisterPage`,
`Sidebar`, `SidebarContext`, `ClientModal` and `ClientOrderHistory`. Seven
more modules carry shared pieces:
- `Basics`: `Option` and `Result`.
- `AuthModel`: the user, the server's auth reply and its error, shared by the
  auth files.
- `UserJson`: the codec behind the `user` storage slot.
- `ClientTypes`: the client and order records.
- `Text`: the JavaScript whitespace set, `trim` and `toLowerCase`.
- `EmailPattern`: the e-mail regular expression.
- `SessionFlows`: lemmas that cross page boundaries.

Behaviour of the code worth knowing:
- Errors are untyped: a failure carries at most a server message.
- Overlapping logins are not serialised.
- Nothing invalidates a session on the server's say-so.
- The provider's `isAuthenticated` is `!!user`, not the token check.
- The login page's return target is read on every render, not consumed once.
- Registration writes storage without updating the provider.
- A stored user that does not parse makes initialisation clear both slots.
  It is not silently treated as absent.

## Model

| member | source | states |
|---|---|---|
| UserJson.Stringify | src/services/auth.service.ts:85 | The printed text is never empty, so a stored user is never mistaken for an absent one. |
| UserJson.Parse | src/services/auth.service.ts:100 | `null` is the only text that reads as null. Text that is neither `null` nor begins with `{` is rejected. |
| UserJson.ParseStringify | src/services/auth.service.ts:83-101 | Parsing the text printed for null or for a user gives back that same value. |
| UserJson.ParseIsPartial | src/services/auth.service.ts:100 | Reading the user slot can fail: the text `undefined` is rejected, as `JSON.parse` rejects it, and so is `{}`, which `JSON.parse` accepts but the codec does not. |
| UserJson.ReadQuote | src/services/auth.service.ts:85 | A quoted string field reads back as exactly that string, with whatever text follows left unread. |
| UserJson.DigitsRoundTrip | src/services/auth.service.ts:85 | The digits written for a user id read back as the same number. |
| AuthService.SaveAuthData | src/services/auth.service.ts:83-86 | Afterwards the token slot holds the access token, and the user slot holds a non-empty text that parses to the response's user. Only the two slots are added or changed. |
| AuthService.Logout | src/services/auth.service.ts:75-78 | Both slots are gone and every other slot is unchanged. |
| AuthService.GetToken | src/services/auth.service.ts:91-93 | The token slot's value, or null when the slot is absent. |
| AuthService.GetUser | src/services/auth.service.ts:98-101 | An absent, empty or `null` slot reads as no user. Text that does not parse is an error, not null. A parsed user is returned. |
| AuthService.IsAuthenticated | src/services/auth.service.ts:106-108 | True exactly when the token slot is present and non-empty. |
| AuthService.IsAuthenticatedIgnoresUserSlot | src/services/auth.service.ts:106-108 | Whatever the user slot holds, the answer is the same. |
| AuthService.LogoutIdempotent | src/services/auth.service.ts:75-78 | A second logout changes nothing. |
| AuthService.SaveThenRead | src/services/auth.service.ts:83-108 | After saving a response, reading the token gives its access token and reading the user gives its user. |
| AuthService.LogoutThenRead | src/services/auth.service.ts:75-108 | After logout there is no token, no user, and no authentication. |
| AuthModel.MessageOr | src/pages/auth/LoginPage.tsx:51-54 | The server's message when it is a non-empty string, otherwise the fallback; with a non-empty fallback the result is never empty. |
| AuthContext.Mount | src/contexts/AuthContext.tsx:19-20 | The provider starts with no user and loading. |
| AuthContext.Init | src/contexts/AuthContext.tsx:22-36 | Loading always ends. Without a token nothing changes. With a token, an absent, empty or `null` user slot gives no user and a parsed user becomes the session user. Unparseable text clears both slots and keeps the user. |
| AuthContext.StartOutcomes | src/contexts/AuthContext.tsx:19-36 | After start-up, storage without a token gives no user and is untouched. A token with an unreadable user slot leaves both slots cleared and no user. A user exists only when the slot parsed to one. |
| AuthContext.Start | src/contexts/AuthContext.tsx:19-36 | After mounting and the first effect, loading is over. Without a token, storage is untouched and there is no user. With a token, a readable user slot becomes the session user (none for an absent, empty or `null` slot). An unreadable one clears both slots and leaves no user. |
| AuthContext.TokenWithoutUserIsAnonymous | src/contexts/AuthContext.tsx:26-28 | A token with no user slot gives an unauthenticated session. |
| AuthContext.Login | src/contexts/AuthContext.tsx:41-54 | On success the response is stored and its user becomes the session's user, other slots untouched. On failure the error is re-thrown unchanged and nothing changes. Loading is never touched. |
| AuthContext.Logout | src/contexts/AuthContext.tsx:56-59 | Both slots are cleared and the user dropped at once; every other slot and the loading flag are kept. |
| AuthContext.LogoutIdempotent | src/contexts/AuthContext.tsx:56-59 | A second logout changes nothing, and the session is unauthenticated afterwards. |
| AuthContext.AuthenticatedIgnoresToken | src/contexts/AuthContext.tsx:66 | `isAuthenticated` depends on the user alone: a user with no stored token still counts. |
| AuthContext.IsAuthenticated | src/contexts/AuthContext.tsx:66 | The context's `isAuthenticated` is whether the provider holds a user. |
| AuthContext.MountIsLoadingAndAnonymous | src/contexts/AuthContext.tsx:19-20 | Before the effect runs the session is loading and unauthenticated, whatever storage holds. |
| AuthContext.LoadingNeverReturns | src/contexts/AuthContext.tsx:41-59 | Once loading has ended, neither login nor logout brings it back. |
| AuthContext.LoginSurvivesReload | src/contexts/AuthContext.tsx:22-54 | A login with a non-empty token is restored by a fresh provider on the same storage; with an empty token it is not. |
| AuthContext.UseAuth | src/contexts/AuthContext.tsx:76-81 | Outside a provider the hook raises its fixed error; inside, it returns the provider. |
| ProtectedRoute.Decide | src/components/ProtectedRoute.tsx:22-45 | Exactly one view for every input. Waiting while loading. A protected route without a user redirects to login carrying the location. An authenticated user on a public login or register route goes to the dashboard. Every other case renders the page. |
| ProtectedRoute.Guard | src/components/ProtectedRoute.tsx:18-45 | Under a provider: waiting exactly while loading. A protected route redirects to login exactly when the provider holds no user. The dashboard redirect happens exactly for a user on a public login or register route. The children render exactly in every other case once loading is over. |
| ProtectedRoute.DefaultProtects | src/components/ProtectedRoute.tsx:16 | With the default flag the page renders exactly for an authenticated user once loading is over, and never bounces to the dashboard. |
| ProtectedRoute.LoadingWins | src/components/ProtectedRoute.tsx:22-31 | While loading, neither authentication nor path changes the view. |
| ProtectedRoute.PublicRoutes | src/components/ProtectedRoute.tsx:40-45 | A public route renders for anonymous users, and for authenticated users away from login and register. |
| LoginPage.Target | src/pages/auth/LoginPage.tsx:33 | The blocked page's path when it is present and non-empty, otherwise `/dashboard`; never empty. |
| LoginPage.Initial | src/pages/auth/LoginPage.tsx:22-25 | On mount the e-mail, password and error are empty and the inputs are enabled. |
| LoginPage.InputsDisabled | src/pages/auth/LoginPage.tsx:150-220 | The inputs and the button are disabled exactly while the login request is pending. |
| LoginPage.HandleSubmit | src/pages/auth/LoginPage.tsx:35-58 | Before the call the error is cleared and the inputs disabled. Success navigates to the target with replace. Failure shows the server's message or the fixed text, does not navigate and leaves the provider as it was. The inputs are enabled again either way. |
| RegisterPage.HandleChange | src/pages/auth/RegisterPage.tsx:23-28 | The named field takes the value; every other field keeps its own. |
| RegisterPage.Initial | src/pages/auth/RegisterPage.tsx:10-19 | On mount every field is empty, nothing is loading, no message is shown, and the browser will not submit the form. |
| RegisterPage.EditsCommute | src/pages/auth/RegisterPage.tsx:23-28 | Edits to two different fields can be applied in either order. |
| RegisterPage.Request | src/pages/auth/RegisterPage.tsx:37 | The form's data is sent as it stands, optional fields included. |
| RegisterPage.Submittable | src/pages/auth/RegisterPage.tsx:94-166 | The browser submits only with non-empty name, e-mail and password and a password of at least six characters. |
| RegisterPage.HandleSubmit | src/pages/auth/RegisterPage.tsx:30-58 | Both messages are cleared before the call. Success saves the response to storage, shows the success text and schedules `/dashboard` after 2000 ms, leaving the provider's user alone. Failure writes nothing and shows the server's message or the fixed text. |
| Sidebar.Active | src/components/layout/Sidebar.tsx:26-30 | An item is highlighted exactly when its path equals the current path. |
| Sidebar.IsActive | src/components/layout/Sidebar.tsx:30 | An item is highlighted when its path is the current pathname. |
| Sidebar.AtMostOneActive | src/components/layout/Sidebar.tsx:5-9 | With distinct paths at most one item is highlighted. |
| Sidebar.NavItemsHighlightAtMostOne | src/components/layout/Sidebar.tsx:5-30 | The three menu items never highlight together. |
| Sidebar.HandleLogout | src/components/layout/Sidebar.tsx:15-18 | Every storage slot is cleared and the app goes to the login page; the provider's user and loading flag are not touched. |
| SidebarContext.Initial | src/contexts/SidebarContext.tsx:26-28 | Closed, not mobile, not initialised. |
| SidebarContext.FirstCheck | src/contexts/SidebarContext.tsx:33-41 | Mobile below 768 pixels, open exactly at 768 and above, and initialised. |
| SidebarContext.CheckMobileAsWritten | src/contexts/SidebarContext.tsx:31-52 | After initialisation a mobile width closes the sidebar only if the listener's captured `isOpen` was true. |
| SidebarContext.CheckMobile | src/contexts/SidebarContext.tsx:31-46 | After initialisation a mobile width always closes the sidebar and a desktop width leaves it alone. |
| SidebarContext.ResizeNeverOpens | src/contexts/SidebarContext.tsx:37-46 | After initialisation a width check never opens the sidebar, in either version. |
| SidebarContext.InitializedIsStable | src/contexts/SidebarContext.tsx:31-56 | Once initialised, every sequence of resizes and clicks keeps it initialised, with the width check as written and as intended, so the first check runs once. |
| SidebarContext.StaleListenerKeepsSidebarOpen | src/contexts/SidebarContext.tsx:31-52 | Start at 500 px, widen to 1000, open by hand, narrow to 500: the sidebar stays open on a mobile width as written, and closes with the intended check. |
| SidebarContext.Toggle | src/contexts/SidebarContext.tsx:54 | Flips `isOpen` and nothing else. |
| SidebarContext.ToggleTwice | src/contexts/SidebarContext.tsx:54 | Two toggles restore the original state. |
| SidebarContext.Close | src/contexts/SidebarContext.tsx:55 | Always closed afterwards; nothing else changes. |
| SidebarContext.Open | src/contexts/SidebarContext.tsx:56 | Always open afterwards; nothing else changes. |
| SidebarContext.CloseOpenIdempotent | src/contexts/SidebarContext.tsx:55-56 | Closing twice equals closing once; the same holds for opening. |
| SidebarContext.UseSidebar | src/contexts/SidebarContext.tsx:13-19 | Outside a provider the hook raises its fixed error; inside, it returns the state. |
| Text.Trim | src/components/client/ClientModal.tsx:62 | The result is the infix of the text left once white space is dropped from both ends. It is empty exactly when the text is all JavaScript whitespace; otherwise it begins and ends with a non-space character. |
| Text.TrimIsInfix | src/components/client/ClientModal.tsx:62 | Everything `trim` drops lies before or after the text it keeps, and is white space. |
| Text.TrimEmptyIffAllSpace | src/components/client/ClientModal.tsx:62 | Trimming leaves nothing exactly when every character is whitespace. |
| Text.ToLower | src/components/client/ClientOrderHistoryModal.tsx:60 | Same length; each ASCII capital becomes its lower-case letter and every other character is kept. |
| EmailPattern.Test | src/components/client/ClientModal.tsx:70 | True exactly when some infix is a non-space run, `@`, a non-space run, `.`, and a non-space run. |
| EmailPattern.Scan | src/components/client/ClientModal.tsx:70 | The one-pass automaton run from a consistent state answers whether the whole text contains a match. |
| EmailPattern.FoundIffRegexMatch | src/components/client/ClientModal.tsx:70 | Looking for a match ending at some position is equivalent to looking for any match. |
| EmailPattern.PaddingKeepsMatch | src/components/client/ClientModal.tsx:70 | The expression has no anchors: a matching text still matches with any text added before and after it. |
| EmailPattern.MatchIsNotBlank | src/components/client/ClientModal.tsx:68-70 | A matching text is never all white space, so an e-mail that passes the pattern never also gets the "requerido" message. |
| EmailPattern.Samples | src/components/client/ClientModal.tsx:70 | Examples only: `a@b.c` and ` x a@b.c y ` match; `a@b .c`, `@b.c` and the empty text do not. |
| ClientModal.FieldError | src/components/client/ClientModal.tsx:62-78 | Each required field blank after trimming gets its "requerido" message. A non-blank e-mail failing the pattern gets "no es válido". Optional fields get nothing. |
| ClientModal.ValidateForm | src/components/client/ClientModal.tsx:59-81 | A required field is in the record exactly when its check fails, with the matching message. A blank e-mail gets only "requerido". No other field ever appears. |
| ClientModal.EmptyIffNoRequiredKey | src/components/client/ClientModal.tsx:80-81 | An error record keyed only by required fields is empty exactly when none of the five required fields is a key, which is what `Object.keys(newErrors).length === 0` decides. |
| ClientModal.IsValid | src/components/client/ClientModal.tsx:59-81 | True exactly when the five required fields are non-blank and the e-mail matches the pattern. |
| ClientModal.OptionalFieldsIgnored | src/components/client/ClientModal.tsx:59-79 | Changing `empresa`, `notas` or `activo` never changes the error record. |
| ClientModal.BlankFormFailsEverywhere | src/components/client/ClientModal.tsx:59-89 | A form whose five required fields are blank, such as the new-client form, fails on all five, with "requerido" for the e-mail. Submitting it saves nothing and leaves the modal open. |
| ClientModal.PaddedEmailAccepted | src/components/client/ClientModal.tsx:68-72 | An accepted e-mail stays accepted with any text, spaces included, added before or after it: the pattern is unanchored and blankness is judged after trimming. |
| ClientModal.HandleSubmit | src/components/client/ClientModal.tsx:84-97 | `onSave` gets the form only when validation passes. The modal closes only when validation passes and the save resolves. |
| ClientModal.HandleChange | src/components/client/ClientModal.tsx:99-112 | The named field takes the value (`checked` for the checkbox) and the others are kept. A set error for that field is blanked and the other errors are kept. |
| ClientModal.Reset | src/components/client/ClientModal.tsx:32-57 | The client's data with missing optional fields as empty strings, or the blank active form for a new client. The errors are emptied either way. |
| ClientModal.ResetNewClientRejected | src/components/client/ClientModal.tsx:44-97 | The blank form a new client starts with has no error shown; submitting it unchanged gets all five "requerido" messages and calls neither `onSave` nor `onClose`. |
| ClientOrderHistory.StatusText | src/components/client/ClientOrderHistoryModal.tsx:76-91 | A status whose lower-case form is a key of the five-row status table gets that row's label; any other status is shown as its own text, casing included. |
| ClientOrderHistory.StatusColor | src/components/client/ClientOrderHistoryModal.tsx:59-74 | A known status, in any letter case, gets its row's badge classes. Any other status gets the fallback, which is the same as the classes of `entregado`. |
| ClientOrderHistory.CaseInsensitive | src/components/client/ClientOrderHistoryModal.tsx:59-91 | Statuses equal up to letter case get the same colour, and the same label when known. |
| ClientOrderHistory.UpperCaseRecognised | src/components/client/ClientOrderHistoryModal.tsx:59-91 | Every spelling of a known status, in any letter case, gets that status's label and colour from the table. |
| ClientOrderHistory.BeginFetch | src/components/client/ClientOrderHistoryModal.tsx:28-30 | A fetch starts loading with the error cleared and the orders kept. |
| ClientOrderHistory.Initial | src/components/client/ClientOrderHistoryModal.tsx:18-20 | On mount: no orders, not loading, no error. The state is reachable and shows only the empty-history message. |
| ClientOrderHistory.FinishFetch | src/components/client/ClientOrderHistoryModal.tsx:31-39 | Success replaces the orders; failure sets the fixed message. Loading ends either way. |
| ClientOrderHistory.Fetch | src/components/client/ClientOrderHistoryModal.tsx:28-40 | A whole fetch ends loading and leaves a reachable state from any start. A reply replaces the orders with no error; a failure keeps the orders and sets the fixed message. |
| ClientOrderHistory.ShouldFetch | src/components/client/ClientOrderHistoryModal.tsx:22-26 | The history is fetched when the modal is open and the client id is non-zero. |
| ClientOrderHistory.Shown | src/components/client/ClientOrderHistoryModal.tsx:110-132 | The four panel conditions: spinner while loading, banner for a non-empty error, empty message and list when neither, split by the number of orders. |
| ClientOrderHistory.Rendered | src/components/client/ClientOrderHistoryModal.tsx:93 | Nothing is rendered while the modal is closed; when open, its panels are rendered. |
| ClientOrderHistory.FetchOutcome | src/components/client/ClientOrderHistoryModal.tsx:28-132 | After a fetch, the panel depends on the reply alone: the error banner exactly on failure, the empty message exactly for an empty history, the list exactly for a non-empty one. |
| ClientOrderHistory.ReachableClosed | src/components/client/ClientOrderHistoryModal.tsx:18-39 | The start state and both fetch steps keep the modal out of "loading with an error", with the fixed text as the only error. |
| ClientOrderHistory.ExactlyOnePanel | src/components/client/ClientOrderHistoryModal.tsx:110-132 | In every reachable state exactly one panel shows. The empty message shows exactly when not loading, with no error and no orders. The list shows only with at least one order. |
| ClientOrderHistory.ReduceIsSum | src/components/client/ClientOrderHistoryModal.tsx:184 | The left fold over the totals equals the initial value plus their sum. |
| ClientOrderHistory.Summarise | src/components/client/ClientOrderHistoryModal.tsx:179-190 | For a non-empty list: the count, the total spent, and an average that times the count gives the total. |
| ClientOrderHistory.ShownSummary | src/components/client/ClientOrderHistoryModal.tsx:132-190 | In every state, a summary exists exactly when the list panel shows, so the average is never taken over zero orders; when it exists it is `Summarise` of exactly the listed orders: their number and the sum of their totals. |
| SessionFlows.LoginReturnsToBlockedPage | src/pages/auth/LoginPage.tsx:33-46 | If a page is mounted under a protected guard, an anonymous visit goes to login with the page recorded. Logging in returns to that path with replace, and the guard then renders it. |
| SessionFlows.DirectLoginLandsOnDashboard | src/pages/auth/LoginPage.tsx:33-46 | Logging in with no blocked page goes to `/dashboard`; if `/dashboard` is mounted under a protected guard, the guard renders it. |
| SessionFlows.FailedLoginStays | src/pages/auth/LoginPage.tsx:47-54 | A failed login does not navigate, and a page mounted under a protected guard still redirects to login. |
| SessionFlows.SidebarLogoutKeepsSession | src/components/layout/Sidebar.tsx:15-18 | After the sidebar's logout no token is stored but the provider still counts as authenticated. If the login page is mounted under a public guard, that guard sends it on to the dashboard. Only a reload ends the session. |
| SessionFlows.ProviderLogoutEndsSession | src/contexts/AuthContext.tsx:56-59 | The provider's own logout ends the session at once; a login page mounted under a public guard then renders. |
| SessionFlows.RegisterNeedsReload | src/pages/auth/RegisterPage.tsx:37-47 | After registering, a token is stored but the provider has no user. If `/dashboard` is mounted under a protected guard, the scheduled move there is redirected to login. A reload picks the registered user up. |

## Left out

- The HTTP layer (`api`), `AuthService.getProfile`, the client service and the chat bot's fetch are not part of this model. A call to the server is represented only by the reply it produced. `AuthService.login` and `register` just pass that reply on, and they never touch storage.
- Browser storage is a map of strings. Its quota, events and sharing between tabs are left out.
- UserJson.ParseIsPartial: JSON is represented only as far as the user slot needs. The model covers the text `null` and user objects as the codec prints them. Any other JSON text that `JSON.parse` accepts (`{}`, `5`, `[]`, an object with other fields) counts as unparseable here. In the source, such text yields an unexpected value rather than an error. For example, a token with the user slot `{}` makes start-up clear both slots with no user, while the source would set the user to `{}` and count the session as authenticated. The codec's concrete syntax stands in for JSON's own.
- UserJson.Parse: the result is stated only for texts the codec prints, for `null`, and for texts that do not start with `{`. Parsing of other texts is left unconstrained.
- Timers, the resize listener's registration and removal, React's render scheduling, and Strict Mode's double effects are left out. The 2000 ms redirect after registering is recorded as scheduled, not performed.
- Overlapping logins, and fetches that finish out of order, are not modelled. The source has no guard for either.
- The order history's amounts are exact reals. Floating-point rounding, `Intl` currency formatting and date formatting are left out.
- Text.ToLower: covers ASCII letters only. JavaScript's `toLowerCase` maps every Unicode letter. The two agree whenever the result is compared with the five ASCII status keys: the only non-ASCII characters whose lower case contains ASCII letters are U+212A (Kelvin sign, to `k`) and U+0130 (to `i` plus a combining dot), and none of the keys has a `k`. A U+0130 would leave the combining dot in the result.
- RegisterPage.Submittable: this predicate stands for the browser's constraint validation. It counts `minLength` in code points, not UTF-16 units. The browser's own e-mail syntax check on the `type="email"` inputs is left out.
- Server error bodies whose `message` is not a string (for example an array of messages) are not modelled.
- The route table is not part of the source: `App.tsx` mounts no router, so nothing shown places `/dashboard` under a protected guard or `/auth/login` under a public one. The `SessionFlows` lemmas take the guard flag as a premise and hold under that assumed mounting.
- Presentational pages and layout components, and the type files that the modelled code does not use, are not part of this model.

## Findings

| source | as written | input that shows it | evidently intended | confidence | as-written member | corrected member |
|---|---|---|---|---|---|---|
| src/contexts/SidebarContext.tsx:31-52 | The resize listener is installed by an effect that depends only on `isInitialized`, so it keeps reading the `isOpen` captured when the effect last ran, and "close when the screen becomes mobile" checks that stale value. | Mount at width 500 (closed), widen to 1000, open the sidebar by hand, narrow to 500: the captured `isOpen` is false, so the sidebar stays open on a mobile screen. | A change to a mobile width closes the sidebar whenever it is open. | medium, not executed | SidebarContext.CheckMobileAsWritten | SidebarContext.CheckMobile |
