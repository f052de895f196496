# Yggdrasil user authentication, modelled in Dafny

This project models the session state machine of the launcher's Yggdrasil client, the class
`YggdrasilUserAuthentication`. It covers the password and cached-token login flows, token
validation with refresh as the fallback, game-profile selection, log-out, saving and loading
the access token, and the queries `isLoggedIn`, `canPlayOnline` and `canLogIn`.

Layout:

- `wrappers.dfy` — `Option` (a Java reference that may be null) and `Result`.
- `string_utils.dfy` — commons-lang `StringUtils.isBlank` over Java's `Character.isWhitespace`.
- `array_utils.dfy` — commons-lang `ArrayUtils.isNotEmpty`, `indexOf` and `contains` on nullable arrays.
- `yggdrasil.dfy` — the response and request records, the exceptions, and the checks shared by
  the flows. It also holds the class `YggdrasilUserAuthentication`, whose fields are the
  session state: the superclass's username, password, user id, user type, selected profile
  and user properties, plus this class's `profiles`, `accessToken` and `isOnline`.
- `scenarios.dfy` — client methods that follow concrete exchanges using only the contracts.
  Examples: a password login offering a non-legacy profile; a wrong password; a reply with a foreign client
  token; a cached token that validates; a cached token without a user id; a reload of an
  empty store.

The remote service is modelled as an argument `service: Request -> Reply` of each operation
that talks to it. A `Reply` is either the response record or the `AuthenticationException`
that `makeRequest` threw. Each such operation returns the list of requests it sent. Its
contract can therefore say that a refused guard sends nothing, and that a token that
validates is never refreshed. The premium-play flag (`LogInPopup.isPremium()`) is a
`premium` argument of `CanLogIn`, `LogIn` and `LogInWithPassword`.

Each login flow's full contract is a two-state predicate on the class: `PasswordFlow`,
`TokenFlow`, `Exchanged` and `Adopted`. Each one says, case by case, what was sent and
what every field holds afterwards.

The model follows the code as written, also where it departs from what the flows are meant to do:

- At line 115 a blank user id is an error when the username is **not** blank. Otherwise the
  blank username is copied into the user id. A username alone is evidently meant to be
  accepted. Through `LogIn` the username is never blank at that point, so a cached-token login
  without a user id always fails before any request (`Scenarios.CachedTokenWithoutUserId`).
- The password is not cleared after a successful exchange.
- `canLogIn` is modelled as the expression written at line 50, with Java's precedence:
  `!premium || (!canPlayOnline && username && (password || token))`.
- At line 209, `String.valueOf` turns a missing storage key into the non-blank token
  `"null"`. A session saved while logged out therefore reloads as logged in
  (`SaveThenLoad`, `Scenarios.ReloadWithoutToken`).

## Model

| member | source | states |
|---|---|---|
| StringUtils.IsBlank | src/main/java/com/mojang/authlib/yggdrasil/YggdrasilUserAuthentication.java:177 | a string is not blank exactly when it is non-null and has a character that is not whitespace |
| ArrayUtils.Contains | src/main/java/com/mojang/authlib/yggdrasil/YggdrasilUserAuthentication.java:193 | the array is non-null and holds the profile; a null array holds nothing |
| Yggdrasil.CheckResponse | src/main/java/com/mojang/authlib/yggdrasil/YggdrasilUserAuthentication.java:82-84 | a reply is accepted exactly when it is a response whose client token equals the service's; then the response is used as it is. A thrown exception propagates as the service threw it (invalid credentials or a plain AuthenticationException), a foreign token gives the client-token-changed AuthenticationException, and a null token gives a NullPointerException |
| StringUtils.IsWhitespace | src/main/java/com/mojang/authlib/yggdrasil/YggdrasilUserAuthentication.java:177 | Java's whitespace, behind isBlank: space, tab, newline and carriage return are whitespace, and the no-break spaces are not |
| StringUtils.AllWhitespace | src/main/java/com/mojang/authlib/yggdrasil/YggdrasilUserAuthentication.java:177 | the loop of isBlank: true exactly when every character of the string is whitespace |
| ArrayUtils.IsNotEmpty | src/main/java/com/mojang/authlib/yggdrasil/YggdrasilUserAuthentication.java:87 | an array is not empty exactly when it is non-null and has an element |
| ArrayUtils.FirstIndex | src/main/java/com/mojang/authlib/yggdrasil/YggdrasilUserAuthentication.java:193 | the search behind contains: the first position holding the element, or -1 exactly when it is absent |
| ArrayUtils.IndexOf | src/main/java/com/mojang/authlib/yggdrasil/YggdrasilUserAuthentication.java:193 | indexOf on a nullable array: -1 for a null array, otherwise the first position of the element or -1 exactly when it is absent |
| Yggdrasil.TypeOf | src/main/java/com/mojang/authlib/yggdrasil/YggdrasilUserAuthentication.java:86 | a profile gives the LEGACY user type exactly when it is legacy, MOJANG otherwise |
| Yggdrasil.UserTypeAfter | src/main/java/com/mojang/authlib/yggdrasil/YggdrasilUserAuthentication.java:85-89 | the selected profile's type takes precedence, otherwise the first available profile's. The type only changes to that of a profile the response names, and a response naming no profile leaves it alone |
| Yggdrasil.UserIdAfter | src/main/java/com/mojang/authlib/yggdrasil/YggdrasilUserAuthentication.java:90-95 | the user id becomes the response user's id when it has one, and otherwise the username |
| Yggdrasil.PropertiesOf | src/main/java/com/mojang/authlib/yggdrasil/YggdrasilUserAuthentication.java:100-111 | a null user or null property map gives no properties; otherwise the properties are exactly the user's map |
| Yggdrasil.SaveAccessToken | src/main/java/com/mojang/authlib/yggdrasil/YggdrasilUserAuthentication.java:213-219 | the access-token key is in the saved map exactly when it was in the base map or the token is not blank; a non-blank token is stored as it is; no other key is added or changed |
| Yggdrasil.LoadAccessToken | src/main/java/com/mojang/authlib/yggdrasil/YggdrasilUserAuthentication.java:207-210 | the loaded token is the stored value; a missing key loads "null", which is not blank |
| Yggdrasil.SaveThenLoad | src/main/java/com/mojang/authlib/yggdrasil/YggdrasilUserAuthentication.java:207-219 | loading what was saved restores a non-blank token; a blank token is not saved, and without a base entry it reloads as a non-blank (logged-in) token |
| Yggdrasil.YggdrasilUserAuthentication.constructor | src/main/java/com/mojang/authlib/yggdrasil/YggdrasilUserAuthentication.java:43-46 | a new session holds no credentials, token or profiles, is offline, and is neither logged in nor able to play online |
| Yggdrasil.YggdrasilUserAuthentication.AuthenticatedToken | src/main/java/com/mojang/authlib/yggdrasil/YggdrasilUserAuthentication.java:221-224 | the token handed to callers is blank exactly when the session is not logged in |
| Yggdrasil.YggdrasilUserAuthentication.IsLoggedIn | src/main/java/com/mojang/authlib/yggdrasil/YggdrasilUserAuthentication.java:175-178 | logged in exactly when the access token is non-null and holds a non-whitespace character |
| Yggdrasil.YggdrasilUserAuthentication.CanPlayOnline | src/main/java/com/mojang/authlib/yggdrasil/YggdrasilUserAuthentication.java:180-183 | playing online needs a login, a selected profile and the online flag |
| Yggdrasil.YggdrasilUserAuthentication.CanLogIn | src/main/java/com/mojang/authlib/yggdrasil/YggdrasilUserAuthentication.java:48-51 | always true when premium play is not required; when it is, true only when not already online with a profile, with a username, and with a password or a login token |
| Yggdrasil.YggdrasilUserAuthentication.LogIn | src/main/java/com/mojang/authlib/yggdrasil/YggdrasilUserAuthentication.java:53-68 | blank username: InvalidCredentials, no request, nothing changed. Non-blank token: the token flow. Otherwise the password flow; a blank password is refused only under premium. A run that sends nothing ended at one of the guards of logIn or its flows. Under premium, a session that canLogIn passes the username and password guards, and without a token it sends its authenticate request. At most two requests go out; a second one is a refresh after a rejected validate; a validated token ends online with token, profiles and selected profile unchanged |
| Yggdrasil.YggdrasilUserAuthentication.LogInWithPassword | src/main/java/com/mojang/authlib/yggdrasil/YggdrasilUserAuthentication.java:70-102 | the username and password guards in order, else exactly one authenticate request with the username, password and client token, whose reply is checked and then adopted |
| Yggdrasil.YggdrasilUserAuthentication.AcceptResponse | src/main/java/com/mojang/authlib/yggdrasil/YggdrasilUserAuthentication.java:85-101 | a reply failing the client-token check changes no field. An accepted one sets online, token, profiles and selected profile from the response. The user type comes from the selected profile, else the first available one, else stays as it was. The user id is the response user's id, else the username. The properties are exactly the user's, or none |
| Yggdrasil.YggdrasilUserAuthentication.UpdateUserProperties | src/main/java/com/mojang/authlib/yggdrasil/YggdrasilUserAuthentication.java:104-111 | a null user or a null property map leaves the properties alone; otherwise they are merged in, the user's values winning |
| Yggdrasil.YggdrasilUserAuthentication.LogInWithToken | src/main/java/com/mojang/authlib/yggdrasil/YggdrasilUserAuthentication.java:113-150 | blank user id with a non-blank username: InvalidCredentials, no request, nothing changed. Blank token: InvalidCredentials, no request. Otherwise one validate request. If it is answered, only the online flag (and a blank user id) change. If not, exactly one refresh with the old token follows; its reply is checked and adopted like an authenticate reply |
| Yggdrasil.YggdrasilUserAuthentication.CheckTokenValidity | src/main/java/com/mojang/authlib/yggdrasil/YggdrasilUserAuthentication.java:152-160 | exactly one validate request with the current token; the token is valid exactly when that request is answered rather than rejected |
| Yggdrasil.YggdrasilUserAuthentication.LogOut | src/main/java/com/mojang/authlib/yggdrasil/YggdrasilUserAuthentication.java:162-168 | token and profiles become null and the online flag false, so the session is neither logged in nor able to play online |
| Yggdrasil.YggdrasilUserAuthentication.SelectGameProfile | src/main/java/com/mojang/authlib/yggdrasil/YggdrasilUserAuthentication.java:185-204 | in order: not logged in and a profile already selected are AuthenticationExceptions, and a null or unavailable profile is IllegalArgument; none of them sends anything or changes anything. Otherwise one refresh pinned to the profile is sent. A rejected or foreign reply changes nothing. An accepted one sets online, the token and the selected profile and keeps the profile list and the other fields. Success implies the profile was on offer |
| Yggdrasil.YggdrasilUserAuthentication.LoadFromStorage | src/main/java/com/mojang/authlib/yggdrasil/YggdrasilUserAuthentication.java:206-210 | the token becomes the stored value, or "null" when the key is missing; the session is then logged in exactly when the key is missing or holds a non-blank value |
| Yggdrasil.YggdrasilUserAuthentication.SaveForStorage | src/main/java/com/mojang/authlib/yggdrasil/YggdrasilUserAuthentication.java:212-219 | the superclass's map plus the token under its key; when the base map lacks that key, the key is present exactly when the session is logged in, holding the token |

## Left out

- HTTP transport, JSON (de)serialisation and `YggdrasilAuthenticationService.makeRequest`: they are network I/O in code that is not part of this model. Each call's outcome is what the `service` argument returns.
- Service errors: a service exception is either an `InvalidCredentialsException` or a plain `AuthenticationException` with its message; other subclasses (unavailable, migrated) count as the plain kind, and runtime exceptions from the transport are not modelled.
- The validate reply's body: only whether the request completed is used, as at line 155.
- The route URL constants, `Agent`, `getAgent`, `getAuthenticationService`, `LOGGER` and `toString`: configuration and diagnostics with no effect on the state.
- `getAvailableProfiles` (line 171): a plain getter; the `profiles` field is read directly.
- LogOut: `HttpUserAuthentication` is not part of this model, so the contract says nothing about the superclass's own reset of username, password, user id, user type, selected profile and properties.
- LoadFromStorage: the superclass's part of the load is not modelled; the contract speaks only of the access token. Storage values are strings, so a key present with a null or non-string value (which `String.valueOf` at line 209 would also turn into text) is not modelled.
- SaveForStorage: the superclass's map is taken as the argument `base`; storage values are strings rather than arbitrary objects.
- `GameProfile` equality: the class is not part of this model; profiles compare by id, name and legacy flag.
- Null elements inside profile arrays are not modelled (a null first element would fail at line 88 or 137).
- User properties are a map from name to one value; `putAll` overwrites existing names.
- IsWhitespace: follows current Unicode, so U+180E, a separator in older Java releases, is not whitespace.
- Concurrency: the operations are single-threaded calls; no interleaving is modelled.
- The Swing panels (profile-version and profile-selection) and the shutdown helper: UI layout and process exit, with no session logic.
