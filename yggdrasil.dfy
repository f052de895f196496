/** The Yggdrasil user-authentication session: logging in with a password or with a cached
    access token, validating and refreshing that token, selecting a game profile, logging
    out, and persisting the token.

    The remote authentication service is a parameter `service: Request -> Reply` of every
    operation that talks to it: it gives the outcome of each request the session sends.
    Every such operation also returns the list of requests it sent, in order, so that its
    contract can say which requests were made and which were not. */
module Yggdrasil {
  import opened Wrappers
  import opened StringUtils
  import opened ArrayUtils

  /** A selectable in-game identity; the legacy flag decides the user type. */
  datatype GameProfile = GameProfile(id: Option<string>, name: Option<string>, legacy: bool)

  datatype UserType = Legacy | Mojang

  /** The account record the service returns with a token. */
  datatype User = User(id: Option<string>, properties: Option<map<string, string>>)

  /** The body of an authenticate or refresh response; every part of it may be null. */
  datatype TokenResponse = TokenResponse(
    accessToken: Option<string>,
    clientToken: Option<string>,
    availableProfiles: Option<seq<GameProfile>>,
    selectedProfile: Option<GameProfile>,
    user: Option<User>)

  /** The requests the session sends, with the fields that come from the session. */
  datatype Request =
    | Authenticate(username: Option<string>, password: Option<string>, clientToken: string)
    | Validate(accessToken: Option<string>, clientToken: string)
    | Refresh(accessToken: Option<string>, clientToken: string, profile: Option<GameProfile>)

  /** What the service's makeRequest does with a request: it returns a response, or it
      throws an AuthenticationException with a message, which is an
      InvalidCredentialsException when `invalidCredentials` holds. A validate request
      only asks whether a response came back; its body is ignored. */
  datatype Reply = Answered(response: TokenResponse) | Rejected(invalidCredentials: bool, message: string)

  /** The exceptions the session's operations throw. */
  datatype Failure =
    | InvalidCredentials(message: string)     // InvalidCredentialsException
    | AuthenticationFailure(message: string)  // AuthenticationException
    | IllegalArgument(profile: Option<GameProfile>)  // IllegalArgumentException
    | NullPointer                              // a response without a client token

  /** How an operation ends: normally, or by throwing. */
  datatype Outcome = Completed | Threw(failure: Failure)

  const StorageKeyAccessToken := "accessToken"

  const InvalidUsername := "Invalid username"
  const InvalidPassword := "Invalid password"
  const InvalidUuidAndUsername := "Invalid uuid & username"
  const InvalidAccessToken := "Invalid access token"
  const ClientTokenChanged := "Server requested we change our client token. Don't know how to handle this!"
  const NotLoggedIn := "Cannot change game profile whilst not logged in"
  const ProfileAlreadySelected := "Cannot change game profile. You must log out and back in."

  /** The refusals of logIn's own guards and those of the two flows, thrown before any request. */
  predicate GuardRefusal(outcome: Outcome)
  {
    outcome in {
      Threw(InvalidCredentials(InvalidUsername)), Threw(InvalidCredentials(InvalidPassword)),
      Threw(InvalidCredentials(InvalidUuidAndUsername)), Threw(InvalidCredentials(InvalidAccessToken))}
  }

  /** The check every authenticate and refresh reply passes before any field changes: the
      service's exception propagates, a response whose client token is null fails on the
      `equals` call, and a client token other than the service's own is refused. */
  function CheckResponse(reply: Reply, clientToken: string): (r: Result<TokenResponse, Failure>)
    ensures r.Ok? <==> reply.Answered? && reply.response.clientToken == Some(clientToken)
    ensures r.Ok? ==> r.value == reply.response
    ensures reply.Rejected? ==>
      r == Err(if reply.invalidCredentials then InvalidCredentials(reply.message) else AuthenticationFailure(reply.message))
    ensures reply.Answered? && reply.response.clientToken.None? ==> r == Err(NullPointer)
    ensures reply.Answered? && reply.response.clientToken.Some? && reply.response.clientToken != Some(clientToken)
      ==> r == Err(AuthenticationFailure(ClientTokenChanged))
  {
    match reply
    case Rejected(invalidCredentials, message) =>
      Err(if invalidCredentials then InvalidCredentials(message) else AuthenticationFailure(message))
    case Answered(response) =>
      match response.clientToken
      case None => Err(NullPointer)
      case Some(token) =>
        if token != clientToken then Err(AuthenticationFailure(ClientTokenChanged)) else Ok(response)
  }

  /** The user type a profile stands for: LEGACY for a legacy profile, MOJANG otherwise. */
  function TypeOf(profile: GameProfile): (t: UserType)
    ensures t == Legacy <==> profile.legacy
  {
    if profile.legacy then Legacy else Mojang
  }

  /** The user type after a response: that of the selected profile, else that of the first
      available profile, else the current one. */
  function UserTypeAfter(response: TokenResponse, current: Option<UserType>): (t: Option<UserType>)
    // The selected profile takes precedence.
    ensures response.selectedProfile.Some? ==> t == Some(TypeOf(response.selectedProfile.value))
    // The type only ever changes to that of a profile the response names, and then to the first one offered.
    ensures t != current ==> t.Some? && exists p ::
      (response.selectedProfile == Some(p) || (response.availableProfiles.Some? && p in response.availableProfiles.value))
      && t == Some(TypeOf(p))
    ensures response.selectedProfile.None? && IsNotEmpty(response.availableProfiles) ==>
      t == Some(TypeOf(response.availableProfiles.value[0]))
    // A response naming no profile leaves the type alone.
    ensures response.selectedProfile.None? && !IsNotEmpty(response.availableProfiles) ==> t == current
  {
    if response.selectedProfile.Some? then Some(TypeOf(response.selectedProfile.value))
    else if IsNotEmpty(response.availableProfiles) then Some(TypeOf(response.availableProfiles.value[0]))
    else current
  }

  /** The user id after a response: the user's id when there is one, else the username. */
  function UserIdAfter(user: Option<User>, username: Option<string>): (id: Option<string>)
    ensures user.Some? && user.value.id.Some? ==> id == user.value.id
    ensures id == username || (id.Some? && user.Some? && id == user.value.id)
  {
    if user.Some? && user.value.id.Some? then user.value.id else username
  }

  /** The properties a user record carries; none when the user or its map is null. */
  function PropertiesOf(user: Option<User>): (m: map<string, string>)
    ensures user.None? || user.value.properties.None? ==> m == map[]
    ensures user.Some? && user.value.properties.Some? ==> m == user.value.properties.value
  {
    if user.Some? && user.value.properties.Some? then user.value.properties.value else map[]
  }

  /** The map saveForStorage returns, given the map the superclass returns: the access token
      is added under its key exactly when it is not blank. */
  function SaveAccessToken(base: map<string, string>, token: Option<string>): (m: map<string, string>)
    ensures StorageKeyAccessToken in m <==> StorageKeyAccessToken in base || !IsBlank(token)
    ensures !IsBlank(token) ==> m[StorageKeyAccessToken] == token.value
    ensures m.Keys <= base.Keys + {StorageKeyAccessToken}
    ensures forall k :: k in base && (k != StorageKeyAccessToken || IsBlank(token)) ==> k in m && m[k] == base[k]
  {
    if !IsBlank(token) then base[StorageKeyAccessToken := token.value] else base
  }

  /** The token loadFromStorage reads: `String.valueOf(credentials.get(key))`, so a missing
      key gives the non-blank string "null". */
  function LoadAccessToken(credentials: map<string, string>): (t: string)
    ensures StorageKeyAccessToken in credentials ==> t == credentials[StorageKeyAccessToken]
    ensures StorageKeyAccessToken !in credentials ==> t == "null" && !IsBlank(Some(t))
  {
    if StorageKeyAccessToken in credentials then credentials[StorageKeyAccessToken] else "null"
  }

  /** Saving then loading restores a non-blank token. A blank token is not saved, so a
      second load sees whatever the superclass stored under the key, and "null" when it
      stored nothing: a session that was not logged in comes back logged in. */
  lemma SaveThenLoad(base: map<string, string>, token: Option<string>)
    ensures !IsBlank(token) ==> Some(LoadAccessToken(SaveAccessToken(base, token))) == token
    ensures IsBlank(token) ==> LoadAccessToken(SaveAccessToken(base, token)) == LoadAccessToken(base)
    ensures IsBlank(token) && StorageKeyAccessToken !in base
      ==> !IsBlank(Some(LoadAccessToken(SaveAccessToken(base, token))))
  {
  }

  class YggdrasilUserAuthentication {
    /** The client token of the authentication service the session talks to. */
    const clientToken: string

    // State held by the superclass and reached through its getters and setters.
    var username: Option<string>
    var password: Option<string>
    var userId: Option<string>
    var userType: Option<UserType>
    var selectedProfile: Option<GameProfile>
    var userProperties: map<string, string>

    // State of this class.
    var profiles: Option<seq<GameProfile>>
    var accessToken: Option<string>
    var isOnline: bool

    /** A new session holds no credentials, no token and no profiles. */
    constructor (clientToken: string)
      ensures this.clientToken == clientToken
      ensures username.None? && password.None? && userId.None? && userType.None?
      ensures selectedProfile.None? && userProperties == map[]
      ensures profiles.None? && accessToken.None? && !isOnline
      ensures !IsLoggedIn() && !CanPlayOnline()
    {
      this.clientToken := clientToken;
      username, password, userId, userType := None, None, None, None;
      selectedProfile, userProperties := None, map[];
      profiles, accessToken, isOnline := None, None, false;
    }

    /** getAuthenticatedToken: the token handed to callers is non-blank exactly when the
        session is logged in. */
    function AuthenticatedToken(): (t: Option<string>)
      reads this
      ensures IsBlank(t) <==> !IsLoggedIn()
    {
      accessToken
    }

    /** isLoggedIn: the access token holds a non-whitespace character. */
    predicate IsLoggedIn()
      reads this
      ensures IsLoggedIn() <==> accessToken.Some? && exists i :: 0 <= i < |accessToken.value| && !IsWhitespace(accessToken.value[i])
    {
      !IsBlank(accessToken)
    }

    /** canPlayOnline: logged in, with a selected profile, after a successful round trip. */
    predicate CanPlayOnline()
      reads this
      ensures CanPlayOnline() ==> IsLoggedIn() && selectedProfile.Some? && isOnline
    {
      IsLoggedIn() && selectedProfile.Some? && isOnline
    }

    /** canLogIn: always, unless premium play is required; then only a session that cannot
        already play online and has a username and a password or a token. */
    predicate CanLogIn(premium: bool)
      reads this
      ensures !premium ==> CanLogIn(premium)
      ensures premium && CanLogIn(premium) ==> !CanPlayOnline() && !IsBlank(username)
      ensures premium && CanLogIn(premium) ==> !IsBlank(password) || IsLoggedIn()
    {
      !premium || (!CanPlayOnline() && !IsBlank(username) && (!IsBlank(password) || !IsBlank(AuthenticatedToken())))
    }

    /** Every field but the user id and the online flag is as it was before the call. */
    twostate predicate KeptAllButUserIdAndOnline()
      reads this
    {
      && username == old(username) && password == old(password)
      && userType == old(userType) && selectedProfile == old(selectedProfile)
      && userProperties == old(userProperties)
      && profiles == old(profiles) && accessToken == old(accessToken)
    }

    /** Every field but the user id is as it was before the call. */
    twostate predicate KeptAllButUserId()
      reads this
    {
      KeptAllButUserIdAndOnline() && isOnline == old(isOnline)
    }

    /** The fields an accepted authenticate or refresh response sets. */
    twostate predicate Adopted(response: TokenResponse)
      reads this
    {
      && isOnline
      && accessToken == response.accessToken
      && profiles == response.availableProfiles
      && selectedProfile == response.selectedProfile
      && userType == UserTypeAfter(response, old(userType))
      && userId == UserIdAfter(response.user, old(username))
      && userProperties == PropertiesOf(response.user)
      && username == old(username) && password == old(password)
    }

    /** The end of an authenticate or refresh exchange: a reply that fails the check leaves
        every field as it was (the user id as `idBefore`), one that passes is adopted. */
    twostate predicate Exchanged(reply: Reply, outcome: Outcome, idBefore: Option<string>)
      reads this
    {
      match CheckResponse(reply, clientToken)
      case Err(failure) => outcome == Threw(failure) && userId == idBefore && KeptAllButUserId()
      case Ok(response) => outcome == Completed && Adopted(response)
    }

    /** logInWithPassword, from guards to the end of the exchange. */
    twostate predicate PasswordFlow(premium: bool, service: Request -> Reply, outcome: Outcome, sent: seq<Request>)
      reads this
    {
      if IsBlank(old(username)) then
        outcome == Threw(InvalidCredentials(InvalidUsername)) && sent == [] && unchanged(this)
      else if IsBlank(old(password)) && premium then
        outcome == Threw(InvalidCredentials(InvalidPassword)) && sent == [] && unchanged(this)
      else
        var request := Authenticate(old(username), old(password), clientToken);
        sent == [request] && Exchanged(service(request), outcome, old(userId))
    }

    /** logInWithToken, as written: a blank user id is an error when the username is NOT
        blank, and is otherwise replaced by the (blank) username; a token that validates
        only sets the online flag; one that does not is refreshed once. */
    twostate predicate TokenFlow(service: Request -> Reply, outcome: Outcome, sent: seq<Request>)
      reads this
    {
      if IsBlank(old(userId)) && !IsBlank(old(username)) then
        outcome == Threw(InvalidCredentials(InvalidUuidAndUsername)) && sent == [] && unchanged(this)
      else
        var id := if IsBlank(old(userId)) then old(username) else old(userId);
        if IsBlank(old(accessToken)) then
          outcome == Threw(InvalidCredentials(InvalidAccessToken)) && sent == [] && userId == id && KeptAllButUserId()
        else
          var validate := Validate(old(accessToken), clientToken);
          if service(validate).Answered? then
            sent == [validate] && outcome == Completed && isOnline && userId == id && KeptAllButUserIdAndOnline()
          else
            var refresh := Refresh(old(accessToken), clientToken, None);
            sent == [validate, refresh] && Exchanged(service(refresh), outcome, id)
    }

    /** logIn: a blank username is refused; a non-blank token selects the token flow;
        otherwise the password flow runs, refused first for a blank password only when
        premium play is required. */
    method LogIn(premium: bool, service: Request -> Reply) returns (outcome: Outcome, sent: seq<Request>)
      modifies this
      ensures IsBlank(old(username)) ==>
        outcome == Threw(InvalidCredentials(InvalidUsername)) && sent == [] && unchanged(this)
      ensures !IsBlank(old(username)) && !IsBlank(old(accessToken)) ==> TokenFlow(service, outcome, sent)
      ensures !IsBlank(old(username)) && IsBlank(old(accessToken)) ==> PasswordFlow(premium, service, outcome, sent)
      // An operation that sends nothing ended at one of the guards.
      ensures sent == [] ==> GuardRefusal(outcome)
      // The guards canLogIn checks are the ones logIn checks: under premium, a session that
      // can log in passes the username and password guards, and without a token it sends
      // its authenticate request.
      ensures premium && old(CanLogIn(premium)) ==>
        !(sent == [] && outcome in {Threw(InvalidCredentials(InvalidUsername)), Threw(InvalidCredentials(InvalidPassword))})
      ensures premium && old(CanLogIn(premium)) && IsBlank(old(accessToken)) ==>
        sent == [Authenticate(old(username), old(password), clientToken)]
      // A token that validates is never refreshed; at most one refresh is made, after a failed validate.
      ensures |sent| <= 2
      ensures |sent| == 2 ==> sent[0].Validate? && service(sent[0]).Rejected? && sent[1].Refresh?
      ensures sent != [] && sent[0].Validate? && service(sent[0]).Answered? ==>
        sent == [sent[0]] && outcome == Completed && isOnline && profiles == old(profiles)
        && selectedProfile == old(selectedProfile) && accessToken == old(accessToken)
    {
      if IsBlank(username) {
        return Threw(InvalidCredentials(InvalidUsername)), [];
      }
      if !IsBlank(AuthenticatedToken()) {
        outcome, sent := LogInWithToken(service);
      } else {
        if IsBlank(password) {
          if premium {
            return Threw(InvalidCredentials(InvalidPassword)), [];
          }
        }
        outcome, sent := LogInWithPassword(premium, service);
      }
    }

    /** logInWithPassword: one authenticate request with the username and password. */
    method LogInWithPassword(premium: bool, service: Request -> Reply) returns (outcome: Outcome, sent: seq<Request>)
      modifies this
      ensures PasswordFlow(premium, service, outcome, sent)
      ensures outcome == Completed ==> isOnline && userProperties == PropertiesOf(service(sent[0]).response.user)
    {
      if IsBlank(username) {
        return Threw(InvalidCredentials(InvalidUsername)), [];
      }
      if IsBlank(password) {
        if premium {
          return Threw(InvalidCredentials(InvalidPassword)), [];
        }
      }
      var request := Authenticate(username, password, clientToken);
      sent := [request];
      outcome := AcceptResponse(service(request));
    }

    /** The common tail of both login flows: check the reply, then take the user type, the
        user id, the online flag, the token, the profiles, the selected profile and the
        user properties from it, in that order. */
    method AcceptResponse(reply: Reply) returns (outcome: Outcome)
      modifies this
      ensures Exchanged(reply, outcome, old(userId))
    {
      var checked := CheckResponse(reply, clientToken);
      if checked.Err? {
        return Threw(checked.error);
      }
      var response := checked.value;
      if response.selectedProfile.Some? {
        userType := Some(TypeOf(response.selectedProfile.value));
      } else if IsNotEmpty(response.availableProfiles) {
        userType := Some(TypeOf(response.availableProfiles.value[0]));
      }
      var user := response.user;
      if user.Some? && user.value.id.Some? {
        userId := user.value.id;
      } else {
        userId := username;
      }
      isOnline := true;
      accessToken := response.accessToken;
      profiles := response.availableProfiles;
      selectedProfile := response.selectedProfile;
      userProperties := map[];
      UpdateUserProperties(user);
      outcome := Completed;
    }

    /** updateUserProperties: `putAll` of the user's properties, when there are any. */
    method UpdateUserProperties(user: Option<User>)
      modifies this`userProperties
      ensures userProperties == old(userProperties) + PropertiesOf(user)
      ensures user.None? || user.value.properties.None? ==> userProperties == old(userProperties)
    {
      if user.None? {
        return;
      }
      if user.value.properties.Some? {
        userProperties := userProperties + user.value.properties.value;
      }
    }

    /** logInWithToken: the user-id and token guards, then validate, then refresh only
        when validate fails. */
    method LogInWithToken(service: Request -> Reply) returns (outcome: Outcome, sent: seq<Request>)
      modifies this
      ensures TokenFlow(service, outcome, sent)
    {
      if IsBlank(userId) {
        if !IsBlank(username) {
          return Threw(InvalidCredentials(InvalidUuidAndUsername)), [];
        }
        userId := username;
      }
      if IsBlank(AuthenticatedToken()) {
        return Threw(InvalidCredentials(InvalidAccessToken)), [];
      }
      var valid;
      valid, sent := CheckTokenValidity(service);
      if valid {
        isOnline := true;
        return Completed, sent;
      }
      var request := Refresh(accessToken, clientToken, None);
      sent := sent + [request];
      outcome := AcceptResponse(service(request));
    }

    /** checkTokenValidity: one validate request; the token is valid exactly when the
        request completes without an AuthenticationException. */
    method CheckTokenValidity(service: Request -> Reply) returns (valid: bool, sent: seq<Request>)
      ensures sent == [Validate(accessToken, clientToken)]
      ensures valid <==> service(Validate(accessToken, clientToken)).Answered?
    {
      var request := Validate(accessToken, clientToken);
      sent := [request];
      match service(request)
      case Answered(_) => valid := true;
      case Rejected(_, _) => valid := false;
    }

    /** logOut: this class clears its token, its profiles and its online flag, so the
        session is neither logged in nor able to play online. */
    method LogOut()
      modifies this
      ensures accessToken.None? && profiles.None? && !isOnline
      ensures !IsLoggedIn() && !CanPlayOnline()
    {
      accessToken := None;
      profiles := None;
      isOnline := false;
    }

    /** selectGameProfile: refused unless logged in with no profile selected, and for a
        profile that is null or not among the available ones; otherwise one refresh
        request pinned to the profile, whose accepted response replaces the token and the
        selected profile and leaves the profile list alone. */
    method SelectGameProfile(profile: Option<GameProfile>, service: Request -> Reply) returns (outcome: Outcome, sent: seq<Request>)
      modifies this
      ensures !old(IsLoggedIn()) ==>
        outcome == Threw(AuthenticationFailure(NotLoggedIn)) && sent == [] && unchanged(this)
      ensures old(IsLoggedIn()) && old(selectedProfile).Some? ==>
        outcome == Threw(AuthenticationFailure(ProfileAlreadySelected)) && sent == [] && unchanged(this)
      ensures old(IsLoggedIn()) && old(selectedProfile).None? && (profile.None? || !Contains(old(profiles), profile.value)) ==>
        outcome == Threw(IllegalArgument(profile)) && sent == [] && unchanged(this)
      ensures old(IsLoggedIn()) && old(selectedProfile).None? && profile.Some? && Contains(old(profiles), profile.value) ==>
        var request := Refresh(old(accessToken), clientToken, profile);
        && sent == [request]
        && match CheckResponse(service(request), clientToken)
           case Err(failure) => outcome == Threw(failure) && unchanged(this)
           case Ok(response) =>
             && outcome == Completed && isOnline
             && accessToken == response.accessToken && selectedProfile == response.selectedProfile
             && profiles == old(profiles) && username == old(username) && password == old(password)
             && userId == old(userId) && userType == old(userType) && userProperties == old(userProperties)
      // Success needs a profile that was on offer.
      ensures outcome == Completed ==> profile.Some? && old(profiles).Some? && profile.value in old(profiles).value
    {
      if !IsLoggedIn() {
        return Threw(AuthenticationFailure(NotLoggedIn)), [];
      }
      if selectedProfile.Some? {
        return Threw(AuthenticationFailure(ProfileAlreadySelected)), [];
      }
      if profile.None? || !Contains(profiles, profile.value) {
        return Threw(IllegalArgument(profile)), [];
      }
      var request := Refresh(accessToken, clientToken, profile);
      sent := [request];
      var checked := CheckResponse(service(request), clientToken);
      if checked.Err? {
        return Threw(checked.error), sent;
      }
      isOnline := true;
      accessToken := checked.value.accessToken;
      selectedProfile := checked.value.selectedProfile;
      outcome := Completed;
    }

    /** loadFromStorage: this class reads the access token back from its key. */
    method LoadFromStorage(credentials: map<string, string>)
      modifies this
      ensures accessToken == Some(LoadAccessToken(credentials))
      ensures IsLoggedIn() <==>
        StorageKeyAccessToken !in credentials || !IsBlank(Some(credentials[StorageKeyAccessToken]))
    {
      accessToken := Some(LoadAccessToken(credentials));
    }

    /** saveForStorage: the superclass's map `base`, plus the token under its key when the
        session is logged in. */
    method SaveForStorage(base: map<string, string>) returns (result: map<string, string>)
      ensures result == SaveAccessToken(base, accessToken)
      ensures StorageKeyAccessToken !in base ==> (StorageKeyAccessToken in result <==> IsLoggedIn())
      ensures IsLoggedIn() ==> Some(result[StorageKeyAccessToken]) == accessToken
    {
      result := base;
      if !IsBlank(AuthenticatedToken()) {
        result := result[StorageKeyAccessToken := AuthenticatedToken().value];
      }
    }
  }
}
