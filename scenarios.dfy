/** Clients of the session that follow concrete exchanges from start to end, using only
    the contracts of its operations. */
module Scenarios {
  import opened Wrappers
  import opened StringUtils
  import opened Yggdrasil

  /** Alice logs in with a password; the service offers one non-legacy profile. */
  method AliceLogsIn()
  {
    var session := new YggdrasilUserAuthentication("client-1");
    session.username, session.password := Some("alice"), Some("secret");
    var p1 := GameProfile(Some("p1"), Some("Alice"), false);
    var response := TokenResponse(Some("AT1"), Some("client-1"), Some([p1]), None, None);
    var service := (r: Request) => if r.Authenticate? then Answered(response) else Rejected(false, "unexpected");
    assert !IsWhitespace('a') && !IsWhitespace('A');
    var outcome, sent := session.LogIn(true, service);
    assert sent == [Authenticate(Some("alice"), Some("secret"), "client-1")];
    assert outcome == Completed;
    assert session.IsLoggedIn() && session.isOnline && !session.CanPlayOnline();
    assert session.profiles == Some([p1]) && session.selectedProfile.None?;
    assert session.userType == Some(Mojang) && session.userId == Some("alice");
  }

  /** The same exchange with a foreign client token fails and changes nothing. */
  method ForeignClientToken()
  {
    var session := new YggdrasilUserAuthentication("client-1");
    session.username, session.password := Some("alice"), Some("secret");
    var response := TokenResponse(Some("AT1"), Some("client-2"), None, None, None);
    var service := (r: Request) => Answered(response);
    assert !IsWhitespace('a');
    var outcome, sent := session.LogIn(true, service);
    assert outcome == Threw(AuthenticationFailure(ClientTokenChanged));
    assert |sent| == 1;
    assert !session.IsLoggedIn() && !session.isOnline && session.profiles.None?;
  }

  /** A wrong password: the service's InvalidCredentialsException comes out of logIn after
      the one authenticate request, and nothing changes. */
  method WrongPassword()
  {
    var session := new YggdrasilUserAuthentication("client-1");
    session.username, session.password := Some("alice"), Some("wrong");
    var service := (r: Request) => Rejected(true, "Invalid credentials. Invalid username or password.");
    assert !IsWhitespace('a') && !IsWhitespace('w');
    var outcome, sent := session.LogIn(true, service);
    assert sent == [Authenticate(Some("alice"), Some("wrong"), "client-1")];
    assert outcome == Threw(InvalidCredentials("Invalid credentials. Invalid username or password."));
    assert !session.IsLoggedIn() && session.password == Some("wrong");
  }

  /** A cached token that validates is not refreshed. */
  method CachedTokenValidates(p: GameProfile)
  {
    var session := new YggdrasilUserAuthentication("client-1");
    session.username, session.userId, session.accessToken := Some("alice"), Some("u1"), Some("AT1");
    session.selectedProfile := Some(p);
    var service := (r: Request) => if r.Validate? then Answered(TokenResponse(None, None, None, None, None)) else Rejected(false, "unexpected");
    assert !IsWhitespace('a') && !IsWhitespace('u') && !IsWhitespace('A');
    var outcome, sent := session.LogIn(true, service);
    assert sent == [Validate(Some("AT1"), "client-1")];
    assert outcome == Completed && session.CanPlayOnline();
  }

  /** A cached token without a user id is refused before any request, whatever the username. */
  method CachedTokenWithoutUserId()
  {
    var session := new YggdrasilUserAuthentication("client-1");
    session.username, session.accessToken := Some("alice"), Some("AT1");
    var service := (r: Request) => Rejected(false, "unused");
    assert !IsWhitespace('a') && !IsWhitespace('A');
    var outcome, sent := session.LogIn(true, service);
    assert outcome == Threw(InvalidCredentials(InvalidUuidAndUsername)) && sent == [];
  }

  /** Reloading storage without the token key leaves the session logged in with "null". */
  method ReloadWithoutToken()
  {
    var session := new YggdrasilUserAuthentication("client-1");
    var saved := session.SaveForStorage(map[]);
    assert StorageKeyAccessToken !in saved;
    var restored := new YggdrasilUserAuthentication("client-1");
    restored.LoadFromStorage(saved);
    assert restored.accessToken == Some("null") && restored.IsLoggedIn();
  }
}
