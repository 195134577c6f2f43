/**
 * The routes composed: a user signs up, logs in, logs out, and a repeated
 * logout fails.
 */
module Session {
  import opened Wrappers
  import opened Text
  import opened AuthApi
  import opened CookieJar
  import opened HashMapUserStore
  import opened HashsetBannedTokenStore
  import opened Signup
  import opened Login
  import opened Logout
  import Email

  /**
   * Signing up with a fresh, well-formed email and an eight-byte password,
   * then logging in with the same credentials, yields a session cookie;
   * logging out with it succeeds and drops it; logging out again fails,
   * with the new jar (MissingToken) and with the old one (InvalidToken),
   * provided `validate_token` refuses banned tokens.
   */
  method SignupLoginLogout(users: HashMapUserStore, banned: HashsetBannedTokenStore, jar: CookieJar,
                           email: string, password: string,
                           isValidEmail: string -> bool, generateAuthCookie: Email.Email -> Option<Cookie>,
                           tokenValid: (string, set<string>) -> bool)
    returns (signedUp: Result<SignupResponse, AuthAPIError>, loggedIn: Result<StatusCode, AuthAPIError>,
             loggedOut: Result<StatusCode, AuthAPIError>, againNewJar: Result<StatusCode, AuthAPIError>,
             againOldJar: Result<StatusCode, AuthAPIError>)
    requires users.Valid() && email !in users.users
    requires '@' in email && isValidEmail(email) && Utf8Len(password) >= 8
    requires generateAuthCookie(Email.Email(email)).Some?
    requires generateAuthCookie(Email.Email(email)).value.name == JwtCookieName
    requires tokenValid(generateAuthCookie(Email.Email(email)).value.value, banned.bannedTokens)
    requires RejectsBanned(tokenValid)
    modifies users, banned
    ensures signedUp == Ok(SignupResponse(Created201, CreatedMessage))
    ensures loggedIn == Ok(Ok200) && loggedOut == Ok(Ok200)
    ensures againNewJar == Err(MissingToken) && againOldJar == Err(InvalidToken)
    ensures banned.bannedTokens == old(banned.bannedTokens) + {generateAuthCookie(Email.Email(email)).value.value}
  {
    signedUp := Signup.Signup(users, SignupRequest(email, password, false));
    var login := Login.Login(users, jar, LoginRequest(email, password), isValidEmail, generateAuthCookie);
    var sessionJar := login.0;
    loggedIn := login.1;
    var afterJar, ignored;
    afterJar, loggedOut := Logout.Logout(banned, sessionJar, tokenValid);
    assert sessionJar[JwtCookieName] in banned.bannedTokens;
    ignored, againNewJar := Logout.Logout(banned, afterJar, tokenValid);
    ignored, againOldJar := Logout.Logout(banned, sessionJar, tokenValid);
  }
}
