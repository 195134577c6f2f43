/**
 * The `/logout` handler: find the session cookie, check the token, ban it,
 * and drop the cookie from the jar.
 */
module Logout {
  import opened Wrappers
  import opened DataStores
  import opened AuthApi
  import opened CookieJar
  import opened HashsetBannedTokenStore

  /**
   * What one logout does: the jar handed back, the outcome, and the token
   * handed to `store_token` (`None` when the handler stops before banning).
   */
  datatype LogoutOutcome = LogoutOutcome(jar: CookieJar, result: Result<StatusCode, AuthAPIError>, banned: Option<string>)

  /**
   * The decision logic of `logout` for any banned-token store. `tokenValid`
   * stands for `validate_token`, which also sees the banned set; `stored` is
   * what `store_token` answers when it is called.
   */
  function LogoutFlow(jar: CookieJar, bannedTokens: set<string>, tokenValid: (string, set<string>) -> bool,
                      stored: Result<(), BannedTokenStoreError>): (o: LogoutOutcome)
    // no session cookie: MissingToken, nothing banned, jar kept
    ensures JwtCookieName !in jar ==> o == LogoutOutcome(jar, Err(MissingToken), None)
    // a token that fails validation is never banned
    ensures JwtCookieName in jar && !tokenValid(jar[JwtCookieName], bannedTokens) ==>
      o == LogoutOutcome(jar, Err(InvalidToken), None)
    // only a validated token is ever banned, and it is the cookie's token
    ensures o.banned.Some? <==> JwtCookieName in jar && tokenValid(jar[JwtCookieName], bannedTokens)
    ensures o.banned.Some? ==> o.banned.value == jar[JwtCookieName]
    // a failing store: UnexpectedError and the cookie stays
    ensures o.banned.Some? && stored.Err? ==> o.result == Err(AuthAPIError.UnexpectedError) && o.jar == jar
    // success exactly when the token was banned; the cookie is then gone
    ensures o.result.Ok? <==> o.banned.Some? && stored.Ok?
    ensures o.result.Ok? ==> o.result.value == Ok200 && o.jar == Remove(jar, JwtCookieName)
    ensures o.result.Err? ==> o.jar == jar
  {
    match Get(jar, JwtCookieName)
    case None => LogoutOutcome(jar, Err(MissingToken), None)
    case Some(token) =>
      if !tokenValid(token, bannedTokens) then LogoutOutcome(jar, Err(InvalidToken), None)
      else if stored.Err? then LogoutOutcome(jar, Err(AuthAPIError.UnexpectedError), Some(token))
      else LogoutOutcome(Remove(jar, JwtCookieName), Ok(Ok200), Some(token))
  }

  /** `validate_token` refuses every token already in the banned set it is shown. */
  ghost predicate RejectsBanned(tokenValid: (string, set<string>) -> bool)
  {
    forall t, b :: t in b ==> !tokenValid(t, b)
  }

  /**
   * A second logout never succeeds: presenting the jar returned by a
   * successful logout gives MissingToken; presenting the old jar again gives
   * InvalidToken when `validate_token` refuses banned tokens.
   */
  lemma SecondLogoutFails(jar: CookieJar, bannedTokens: set<string>, tokenValid: (string, set<string>) -> bool,
                          stored: Result<(), BannedTokenStoreError>)
    requires LogoutFlow(jar, bannedTokens, tokenValid, stored).result.Ok?
    ensures var first := LogoutFlow(jar, bannedTokens, tokenValid, stored);
      LogoutFlow(first.jar, bannedTokens + {first.banned.value}, tokenValid, stored).result == Err(MissingToken)
    ensures var first := LogoutFlow(jar, bannedTokens, tokenValid, stored);
      RejectsBanned(tokenValid) ==>
        LogoutFlow(jar, bannedTokens + {first.banned.value}, tokenValid, stored).result == Err(InvalidToken)
  {
    var first := LogoutFlow(jar, bannedTokens, tokenValid, stored);
    var token := first.banned.value;
    assert JwtCookieName !in first.jar;
    if RejectsBanned(tokenValid) {
      assert token in bannedTokens + {token};
    }
  }

  /**
   * `logout` over the in-memory banned-token store. Its `store_token` never
   * fails, so the outcome is `LogoutFlow` with a successful store, and the
   * store gains exactly the banned token.
   */
  method Logout(store: HashsetBannedTokenStore, jar: CookieJar, tokenValid: (string, set<string>) -> bool)
    returns (newJar: CookieJar, r: Result<StatusCode, AuthAPIError>)
    modifies store
    ensures var o := LogoutFlow(jar, old(store.bannedTokens), tokenValid, Ok(()));
      && newJar == o.jar && r == o.result
      && store.bannedTokens == old(store.bannedTokens) + (if o.banned.Some? then {o.banned.value} else {})
  {
    var token;
    match Get(jar, JwtCookieName) {
      case None => return jar, Err(MissingToken);
      case Some(t) => token := t;
    }
    if !tokenValid(token, store.bannedTokens) {
      return jar, Err(InvalidToken);
    }
    var stored := store.StoreToken(token);
    if stored.Err? {
      return jar, Err(AuthAPIError.UnexpectedError);
    }
    return Remove(jar, JwtCookieName), Ok(Ok200);
  }
}
