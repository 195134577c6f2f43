/**
 * The `/login` handler: parse the credentials, check them against the user
 * store, and on success add a session cookie to the jar.
 */
module Login {
  import opened Wrappers
  import opened Text
  import opened DataStores
  import opened AuthApi
  import opened CookieJar
  import opened HashMapUserStore
  import Email
  import Password

  datatype LoginRequest = LoginRequest(email: string, password: string)

  /**
   * The translation of a `validate_user` failure: an unknown account and a
   * wrong password become the same `IncorrectCredentials`; anything else is unexpected.
   */
  function ValidateError(e: UserStoreError): (a: AuthAPIError)
    ensures a == AuthAPIError.IncorrectCredentials <==> e.UserNotFound? || e.InvalidCredentials?
    ensures a != AuthAPIError.IncorrectCredentials ==> a == AuthAPIError.UnexpectedError
  {
    match e
    case UserNotFound => AuthAPIError.IncorrectCredentials
    case InvalidCredentials => AuthAPIError.IncorrectCredentials
    case _ => AuthAPIError.UnexpectedError
  }

  /** Both credentials parse. */
  predicate WellFormed(request: LoginRequest, isValidEmail: string -> bool)
  {
    isValidEmail(request.email) && Password.Parse(request.password).Ok?
  }

  /**
   * `login`, over the user store it reads, the incoming jar, the email
   * validator `isValidEmail` and the cookie issuer `generateAuthCookie`
   * (`generate_auth_cookie`; `None` when it fails). It returns the jar and the outcome.
   */
  function Login(store: HashMapUserStore, jar: CookieJar, request: LoginRequest,
                 isValidEmail: string -> bool, generateAuthCookie: Email.Email -> Option<Cookie>)
    : (out: (CookieJar, Result<StatusCode, AuthAPIError>))
    reads store
    // malformed credentials are rejected before the store is consulted
    ensures !WellFormed(request, isValidEmail) ==> out.1 == Err(AuthAPIError.InvalidCredentials)
    // an unknown account and a wrong password look the same
    ensures WellFormed(request, isValidEmail) && store.ValidateUser(request.email, request.password).Err? ==>
      out.1 == Err(AuthAPIError.IncorrectCredentials)
    // the issuer failing is unexpected
    ensures
      && WellFormed(request, isValidEmail)
      && store.ValidateUser(request.email, request.password).Ok?
      && generateAuthCookie(Email.Email(request.email)).None?
      ==> out.1 == Err(AuthAPIError.UnexpectedError)
    // success exactly when everything passes; then 200 and the jar gains the session cookie
    ensures out.1.Ok? <==>
      && WellFormed(request, isValidEmail)
      && store.ValidateUser(request.email, request.password) == Ok(())
      && generateAuthCookie(Email.Email(request.email)).Some?
    ensures out.1.Ok? ==> out.1.value == Ok200 && out.0 == Add(jar, generateAuthCookie(Email.Email(request.email)).value)
    // every failure hands the jar back untouched
    ensures out.1.Err? ==> out.0 == jar
  {
    match Email.Parse(request.email, isValidEmail)
    case Err(_) => (jar, Err(AuthAPIError.InvalidCredentials))
    case Ok(email) =>
      match Password.Parse(request.password)
      case Err(_) => (jar, Err(AuthAPIError.InvalidCredentials))
      case Ok(password) =>
        match store.ValidateUser(email.AsRef(), password.AsRef())
        case Err(e) => (jar, Err(ValidateError(e)))
        case Ok(_) =>
          match generateAuthCookie(email)
          case None => (jar, Err(AuthAPIError.UnexpectedError))
          case Some(cookie) => (Add(jar, cookie), Ok(Ok200))
  }

  /**
   * Login does not reveal whether an account exists: a store without the
   * account and a store where it has another password give the same answer and the same jar.
   */
  lemma LoginHidesAccountExistence(withoutAccount: HashMapUserStore, withAccount: HashMapUserStore, jar: CookieJar, request: LoginRequest,
                                   isValidEmail: string -> bool, generateAuthCookie: Email.Email -> Option<Cookie>)
    requires request.email !in withoutAccount.users
    requires request.email in withAccount.users && withAccount.users[request.email].password != request.password
    ensures Login(withoutAccount, jar, request, isValidEmail, generateAuthCookie) == Login(withAccount, jar, request, isValidEmail, generateAuthCookie)
  {
  }
}
