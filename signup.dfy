/**
 * The `/signup` handler: check the input, register the user, translate the
 * store's error into an API error.
 */
module Signup {
  import opened Wrappers
  import opened Text
  import opened DataStores
  import opened AuthApi
  import opened HashMapUserStore
  import Password

  datatype SignupRequest = SignupRequest(email: string, password: string, requires2fa: bool)

  datatype SignupResponse = SignupResponse(status: StatusCode, message: string)

  const CreatedMessage: string := "User created successfully!"

  /** The handler's input check: an empty email, an email without '@', or a password under eight bytes. */
  predicate InvalidInput(email: string, password: string)
  {
    |email| == 0 || '@' !in email || Utf8Len(password) < 8
  }

  /**
   * The emptiness test is subsumed by the '@' test, and the password test is
   * exactly the rejection by `Password::parse`.
   */
  lemma InvalidInputMeaning(email: string, password: string)
    ensures InvalidInput(email, password) <==> '@' !in email || Password.Parse(password).Err?
  {
  }

  /** The translation of an `add_user` failure: an existing account is reported as such, anything else as unexpected. */
  function AddUserError(e: UserStoreError): (a: AuthAPIError)
    ensures a == AuthAPIError.UserAlreadyExists <==> e == UserStoreError.UserAlreadyExists
    ensures a != AuthAPIError.UserAlreadyExists ==> a == AuthAPIError.UnexpectedError
  {
    match e
    case UserAlreadyExists => AuthAPIError.UserAlreadyExists
    case _ => AuthAPIError.UnexpectedError
  }

  /**
   * `signup`. Invalid input is `InvalidCredentials` and leaves the store alone;
   * a taken email is `UserAlreadyExists` and leaves the store alone; otherwise
   * the store gains the request's user and the answer is 201 with the creation message.
   */
  method Signup(store: HashMapUserStore, request: SignupRequest) returns (r: Result<SignupResponse, AuthAPIError>)
    requires store.Valid()
    modifies store
    ensures store.Valid()
    ensures InvalidInput(request.email, request.password) ==>
      r == Err(AuthAPIError.InvalidCredentials) && store.users == old(store.users)
    ensures !InvalidInput(request.email, request.password) && request.email in old(store.users) ==>
      r == Err(AuthAPIError.UserAlreadyExists) && store.users == old(store.users)
    ensures !InvalidInput(request.email, request.password) && request.email !in old(store.users) ==>
      && r == Ok(SignupResponse(Created201, CreatedMessage))
      && store.users == old(store.users)[request.email := User(request.email, request.password, request.requires2fa)]
  {
    var email := request.email;
    var password := request.password;
    if |email| == 0 || '@' !in email || Utf8Len(password) < 8 {
      return Err(AuthAPIError.InvalidCredentials);
    }
    var newUser := User(email, password, request.requires2fa);
    var added := store.AddUser(newUser);
    if added.Err? {
      return Err(AddUserError(added.error));
    }
    return Ok(SignupResponse(Created201, CreatedMessage));
  }
}
