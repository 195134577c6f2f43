/**
 * The errors the routes report to HTTP clients (`AuthAPIError`) and how each
 * becomes a response: a status code and a JSON body `{ "error": message }`.
 */
module AuthApi {
  import opened Wrappers

  /**
   * The variants the routes use. The declaring file is not part of this
   * model; the list is read off the routes.
   */
  datatype AuthAPIError =
    | InvalidCredentials
    | UserAlreadyExists
    | IncorrectCredentials
    | UnexpectedError
    | MissingToken
    | InvalidToken

  type StatusCode = nat

  const Ok200: StatusCode := 200
  const Created201: StatusCode := 201
  const BadRequest400: StatusCode := 400
  const Unauthorized401: StatusCode := 401
  const Conflict409: StatusCode := 409
  const InternalServerError500: StatusCode := 500

  datatype ErrorResponse = ErrorResponse(error: string)

  datatype Response = Response(status: StatusCode, body: ErrorResponse)

  /** The (status, message) pair of one error variant, for the variants the mapping covers. */
  function StatusAndMessage(e: AuthAPIError): Option<(StatusCode, string)>
  {
    match e
    case InvalidCredentials => Some((BadRequest400, "Invalid Credentials"))
    case UserAlreadyExists => Some((Conflict409, "User already exists"))
    case IncorrectCredentials => Some((Unauthorized401, "IncorrectCredentials"))
    case UnexpectedError => Some((InternalServerError500, "Unexpected error"))
    case MissingToken => None
    case InvalidToken => None
  }

  /**
   * `AuthAPIError::into_response`. The source's match covers four variants;
   * `MissingToken` and `InvalidToken` have no arm, so no response is defined for them.
   * Every defined response is a client or server error and carries its message
   * as the body's `error` field.
   */
  function IntoResponse(e: AuthAPIError): (r: Option<Response>)
    ensures r.Some? <==> !(e.MissingToken? || e.InvalidToken?)
    ensures r.Some? ==> 400 <= r.value.status < 600
    ensures e.InvalidCredentials? ==> r == Some(Response(400, ErrorResponse("Invalid Credentials")))
    ensures e.UserAlreadyExists? ==> r == Some(Response(409, ErrorResponse("User already exists")))
    ensures e.IncorrectCredentials? ==> r == Some(Response(401, ErrorResponse("IncorrectCredentials")))
    ensures e.UnexpectedError? ==> r == Some(Response(500, ErrorResponse("Unexpected error")))
  {
    match StatusAndMessage(e)
    case Some((status, message)) => Some(Response(status, ErrorResponse(message)))
    case None => None
  }

  /** Distinct covered variants get distinct status codes, so a client can tell them apart by status alone. */
  lemma IntoResponseStatusInjective(a: AuthAPIError, b: AuthAPIError)
    requires IntoResponse(a).Some? && IntoResponse(b).Some?
    ensures IntoResponse(a).value.status == IntoResponse(b).value.status <==> a == b
  {
  }
}
