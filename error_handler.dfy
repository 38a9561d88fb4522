// The terminal error handler of src/communication/server/ErrorHandler.ts, which classifies an
// error by its `name`.
module ErrorHandler {
  import opened Wrappers
  import opened HttpErrors

  /** The status of each error name the handler recognises, as a table. */
  const NameStatus: map<string, int> := map[
    "ValidationError" := BadRequest,
    "BadRequestError" := BadRequest,
    "UnauthorizedError" := Unauthorized,
    "ForbiddenError" := Forbidden,
    "NotFoundError" := NotFound,
    "InternalServerError" := InternalServerError,
    "AuthenticationTimeoutError" := AuthenticationTimeout]

  /**
   * The `||` chain of the handler: a truthy statusCode, else the status of the first name that
   * matches, else 500. It agrees with the table.
   */
  function StatusCode(e: HttpError): (status: int)
    ensures HasStatusCode(e) ==> status == e.statusCode.value
    ensures !HasStatusCode(e) && e.name in NameStatus ==> status == NameStatus[e.name]
    ensures !HasStatusCode(e) && e.name !in NameStatus ==> status == InternalServerError
  {
    if HasStatusCode(e) then e.statusCode.value
    else if e.name == ClassName(ValidationClass) then BadRequest
    else if e.name == ClassName(BadRequestClass) then BadRequest
    else if e.name == ClassName(UnauthorizedClass) then Unauthorized
    else if e.name == ClassName(ForbiddenClass) then Forbidden
    else if e.name == ClassName(NotFoundClass) then NotFound
    else if e.name == ClassName(InternalServerErrorClass) then InternalServerError
    else if e.name == ClassName(AuthenticationTimeoutClass) then AuthenticationTimeout
    else InternalServerError
  }

  /** What the handler does: nothing for a falsy error, otherwise one response and maybe one log line. */
  function Handle(error: Option<HttpError>): (o: Option<Outcome>)
    ensures o.None? <==> error.None?
    ensures o.Some? ==> o.value == OutcomeFor(error.value, StatusCode(error.value))
  {
    match error
    case None => None
    case Some(e) => Some(OutcomeFor(e, StatusCode(e)))
  }

  /** errorHandler(error, request, response, next): uses only the error and the response. */
  method HandleError(error: Option<HttpError>, response: HttpResponse, log: ErrorLog)
    modifies response, log
    ensures error.None? ==> response.sent == old(response.sent) && log.errors == old(log.errors)
    ensures error.Some? ==>
              && response.sent == old(response.sent) + [Handle(error).value.sent]
              && log.errors == old(log.errors) + (if Handle(error).value.logged then [error.value] else [])
  {
    if error.Some? {
      var e := error.value;
      Perform(e, OutcomeFor(e, StatusCode(e)), response, log);
    }
  }

  /** An error built from one of the library's classes gets that class's status. */
  lemma {:induction false} ClassErrorStatus(c: ErrorClass, message: string)
    ensures StatusCode(NewError(c, message)) == NameStatus[ClassName(c)]
  {
    var e := NewError(c, message);
    assert !HasStatusCode(e);
    match c
    case ValidationClass =>
    case BadRequestClass =>
    case UnauthorizedClass =>
    case ForbiddenClass =>
    case NotFoundClass =>
    case InternalServerErrorClass =>
    case AuthenticationTimeoutClass =>
  }

  /** The message reaches the client unless the status is exactly 500; a 503 keeps it. */
  lemma MessageKeptAbove500(e: HttpError)
    requires HasStatusCode(e) && e.statusCode.value == 503
    ensures Handle(Some(e)).value.sent.body.error == e.message
    ensures Handle(Some(e)).value.logged
  {
  }

  /** An unknown name with no statusCode is a logged 500 whose message is hidden. */
  lemma UnknownErrorIsHidden(e: HttpError)
    requires !HasStatusCode(e) && e.name !in NameStatus
    ensures Handle(Some(e)).value.sent == Sent(InternalServerError, ErrorBody(InternalServerErrorMessage, e.location))
    ensures Handle(Some(e)).value.logged
  {
  }

  /** A statusCode of 0 is falsy and is ignored. */
  lemma ZeroStatusCodeIgnored(e: HttpError)
    requires e.statusCode == Some(0)
    ensures StatusCode(e) == StatusCode(e.(statusCode := None))
  {
  }
}
