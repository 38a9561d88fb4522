// The error values that travel to the terminal error handlers, the status codes they use,
// and the response and log objects the handlers write to.
module HttpErrors {
  import opened Wrappers

  const NotModified := 304
  const BadRequest := 400
  const Unauthorized := 401
  const Forbidden := 403
  const NotFound := 404
  /** The 419-class status of the cross-platform library's AUTHENTICATION_TIMEOUT. */
  const AuthenticationTimeout := 419
  const InternalServerError := 500

  const InternalServerErrorMessage := "Internal Server Error"

  /** The error classes of the cross-platform library an error can be an instance of. */
  datatype ErrorClass =
    | ValidationClass
    | BadRequestClass
    | UnauthorizedClass
    | ForbiddenClass
    | NotFoundClass
    | InternalServerErrorClass
    | AuthenticationTimeoutClass

  /**
   * An error as the handlers see it: its `name`, the classes on its prototype chain,
   * its `statusCode` (None when undefined), its `message` and its `location`.
   */
  datatype HttpError = HttpError(
    name: string,
    classes: set<ErrorClass>,
    statusCode: Option<int>,
    message: string,
    location: Option<string>)

  /** The `name` each error class gives the errors it constructs. */
  function ClassName(c: ErrorClass): string {
    match c
    case ValidationClass => "ValidationError"
    case BadRequestClass => "BadRequestError"
    case UnauthorizedClass => "UnauthorizedError"
    case ForbiddenClass => "ForbiddenError"
    case NotFoundClass => "NotFoundError"
    case InternalServerErrorClass => "InternalServerError"
    case AuthenticationTimeoutClass => "AuthenticationTimeoutError"
  }

  /** `new C(message)` for one of the library's classes: no statusCode, no location. */
  function NewError(c: ErrorClass, message: string): (e: HttpError)
    ensures e.name == ClassName(c) && c in e.classes
    ensures e.statusCode == None && e.location == None && e.message == message
  {
    HttpError(ClassName(c), {c}, None, message, None)
  }

  /** `error.statusCode` is truthy: defined and not zero. */
  predicate HasStatusCode(e: HttpError) {
    e.statusCode.Some? && e.statusCode.value != 0
  }

  /** The JSON body `{ error: message, location }`. */
  datatype ErrorBody = ErrorBody(error: string, location: Option<string>)

  /** One `response.status(status).send(body)`. */
  datatype Sent = Sent(status: int, body: ErrorBody)

  /** What a handler does with a truthy error: the response it sends and whether it logs the error. */
  datatype Outcome = Outcome(sent: Sent, logged: bool)

  /**
   * The part both handlers share once the status is known: the message is hidden exactly at 500,
   * the error is logged from 500 up, and the location is copied.
   */
  function OutcomeFor(e: HttpError, status: int): (o: Outcome)
    ensures o.sent.status == status && o.sent.body.location == e.location
    ensures status == InternalServerError ==> o.sent.body.error == InternalServerErrorMessage
    ensures status != InternalServerError ==> o.sent.body.error == e.message
    ensures o.logged <==> status >= 500
  {
    var message := if status == InternalServerError then InternalServerErrorMessage else e.message;
    Outcome(Sent(status, ErrorBody(message, e.location)), status >= 500)
  }

  /** The response object: the sends made on it, in order. */
  class HttpResponse {
    var sent: seq<Sent>

    constructor()
      ensures sent == []
    {
      sent := [];
    }

    method Send(s: Sent)
      modifies this
      ensures sent == old(sent) + [s]
    {
      sent := sent + [s];
    }
  }

  /** The server-side error log. */
  class ErrorLog {
    var errors: seq<HttpError>

    constructor()
      ensures errors == []
    {
      errors := [];
    }

    method Error(e: HttpError)
      modifies this
      ensures errors == old(errors) + [e]
    {
      errors := errors + [e];
    }
  }

  /** Performs an outcome: log first when it says so, then send. */
  method Perform(e: HttpError, o: Outcome, response: HttpResponse, log: ErrorLog)
    modifies response, log
    ensures response.sent == old(response.sent) + [o.sent]
    ensures log.errors == old(log.errors) + (if o.logged then [e] else [])
  {
    if o.logged {
      log.Error(e);
    }
    response.Send(o.sent);
  }
}
