// The error handler of src/communication/server/errors/ErrorHandler.ts, which classifies an
// error with `instanceof` over the classes of its prototype chain.
module InstanceErrorHandler {
  import opened Wrappers
  import opened HttpErrors
  import ErrorHandler

  /** The classes the handler tests, in the order it tests them, with the status of each. */
  const ClassOrder: seq<(ErrorClass, int)> := [
    (ValidationClass, BadRequest),
    (UnauthorizedClass, Unauthorized),
    (ForbiddenClass, Forbidden),
    (NotFoundClass, NotFound),
    (AuthenticationTimeoutClass, AuthenticationTimeout)]

  /** The status of the first entry of `order` whose class the error is an instance of. */
  function FirstMatch(order: seq<(ErrorClass, int)>, classes: set<ErrorClass>): (r: Option<int>)
    ensures r.None? <==> forall i :: 0 <= i < |order| ==> order[i].0 !in classes
    ensures r.Some? ==> exists i :: 0 <= i < |order| && order[i].0 in classes && r.value == order[i].1
                                    && forall j :: 0 <= j < i ==> order[j].0 !in classes
  {
    if order == [] then None
    else if order[0].0 in classes then Some(order[0].1)
    else FirstMatch(order[1..], classes)
  }

  /** FirstMatch over ClassOrder, unfolded one class at a time. */
  lemma ClassOrderMatch(cs: set<ErrorClass>)
    ensures FirstMatch(ClassOrder, cs)
         == if ValidationClass in cs then Some(BadRequest)
            else if UnauthorizedClass in cs then Some(Unauthorized)
            else if ForbiddenClass in cs then Some(Forbidden)
            else if NotFoundClass in cs then Some(NotFound)
            else if AuthenticationTimeoutClass in cs then Some(AuthenticationTimeout)
            else None
  {
    var o := ClassOrder;
    assert o[1..][1..][1..][1..][1..] == [];
    assert FirstMatch(o[1..][1..][1..][1..], cs) == if AuthenticationTimeoutClass in cs then Some(AuthenticationTimeout) else None;
    assert FirstMatch(o[1..][1..][1..], cs)
        == if NotFoundClass in cs then Some(NotFound) else FirstMatch(o[1..][1..][1..][1..], cs);
    assert FirstMatch(o[1..][1..], cs)
        == if ForbiddenClass in cs then Some(Forbidden) else FirstMatch(o[1..][1..][1..], cs);
    assert FirstMatch(o[1..], cs)
        == if UnauthorizedClass in cs then Some(Unauthorized) else FirstMatch(o[1..][1..], cs);
  }

  /**
   * The `||` chain of the handler: a truthy statusCode, else the status of the first class in
   * ClassOrder the error is an instance of, else 500.
   */
  function StatusCode(e: HttpError): (status: int)
    ensures HasStatusCode(e) ==> status == e.statusCode.value
    ensures !HasStatusCode(e) ==> status == FirstMatch(ClassOrder, e.classes).GetOr(InternalServerError)
  {
    ClassOrderMatch(e.classes);
    if HasStatusCode(e) then e.statusCode.value
    else if ValidationClass in e.classes then BadRequest
    else if UnauthorizedClass in e.classes then Unauthorized
    else if ForbiddenClass in e.classes then Forbidden
    else if NotFoundClass in e.classes then NotFound
    else if AuthenticationTimeoutClass in e.classes then AuthenticationTimeout
    else InternalServerError
  }

  /** What the handler does: nothing for a falsy error, otherwise one response and maybe one log line. */
  function Handle(error: Option<HttpError>): (o: Option<Outcome>)
    ensures o.None? <==> error.None?
    ensures o.Some? ==> o.value == OutcomeFor(error.value, StatusCode(error.value))
  {
    match error
    case None => None
    case Some(e) => Some(OutcomeFor(e, StatusCode(e)))
  }

  method HandleError(error: Option<HttpError>, response: HttpResponse, log: ErrorLog)
    modifies response, log
    ensures error.None? ==> response.sent == old(response.sent) && log.errors == old(log.errors)
    ensures error.Some? ==>
              && response.sent == old(response.sent) + [Handle(error).value.sent]
              && log.errors == old(log.errors) + (if Handle(error).value.logged then [error.value] else [])
  {
    if error.Some? {
      var e := error.value;
      Perform(e, OutcomeFor(e, StatusCode(e)), response, log);
    }
  }

  /** Without a statusCode, an error that is an instance of none of the five classes is a 500. */
  lemma {:induction false} UnclassifiedIs500(e: HttpError)
    requires !HasStatusCode(e)
    requires forall i :: 0 <= i < |ClassOrder| ==> ClassOrder[i].0 !in e.classes
    ensures StatusCode(e) == InternalServerError
  {
    assert ClassOrder[0].0 == ValidationClass && ClassOrder[1].0 == UnauthorizedClass
        && ClassOrder[2].0 == ForbiddenClass && ClassOrder[3].0 == NotFoundClass
        && ClassOrder[4].0 == AuthenticationTimeoutClass;
  }

  /** An instance of several classes gets the status of the earliest: a subclass of Validation is a 400. */
  lemma ValidationWins(e: HttpError)
    requires !HasStatusCode(e) && ValidationClass in e.classes
    ensures StatusCode(e) == BadRequest
  {
  }

  /**
   * The two handlers agree on every error built by one of the classes this handler knows,
   * and on every error with a truthy statusCode.
   */
  lemma {:induction false} HandlersAgree(e: HttpError, c: ErrorClass)
    requires e == NewError(c, e.message) || HasStatusCode(e)
    requires c in {ValidationClass, UnauthorizedClass, ForbiddenClass, NotFoundClass, AuthenticationTimeoutClass, InternalServerErrorClass}
    ensures StatusCode(e) == ErrorHandler.StatusCode(e)
    ensures Handle(Some(e)) == ErrorHandler.Handle(Some(e))
  {
    if !HasStatusCode(e) {
      ErrorHandler.ClassErrorStatus(c, e.message);
    }
  }

  /** They disagree on a BadRequestError: the name-based handler answers 400, this one 500. */
  lemma BadRequestDisagreement(message: string)
    ensures ErrorHandler.StatusCode(NewError(BadRequestClass, message)) == BadRequest
    ensures StatusCode(NewError(BadRequestClass, message)) == InternalServerError
  {
  }
}
