// The fail-closed authenticator of src/communication/server/authenticators/JWTAuthenticator.ts.
module JwtAuthenticator {
  import opened Wrappers
  import opened Requests
  import opened JwtVerification
  import opened HttpErrors
  import opened AuthenticationHeaderParser
  import ErrorHandler

  /** The payload: a `roles` list, which a decoded token may lack. */
  datatype UserToken = UserToken(roles: Option<seq<string>>)

  const FailedToVerify := "Failed to verify JWT"

  /** `new ForbiddenError('Failed to verify JWT')`. */
  function VerificationError(): (e: HttpError)
    ensures e.name == "ForbiddenError" && e.message == FailedToVerify
  {
    NewError(ForbiddenClass, FailedToVerify)
  }

  /** How a middleware run ends. */
  datatype Completion =
    | CalledNext
    | HandedToErrorHandler
      /** the promise rejected before verification: nothing sent, `next` not called */
    | Rejected

  /** getRoles: the user's roles when the payload has them, [] otherwise (also when no user is set). */
  function GetRoles(request: Request<UserToken>): (roles: seq<string>)
    reads request
    ensures request.user.User? && request.user.payload.roles.Some? ==> roles == request.user.payload.roles.value
    ensures !(request.user.User? && request.user.payload.roles.Some?) ==> roles == []
  {
    match request.user
    case User(u) => u.roles.GetOr([])
    case _ => []
  }

  class JwtAuthenticator {
    const publicKeyBase64: string
    const algorithm: string
    const cookie: Option<string>

    constructor(publicKeyBase64: string, algorithm: string, cookie: Option<string>)
      ensures this.publicKeyBase64 == publicKeyBase64 && this.algorithm == algorithm && this.cookie == cookie
    {
      this.publicKeyBase64 := publicKeyBase64;
      this.algorithm := algorithm;
      this.cookie := cookie;
    }

    /** The options of every verification: the decoded configured key and `[algorithm]`. */
    function Options(): (o: VerifyOptions)
      ensures o.publicKey == Base64Decoded(publicKeyBase64) && o.algorithms == [algorithm]
    {
      OptionsFor(Base64Decoded(publicKeyBase64), algorithm)
    }

    /**
     * The middleware: a verified token becomes `request.user` and `next` runs; any failure,
     * a missing token included, goes to the error handler as a 403 and `next` does not run.
     */
    method Middleware(request: Request<UserToken>, response: HttpResponse, log: ErrorLog, verify: Verifier<UserToken>)
      returns (c: Completion)
      requires RejectsMissing(verify)
      modifies request, response, log
      ensures var jwt := ParseJWTToken(request.head, cookie);
              jwt.Success? && jwt.value in {None, Some("")} ==>
                && c == HandedToErrorHandler && request.user == old(request.user)
                && response.sent == old(response.sent) + [Sent(Forbidden, ErrorBody(FailedToVerify, None))]
                && log.errors == old(log.errors)
      ensures var jwt := ParseJWTToken(request.head, cookie);
              jwt.Failure? ==>
                && c == Rejected && request.user == old(request.user)
                && response.sent == old(response.sent) && log.errors == old(log.errors)
      ensures var jwt := ParseJWTToken(request.head, cookie);
              jwt.Success? && verify(jwt.value, Options()).Some? ==>
                && c == CalledNext && request.user == User(verify(jwt.value, Options()).value)
                && response.sent == old(response.sent) && log.errors == old(log.errors)
      ensures var jwt := ParseJWTToken(request.head, cookie);
              jwt.Success? && verify(jwt.value, Options()).None? ==>
                && c == HandedToErrorHandler && request.user == old(request.user)
                && response.sent == old(response.sent) + [Sent(Forbidden, ErrorBody(FailedToVerify, None))]
                && log.errors == old(log.errors)
    {
      var jwt := ParseJWTToken(request.head, cookie);
      if jwt.Failure? {
        return Rejected;
      }
      var error: Option<HttpError> := None;
      var payload := verify(jwt.value, Options());
      if payload.Some? {
        request.user := User(payload.value);
      } else {
        error := Some(VerificationError());
      }
      if error.Some? {
        ErrorHandler.ClassErrorStatus(ForbiddenClass, FailedToVerify);
        ErrorHandler.HandleError(error, response, log);
        c := HandedToErrorHandler;
      } else {
        c := CalledNext;
      }
    }
  }
}
