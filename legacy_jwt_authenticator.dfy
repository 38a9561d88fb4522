// The older, permissive authenticator of src/communication/server/JWTAuthenticator.ts.
module LegacyJwtAuthenticator {
  import opened Wrappers
  import opened JsSemantics
  import opened Requests
  import opened JwtVerification
  import opened AuthenticationHeaderParser
  import JwtAuthenticator

  // getRoles is the same expression as in the fail-closed authenticator: JwtAuthenticator.GetRoles.

  class LegacyJwtAuthenticator {
    const publicKeyBase64: string
    const algorithm: string

    constructor(publicKeyBase64: string, algorithm: string)
      ensures this.publicKeyBase64 == publicKeyBase64 && this.algorithm == algorithm
    {
      this.publicKeyBase64 := publicKeyBase64;
      this.algorithm := algorithm;
    }

    /**
     * The middleware: without a (non-empty) Authorization header the user is left alone; a
     * verified token becomes the user, an empty one a falsy user; a failure is swallowed with a
     * warning. `next` runs once in every case. It returns whether it warned.
     */
    method Middleware(request: Request<JwtAuthenticator.UserToken>, verify: Verifier<JwtAuthenticator.UserToken>)
      returns (warned: bool)
      modifies request
      ensures HeaderToken(request.head).None? ==> request.user == old(request.user) && !warned
      ensures HeaderToken(request.head) == Some("") ==> request.user == FalsyToken && !warned
      ensures var t := HeaderToken(request.head);
              var options := OptionsFor(Base64Decoded(publicKeyBase64), algorithm);
              Truthy(t) && verify(t, options).Some? ==> request.user == User(verify(t, options).value) && !warned
      ensures var t := HeaderToken(request.head);
              var options := OptionsFor(Base64Decoded(publicKeyBase64), algorithm);
              Truthy(t) && verify(t, options).None? ==> request.user == old(request.user) && warned
    {
      warned := false;
      if AuthorizationHeader in request.head.headers && request.head.headers[AuthorizationHeader] != "" {
        var header := request.head.headers[AuthorizationHeader];
        var jwt := Substring(header, BearerLength, |header|);
        if jwt == "" {
          request.user := FalsyToken;
        } else {
          var payload := verify(Some(jwt), OptionsFor(Base64Decoded(publicKeyBase64), algorithm));
          if payload.Some? {
            request.user := User(payload.value);
          } else {
            warned := true;
          }
        }
      }
    }
  }
}
