// The single-tenant authenticator of src/communication/server/authenticators/JWTTenantAuthenticator.ts.
// Its error handler comes from src/communication/server/index, which is not part of this model;
// it is taken to be the handler of src/communication/server/ErrorHandler.ts.
module JwtTenantAuthenticator {
  import opened Wrappers
  import opened Requests
  import opened JwtVerification
  import opened HttpErrors
  import opened AuthenticationHeaderParser
  import ErrorHandler
  import JwtAuthenticator

  const AdminRole := "admin"

  /** The user's tenant; its `roles` may be missing. */
  datatype TenantRoles = TenantRoles(roles: Option<seq<string>>)

  /** The payload: an admin flag and an optional tenant. */
  datatype UserTenantToken = UserTenantToken(isAdmin: bool, tenant: Option<TenantRoles>)

  /** The tenant roles `user?.tenant?.roles` finds, if any. */
  function TenantRoleList(user: UserSlot<UserTenantToken>): Option<seq<string>> {
    if user.User? && user.payload.tenant.Some? then user.payload.tenant.value.roles else None
  }

  predicate IsAdmin(user: UserSlot<UserTenantToken>) {
    user.User? && user.payload.isAdmin
  }

  class JwtTenantAuthenticator {
    const publicKeyBase64: string
    const algorithm: string
    const cookie: Option<string>
    /** `this.publicKey`, unset until the first request. */
    var publicKey: Option<PublicKey>
    /** How many times the configured key has been decoded. */
    ghost var decodes: nat

    /** The cached key, once set, is the decoded configured key, and it was decoded exactly once. */
    ghost predicate Valid()
      reads this
    {
      && (publicKey.Some? ==> publicKey.value == Base64Decoded(publicKeyBase64))
      && decodes == (if publicKey.Some? then 1 else 0)
    }

    constructor(publicKeyBase64: string, algorithm: string, cookie: Option<string>)
      ensures Valid() && publicKey == None
      ensures this.publicKeyBase64 == publicKeyBase64 && this.algorithm == algorithm && this.cookie == cookie
    {
      this.publicKeyBase64 := publicKeyBase64;
      this.algorithm := algorithm;
      this.cookie := cookie;
      publicKey := None;
      decodes := 0;
    }

    /**
     * getRoles: a copy of the tenant's roles, if the tenant has a role list, followed by
     * "admin" exactly when the user is an admin. The token's own list is not touched.
     */
    method GetRoles(request: Request<UserTenantToken>) returns (roles: seq<string>)
      ensures roles == TenantRoleList(request.user).GetOr([]) + (if IsAdmin(request.user) then [AdminRole] else [])
    {
      var user := request.user;
      roles := [];
      if user.User? && user.payload.tenant.Some? && user.payload.tenant.value.roles.Some? {
        roles := roles + user.payload.tenant.value.roles.value;
      }
      if user.User? && user.payload.isAdmin {
        roles := roles + [AdminRole];
      }
    }

    /**
     * The middleware: as the fail-closed JwtAuthenticator, except that the key is decoded on
     * the first request that gets past token parsing and is reused from then on.
     */
    method Middleware(request: Request<UserTenantToken>, response: HttpResponse, log: ErrorLog,
                      verify: Verifier<UserTenantToken>)
      returns (c: JwtAuthenticator.Completion)
      requires Valid() && RejectsMissing(verify)
      modifies this, request, response, log
      ensures Valid()
      ensures var jwt := ParseJWTToken(request.head, cookie);
              jwt.Success? && jwt.value in {None, Some("")} ==>
                && c == JwtAuthenticator.HandedToErrorHandler && request.user == old(request.user)
                && response.sent == old(response.sent) + [Sent(Forbidden, ErrorBody(JwtAuthenticator.FailedToVerify, None))]
                && log.errors == old(log.errors)
      ensures var jwt := ParseJWTToken(request.head, cookie);
              jwt.Failure? ==>
                && c == JwtAuthenticator.Rejected && request.user == old(request.user)
                && publicKey == old(publicKey) && decodes == old(decodes)
                && response.sent == old(response.sent) && log.errors == old(log.errors)
      ensures var jwt := ParseJWTToken(request.head, cookie);
              jwt.Success? ==>
                && publicKey == Some(Base64Decoded(publicKeyBase64))
                && decodes == (if old(publicKey).None? then old(decodes) + 1 else old(decodes))
      ensures var jwt := ParseJWTToken(request.head, cookie);
              var options := OptionsFor(Base64Decoded(publicKeyBase64), algorithm);
              jwt.Success? && verify(jwt.value, options).Some? ==>
                && c == JwtAuthenticator.CalledNext && request.user == User(verify(jwt.value, options).value)
                && response.sent == old(response.sent) && log.errors == old(log.errors)
      ensures var jwt := ParseJWTToken(request.head, cookie);
              var options := OptionsFor(Base64Decoded(publicKeyBase64), algorithm);
              jwt.Success? && verify(jwt.value, options).None? ==>
                && c == JwtAuthenticator.HandedToErrorHandler && request.user == old(request.user)
                && response.sent == old(response.sent) + [Sent(Forbidden, ErrorBody(JwtAuthenticator.FailedToVerify, None))]
                && log.errors == old(log.errors)
    {
      var jwt := ParseJWTToken(request.head, cookie);
      if jwt.Failure? {
        return JwtAuthenticator.Rejected;
      }
      if publicKey.None? {
        publicKey := Some(Base64Decoded(publicKeyBase64));
        decodes := decodes + 1;
      }
      var error: Option<HttpError> := None;
      var payload := verify(jwt.value, OptionsFor(publicKey.value, algorithm));
      if payload.Some? {
        request.user := User(payload.value);
      } else {
        error := Some(JwtAuthenticator.VerificationError());
      }
      if error.Some? {
        ErrorHandler.ClassErrorStatus(ForbiddenClass, JwtAuthenticator.FailedToVerify);
        ErrorHandler.HandleError(error, response, log);
        c := JwtAuthenticator.HandedToErrorHandler;
      } else {
        c := JwtAuthenticator.CalledNext;
      }
    }
  }

  /** An admin with no tenant roles still gets "admin"; a request with no user gets []. */
  lemma {:induction false} AdminWithoutTenantRoles(user: UserSlot<UserTenantToken>)
    ensures user == User(UserTenantToken(true, None))
            ==> TenantRoleList(user).GetOr([]) + (if IsAdmin(user) then [AdminRole] else []) == [AdminRole]
    ensures user == NoUser ==> TenantRoleList(user).GetOr([]) + (if IsAdmin(user) then [AdminRole] else []) == []
  {
    if user == User(UserTenantToken(true, None)) {
      assert TenantRoleList(user) == None;
      assert [] + [AdminRole] == [AdminRole];
    }
  }
}
