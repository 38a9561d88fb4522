// The multi-tenant authenticator of src/communication/server/authenticators/JWTMultiTenantAuthenticator.ts.
module JwtMultiTenantAuthenticator {
  import opened Wrappers
  import opened JsSemantics
  import opened Requests
  import opened JwtVerification
  import opened AuthenticationHeaderParser

  const TenantHeader := "X-Api-Tenant"
  const AdminRole := "admin"

  /** A JavaScript string[]: getRoles hands out and pushes into the token's own arrays. */
  class RoleArray {
    var items: seq<string>

    constructor(items: seq<string>)
      ensures this.items == items
    {
      this.items := items;
    }

    method Push(role: string)
      modifies this
      ensures items == old(items) + [role]
    {
      items := items + [role];
    }
  }

  /** One tenant of the payload: an admin flag and its role array. */
  class TenantToken {
    const isAdmin: bool
    const roles: RoleArray

    constructor(isAdmin: bool, roles: RoleArray)
      ensures this.isAdmin == isAdmin && this.roles == roles
    {
      this.isAdmin := isAdmin;
      this.roles := roles;
    }
  }

  /** The payload: the user's tenants by id, which a decoded token may lack. */
  datatype UserTenantsToken = UserTenantsToken(tenants: Option<map<string, TenantToken>>)

  /** `user?.tenants`. */
  function Tenants(user: UserSlot<UserTenantsToken>): Option<map<string, TenantToken>> {
    if user.User? then user.payload.tenants else None
  }

  /** `user?.tenants?.[request.get('X-Api-Tenant')]`: a missing header looks up the key "undefined". */
  function HeaderTenant(request: Request<UserTenantsToken>): (t: Option<TenantToken>)
    reads request
    ensures t.Some? <==> Tenants(request.user).Some?
                         && PropertyKey(Header(request.head, TenantHeader)) in Tenants(request.user).value
    ensures t.Some? ==> t.value == Tenants(request.user).value[PropertyKey(Header(request.head, TenantHeader))]
  {
    var tenants := Tenants(request.user);
    var key := PropertyKey(Header(request.head, TenantHeader));
    if tenants.Some? && key in tenants.value then Some(tenants.value[key]) else None
  }

  /** A map with one key has that key only. */
  lemma SoleKey<K, V>(m: map<K, V>, k: K)
    requires |m| == 1 && k in m
    ensures m.Keys == {k}
  {
    var rest := m.Keys - {k};
    assert m.Keys == rest + {k};
    assert |rest| == 0;
    assert rest == {};
  }

  /**
   * The tenant whose roles getRoles returns: the one the header names, else the only tenant
   * when there is exactly one, else none.
   */
  ghost function SelectTenant(request: Request<UserTenantsToken>): (t: Option<TenantToken>)
    reads request
    ensures HeaderTenant(request).Some? ==> t == HeaderTenant(request)
    ensures HeaderTenant(request).None? && Tenants(request.user).Some? && |Tenants(request.user).value| == 1 ==>
              t.Some? && Tenants(request.user).value.Values == {t.value}
    ensures HeaderTenant(request).None? && !(Tenants(request.user).Some? && |Tenants(request.user).value| == 1) ==>
              t.None?
  {
    var tenants := Tenants(request.user);
    if HeaderTenant(request).Some? then HeaderTenant(request)
    else if tenants.Some? && |tenants.value| == 1 then
      var k :| k in tenants.value;
      SoleKey(tenants.value, k);
      Some(tenants.value[k])
    else None
  }

  /** The role array getRoles may push into. */
  ghost function SelectedRoles(request: Request<UserTenantsToken>): set<RoleArray>
    reads request
  {
    var t := SelectTenant(request);
    if t.Some? then {t.value.roles} else {}
  }

  class JwtMultiTenantAuthenticator {
    const publicKeyBase64: string
    const algorithm: string

    constructor(publicKeyBase64: string, algorithm: string)
      ensures this.publicKeyBase64 == publicKeyBase64 && this.algorithm == algorithm
    {
      this.publicKeyBase64 := publicKeyBase64;
      this.algorithm := algorithm;
    }

    /**
     * getRoles: the selected tenant's own role array, into which "admin" has been pushed when
     * that tenant is an admin (so every call grows it again), or a new empty array.
     */
    method GetRoles(request: Request<UserTenantsToken>) returns (roles: RoleArray)
      modifies SelectedRoles(request)
      ensures var t := SelectTenant(request);
              t.Some? ==> roles == t.value.roles
                          && roles.items == old(t.value.roles.items) + (if t.value.isAdmin then [AdminRole] else [])
      ensures SelectTenant(request).None? ==> fresh(roles) && roles.items == []
    {
      var headerTenant := HeaderTenant(request);
      var tenants := Tenants(request.user);
      if headerTenant.Some? {
        roles := headerTenant.value.roles;
        if headerTenant.value.isAdmin {
          roles.Push(AdminRole);
        }
      } else if tenants.Some? && |tenants.value| == 1 {
        var k :| k in tenants.value;
        SoleKey(tenants.value, k);
        var singleTenant := tenants.value[k];
        assert SelectTenant(request) == Some(singleTenant);
        roles := singleTenant.roles;
        if singleTenant.isAdmin {
          roles.Push(AdminRole);
        }
      } else {
        roles := new RoleArray([]);
      }
    }

    /**
     * getRoles as it is evidently meant, and as the single-tenant authenticator does it: a copy
     * of the selected tenant's roles plus "admin" for an admin tenant; the token is not touched.
     */
    method RolesOf(request: Request<UserTenantsToken>) returns (roles: seq<string>)
      ensures var t := SelectTenant(request);
              t.Some? ==> roles == t.value.roles.items + (if t.value.isAdmin then [AdminRole] else [])
      ensures SelectTenant(request).None? ==> roles == []
    {
      var headerTenant := HeaderTenant(request);
      var tenants := Tenants(request.user);
      roles := [];
      if headerTenant.Some? {
        roles := headerTenant.value.roles.items + (if headerTenant.value.isAdmin then [AdminRole] else []);
      } else if tenants.Some? && |tenants.value| == 1 {
        var k :| k in tenants.value;
        SoleKey(tenants.value, k);
        var singleTenant := tenants.value[k];
        assert SelectTenant(request) == Some(singleTenant);
        roles := singleTenant.roles.items + (if singleTenant.isAdmin then [AdminRole] else []);
      }
    }

    /**
     * Asking twice for the roles of an admin tenant's request: the second answer holds "admin"
     * twice, and the token keeps both.
     */
    method GetRolesTwice(request: Request<UserTenantsToken>) returns (first: seq<string>, second: seq<string>)
      requires SelectTenant(request).Some? && SelectTenant(request).value.isAdmin
      modifies SelectedRoles(request)
      ensures var t := SelectTenant(request).value;
              && first == old(t.roles.items) + [AdminRole]
              && second == old(t.roles.items) + [AdminRole, AdminRole]
              && t.roles.items == second
    {
      ghost var t := SelectTenant(request).value;
      var roles := GetRoles(request);
      first := roles.items;
      roles := GetRoles(request);
      second := roles.items;
    }

    /**
     * The permissive middleware: only a non-empty Authorization header, minus its first seven
     * characters, is verified; an empty token is stored as a falsy user, a failure only warns,
     * and `next` always runs once. It returns whether it warned.
     */
    method Middleware(request: Request<UserTenantsToken>, verify: Verifier<UserTenantsToken>) returns (warned: bool)
      modifies request
      ensures var t := HeaderToken(request.head);
              t.None? ==> request.user == old(request.user) && !warned
      ensures HeaderToken(request.head) == Some("") ==> request.user == FalsyToken && !warned
      ensures var t := HeaderToken(request.head);
              var options := OptionsFor(Base64Decoded(publicKeyBase64), algorithm);
              Truthy(t) && verify(t, options).Some? ==> request.user == User(verify(t, options).value) && !warned
      ensures var t := HeaderToken(request.head);
              var options := OptionsFor(Base64Decoded(publicKeyBase64), algorithm);
              Truthy(t) && verify(t, options).None? ==> request.user == old(request.user) && warned
    {
      warned := false;
      if AuthorizationHeader in request.head.headers && request.head.headers[AuthorizationHeader] != "" {
        var header := request.head.headers[AuthorizationHeader];
        var jwt := Substring(header, BearerLength, |header|);
        if jwt == "" {
          request.user := FalsyToken;
        } else {
          var payload := verify(Some(jwt), OptionsFor(Base64Decoded(publicKeyBase64), algorithm));
          if payload.Some? {
            request.user := User(payload.value);
          } else {
            warned := true;
          }
        }
      }
    }
  }
}
