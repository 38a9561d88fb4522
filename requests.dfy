/**
 * The Express request as the authenticators see it: its URL, its headers (stored under
 * lower-case names, as Node does), its parsed cookies (absent when no cookie parser ran) and
 * the `user` slot the authenticators fill in.
 */
module Requests {
  import opened Wrappers
  import opened JsSemantics

  datatype RequestHead = RequestHead(url: string, headers: map<string, string>, cookies: Option<map<string, string>>)

  const AuthorizationHeader := "authorization"

  /** `request.get(name)`: header names match without regard to case. */
  function Header(h: RequestHead, name: string): (v: Option<string>)
    ensures v.Some? <==> ToLowerCase(name) in h.headers
    ensures v.Some? ==> v.value == h.headers[ToLowerCase(name)]
  {
    var key := ToLowerCase(name);
    if key in h.headers then Some(h.headers[key]) else None
  }

  /**
   * The value of `request.user`: never assigned, assigned a falsy token (the empty string that
   * `jwt && verify(...)` yields for an empty jwt), or assigned a verified payload.
   */
  datatype UserSlot<U> = NoUser | FalsyToken | User(payload: U)

  class Request<U> {
    const head: RequestHead
    var user: UserSlot<U>

    constructor(head: RequestHead)
      ensures this.head == head && user == NoUser
    {
      this.head := head;
      user := NoUser;
    }
  }
}
