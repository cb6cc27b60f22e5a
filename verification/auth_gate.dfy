/** The `authMid` middleware of `middleware/auth.js` and the way a protected
    route puts it in front of its handler. `jwt.verify` with the configured
    secret is the parameter `verify`: `None` where it throws. */
module AuthGate {
  import opened Wrappers
  import opened Model

  /** The only header the middleware reads (Node lower-cases header names). */
  const TokenHeader := "x-auth-token"

  const NoTokenResponse := Response(401, MsgBody("No token, authorization denied"))
  const BadTokenResponse := Response(401, MsgBody("Token is not valid"))

  /** What one run of the middleware does: the response it sends, how often
      it calls `next`, and the `req.user` it leaves for the handler. */
  datatype GateRun = GateRun(sent: Option<Response>, nextCalls: nat, reqUser: Option<UserRef>)

  /** `req.header('x-auth-token')`. */
  function TokenOf(headers: map<string, string>): Option<string> {
    if TokenHeader in headers then Some(headers[TokenHeader]) else None
  }

  /** `authMid(req, res, next)`. */
  function AuthMid(headers: map<string, string>, verify: string -> Option<Claims>): (g: GateRun)
    ensures (g.sent.Some? && g.nextCalls == 0) || (g.sent.None? && g.nextCalls == 1)
    ensures !Truthy(TokenOf(headers)) ==> g.sent == Some(NoTokenResponse) && g.reqUser.None?
    ensures Truthy(TokenOf(headers)) && verify(headers[TokenHeader]).None? ==>
      g.sent == Some(BadTokenResponse) && g.reqUser.None?
    ensures g.nextCalls == 1 <==> Truthy(TokenOf(headers)) && verify(headers[TokenHeader]).Some?
    ensures g.nextCalls == 1 ==> g.reqUser == Some(verify(headers[TokenHeader]).value.user)
  {
    var token := TokenOf(headers);
    if !Truthy(token) then GateRun(Some(NoTokenResponse), 0, None)
    else match verify(token.value)
      case None => GateRun(Some(BadTokenResponse), 0, None)
      case Some(decoded) => GateRun(None, 1, Some(decoded.user))
  }

  /** Two requests that agree on the `x-auth-token` header get the same
      treatment, whatever their other headers. */
  lemma AuthMidReadsOnlyTokenHeader(h1: map<string, string>, h2: map<string, string>, verify: string -> Option<Claims>)
    requires TokenOf(h1) == TokenOf(h2)
    ensures AuthMid(h1, verify) == AuthMid(h2, verify)
  {
  }

  /** A protected route: the middleware, then on `next` the handler with the
      id from `req.user`. A rejected request never reaches the handler and
      leaves the store as it was. */
  function Protect(headers: map<string, string>, verify: string -> Option<Claims>, s: Store,
                   handler: (Id, Store) -> Reply): (r: Reply)
    ensures AuthMid(headers, verify).sent.Some? ==>
      r == Reply(AuthMid(headers, verify).sent.value, s) && r.response.status == 401
    ensures AuthMid(headers, verify).nextCalls == 1 ==>
      r == handler(AuthMid(headers, verify).reqUser.value.id, s)
  {
    var g := AuthMid(headers, verify);
    if g.sent.Some? then Reply(g.sent.value, s)
    else handler(g.reqUser.value.id, s)
  }
}
