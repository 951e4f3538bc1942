/** The access-control middleware (index.js:411-453): `verifyToken`, `verifyRole(role)` and
    `verifyRoles`, and how a chain of them runs in front of a handler. */
module Guards {

  import opened Wrappers
  import opened JsValues
  import opened Strings
  import opened Http

  /** The token verifier (`jwt.verify` with the configured secret), an oracle: given the token
      taken from the header (`undefined` when there is none), the decoded claims, or `None`
      when verification fails for any reason. */
  type Verifier = Option<string> -> Option<Claims>

  /** `!authHeader` is false: the header is present and not empty. */
  predicate HasHeader(header: Option<string>)
  {
    header.Some? && header.value != []
  }

  /** `authHeader.split(" ")[1]`: the second space-separated field, `undefined` when the
      header holds no space. */
  function BearerToken(header: string): (token: Option<string>)
    ensures token.None? <==> ' ' !in header
  {
    var parts := Split(header, ' ');
    if ' ' in header then
      Some(parts[1])
    else
      SplitField(header, ' ');
      None
  }

  /** A well-formed header hands the verifier exactly the token it carries. */
  lemma BearerTokenOf(token: string)
    requires ' ' !in token
    ensures BearerToken("Bearer " + token) == Some(token)
  {
    assert "Bearer " + token == Join(["Bearer", token], ' ');
    SplitJoin(["Bearer", token], ' ');
  }

  /** The claims a request carries, if its header holds a token the verifier accepts. */
  function Authenticate(header: Option<string>, verify: Verifier): Option<Claims>
  {
    if HasHeader(header) then verify(BearerToken(header.value)) else None
  }

  /** One guard's decision: pass the (possibly updated) context on, or answer. */
  datatype Step = Next(ctx: Context) | Stop(response: Response)

  /** `verifyToken`: no header is refused with 403 without consulting the verifier; a token the
      verifier rejects with 401; otherwise the claims become the request context. */
  function VerifyToken(header: Option<string>, verify: Verifier): (s: Step)
    ensures !HasHeader(header) ==> s == Stop(Reply(403, NoTokenProvided))
    ensures HasHeader(header) && Authenticate(header, verify).None? ==> s == Stop(Reply(401, InvalidToken))
    ensures s.Next? <==> Authenticate(header, verify).Some?
    ensures s.Next? ==> s.ctx == ContextOf(Authenticate(header, verify).value)
  {
    if !HasHeader(header) then Stop(Reply(403, NoTokenProvided))
    else match verify(BearerToken(header.value))
      case None => Stop(Reply(401, InvalidToken))
      case Some(claims) => Next(ContextOf(claims))
  }

  /** `verifyRole(required)`: passes, unchanged, exactly the contexts whose role is
      `required`; refuses every other one, an unset role included, with 403. */
  function VerifyRole(required: Role, ctx: Context): (s: Step)
    ensures s.Next? <==> RoleOf(ctx.userRole) == Some(required)
    ensures s.Next? ==> s.ctx == ctx
    ensures s.Stop? ==> s.response == Reply(403, RequireRole(required))
  {
    if ctx.userRole != Str(RoleName(required)) then Stop(Reply(403, RequireRole(required)))
    else Next(ctx)
  }

  /** `verifyRoles`: passes, unchanged, exactly the admin and owner contexts. */
  function VerifyRoles(ctx: Context): (s: Step)
    ensures s.Next? <==> RoleOf(ctx.userRole) in {Some(Admin), Some(Owner)}
    ensures s.Next? ==> s.ctx == ctx
    ensures s.Stop? ==> s.response == Reply(403, RequireOwnerOrAdmin)
  {
    if ctx.userRole == Str("admin") || ctx.userRole == Str("owner") then Next(ctx)
    else Stop(Reply(403, RequireOwnerOrAdmin))
  }

  /** A middleware mounted in front of a handler. */
  datatype Guard = TokenGuard | RoleGuard(required: Role) | AdminOrOwnerGuard

  function RunGuard(g: Guard, header: Option<string>, verify: Verifier, ctx: Context): Step
  {
    match g
    case TokenGuard => VerifyToken(header, verify)
    case RoleGuard(r) => VerifyRole(r, ctx)
    case AdminOrOwnerGuard => VerifyRoles(ctx)
  }

  /** Runs the guards in mounting order; the first that answers ends the request. */
  function RunChain(gs: seq<Guard>, header: Option<string>, verify: Verifier, ctx: Context): Step
  {
    if gs == [] then Next(ctx)
    else match RunGuard(gs[0], header, verify, ctx)
      case Stop(res) => Stop(res)
      case Next(ctx') => RunChain(gs[1..], header, verify, ctx')
  }
}
