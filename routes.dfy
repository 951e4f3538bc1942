/** The route table (index.js:458-476, 629-640, 794-798, 1071-1073): each route with the
    guards it is mounted behind, an independent statement of the role policy, and the proof
    that the mounted guards enforce that policy. */
module Routes {

  import opened Wrappers
  import opened JsValues
  import opened Http
  import opened Guards

  datatype Method = Get | Post | Put | Delete

  datatype Route =
    | Register | Login
    | OwnerUpdateUser | ListUsers | DeleteUser | GetUser | GetProfile | UpdateProfile
    | ListProducts | GetProduct | CreateProduct | EditProduct | DeleteProduct
    | ListCustomers | GetCustomer | CreateCustomer | EditCustomer | DeleteCustomer
    | ListTransactions | GetTransaction | CreateTransaction

  function MethodOf(r: Route): Method
  {
    match r
    case Register | Login | CreateProduct | CreateCustomer | CreateTransaction => Post
    case OwnerUpdateUser | UpdateProfile | EditProduct | EditCustomer => Put
    case DeleteUser | DeleteProduct | DeleteCustomer => Delete
    case _ => Get
  }

  /** The path below the API prefix, segment by segment; ":id" is the route parameter. */
  function PathOf(r: Route): seq<string>
  {
    match r
    case Register => ["auth", "register"]
    case Login => ["auth", "login"]
    case OwnerUpdateUser => ["owner", "users", ":id"]
    case ListUsers => ["admin", "users"]
    case DeleteUser => ["admin", "users", ":id"]
    case GetUser => ["users", ":id"]
    case GetProfile | UpdateProfile => ["profile"]
    case ListProducts | CreateProduct => ["products"]
    case GetProduct | EditProduct | DeleteProduct => ["products", ":id"]
    case ListCustomers | CreateCustomer => ["customers"]
    case GetCustomer | EditCustomer | DeleteCustomer => ["customers", ":id"]
    case ListTransactions | CreateTransaction => ["transactions"]
    case GetTransaction => ["transactions", ":id"]
  }

  /** The guards each route is mounted behind, in mounting order. */
  function Chain(r: Route): seq<Guard>
  {
    match r
    case Register | Login => []
    case OwnerUpdateUser | CreateProduct | EditProduct | DeleteProduct => [TokenGuard, RoleGuard(Owner)]
    case GetUser | GetProfile | UpdateProfile | ListProducts | GetProduct => [TokenGuard]
    case _ => [TokenGuard, AdminOrOwnerGuard]
  }

  /** Who may use a route. */
  datatype Access = Public | AnyAuthenticated | OwnerOnly | AdminOrOwner

  /** The role policy, stated by method and path rather than route by route: registration and
      login are open; everything under "owner" and every change to the product catalogue is
      the owner's; user administration, customers and transactions are for admins and the
      owner; every other route needs only a valid token. */
  function Policy(m: Method, path: seq<string>): Access
  {
    var area := if path == [] then "" else path[0];
    if area == "auth" then Public
    else if area == "owner" || (area == "products" && m != Get) then OwnerOnly
    else if area == "admin" || area == "customers" || area == "transactions" then AdminOrOwner
    else AnyAuthenticated
  }

  function PolicyOf(r: Route): Access
  {
    Policy(MethodOf(r), PathOf(r))
  }

  /** Whether the policy lets a request carrying these verified claims through. */
  predicate Admits(a: Access, claims: Option<Claims>)
  {
    match a
    case Public => true
    case AnyAuthenticated => claims.Some?
    case OwnerOnly => claims.Some? && RoleOf(claims.value.role) == Some(Owner)
    case AdminOrOwner => claims.Some? && RoleOf(claims.value.role) in {Some(Admin), Some(Owner)}
  }

  /** The refusal a request the policy does not admit receives: 403 without a token, 401 for
      a token the verifier rejects, 403 naming the missing role otherwise. */
  function Refusal(a: Access, header: Option<string>, verify: Verifier): Response
  {
    if !HasHeader(header) then Reply(403, NoTokenProvided)
    else if Authenticate(header, verify).None? then Reply(401, InvalidToken)
    else if a == OwnerOnly then Reply(403, RequireRole(Owner))
    else Reply(403, RequireOwnerOrAdmin)
  }

  /** The policy, route by route. */
  lemma PolicyTable(r: Route)
    ensures PolicyOf(r) == match r
      case Register | Login => Public
      case OwnerUpdateUser | CreateProduct | EditProduct | DeleteProduct => OwnerOnly
      case GetUser | GetProfile | UpdateProfile | ListProducts | GetProduct => AnyAuthenticated
      case _ => AdminOrOwner
  {
  }

  /** A chain of guards lets a request through exactly when the access rule admits its claims,
      passes the claims on as the context (an untouched context when the rule is public), and
      otherwise answers with the rule's refusal. */
  predicate Enforces(gs: seq<Guard>, a: Access, header: Option<string>, verify: Verifier)
  {
    var s := RunChain(gs, header, verify, Anonymous);
    && (s.Next? <==> Admits(a, Authenticate(header, verify)))
    && (s.Next? ==> s.ctx == if a == Public then Anonymous else ContextOf(Authenticate(header, verify).value))
    && (s.Stop? ==> s.response == Refusal(a, header, verify))
  }

  /** The guards a route is mounted behind enforce the policy for that route's method and
      path: a request reaches the handler exactly when the policy admits its claims, then
      with the claims as its context (untouched on the public routes), and is otherwise
      refused with the policy's refusal. */
  lemma {:induction false} ChainEnforcesPolicy(r: Route, header: Option<string>, verify: Verifier)
    ensures RunChain(Chain(r), header, verify, Anonymous).Next?
        <==> Admits(PolicyOf(r), Authenticate(header, verify))
    ensures RunChain(Chain(r), header, verify, Anonymous).Next? ==>
        RunChain(Chain(r), header, verify, Anonymous).ctx ==
          if PolicyOf(r) == Public then Anonymous else ContextOf(Authenticate(header, verify).value)
    ensures RunChain(Chain(r), header, verify, Anonymous).Stop? ==>
        RunChain(Chain(r), header, verify, Anonymous).response == Refusal(PolicyOf(r), header, verify)
  {
    PolicyTable(r);
    match r
    case Register | Login =>
      assert Enforces([], Public, header, verify);
    case OwnerUpdateUser | CreateProduct | EditProduct | DeleteProduct =>
      TokenThenOwner(header, verify);
    case GetUser | GetProfile | UpdateProfile | ListProducts | GetProduct =>
      TokenOnly(header, verify);
    case _ =>
      TokenThenAdminOrOwner(header, verify);
  }

  lemma TokenOnly(header: Option<string>, verify: Verifier)
    ensures Enforces([TokenGuard], AnyAuthenticated, header, verify)
  {
    ChainOfOne(TokenGuard, header, verify, Anonymous);
  }

  lemma TokenThenOwner(header: Option<string>, verify: Verifier)
    ensures Enforces([TokenGuard, RoleGuard(Owner)], OwnerOnly, header, verify)
  {
    ChainOfTwo(TokenGuard, RoleGuard(Owner), header, verify, Anonymous);
  }

  lemma TokenThenAdminOrOwner(header: Option<string>, verify: Verifier)
    ensures Enforces([TokenGuard, AdminOrOwnerGuard], AdminOrOwner, header, verify)
  {
    ChainOfTwo(TokenGuard, AdminOrOwnerGuard, header, verify, Anonymous);
  }

  lemma ChainOfOne(g: Guard, header: Option<string>, verify: Verifier, ctx: Context)
    ensures RunChain([g], header, verify, ctx) == RunGuard(g, header, verify, ctx)
  {
    assert [g][1..] == [];
  }

  lemma ChainOfTwo(g: Guard, h: Guard, header: Option<string>, verify: Verifier, ctx: Context)
    ensures RunChain([g, h], header, verify, ctx) ==
      match RunGuard(g, header, verify, ctx)
      case Stop(res) => Stop(res)
      case Next(ctx') => RunGuard(h, header, verify, ctx')
  {
    assert [g, h][1..] == [h];
    match RunGuard(g, header, verify, ctx)
    case Stop(_) =>
    case Next(ctx') => ChainOfOne(h, header, verify, ctx');
  }

  /** Registration and login are the only routes a request reaches without a token. */
  lemma PublicRoutes(r: Route)
    ensures PolicyOf(r) == Public <==> r in {Register, Login}
    ensures r !in {Register, Login} ==> Chain(r)[0] == TokenGuard
  {
  }

  /** A handler, given the request context the guards leave. */
  type Handler = Context -> Outcome

  /** A request to a route: its guards, then, if they all pass, its handler. */
  function Serve(r: Route, header: Option<string>, verify: Verifier, handler: Handler): Outcome
  {
    match RunChain(Chain(r), header, verify, Anonymous)
    case Stop(res) => Outcome(res, [])
    case Next(ctx) => handler(ctx)
  }

  /** A request the policy does not admit never reaches the store, whatever its handler: it is
      answered by the guards alone. */
  lemma RefusedRequestsTouchNothing(r: Route, header: Option<string>, verify: Verifier, handler: Handler)
    requires !Admits(PolicyOf(r), Authenticate(header, verify))
    ensures Serve(r, header, verify, handler) == Outcome(Refusal(PolicyOf(r), header, verify), [])
  {
    ChainEnforcesPolicy(r, header, verify);
  }

  /** A token the server signed for a user, verified again, lets that user's id and role
      through to the handler as the request context, on every route the role admits. */
  lemma SignedTokenReachesHandler(r: Route, token: string, claims: Claims, verify: Verifier, handler: Handler)
    requires ' ' !in token && verify(Some(token)) == Some(claims)
    requires PolicyOf(r) != Public && Admits(PolicyOf(r), Some(claims))
    ensures Serve(r, Some("Bearer " + token), verify, handler) == handler(ContextOf(claims))
  {
    BearerTokenOf(token);
    assert Authenticate(Some("Bearer " + token), verify) == Some(claims);
    ChainEnforcesPolicy(r, Some("Bearer " + token), verify);
  }
}
