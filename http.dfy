/** Requests, request context and responses of the API. */
module Http {

  import opened Wrappers
  import opened JsValues
  import opened Store
  import opened Projection

  /** The three roles of the system. A stored or decoded role is a `JsValue`; the guards
      compare it with these names strictly (`===`). */
  datatype Role = User | Admin | Owner

  function RoleName(r: Role): string
  {
    match r
    case User => "user"
    case Admin => "admin"
    case Owner => "owner"
  }

  /** The role a value names, if it names one. */
  function RoleOf(v: JsValue): (r: Option<Role>)
    ensures r.Some? ==> v == Str(RoleName(r.value))
    ensures r.None? ==> forall q: Role :: v != Str(RoleName(q))
  {
    if v == Str("user") then Some(User)
    else if v == Str("admin") then Some(Admin)
    else if v == Str("owner") then Some(Owner)
    else None
  }

  /** The claims of a verified token: whatever `id` and `role` were signed. */
  datatype Claims = Claims(id: JsValue, role: JsValue)

  /** What the token middleware writes on the request: `req.userId`, `req.userRole`. */
  datatype Context = Context(userId: JsValue, userRole: JsValue)

  /** The context of a request no middleware has touched. */
  const Anonymous := Context(Undefined, Undefined)

  function ContextOf(c: Claims): Context
  {
    Context(c.id, c.role)
  }

  /** The body of a response, by kind. Error kinds stand for the fixed texts of the source;
      the success kinds carry the data answered. */
  datatype Msg =
    | NoTokenProvided                      // {auth: false, message: "No token provided"}
    | InvalidToken                         // {auth: false, message: "Invalid token"}
    | RequireRole(required: Role)          // {message: "Require <role> role"}
    | RequireOwnerOrAdmin                  // {message: "Require owner or admin role"}
    | InvalidBody(capitalised: bool)       // {error: "Invalid request body"} or "invalid request body"
    | AlreadyRegistered(username: JsValue) // {error: "<username> is already registered, ..."}
    | InvalidRole                          // {error: "invalid role, role must admin or user"}
    | NoRowsUpdated(table: Entity)         // {error: "No rows updated. <Entity> ID not found"}
    | NoRowsDeleted(table: Entity)         // {error: "No rows deleted. <Entity> ID not found"}
    | NotFound(table: Entity)              // {message: "<Entity> not found"}
    | NoAuthorityOverResource              // {message: "You don't have authority over that resource"}
    | NoAuthorityOverMethod                // {message: "You don't have authority over that method"}
    | OwnerSelfDelete                      // {message: "You are the owner, if you delete ..."}
    | InvalidPassword                      // {auth: false, token: null, error: "Invalid password"}
    | InvalidUsernameOrPassword            // {auth: false, token: null, error: "Invalid username or password"}
    | ProductIdNotFound                    // {error: "Product ID not found"}
    | CustomerIdNotFound                   // {error: "Customer ID not found"}
    | ErrorMessage(message: string)        // {error: err.message}
    | ErrorObject(err: StoreError)         // {error: err}
    | UncaughtException                    // the framework's default error page
    | RowsListed(rows: seq<Row>)           // {status: "200 OK", data: rows}
    | RowFound(row: Row)                   // {status: "200 OK", data: row}
    | Registered(name: JsValue, username: JsValue, email: JsValue, role: JsValue)
    | LoggedIn(token: string, profile: Row)
    | UserUpdated(id: JsValue, name: JsValue, username: JsValue, email: JsValue, role: JsValue, createdAt: JsValue)
    | Saved(table: Entity, id: JsValue, fields: seq<JsValue>, createdAt: JsValue)
    | Deleted(table: Entity)
    | TransactionsListed(views: seq<TransactionView>)
    | TransactionFound(view: TransactionView)
    | TransactionAdded(view: TransactionView)

  /** `res.status(status).json(...)`, or no answer at all when the handler dies in a callback
      after the framework has let go of the request. */
  datatype Response = Reply(status: int, msg: Msg) | NoReply

  /** A handler's decision: its response and the statements it sent to the store, in order. */
  datatype Outcome = Outcome(response: Response, issued: seq<Statement>)

  /** An answer that sends nothing to the store. */
  function Refuse(status: int, msg: Msg): Outcome
  {
    Outcome(Reply(status, msg), [])
  }

  predicate Succeeded(o: Outcome)
  {
    o.response.Reply? && 200 <= o.response.status < 300
  }
}
