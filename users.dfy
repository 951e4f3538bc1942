/** The user handlers (index.js:148-409): listing, lookups, registration, login, the
    self-update and the owner's update, and deletion. */
module Users {

  import opened Wrappers
  import opened JsValues
  import opened Store
  import opened Http
  import opened Results

  /** The fields a user body may carry; each handler reads only some of them. */
  datatype UserBody = UserBody(name: JsValue, username: JsValue, email: JsValue, password: JsValue, role: JsValue)

  /** bcrypt's hash of a string password (the library draws the salt), an oracle. The library
      refuses anything but a string: `hashSync` throws, `hash` rejects its promise. */
  type Hasher = string -> string

  /** bcrypt's comparison of a password with a stored hash, an oracle (`compareSync`). */
  type Comparer = (string, string) -> bool

  /** `jwt.sign({id, role}, secret, {expiresIn: 86400})`, an oracle. */
  type Signer = (JsValue, JsValue) -> string

  /** The seeded owner record: `id == 1` on the route parameter, with JavaScript's loose
      equality, so "01" and "1.0" name it too. */
  predicate IsOwnerRecord(id: string)
  {
    LooseEquals(Str(id), Num(1.0))
  }

  /** `role == "owner"` on the request context. */
  predicate ActsAsOwner(ctx: Context)
  {
    LooseEquals(ctx.userRole, Str("owner"))
  }

  /** `v == "owner"` holds for the string "owner" and nothing else. */
  lemma LooselyOwner(v: JsValue)
    ensures LooseEquals(v, Str("owner")) <==> v == Str("owner")
  {
    NonNumericWord("owner");
    LooseEqualsWord(v, "owner");
  }

  /** The loose comparison of the role with "owner" is exactly the owner role. */
  lemma ActsAsOwnerIffOwnerRole(ctx: Context)
    ensures ActsAsOwner(ctx) <==> RoleOf(ctx.userRole) == Some(Owner)
  {
    LooselyOwner(ctx.userRole);
  }

  /** `users.slice(1)`. */
  function WithoutFirst<T>(s: seq<T>): (r: seq<T>)
    ensures s == [] ==> r == []
    ensures s != [] ==> [s[0]] + r == s
  {
    if s == [] then [] else s[1..]
  }

  /** `getUsers`: every user row but the first, which the seed makes the owner's. */
  function GetUsers(all: FetchAll<Row>): (o: Outcome)
    ensures o.issued == [SelectAll(Users)]
    ensures o.response.Reply? && (o.response.status == 200 <==> all.All?)
    ensures all.All? ==> o.response.msg.RowsListed? && |o.response.msg.rows| == if all.rows == [] then 0 else |all.rows| - 1
    ensures all.All? && all.rows != [] ==> [all.rows[0]] + o.response.msg.rows == all.rows
    ensures all.AllFailed? ==> o.response == Reply(500, ErrorMessage(all.err.message))
  {
    match all
    case AllFailed(e) => Outcome(Reply(500, ErrorMessage(e.message)), [SelectAll(Users)])
    case All(users) => Outcome(Reply(200, RowsListed(WithoutFirst(users))), [SelectAll(Users)])
  }

  /** The listing hides the owner record when the store returns it first and ids are
      distinct. */
  lemma {:induction false} ListingHidesOwner(all: FetchAll<Row>)
    requires all.All? && all.rows != [] && Get(all.rows[0], "id") == Num(1.0)
    requires forall i, j :: 0 <= i < j < |all.rows| ==> Get(all.rows[i], "id") != Get(all.rows[j], "id")
    ensures forall row <- GetUsers(all).response.msg.rows :: Get(row, "id") != Num(1.0)
  {
    var listed := GetUsers(all).response.msg.rows;
    forall row <- listed ensures Get(row, "id") != Num(1.0) {
      var k :| 0 <= k < |listed| && listed[k] == row;
      assert all.rows[k + 1] == row;
    }
  }

  /** `getUserProfile`: the caller's own record, by the id the token carried. */
  function GetUserProfile(ctx: Context, fetch: Fetch<Row>): (o: Outcome)
    ensures o.issued == [SelectById(Users, ctx.userId)]
    ensures o.response == FetchReply(Users, fetch)
  {
    Outcome(FetchReply(Users, fetch), [SelectById(Users, ctx.userId)])
  }

  /** `getUser`: the owner record is refused to every other role with 403 before the store is
      asked; any other id is looked up. */
  function GetUser(id: string, ctx: Context, fetch: Fetch<Row>): (o: Outcome)
    ensures IsOwnerRecord(id) && !ActsAsOwner(ctx) ==> o == Refuse(403, NoAuthorityOverResource)
    ensures !(IsOwnerRecord(id) && !ActsAsOwner(ctx)) ==>
      o.issued == [SelectById(Users, Str(id))] && o.response == FetchReply(Users, fetch)
  {
    if IsOwnerRecord(id) && !ActsAsOwner(ctx) then Refuse(403, NoAuthorityOverResource)
    else Outcome(FetchReply(Users, fetch), [SelectById(Users, Str(id))])
  }

  /** Only the owner role ever receives the owner record. */
  lemma OwnerRecordOnlyForOwner(id: string, ctx: Context, fetch: Fetch<Row>)
    requires IsOwnerRecord(id)
    requires GetUser(id, ctx, fetch).response.Reply? && GetUser(id, ctx, fetch).response.status == 200
    ensures RoleOf(ctx.userRole) == Some(Owner)
  {
    ActsAsOwnerIffOwnerRole(ctx);
  }

  /** `createUser`: the password is hashed before the body is validated; registration
      always stores and echoes the role "user", whatever the body says. */
  function CreateUser(body: UserBody, hash: Hasher, insert: RunResult): (o: Outcome)
    ensures Truthy(body.password) && !body.password.Str? ==> o == Outcome(NoReply, [])
    ensures o.issued != [] <==>
      body.password.Str? && Truthy(body.password) && hash(body.password.s) != []
      && Truthy(body.name) && Truthy(body.username) && Truthy(body.email)
    ensures o.issued != [] ==>
      o.issued == [Insert(Users, [body.name, body.username, body.email, Str(hash(body.password.s)), Str("user")])]
    ensures !(Truthy(body.password) && !body.password.Str?) && o.issued == [] ==> o == Refuse(400, InvalidBody(true))
    ensures o.issued != [] ==>
      o.response == Otherwise(UserWriteRefusal(insert, body.username, false),
                              Reply(201, Registered(body.name, body.username, body.email, Str("user"))))
  {
    if Truthy(body.password) && !body.password.Str? then Outcome(NoReply, [])
    else
      var hashed := if Truthy(body.password) then Str(hash(body.password.s)) else Undefined;
      if !Truthy(body.name) || !Truthy(body.username) || !Truthy(body.email) || !Truthy(hashed) then
        Refuse(400, InvalidBody(true))
      else
        var success := Reply(201, Registered(body.name, body.username, body.email, Str("user")));
        Outcome(Otherwise(UserWriteRefusal(insert, body.username, false), success),
                [Insert(Users, [body.name, body.username, body.email, hashed, Str("user")])])
  }

  /** The role a registration body names is ignored. */
  lemma RegistrationIgnoresRole(body: UserBody, role: JsValue, hash: Hasher, insert: RunResult)
    ensures CreateUser(body.(role := role), hash, insert) == CreateUser(body, hash, insert)
  {
  }

  /** `loginUser`. The store is asked for the username before the body is checked; a store
      error wins over an invalid body. A missing user and a wrong password are both 401, with
      different texts. A comparison bcrypt refuses (a password that is not a string) throws
      inside the store callback and comes back as that callback's error: 500. */
  function LoginUser(body: UserBody, fetch: Fetch<Row>, compare: Comparer, sign: Signer): (o: Outcome)
    ensures o.issued == [SelectUserByUsername(body.username)]
    ensures o.response.Reply?
    ensures fetch.GetFailed? ==> o.response == Reply(500, ErrorMessage(fetch.err.message))
    ensures fetch.Got? && !(Truthy(body.username) && Truthy(body.password)) ==> o.response == Reply(400, InvalidBody(true))
    ensures o.response.status == 200 <==>
      fetch.Got? && fetch.row.Some? && Truthy(body.username) && body.password.Str? && Truthy(body.password)
      && Get(fetch.row.value, "password").Str?
      && compare(body.password.s, Get(fetch.row.value, "password").s)
    ensures o.response.status == 200 ==>
      o.response.msg == LoggedIn(sign(Get(fetch.row.value, "id"), Get(fetch.row.value, "role")), Profile(fetch.row.value))
    ensures o.response.status == 401 ==> o.response.msg in {InvalidPassword, InvalidUsernameOrPassword}
    ensures fetch == Got(None) && Truthy(body.username) && Truthy(body.password) ==>
      o.response == Reply(401, InvalidUsernameOrPassword)
    ensures fetch.Got? && fetch.row.Some? && Truthy(body.username) && Truthy(body.password) ==>
      var stored := Get(fetch.row.value, "password");
      if body.password.Str? && stored.Str? then
        !compare(body.password.s, stored.s) ==> o.response == Reply(401, InvalidPassword)
      else
        o.response == Reply(500, ErrorMessage("Illegal arguments: " + TypeOf(body.password) + ", " + TypeOf(stored)))
  {
    var issued := [SelectUserByUsername(body.username)];
    match fetch
    case GetFailed(e) => Outcome(Reply(500, ErrorMessage(e.message)), issued)
    case Got(found) =>
      if !Truthy(body.username) || !Truthy(body.password) then Outcome(Reply(400, InvalidBody(true)), issued)
      else match found
        case None => Outcome(Reply(401, InvalidUsernameOrPassword), issued)
        case Some(user) =>
          var stored := Get(user, "password");
          if !(body.password.Str? && stored.Str?) then
            Outcome(Reply(500, ErrorMessage("Illegal arguments: " + TypeOf(body.password) + ", " + TypeOf(stored))), issued)
          else if compare(body.password.s, stored.s) then
            Outcome(Reply(200, LoggedIn(sign(Get(user, "id"), Get(user, "role")), Profile(user))), issued)
          else Outcome(Reply(401, InvalidPassword), issued)
  }

  /** The profile answered on login: name, username, email, role and creation time. */
  function Profile(user: Row): (p: Row)
    ensures p.Keys == {"name", "username", "email", "role", "createdAt"}
    ensures forall k <- p.Keys :: p[k] == Get(user, k)
  {
    map["name" := Get(user, "name"), "username" := Get(user, "username"), "email" := Get(user, "email"),
        "role" := Get(user, "role"), "createdAt" := Get(user, "createdAt")]
  }

  /** The check both updates make after hashing: a hash came back and name, username and email
      are truthy. */
  predicate ValidUpdate(body: UserBody, hashSync: Hasher)
  {
    body.password.Str? && hashSync(body.password.s) != []
    && Truthy(body.name) && Truthy(body.username) && Truthy(body.email)
  }

  /** What both updates do with the record `id` and the role `role`: `hashSync` runs before
      validation, so a password that is not a string throws (500 from the framework); a body
      that fails the check is 400; otherwise the record is updated and the result classified.
      An accepted update reads the record back and answers 201 with its creation time; a
      read-back that finds nothing leaves the request unanswered. */
  function SaveUser(id: JsValue, role: JsValue, body: UserBody, hashSync: Hasher, put: RunResult, echo: Fetch<Row>): Outcome
  {
    if !body.password.Str? then Refuse(500, UncaughtException)
    else if !ValidUpdate(body, hashSync) then Refuse(400, InvalidBody(true))
    else
      var write := Update(Users, [body.name, body.username, body.email, Str(hashSync(body.password.s)), role], id);
      match UserWriteRefusal(put, body.username, true)
      case Some(res) => Outcome(res, [write])
      case None =>
        Outcome(ReadBackAnswer(echo, createdAt => UserUpdated(id, body.name, body.username, body.email, role, createdAt)),
                [write, SelectById(Users, id)])
  }

  /** `updateUser`: the row updated is the caller's own, by the token's id, and the role
      written is the token's role: a body cannot change either. */
  function UpdateUser(body: UserBody, ctx: Context, hashSync: Hasher, put: RunResult, echo: Fetch<Row>): (o: Outcome)
    ensures !body.password.Str? ==> o == Refuse(500, UncaughtException)
    ensures body.password.Str? && !ValidUpdate(body, hashSync) ==> o == Refuse(400, InvalidBody(true))
    ensures o.issued != [] <==> ValidUpdate(body, hashSync)
    ensures ValidUpdate(body, hashSync) ==>
      o.issued[0] == Update(Users, [body.name, body.username, body.email, Str(hashSync(body.password.s)), ctx.userRole], ctx.userId)
    ensures ValidUpdate(body, hashSync) && UserWriteRefusal(put, body.username, true).Some? ==>
      |o.issued| == 1 && o.response == UserWriteRefusal(put, body.username, true).value
    ensures ValidUpdate(body, hashSync) && UserWriteRefusal(put, body.username, true).None? ==>
      o.issued[1..] == [SelectById(Users, ctx.userId)]
    ensures Succeeded(o) <==>
      ValidUpdate(body, hashSync) && UserWriteRefusal(put, body.username, true).None? && echo.Got? && echo.row.Some?
    ensures Succeeded(o) ==>
      o.response == Reply(201, UserUpdated(ctx.userId, body.name, body.username, body.email, ctx.userRole,
                                           Get(echo.row.value, "createdAt")))
    ensures ValidUpdate(body, hashSync) && UserWriteRefusal(put, body.username, true).None? && !(echo.Got? && echo.row.Some?) ==>
      o.response == NoReply
  {
    SaveUser(ctx.userId, ctx.userRole, body, hashSync, put, echo)
  }

  /** A self-update cannot raise its own role or reach another record: what it does does not
      depend on the role the body names, and every statement it issues is the update of the
      token's id to the token's role or the read-back of that same record. */
  lemma SelfUpdateKeepsIdentity(body: UserBody, role: JsValue, ctx: Context, hashSync: Hasher, put: RunResult, echo: Fetch<Row>)
    ensures UpdateUser(body.(role := role), ctx, hashSync, put, echo) == UpdateUser(body, ctx, hashSync, put, echo)
    ensures forall st <- UpdateUser(body, ctx, hashSync, put, echo).issued ::
      st == SelectById(Users, ctx.userId) || (st.Update? && st.id == ctx.userId && st.values[4] == ctx.userRole)
  {
  }

  /** Unlike registration, the self-update accepts an empty password: `hashSync("")` is a
      hash, and only the hash is checked. */
  lemma UpdateAcceptsEmptyPassword(body: UserBody, ctx: Context, hashSync: Hasher, put: RunResult, echo: Fetch<Row>)
    requires body.password == Str("") && hashSync("") != []
    requires Truthy(body.name) && Truthy(body.username) && Truthy(body.email)
    ensures UpdateUser(body, ctx, hashSync, put, echo).issued != []
    ensures CreateUser(body, hashSync, put) == Refuse(400, InvalidBody(true))
  {
  }

  /** `ownerUpdateUser`: as the self-update, but the record is the route's id and the role is
      the body's, written as given (no check that it names a role). */
  function OwnerUpdateUser(id: string, body: UserBody, hashSync: Hasher, put: RunResult, echo: Fetch<Row>): (o: Outcome)
    ensures !body.password.Str? ==> o == Refuse(500, UncaughtException)
    ensures body.password.Str? && !ValidUpdate(body, hashSync) ==> o == Refuse(400, InvalidBody(true))
    ensures o.issued != [] <==> ValidUpdate(body, hashSync)
    ensures ValidUpdate(body, hashSync) ==>
      o.issued[0] == Update(Users, [body.name, body.username, body.email, Str(hashSync(body.password.s)), body.role], Str(id))
    ensures ValidUpdate(body, hashSync) && UserWriteRefusal(put, body.username, true).Some? ==>
      |o.issued| == 1 && o.response == UserWriteRefusal(put, body.username, true).value
    ensures ValidUpdate(body, hashSync) && UserWriteRefusal(put, body.username, true).None? ==>
      o.issued[1..] == [SelectById(Users, Str(id))]
    ensures Succeeded(o) <==>
      ValidUpdate(body, hashSync) && UserWriteRefusal(put, body.username, true).None? && echo.Got? && echo.row.Some?
    ensures Succeeded(o) ==>
      o.response == Reply(201, UserUpdated(Str(id), body.name, body.username, body.email, body.role,
                                           Get(echo.row.value, "createdAt")))
    ensures ValidUpdate(body, hashSync) && UserWriteRefusal(put, body.username, true).None? && !(echo.Got? && echo.row.Some?) ==>
      o.response == NoReply
  {
    SaveUser(Str(id), body.role, body, hashSync, put, echo)
  }

  /** `deleteUser`: the owner record is never deleted, whoever asks; both refusals are 400
      and neither reaches the store. Any other id is deleted and the result classified. */
  function DeleteUser(id: string, ctx: Context, del: RunResult): (o: Outcome)
    ensures IsOwnerRecord(id) ==> o.issued == [] && o.response.Reply? && o.response.status == 400
    ensures IsOwnerRecord(id) ==> o.response.msg == if ActsAsOwner(ctx) then OwnerSelfDelete else NoAuthorityOverMethod
    ensures !IsOwnerRecord(id) ==> o.issued == [Delete(Users, Str(id))]
    ensures !IsOwnerRecord(id) ==> o.response == Otherwise(ChangeRefusal(Users, del, true), Reply(200, Deleted(Users)))
  {
    if IsOwnerRecord(id) && !ActsAsOwner(ctx) then Refuse(400, NoAuthorityOverMethod)
    else if IsOwnerRecord(id) && ActsAsOwner(ctx) then Refuse(400, OwnerSelfDelete)
    else Outcome(Otherwise(ChangeRefusal(Users, del, true), Reply(200, Deleted(Users))), [Delete(Users, Str(id))])
  }

  /** A route id of plain digits names the owner record exactly when its value is one, so
      "1" and "01" do and "10" does not. */
  lemma OwnerRecordDigits(d: string)
    requires d != [] && AllDigits(d)
    ensures IsOwnerRecord(d) <==> DigitsValue(d) == 1
  {
    DigitStringToNumber(d);
    LooseEqualsParam(d, 1.0);
  }

  /** A route id `whole.fraction` names the owner record exactly when its value is one, so
      "1.0" and "1.00" do. */
  lemma OwnerRecordDecimal(whole: string, fraction: string)
    requires whole != [] && AllDigits(whole) && AllDigits(fraction)
    ensures IsOwnerRecord(whole + "." + fraction) <==> DecimalValue(whole, fraction) == 1.0
  {
    DecimalStringToNumber(whole, fraction);
    LooseEqualsParam(whole + "." + fraction, 1.0);
  }
}
