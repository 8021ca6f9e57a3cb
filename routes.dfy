/** What each route answers and how it leaves the tables, as a function of the request, the
    oracles and the tables before it: the middleware list the route is mounted with, then the
    handler's guards, its one statement and the mapping of the statement's result to a status. */
module Routes {
  import opened Values
  import opened Crypto
  import opened Schema
  import opened Http
  import opened Store
  import opened Auth

  /** What the world decides during one request: whether the engine reports an error for the
      statement, the rowid it allocates for an insert, and the salt bcrypt draws. */
  datatype Env = Env(fault: bool, rowId: int, salt: Salt)

  /** The reply and the tables after the request. */
  datatype Outcome = Outcome(reply: Reply, after: Tables)

  function Respond(r: Response, t: Tables): Outcome {
    Outcome(Sent(r), t)
  }

  /** The caller's token verifies and carries the role "admin". */
  predicate AdminVerified(c: Crypto, authorization: Option<string>) {
    Verified(authorization, c.verify) && c.verify(authorization.value).value.role == Str(AdminRole)
  }

  predicate RegisterFieldsPresent(body: map<string, Json>) {
    Truthy(Field(body, "username")) && Truthy(Field(body, "password")) && Truthy(Field(body, "role"))
  }

  /** bcrypt accepts the password: it is a string. */
  predicate PasswordIsString(body: map<string, Json>) {
    Field(body, "password").Str?
  }

  predicate LoginFieldsPresent(body: map<string, Json>) {
    Truthy(Field(body, "username")) && Truthy(Field(body, "password"))
  }

  predicate ProductFieldsPresent(body: map<string, Json>) {
    Truthy(Field(body, "name")) && Truthy(Field(body, "price"))
  }

  const MissingRegisterFields := Send(400, Message("Username, password, and role are required"))
  const MissingLoginFields := Send(400, Message("Username and password are required"))
  const MissingProductFields := Send(400, Message("Name and price are required"))

  /** `verifyToken` followed by `checkAdminRights`, the chain in front of every product write. */
  function AdminGate(c: Crypto, authorization: Option<string>): (g: Gate)
    ensures g.Admit? <==> AdminVerified(c, authorization)
    ensures g.Deny? ==>
              g.response == (if !HasToken(authorization) then Unauthorized
                             else if !Verified(authorization, c.verify) then InvalidToken
                             else Forbidden)
  {
    match Authenticate(authorization, c.verify)
    case Deny(r) => Deny(r)
    case Admit(user) =>
      match CheckAdminRights(user)
      case Next => Admit(user)
      case Halt(r) => Deny(r)
  }

  /** The row `/register` writes. */
  function NewUser(c: Crypto, body: map<string, Json>, env: Env): UserRow
    requires PasswordIsString(body)
  {
    UserRow(env.rowId, Field(body, "username"), c.hash(Field(body, "password").s, env.salt),
            Field(body, "role"), Column(Field(body, "firstName")), Column(Field(body, "lastName")),
            Column(Field(body, "city")))
  }

  /** `POST /register`. `bcrypt.hashSync` runs before the insert and throws for a password that
      is not a string; the throw is synchronous, so Express's default error handler answers 500. */
  function Register(c: Crypto, call: Call, env: Env, t: Tables): (o: Outcome)
    ensures o.reply.Sent? && o.after.products == t.products
    ensures !RegisterFieldsPresent(call.body) ==> o == Respond(MissingRegisterFields, t)
    ensures RegisterFieldsPresent(call.body) && !PasswordIsString(call.body) ==> o == Respond(UncaughtError, t)
    ensures RegisterFieldsPresent(call.body) && PasswordIsString(call.body) && env.fault ==>
              o == Respond(InternalError, t)
    ensures o.after != t <==> RegisterFieldsPresent(call.body) && PasswordIsString(call.body) && !env.fault
    ensures o.after != t ==>
              && |o.after.users| == |t.users| + 1 && o.after.users[..|t.users|] == t.users
              && var row := o.after.users[|t.users|];
                 && row.id == env.rowId && row.username == Field(call.body, "username")
                 && row.role == Field(call.body, "role")
                 && row.password == c.hash(Field(call.body, "password").s, env.salt)
                 && row.firstName == Column(Field(call.body, "firstName"))
                 && row.lastName == Column(Field(call.body, "lastName"))
                 && row.city == Column(Field(call.body, "city"))
                 && o.reply.response == Send(201, UserCreated(row.id, row.username, row.role))
  {
    if !RegisterFieldsPresent(call.body) then Respond(MissingRegisterFields, t)
    else if !PasswordIsString(call.body) then Respond(UncaughtError, t)
    else if env.fault then Respond(InternalError, t)
    else
      var row := NewUser(c, call.body, env);
      Respond(Send(201, UserCreated(env.rowId, row.username, row.role)), t.(users := t.users + [row]))
  }

  /** The row `/login` checks the password against: the first one with the given username. */
  function StoredUser(t: Tables, body: map<string, Json>): Option<UserRow> {
    FirstByUsername(t.users, Field(body, "username"))
  }

  /** The password of a login request is a string that matches the stored row it finds. */
  predicate PasswordMatches(c: Crypto, t: Tables, body: map<string, Json>) {
    && StoredUser(t, body).Some? && PasswordIsString(body)
    && c.compare(Field(body, "password").s, StoredUser(t, body).value.password)
  }

  /** `POST /login`. When the lookup fails (an engine error, or no such username) `row` is
      undefined and reading `row.password` throws inside the driver's callback; when the row is
      found but the password is not a string, `bcrypt.compareSync` throws there instead. Either
      way nothing catches it and the process crashes without answering. */
  function Login(c: Crypto, call: Call, env: Env, t: Tables): (o: Outcome)
    ensures o.after == t
    ensures !LoginFieldsPresent(call.body) ==> o.reply == Sent(MissingLoginFields)
    ensures o.reply == Crash <==>
              LoginFieldsPresent(call.body)
              && (env.fault || StoredUser(t, call.body).None? || !PasswordIsString(call.body))
    ensures o.reply.Sent? && o.reply.response.status == 200 <==>
              LoginFieldsPresent(call.body) && !env.fault && PasswordMatches(c, t, call.body)
    ensures o.reply.Sent? && o.reply.response.status == 200 ==>
              var row := StoredUser(t, call.body).value;
              o.reply.response == Response(200, StatusText("OK"), Some(c.sign(Claims(row.username, row.role))))
    ensures o.reply.Sent? && o.reply.response.status != 200 ==> o.reply.response.authToken == None
    ensures (LoginFieldsPresent(call.body) && !env.fault && StoredUser(t, call.body).Some?
             && PasswordIsString(call.body) && !PasswordMatches(c, t, call.body)) ==>
              o.reply == Sent(Send(401, StatusText("Unauthorized")))
  {
    var username, password := Field(call.body, "username"), Field(call.body, "password");
    if !Truthy(username) || !Truthy(password) then Respond(MissingLoginFields, t)
    else if env.fault then Outcome(Crash, t)
    else match FirstByUsername(t.users, username)
      case None => Outcome(Crash, t)
      case Some(row) =>
        if !password.Str? then Outcome(Crash, t)
        else if !c.compare(password.s, row.password) then Respond(Send(401, StatusText("Unauthorized")), t)
        else Respond(Response(200, StatusText("OK"), Some(c.sign(Claims(username, row.role)))), t)
  }

  /** `GET /protected`. */
  function Protected(c: Crypto, call: Call, t: Tables): (o: Outcome)
    ensures o.after == t && o.reply.Sent?
    ensures o.reply.response.status == 200 <==> Verified(call.authorization, c.verify)
    ensures o.reply.response.status == 200 ==>
              o.reply.response.body == ProtectedJson("Protected route", c.verify(call.authorization.value).value)
    ensures o.reply.response.status != 200 ==> o.reply.response.status == 401
  {
    match Authenticate(call.authorization, c.verify)
    case Deny(r) => Respond(r, t)
    case Admit(user) => Respond(Send(200, ProtectedJson("Protected route", user)), t)
  }

  /** `GET /products`. */
  function ListProducts(c: Crypto, call: Call, env: Env, t: Tables): (o: Outcome)
    ensures o.after == t && o.reply.Sent?
    ensures !Verified(call.authorization, c.verify) ==> o.reply.response.status == 401
    ensures Verified(call.authorization, c.verify) && env.fault ==> o.reply.response == InternalError
    ensures o.reply.response.status == 200 <==> Verified(call.authorization, c.verify) && !env.fault
    ensures o.reply.response.status == 200 ==>
              o.reply.response.body.ProductList? && RowsOf(t.products, o.reply.response.body.rows)
  {
    match Authenticate(call.authorization, c.verify)
    case Deny(r) => Respond(r, t)
    case Admit(_) =>
      if env.fault then Respond(InternalError, t)
      else Respond(Send(200, ProductList(ProductRows(t.products))), t)
  }

  /** `GET /products/:id`. */
  function ShowProduct(c: Crypto, call: Call, env: Env, t: Tables): (o: Outcome)
    ensures o.after == t && o.reply.Sent?
    ensures !Verified(call.authorization, c.verify) ==> o.reply.response.status == 401
    ensures Verified(call.authorization, c.verify) && env.fault ==> o.reply.response == InternalError
    ensures o.reply.response.status == 200 <==>
              Verified(call.authorization, c.verify) && !env.fault && HasRow(t.products, call.id)
    ensures o.reply.response.status == 200 ==>
              var p := t.products[call.id.value];
              o.reply.response.body == ProductJson(ProductRow(call.id.value, p.name, p.price))
    ensures Verified(call.authorization, c.verify) && !env.fault && !HasRow(t.products, call.id) ==>
              o.reply.response == ProductNotFound
  {
    match Authenticate(call.authorization, c.verify)
    case Deny(r) => Respond(r, t)
    case Admit(_) =>
      if env.fault then Respond(InternalError, t)
      else match FindProduct(t.products, call.id)
        case Some(row) => Respond(Send(200, ProductJson(row)), t)
        case None => Respond(ProductNotFound, t)
  }

  /** `POST /products`. The rowid the engine allocates is not in use. */
  function CreateProduct(c: Crypto, call: Call, env: Env, t: Tables): (o: Outcome)
    requires env.rowId !in t.products
    ensures o.reply.Sent? && o.after.users == t.users
    ensures !AdminVerified(c, call.authorization) ==> o == Respond(AdminGate(c, call.authorization).response, t)
    ensures AdminVerified(c, call.authorization) && !ProductFieldsPresent(call.body) ==>
              o == Respond(MissingProductFields, t)
    ensures AdminVerified(c, call.authorization) && ProductFieldsPresent(call.body) && env.fault ==>
              o == Respond(InternalError, t)
    ensures o.after != t <==>
              AdminVerified(c, call.authorization) && ProductFieldsPresent(call.body) && !env.fault
    ensures o.after != t ==>
              var name, price := Field(call.body, "name"), Field(call.body, "price");
              && o.after.products == t.products[env.rowId := Product(name, price)]
              && o.reply.response == Send(201, ProductJson(ProductRow(env.rowId, name, price)))
    ensures o.after == t ==> o.reply.response.status != 201
  {
    match AdminGate(c, call.authorization)
    case Deny(r) => Respond(r, t)
    case Admit(_) =>
      var name, price := Field(call.body, "name"), Field(call.body, "price");
      if !Truthy(name) || !Truthy(price) then Respond(MissingProductFields, t)
      else if env.fault then Respond(InternalError, t)
      else
        Respond(Send(201, ProductJson(ProductRow(env.rowId, name, price))),
                t.(products := t.products[env.rowId := Product(name, price)]))
  }

  /** `PUT /products/:id`. */
  function UpdateProduct(c: Crypto, call: Call, env: Env, t: Tables): (o: Outcome)
    ensures o.reply.Sent? && o.after.users == t.users
    ensures !AdminVerified(c, call.authorization) ==> o == Respond(AdminGate(c, call.authorization).response, t)
    ensures AdminVerified(c, call.authorization) && !ProductFieldsPresent(call.body) ==>
              o == Respond(MissingProductFields, t)
    ensures AdminVerified(c, call.authorization) && ProductFieldsPresent(call.body) && env.fault ==>
              o == Respond(InternalError, t)
    ensures o.reply.response.status == 200 <==>
              AdminVerified(c, call.authorization) && ProductFieldsPresent(call.body) && !env.fault
              && HasRow(t.products, call.id)
    ensures o.reply.response.status == 200 ==>
              var name, price := Field(call.body, "name"), Field(call.body, "price");
              && o.after.products == t.products[call.id.value := Product(name, price)]
              && o.reply.response.body == ProductJson(ProductRow(call.id.value, name, price))
    ensures o.reply.response.status != 200 ==> o.after == t
    ensures (AdminVerified(c, call.authorization) && ProductFieldsPresent(call.body) && !env.fault
             && !HasRow(t.products, call.id)) ==> o == Respond(ProductNotFound, t)
  {
    match AdminGate(c, call.authorization)
    case Deny(r) => Respond(r, t)
    case Admit(_) =>
      var name, price := Field(call.body, "name"), Field(call.body, "price");
      if !Truthy(name) || !Truthy(price) then Respond(MissingProductFields, t)
      else if env.fault then Respond(InternalError, t)
      else if HasRow(t.products, call.id) then
        Respond(Send(200, ProductJson(ProductRow(call.id.value, name, price))),
                t.(products := t.products[call.id.value := Product(name, price)]))
      else Respond(ProductNotFound, t)
  }

  /** `DELETE /products/:id`. */
  function RemoveProduct(c: Crypto, call: Call, env: Env, t: Tables): (o: Outcome)
    ensures o.reply.Sent? && o.after.users == t.users
    ensures !AdminVerified(c, call.authorization) ==> o == Respond(AdminGate(c, call.authorization).response, t)
    ensures AdminVerified(c, call.authorization) && env.fault ==> o == Respond(InternalError, t)
    ensures o.after != t <==>
              AdminVerified(c, call.authorization) && !env.fault && HasRow(t.products, call.id)
    ensures o.reply.response.status == 200 <==> o.after != t
    ensures o.after != t ==>
              && o.after.products == t.products - {call.id.value}
              && o.reply.response.body == Message("Product deleted successfully")
    ensures AdminVerified(c, call.authorization) && !env.fault && !HasRow(t.products, call.id) ==>
              o == Respond(ProductNotFound, t)
  {
    match AdminGate(c, call.authorization)
    case Deny(r) => Respond(r, t)
    case Admit(_) =>
      if env.fault then Respond(InternalError, t)
      else if HasRow(t.products, call.id) then
        Respond(Send(200, Message("Product deleted successfully")),
                t.(products := t.products - {call.id.value}))
      else Respond(ProductNotFound, t)
  }

  /** `GET /users`: no authentication, and no `password` column in what it returns. */
  function ListUsers(env: Env, t: Tables): (o: Outcome)
    ensures o.after == t && o.reply.Sent?
    ensures env.fault ==> o.reply.response == InternalError
    ensures !env.fault ==>
              && o.reply.response.status == 200 && o.reply.response.body.UserList?
              && var rows := o.reply.response.body.users;
                 |rows| == |t.users| && forall i :: 0 <= i < |rows| ==> rows[i] == Summary(t.users[i])
  {
    if env.fault then Respond(InternalError, t)
    else Respond(Send(200, UserList(Summaries(t.users))), t)
  }

  /** The routing table: method and path. */
  datatype Endpoint =
    | PostRegister | PostLogin | GetProtected | GetProducts | GetProductById
    | PostProducts | PutProductById | DeleteProductById | GetUsers

  /** Runs the route an endpoint is bound to. */
  function Handle(e: Endpoint, c: Crypto, call: Call, env: Env, t: Tables): Outcome
    requires e == PostProducts ==> env.rowId !in t.products
  {
    match e
    case PostRegister => Register(c, call, env, t)
    case PostLogin => Login(c, call, env, t)
    case GetProtected => Protected(c, call, t)
    case GetProducts => ListProducts(c, call, env, t)
    case GetProductById => ShowProduct(c, call, env, t)
    case PostProducts => CreateProduct(c, call, env, t)
    case PutProductById => UpdateProduct(c, call, env, t)
    case DeleteProductById => RemoveProduct(c, call, env, t)
    case GetUsers => ListUsers(env, t)
  }
}
