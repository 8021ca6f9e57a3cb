/** The Express handlers as they run: each protected route calls `verifyToken`, which writes
    `req.user`, then (for product writes) `checkAdminRights`, then the handler body, which issues
    one statement against the database object. Each method is proved to do what its route in
    `Routes` decides, on the database's state before and after. */
module App {
  import opened Values
  import opened Crypto
  import opened Schema
  import opened Http
  import opened Store
  import opened Auth
  import Routes

  method Register(db: Database, req: Request, c: Crypto, env: Routes.Env) returns (reply: Reply)
    modifies db
    ensures Routes.Outcome(reply, db.State()) == Routes.Register(c, req.Data(), env, old(db.State()))
  {
    var username, password, role := Field(req.body, "username"), Field(req.body, "password"), Field(req.body, "role");
    if !Truthy(username) || !Truthy(password) || !Truthy(role) {
      return Sent(Routes.MissingRegisterFields);
    }
    if !password.Str? {
      // bcrypt.hashSync throws; Express's default error handler answers
      return Sent(UncaughtError);
    }
    var passwordHash := c.hash(password.s, env.salt);
    if env.fault {
      return Sent(InternalError);
    }
    db.InsertUser(UserRow(env.rowId, username, passwordHash, role, Column(Field(req.body, "firstName")),
                          Column(Field(req.body, "lastName")), Column(Field(req.body, "city"))));
    reply := Sent(Send(201, UserCreated(env.rowId, username, role)));
  }

  method Login(db: Database, req: Request, c: Crypto, env: Routes.Env) returns (reply: Reply)
    ensures Routes.Outcome(reply, db.State()) == Routes.Login(c, req.Data(), env, db.State())
  {
    var username, password := Field(req.body, "username"), Field(req.body, "password");
    if !Truthy(username) || !Truthy(password) {
      return Sent(Routes.MissingLoginFields);
    }
    // an engine error is only logged; the row is then undefined
    var row := if env.fault then None else FirstByUsername(db.users, username);
    if row.None? {
      return Crash;
    }
    var passwordHash := row.value.password;
    if !password.Str? {
      // bcrypt.compareSync throws inside the driver's callback
      return Crash;
    }
    if !c.compare(password.s, passwordHash) {
      return Sent(Send(401, StatusText("Unauthorized")));
    }
    var token := c.sign(Claims(username, row.value.role));
    reply := Sent(Response(200, StatusText("OK"), Some(token)));
  }

  method Protected(db: Database, req: Request, c: Crypto) returns (reply: Reply)
    modifies req
    ensures UserRecorded(req, old(req.user), c.verify)
    ensures Routes.Outcome(reply, db.State()) == Routes.Protected(c, req.Data(), db.State())
  {
    var step := VerifyToken(req, c.verify);
    if step.Halt? {
      return Sent(step.response);
    }
    reply := Sent(Send(200, ProtectedJson("Protected route", req.user.value)));
  }

  method ListProducts(db: Database, req: Request, c: Crypto, env: Routes.Env) returns (reply: Reply)
    modifies req
    ensures UserRecorded(req, old(req.user), c.verify)
    ensures Routes.Outcome(reply, db.State()) == Routes.ListProducts(c, req.Data(), env, db.State())
  {
    var step := VerifyToken(req, c.verify);
    if step.Halt? {
      return Sent(step.response);
    }
    if env.fault {
      return Sent(InternalError);
    }
    reply := Sent(Send(200, ProductList(ProductRows(db.products))));
  }

  method ShowProduct(db: Database, req: Request, c: Crypto, env: Routes.Env) returns (reply: Reply)
    modifies req
    ensures UserRecorded(req, old(req.user), c.verify)
    ensures Routes.Outcome(reply, db.State()) == Routes.ShowProduct(c, req.Data(), env, db.State())
  {
    var step := VerifyToken(req, c.verify);
    if step.Halt? {
      return Sent(step.response);
    }
    if env.fault {
      return Sent(InternalError);
    }
    var product := FindProduct(db.products, req.id);
    if product.Some? {
      reply := Sent(Send(200, ProductJson(product.value)));
    } else {
      reply := Sent(ProductNotFound);
    }
  }

  method CreateProduct(db: Database, req: Request, c: Crypto, env: Routes.Env) returns (reply: Reply)
    requires env.rowId !in db.products
    modifies db, req
    ensures UserRecorded(req, old(req.user), c.verify)
    ensures Routes.Outcome(reply, db.State()) == Routes.CreateProduct(c, req.Data(), env, old(db.State()))
  {
    var step := VerifyToken(req, c.verify);
    if step.Halt? {
      return Sent(step.response);
    }
    step := CheckAdminRights(req.user.value);
    if step.Halt? {
      return Sent(step.response);
    }
    var name, price := Field(req.body, "name"), Field(req.body, "price");
    if !Truthy(name) || !Truthy(price) {
      return Sent(Routes.MissingProductFields);
    }
    if env.fault {
      return Sent(InternalError);
    }
    db.InsertProduct(env.rowId, Product(name, price));
    reply := Sent(Send(201, ProductJson(ProductRow(env.rowId, name, price))));
  }

  method UpdateProduct(db: Database, req: Request, c: Crypto, env: Routes.Env) returns (reply: Reply)
    modifies db, req
    ensures UserRecorded(req, old(req.user), c.verify)
    ensures Routes.Outcome(reply, db.State()) == Routes.UpdateProduct(c, req.Data(), env, old(db.State()))
  {
    var step := VerifyToken(req, c.verify);
    if step.Halt? {
      return Sent(step.response);
    }
    step := CheckAdminRights(req.user.value);
    if step.Halt? {
      return Sent(step.response);
    }
    var name, price := Field(req.body, "name"), Field(req.body, "price");
    if !Truthy(name) || !Truthy(price) {
      return Sent(Routes.MissingProductFields);
    }
    if env.fault {
      return Sent(InternalError);
    }
    var changes := db.UpdateProduct(req.id, Product(name, price));
    if changes > 0 {
      reply := Sent(Send(200, ProductJson(ProductRow(req.id.value, name, price))));
    } else {
      reply := Sent(ProductNotFound);
    }
  }

  method RemoveProduct(db: Database, req: Request, c: Crypto, env: Routes.Env) returns (reply: Reply)
    modifies db, req
    ensures UserRecorded(req, old(req.user), c.verify)
    ensures Routes.Outcome(reply, db.State()) == Routes.RemoveProduct(c, req.Data(), env, old(db.State()))
  {
    var step := VerifyToken(req, c.verify);
    if step.Halt? {
      return Sent(step.response);
    }
    step := CheckAdminRights(req.user.value);
    if step.Halt? {
      return Sent(step.response);
    }
    if env.fault {
      return Sent(InternalError);
    }
    var changes := db.DeleteProduct(req.id);
    if changes > 0 {
      reply := Sent(Send(200, Message("Product deleted successfully")));
    } else {
      reply := Sent(ProductNotFound);
    }
  }

  method ListUsers(db: Database, env: Routes.Env) returns (reply: Reply)
    ensures Routes.Outcome(reply, db.State()) == Routes.ListUsers(env, db.State())
  {
    if env.fault {
      return Sent(InternalError);
    }
    reply := Sent(Send(200, UserList(Summaries(db.users))));
  }
}
