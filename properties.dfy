/** Properties that relate several requests, or every route at once. */
module Properties {
  import opened Values
  import opened Crypto
  import opened Schema
  import opened Http
  import opened Store
  import opened Auth
  import opened Routes

  predicate WritesProducts(e: Endpoint) {
    e == PostProducts || e == PutProductById || e == DeleteProductById
  }

  predicate Public(e: Endpoint) {
    e == PostRegister || e == PostLogin || e == GetUsers
  }

  /** The safety property of the whole server: the products table changes only through one of the
      three write routes, for a caller whose token verified with the role "admin", and, for
      insert and update, with a truthy name and price. */
  lemma OnlyAdminsWriteProducts(e: Endpoint, c: Crypto, call: Call, env: Env, t: Tables)
    requires e == PostProducts ==> env.rowId !in t.products
    ensures Handle(e, c, call, env, t).after.products != t.products ==>
              && WritesProducts(e)
              && AdminVerified(c, call.authorization)
              && (e != DeleteProductById ==> ProductFieldsPresent(call.body))
  {
  }

  /** Only a registration with username, password and role, the password a string, writes the
      users table. */
  lemma OnlyRegisterWritesUsers(e: Endpoint, c: Crypto, call: Call, env: Env, t: Tables)
    requires e == PostProducts ==> env.rowId !in t.products
    ensures Handle(e, c, call, env, t).after.users != t.users ==>
              e == PostRegister && RegisterFieldsPresent(call.body) && PasswordIsString(call.body) && !env.fault
  {
  }

  /** On every route mounted behind `verifyToken`, a missing or empty header is answered 401
      "Unauthorized" and a token the verifier rejects 401 "Invalid token", before anything else
      runs and with the tables untouched. */
  lemma TokenCheckedFirst(e: Endpoint, c: Crypto, call: Call, env: Env, t: Tables)
    requires !Public(e)
    requires e == PostProducts ==> env.rowId !in t.products
    ensures !HasToken(call.authorization) ==> Handle(e, c, call, env, t) == Respond(Unauthorized, t)
    ensures HasToken(call.authorization) && !Verified(call.authorization, c.verify) ==>
              Handle(e, c, call, env, t) == Respond(InvalidToken, t)
  {
  }

  /** The role check runs before the body is looked at: a verified non-admin caller gets 403 from
      every write route, whatever the body (an empty one included) and whatever the engine would do. */
  lemma NonAdminForbiddenWhateverBody(e: Endpoint, c: Crypto, call: Call, env: Env, t: Tables)
    requires WritesProducts(e)
    requires e == PostProducts ==> env.rowId !in t.products
    requires Verified(call.authorization, c.verify) && !AdminVerified(c, call.authorization)
    ensures Handle(e, c, call, env, t) == Respond(Forbidden, t)
  {
  }

  /** A registration followed by a login with the same username and password, when no earlier
      user has that username, gets 200 and a token signed over the username and the registered role. */
  lemma {:induction false} RegisterThenLogin(c: Crypto, reg: Call, env1: Env, log: Call, env2: Env, t: Tables)
    requires HashesMatch(c)
    requires RegisterFieldsPresent(reg.body) && PasswordIsString(reg.body) && !env1.fault && !env2.fault
    requires Field(log.body, "username") == Field(reg.body, "username")
    requires Field(log.body, "password") == Field(reg.body, "password")
    requires forall i :: 0 <= i < |t.users| ==> t.users[i].username != Field(reg.body, "username")
    ensures Register(c, reg, env1, t).reply.response.status == 201
    ensures Login(c, log, env2, Register(c, reg, env1, t).after).reply ==
              Sent(Response(200, StatusText("OK"),
                            Some(c.sign(Claims(Field(reg.body, "username"), Field(reg.body, "role"))))))
  {
    var row := NewUser(c, reg.body, env1);
    FirstByUsernameAppend(t.users, row, Field(reg.body, "username"));
    assert c.compare(Field(reg.body, "password").s, c.hash(Field(reg.body, "password").s, env1.salt));
  }

  /** Registering again under a username that already exists changes no login for it: the lookup
      keeps finding the earlier row, so the new password is checked against the old digest. */
  lemma {:induction false} DuplicateRegistrationIsShadowed(c: Crypto, reg: Call, env1: Env, log: Call, env2: Env, t: Tables)
    requires StoredUser(t, log.body).Some?
    ensures Login(c, log, env2, Register(c, reg, env1, t).after).reply == Login(c, log, env2, t).reply
  {
    if RegisterFieldsPresent(reg.body) && PasswordIsString(reg.body) && !env1.fault {
      FirstByUsernameAppend(t.users, NewUser(c, reg.body, env1), Field(log.body, "username"));
    }
  }

  /** The token a successful login issues passes `verifyToken` on a later request and becomes
      `req.user`: the stored username and role. */
  lemma LoginTokenAdmits(c: Crypto, log: Call, env: Env, t: Tables, later: Call)
    requires SignedTokensVerify(c)
    requires Login(c, log, env, t).reply.Sent? && Login(c, log, env, t).reply.response.status == 200
    requires later.authorization == Login(c, log, env, t).reply.response.authToken
    ensures StoredUser(t, log.body).Some?
    ensures Authenticate(later.authorization, c.verify) ==
              Admit(Claims(StoredUser(t, log.body).value.username, StoredUser(t, log.body).value.role))
  {
    var row := StoredUser(t, log.body).value;
    assert c.sign(Claims(row.username, row.role)) != "";
  }

  /** Fetching a product right after creating it gives back exactly the body the creation answered. */
  lemma CreateThenShow(c: Crypto, create: Call, env1: Env, show: Call, env2: Env, t: Tables)
    requires env1.rowId !in t.products
    requires CreateProduct(c, create, env1, t).reply.response.status == 201
    requires Verified(show.authorization, c.verify) && show.id == Some(env1.rowId) && !env2.fault
    ensures ShowProduct(c, show, env2, CreateProduct(c, create, env1, t).after).reply ==
              Sent(Send(200, CreateProduct(c, create, env1, t).reply.response.body))
  {
  }

  /** Once a delete has succeeded, the product is gone: fetching it and deleting it again are 404. */
  lemma RemoveThenShow(c: Crypto, remove: Call, env1: Env, later: Call, env2: Env, t: Tables)
    requires RemoveProduct(c, remove, env1, t).reply.response.status == 200
    requires later.id == remove.id && !env2.fault
    ensures Verified(later.authorization, c.verify) ==>
              ShowProduct(c, later, env2, RemoveProduct(c, remove, env1, t).after).reply == Sent(ProductNotFound)
    ensures AdminVerified(c, later.authorization) ==>
              RemoveProduct(c, later, env2, RemoveProduct(c, remove, env1, t).after).reply == Sent(ProductNotFound)
  {
  }

  /** An update of an id that matches no row, a non-numeric one included, is 404 and writes nothing. */
  lemma UpdateMissingIsNotFound(c: Crypto, call: Call, env: Env, t: Tables)
    requires AdminVerified(c, call.authorization) && ProductFieldsPresent(call.body) && !env.fault
    requires call.id.None? || call.id.value !in t.products
    ensures UpdateProduct(c, call, env, t) == Respond(ProductNotFound, t)
  {
  }
}

/** A session against an empty store: "alice" registers as admin and "bob" as user, both log in,
    alice creates a product, bob can read it but not delete it, alice deletes it, and it is gone. */
module Scenario {
  import opened Values
  import opened Crypto
  import opened Schema
  import opened Http
  import opened Store
  import opened Auth
  import opened Routes

  const Alice := map["username" := Str("alice"), "password" := Str("pw123"), "role" := Str("admin")]
  const Bob := map["username" := Str("bob"), "password" := Str("hunter2"), "role" := Str("user")]
  const Widget := map["name" := Str("Widget"), "price" := Num(999)]

  function Anonymous(body: map<string, Json>): Call {
    Call(None, None, body)
  }

  const AdminClaims := Claims(Str("alice"), Str("admin"))
  const UserClaims := Claims(Str("bob"), Str("user"))

  /** Both register on an empty store, and both log in with the claims they registered. */
  lemma {:induction false} BothLogIn(c: Crypto, s1: Salt, s2: Salt)
    requires HashesMatch(c)
    ensures
      var r1 := Register(c, Anonymous(Alice), Env(false, 1, s1), Tables(map[], []));
      var r2 := Register(c, Anonymous(Bob), Env(false, 2, s2), r1.after);
      && r1.reply.response == Send(201, UserCreated(1, Str("alice"), Str("admin")))
      && r2.after.products == map[]
      && Login(c, Anonymous(Alice), Env(false, 1, s1), r2.after).reply ==
           Sent(Response(200, StatusText("OK"), Some(c.sign(AdminClaims))))
      && Login(c, Anonymous(Bob), Env(false, 1, s1), r2.after).reply ==
           Sent(Response(200, StatusText("OK"), Some(c.sign(UserClaims))))
  {
    var r1 := Register(c, Anonymous(Alice), Env(false, 1, s1), Tables(map[], []));
    var r2 := Register(c, Anonymous(Bob), Env(false, 2, s2), r1.after);
    var alice := NewUser(c, Alice, Env(false, 1, s1));
    var bob := NewUser(c, Bob, Env(false, 2, s2));
    assert r2.after.users == [alice, bob];
    assert StoredUser(r2.after, Alice) == Some(alice);
    assert StoredUser(r2.after, Bob) == Some(bob);
    assert c.compare("pw123", alice.password);
    assert c.compare("hunter2", bob.password);
  }

  /** On a store without products, alice's token creates one; bob's can read it but not delete it;
      alice's deletes it, after which it is not found. */
  lemma {:induction false} ProductLifecycle(c: Crypto, t: Tables, adminToken: string, userToken: string)
    requires t.products == map[]
    requires adminToken != "" && c.verify(adminToken) == Some(AdminClaims)
    requires userToken != "" && c.verify(userToken) == Some(UserClaims)
    ensures
      var ok := Env(false, 1, "");
      var created := CreateProduct(c, Call(Some(adminToken), None, Widget), ok, t);
      var refused := RemoveProduct(c, Call(Some(userToken), Some(1), map[]), ok, created.after);
      var removed := RemoveProduct(c, Call(Some(adminToken), Some(1), map[]), ok, refused.after);
      && created.reply.response == Send(201, ProductJson(ProductRow(1, Str("Widget"), Num(999))))
      && ShowProduct(c, Call(Some(userToken), Some(1), map[]), ok, created.after).reply ==
           Sent(Send(200, ProductJson(ProductRow(1, Str("Widget"), Num(999)))))
      && refused == Respond(Forbidden, created.after)
      && removed.reply.response == Send(200, Message("Product deleted successfully"))
      && ShowProduct(c, Call(Some(adminToken), Some(1), map[]), ok, removed.after).reply == Sent(ProductNotFound)
  {
  }

  lemma {:induction false} AdminSession(c: Crypto, s1: Salt, s2: Salt)
    requires SignedTokensVerify(c) && HashesMatch(c)
    ensures
      var ok := Env(false, 1, s1);
      var r1 := Register(c, Anonymous(Alice), ok, Tables(map[], []));
      var r2 := Register(c, Anonymous(Bob), Env(false, 2, s2), r1.after);
      var adminToken := Login(c, Anonymous(Alice), ok, r2.after).reply.response.authToken;
      var userToken := Login(c, Anonymous(Bob), ok, r2.after).reply.response.authToken;
      var created := CreateProduct(c, Call(adminToken, None, Widget), ok, r2.after);
      var refused := RemoveProduct(c, Call(userToken, Some(1), map[]), ok, created.after);
      var removed := RemoveProduct(c, Call(adminToken, Some(1), map[]), ok, refused.after);
      && r1.reply.response == Send(201, UserCreated(1, Str("alice"), Str("admin")))
      && created.reply.response == Send(201, ProductJson(ProductRow(1, Str("Widget"), Num(999))))
      && ShowProduct(c, Call(userToken, Some(1), map[]), ok, created.after).reply ==
           Sent(Send(200, ProductJson(ProductRow(1, Str("Widget"), Num(999)))))
      && refused == Respond(Forbidden, created.after)
      && removed.reply.response == Send(200, Message("Product deleted successfully"))
      && ShowProduct(c, Call(adminToken, Some(1), map[]), ok, removed.after).reply == Sent(ProductNotFound)
  {
    var ok := Env(false, 1, s1);
    var r1 := Register(c, Anonymous(Alice), ok, Tables(map[], []));
    var r2 := Register(c, Anonymous(Bob), Env(false, 2, s2), r1.after);
    BothLogIn(c, s1, s2);
    var adminToken, userToken := c.sign(AdminClaims), c.sign(UserClaims);
    assert adminToken != "" && c.verify(adminToken) == Some(AdminClaims);
    assert userToken != "" && c.verify(userToken) == Some(UserClaims);
    ProductLifecycle(c, r2.after, adminToken, userToken);
  }
}
