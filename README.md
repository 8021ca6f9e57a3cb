# Product catalogue API: request decisions, verified

A Dafny model of `myapp.js`, a small Express server over SQLite with two tables
(`products`, `users`), bcrypt-hashed passwords and JWT bearer tokens. Every request passes the
same fixed pipeline: the token check (`verifyToken`), on product writes the role check
(`checkAdminRights`), the handler's presence checks on the body, one SQL statement, and the
mapping of that statement's result to a status. The model states and proves what each route
answers and how it leaves the tables, and the safety property the middleware order gives:
no product row is inserted, updated or deleted unless a token verified with the role
exactly `"admin"` and, for insert and update, the body passed validation.

Layout, one module per file:

- `values.dfy` (`Values`): `Option`, the JSON values of a request body, JavaScript truthiness.
- `crypto.dfy` (`Crypto`): `jsonwebtoken` and `bcrypt` as oracles. `Crypto` bundles `verify`,
  `sign`, `hash` and `compare` as total functions. `SignedTokensVerify` and `HashesMatch` are
  what the server relies on them for; lemmas take them as hypotheses.
- `schema.dfy` (`Schema`): table rows. A user row's `password` has type `Digest`, the type of
  what bcrypt returns, and `Routes.Register` proves the stored value is `hash(password, salt)`.
  `UserSummary` has no password field.
- `http.dfy` (`Http`): the request as data, response bodies, `Reply` (a response or a crash).
- `store.dfy` (`Store`): the queries as functions of the tables. `Database` is a class whose
  `products` map and `users` sequence the write statements update in place.
- `auth.dfy` (`Auth`): `Authenticate` (the decision of `verifyToken`), the role checks, the
  `Request` class and the `VerifyToken` method, which sets `req.user`.
- `routes.dfy` (`Routes`): one function per route. Each composes the route's middleware list
  with its handler and returns the reply and the tables afterwards. `Handle` is the routing table.
- `app.dfy` (`App`): the handlers as methods over a `Database` and a `Request`. Each runs the
  middleware and the statement imperatively and is proved equal to its `Routes` function.
- `properties.dfy` (`Properties`, `Scenario`): properties that relate several requests or all routes.

The world's choices during one request are inputs (`Routes.Env`): whether the engine reports
an error for the statement, the rowid it allocates, and the salt bcrypt draws.

## Model

| member | source | states |
|---|---|---|
| `Values.Column` | myapp.js:28 | an absent optional field is stored as NULL (the driver binds `undefined` as NULL); any present value is stored as given |
| `Store.FindProduct` | myapp.js:125 | finds a row exactly when the parsed id is a number present in the table, and returns that row's id, name and price |
| `Store.FirstByUsername` | myapp.js:49 | the lookup returns the first row, in insertion order, whose username equals the given one; it returns nothing only when no row has that username |
| `Store.FirstByUsernameAppend` | myapp.js:26-28 | inserting a user never changes a lookup that already found a row; it can only answer a lookup that found nothing |
| `Store.LeastKeyExists` | myapp.js:112 | a non-empty products table has a smallest id, which is where a full scan starts |
| `Store.ProductRows` | myapp.js:112 | `SELECT * FROM products` lists every row of the table exactly once, with its stored name and price, in strictly ascending id order |
| `Store.Summaries` | myapp.js:203 | `/users` returns one summary per stored user, in insertion order, each carrying that user's id, username, role and the three optional columns; the summary type has no password field |
| `Store.Database.InsertProduct` | myapp.js:148 | inserts the product under the allocated rowid; other rows and the users table are unchanged |
| `Store.Database.UpdateProduct` | myapp.js:168 | `changes` is 1 exactly when the id matches a row, and then only that row is replaced; otherwise nothing changes |
| `Store.Database.DeleteProduct` | myapp.js:186 | `changes` is 1 exactly when the id matches a row, and then only that row is removed; otherwise nothing changes |
| `Store.Database.InsertUser` | myapp.js:26-28 | the new user row goes last in insertion order; products are unchanged |
| `Auth.Authenticate` | myapp.js:71-85 | admits exactly when the header is present, non-empty and accepted by the verifier, and then with the decoded claims; otherwise it gives 401 "Unauthorized" when there is no token and 401 "Invalid token" when the verifier rejects it |
| `Auth.CheckAdminRights` | myapp.js:87-95 | passes exactly when the role claim is the string "admin"; any other role gets 403 |
| `Auth.CheckUserRights` | myapp.js:96-103 | passes exactly when the role claim is the string "user"; any other role gets 403 |
| `Auth.VerifyToken` | myapp.js:71-85 | calls `next` exactly when the token verifies, and then sets `req.user` to the decoded claims; on either 401, `req.user` is left untouched |
| `Routes.AdminGate` | myapp.js:141 | `verifyToken` followed by `checkAdminRights` admits exactly an admin token; otherwise it answers 401 "Unauthorized", 401 "Invalid token" or 403, in that order of checks |
| `Routes.Register` | myapp.js:17-40 | returns 400 unless username, password and role are all truthy; returns Express's 500 error page when the password is not a string (`hashSync` throws); returns 500 on an engine error; the users table changes exactly when none of these apply, and then gains exactly one row: the body's username and role, the digest `hash(password, salt)`, and firstName, lastName and city with absent ones as NULL; the reply is then 201 with `{id, username, role}` and no password; products never change |
| `Routes.Login` | myapp.js:43-68 | returns 400 without a truthy username and password; crashes exactly when the lookup fails, finds no row, or finds one while the password is not a string (`compareSync` throws); gives 401 with no token when a string password does not match the first stored row; gives 200 exactly when it matches, with a token signed over that row's username and role; the tables never change |
| `Routes.Protected` | myapp.js:106-108 | returns 200 with `req.user` exactly when the token verifies, and 401 otherwise |
| `Routes.ListProducts` | myapp.js:111-121 | returns 401 without a verified token and 500 on an engine error; otherwise 200 with every product row in id order |
| `Routes.ShowProduct` | myapp.js:123-138 | returns 200 with the stored row exactly when the token verifies, the engine succeeds and the id matches a row; returns 404 "Product not found" when the id matches nothing, a non-numeric id included |
| `Routes.CreateProduct` | myapp.js:141-158 | the table changes exactly when an admin token verified, name and price are truthy (so price 0 is refused) and the engine succeeds; it then gains exactly the new row and the reply is 201 echoing it; an admin's valid request that the engine fails gets 500 and changes nothing; a non-admin gets the gate's answer whatever the body |
| `Routes.UpdateProduct` | myapp.js:160-181 | returns 200 exactly when an admin sends truthy name and price, the engine succeeds and the id matches a row; only that row is replaced and `{id, name, price}` is echoed; an admin's valid request that the engine fails gets 500; any status but 200 leaves both tables unchanged; a missing id gives 404 |
| `Routes.RemoveProduct` | myapp.js:183-199 | the table changes exactly when an admin token verified, the engine succeeds and the id matches a row, and then exactly that row goes; the status is 200 exactly then; an admin's request that the engine fails gets 500; a missing id gives 404 |
| `Routes.ListUsers` | myapp.js:202-211 | needs no token; returns 500 on an engine error, otherwise 200 with one password-free summary per stored user |
| `App.Register` | myapp.js:17-40 | the handler's reply and the new tables are those `Routes.Register` decides |
| `App.Login` | myapp.js:43-68 | the handler's reply is the one `Routes.Login` decides, and the tables are unchanged |
| `App.Protected` | myapp.js:106-108 | runs `verifyToken`, then answers as `Routes.Protected` decides; `req.user` is set exactly when the token verified |
| `App.ListProducts` | myapp.js:111-121 | runs `verifyToken`, then answers as `Routes.ListProducts` decides |
| `App.ShowProduct` | myapp.js:123-138 | runs `verifyToken`, then answers as `Routes.ShowProduct` decides |
| `App.CreateProduct` | myapp.js:141-158 | runs `verifyToken`, `checkAdminRights` and the insert in place; the reply and the new tables are those `Routes.CreateProduct` decides |
| `App.UpdateProduct` | myapp.js:160-181 | runs the chain and the update in place; the reply and the new tables are those `Routes.UpdateProduct` decides |
| `App.RemoveProduct` | myapp.js:183-199 | runs the chain and the delete in place; the reply and the new tables are those `Routes.RemoveProduct` decides |
| `App.ListUsers` | myapp.js:202-211 | answers as `Routes.ListUsers` decides |
| `Properties.OnlyAdminsWriteProducts` | myapp.js:141 | on every route, the products table changes only through POST, PUT or DELETE `/products`, for an admin token, and for POST and PUT only with truthy name and price |
| `Properties.OnlyRegisterWritesUsers` | myapp.js:17-40 | on every route, the users table changes only through a `/register` request with all three fields and a string password that the engine accepts |
| `Properties.TokenCheckedFirst` | myapp.js:72-80 | every route behind `verifyToken` answers 401 "Unauthorized" without a token and 401 "Invalid token" for a rejected one, and leaves the tables untouched |
| `Properties.NonAdminForbiddenWhateverBody` | myapp.js:87-95 | a verified non-admin gets 403 from every product write route, whatever the body (an empty one included) and whatever the engine would do |
| `Properties.RegisterThenLogin` | myapp.js:26-66 | after registering a new username with a string password, logging in with the same password gives 200 and a token over that username and the registered role |
| `Properties.DuplicateRegistrationIsShadowed` | myapp.js:49-58 | registering an existing username again changes no login for it: the earlier row keeps answering |
| `Properties.LoginTokenAdmits` | myapp.js:62-84 | the token a successful login issues passes `verifyToken`, which records the stored username and role |
| `Properties.CreateThenShow` | myapp.js:148-156 | fetching a product right after creating it gives 200 with exactly the body the creation returned; in the program this holds for a string name and a numeric price, since SQLite's type affinity, which the model leaves out, converts other values on storage |
| `Properties.RemoveThenShow` | myapp.js:186-197 | after a successful delete, fetching the id gives 404 and deleting it again gives 404 |
| `Properties.UpdateMissingIsNotFound` | myapp.js:168-180 | an admin update of an id that matches no row, a non-numeric one included, gives 404 and writes nothing |
| `Scenario.BothLogIn` | myapp.js:17-66 | alice (admin) and bob (user) register on an empty store, alice's registration answers 201 with `{1, "alice", "admin"}`, and each login answers 200 with a token over that user's username and role |
| `Scenario.ProductLifecycle` | myapp.js:123-199 | with an admin and a user token on a store without products: the admin creates a product (201); the user can read it (200) but gets 403 deleting it; the admin deletes it (200); a later fetch gives 404 |
| `Scenario.AdminSession` | myapp.js:17-199 | in one session: alice (admin) and bob (user) register and log in; alice creates a product; bob can read it but gets 403 deleting it; alice deletes it; a later fetch gives 404 |

## Where the code departs from the documented design (the model follows the code)

- A login with a username that is not stored does not get 401. `row` is undefined and
  `row.password` throws inside the driver callback (myapp.js:53-56), which ends the process.
  An engine error on that lookup is only logged (myapp.js:50-52) and then crashes the same way.
  `Routes.Login` returns `Crash` in both cases, and in a third: a stored username with a password
  that is not a string (a number or `true`), for which `bcrypt.compareSync` throws at myapp.js:58.
- `/register` with such a password is not stored. `bcrypt.hashSync` throws synchronously
  (myapp.js:24), and Express's default error handler answers 500 (`Http.UncaughtError`).
- The token's `username` claim is the request's username (myapp.js:54), not the stored row's.
  The lookup matched on equality, so the two are equal, and `Routes.Login` states the claims as the row's.
- Registration checks neither that the username is unique nor that the role is "admin" or
  "user". A duplicate username is stored, and login then always finds the first row
  (`Properties.DuplicateRegistrationIsShadowed`).
- The body's `price` is checked only for truthiness, never for sign. A negative price is
  accepted, and a price of 0 is refused with 400.
- The products table has no `description` column.
- Creation and update answer 201/200 with the request's own `{id, name, price}`, not the stored
  row. Deletion answers the fixed message "Product deleted successfully".

## Left out

- Express, body-parser, `app.listen`, the exit hook, `console` logging and callback
  asynchrony: runtime plumbing. Each request is one synchronous step over the tables.
- database.js (connection and `CREATE TABLE IF NOT EXISTS`) is not part of this model. The lemmas hold
  for any starting tables; `Scenario` starts from empty ones.
- The internals of `jwt.sign`/`jwt.verify` and `bcrypt`. They are oracles in `Crypto.Crypto`, and
  the properties used of them are hypotheses (`SignedTokensVerify`, `HashesMatch`).
- Token timing: the `iat`/`exp` claims and the one-hour expiry. `verify` is a fixed
  function for the duration of a request, and `req.user` holds only `username` and `role`.
- SQLite's row-id allocator: `Env.rowId` is an input. For product inserts it is required to be
  unused, since the engine never allocates an id in use. For users it is unconstrained, so the
  model does not promise that user ids are distinct or increasing. The users table is a sequence
  in insertion order; with SQLite's allocator and no deletions that is also rowid order.
- SQLite type affinity (TEXT or REAL columns converting bound values) and `price` as a
  floating-point REAL: values are stored and compared as the JSON values they were, with integer numbers.
- `parseInt` itself: the id parameter arrives parsed, with `None` for NaN, which matches no row.
- The content of Express's default error page (HTML, with a stack trace outside production):
  `Http.ErrorPage` stands for it.
- JSON objects and arrays as field values: `Values.Json` has only scalars.
- Store.FirstByUsername: "first" means first in insertion order, the order SQLite's scan of the
  users table yields. The query has no `ORDER BY`, so the engine does not promise it.
- Store.ProductRows: the ascending-id order is what SQLite's full scan of a rowid table yields.
  The query has no `ORDER BY`, so the engine does not promise it.
