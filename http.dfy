/** Requests and responses as the route handlers see them. */
module Http {
  import opened Values
  import opened Crypto
  import opened Schema

  /** What a handler reads from a request: the `authorization` header, `parseInt(req.params.id)`
      (None when it is NaN) and the decoded JSON body. */
  datatype Call = Call(authorization: Option<string>, id: Option<int>, body: map<string, Json>)

  /** Response bodies. `StatusText` is what `res.sendStatus(n)` sends; `ErrorPage` is the page
      Express's default error handler sends for an exception thrown synchronously in a handler. */
  datatype Body =
    | StatusText(text: string)
    | Message(message: string)
    | Error(error: string)
    | ProductJson(row: ProductRow)
    | ProductList(rows: seq<ProductRow>)
    | UserCreated(id: int, username: Json, role: Json)
    | UserList(users: seq<UserSummary>)
    | ProtectedJson(message: string, user: Claims)
    | ErrorPage

  /** A response; `authToken` is the `auth-token` header that login sets. */
  datatype Response = Response(status: int, body: Body, authToken: Option<string>)

  /** A handler either sends a response or throws outside Express's reach and takes the process down. */
  datatype Reply = Sent(response: Response) | Crash

  /** `res.status(status).json(body)`, or `res.json(body)` when status is 200. */
  function Send(status: int, body: Body): Response {
    Response(status, body, None)
  }

  const Unauthorized := Send(401, Message("Unauthorized"))
  const InvalidToken := Send(401, Message("Invalid token"))
  const Forbidden := Send(403, StatusText("Forbidden"))
  const InternalError := Send(500, Error("Internal Server Error"))
  const ProductNotFound := Send(404, Message("Product not found"))
  const UncaughtError := Send(500, ErrorPage)
}
