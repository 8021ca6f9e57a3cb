/** The two middleware stages of a protected route: `verifyToken`, which resolves the caller's
    identity and stores it on the request, and the role checks `checkAdminRights` and
    `checkUserRights`. */
module Auth {
  import opened Values
  import opened Crypto
  import opened Http

  const AdminRole := "admin"
  const UserRole := "user"

  /** What a middleware does: call `next()` or answer the request itself. */
  datatype Step = Next | Halt(response: Response)

  /** What token verification decides: the caller's claims, or the 401 that ends the request. */
  datatype Gate = Admit(user: Claims) | Deny(response: Response)

  /** `!token` is false: the header is present and not the empty string. */
  predicate HasToken(authorization: Option<string>) {
    authorization.Some? && authorization.value != ""
  }

  /** The token in the header verifies; its claims are the caller's identity. */
  predicate Verified(authorization: Option<string>, verify: string -> Option<Claims>) {
    HasToken(authorization) && verify(authorization.value).Some?
  }

  /** The decision `verifyToken` takes. */
  function Authenticate(authorization: Option<string>, verify: string -> Option<Claims>): (g: Gate)
    ensures g.Admit? <==> Verified(authorization, verify)
    ensures g.Admit? ==> g.user == verify(authorization.value).value
    ensures !HasToken(authorization) ==> g == Deny(Unauthorized)
    ensures HasToken(authorization) && g.Deny? ==> g == Deny(InvalidToken)
  {
    if !HasToken(authorization) then Deny(Unauthorized)
    else match verify(authorization.value)
      case None => Deny(InvalidToken)
      case Some(decoded) => Admit(decoded)
  }

  /** `checkAdminRights`: JavaScript's `==` against the string "admin" holds, among JSON values,
      for that string alone (a number or boolean is compared after conversion to a number, and
      "admin" converts to NaN). */
  function CheckAdminRights(user: Claims): (s: Step)
    ensures s == Next <==> user.role == Str(AdminRole)
    ensures s != Next ==> s == Halt(Forbidden)
  {
    if user.role == Str(AdminRole) then Next else Halt(Forbidden)
  }

  /** `checkUserRights`: the same test against "user". No route mounts it. */
  function CheckUserRights(user: Claims): (s: Step)
    ensures s == Next <==> user.role == Str(UserRole)
    ensures s != Next ==> s == Halt(Forbidden)
  {
    if user.role == Str(UserRole) then Next else Halt(Forbidden)
  }

  /** An incoming request. `user` is `req.user`, which only `verifyToken` writes. */
  class Request {
    const authorization: Option<string>
    const id: Option<int>
    const body: map<string, Json>
    var user: Option<Claims>

    constructor (authorization: Option<string>, id: Option<int>, body: map<string, Json>)
      ensures this.authorization == authorization && this.id == id && this.body == body
      ensures user == None
    {
      this.authorization := authorization;
      this.id := id;
      this.body := body;
      user := None;
    }

    function Data(): Call {
      Call(authorization, id, body)
    }
  }

  /** `req.user` after `verifyToken` ran: the decoded claims when it admitted the request,
      untouched otherwise. */
  ghost predicate UserRecorded(req: Request, before: Option<Claims>, verify: string -> Option<Claims>)
    reads req
  {
    match Authenticate(req.authorization, verify)
    case Admit(decoded) => req.user == Some(decoded)
    case Deny(_) => req.user == before
  }

  /** `verifyToken`: answers 401 "Unauthorized" without a token and 401 "Invalid token" when the
      verifier rejects it; otherwise sets `req.user` to the decoded claims and calls `next` once. */
  method VerifyToken(req: Request, verify: string -> Option<Claims>) returns (step: Step)
    modifies req
    ensures step == Next <==> Verified(req.authorization, verify)
    ensures step.Halt? ==> step.response == (if HasToken(req.authorization) then InvalidToken else Unauthorized)
    ensures step.Halt? ==> req.user == old(req.user)
    ensures step == Next ==> req.user == Some(verify(req.authorization.value).value)
    ensures UserRecorded(req, old(req.user), verify)
  {
    var token := req.authorization;
    if token.None? || token.value == "" {
      return Halt(Unauthorized);
    }
    var decoded := verify(token.value);
    if decoded.None? {
      return Halt(InvalidToken);
    }
    req.user := decoded;
    step := Next;
  }
}
