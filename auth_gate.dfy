/** The authentication gate placed in front of the protected routes
    (backend/src/middleware.ts). */
module AuthGate {
  import opened Wrappers
  import opened JsValues

  /** What `jwt.verify(token, JWT_SECRET)` yields: it throws (bad signature,
      expired or malformed token), or returns the decoded payload, which is
      either a string or a claims object. */
  datatype Verified =
    | Throws
    | StringPayload(text: string)
    | ObjectPayload(claims: map<string, JsValue>)

  /** The single effect of one pass through the gate: a status response, or a
      call of `next()` with the user id attached to the request. */
  datatype Outcome = Reject(status: int, message: string) | Pass(userId: JsValue)

  const NoTokenMessage := "Unauthorized - No token provided"
  const InvalidTokenMessage := "Unauthorized - Invalid token"
  const VerifyFailedMessage := "Unauthorized"

  /** `decoded.userId` is present and truthy: not missing, `null`, `false`,
      `0` or `""`. */
  predicate HasUserId(claims: map<string, JsValue>)
    ensures HasUserId(claims) ==>
      ("userId" in claims && claims["userId"] !in {JNull, JBool(false), JNumber(0), JString("")})
    ensures "userId" in claims && (claims["userId"].JArray? || claims["userId"].JObject?) ==>
      HasUserId(claims)
  {
    "userId" in claims && Truthy(claims["userId"])
  }

  /** The decision of `middleware`, with `jwt.verify` (keyed by the server's
      secret) given as the function `verify`. */
  function Decide(authorization: Option<string>, verify: string -> Verified): (r: Outcome)
    ensures r.Reject? ==> r.status == 401 || r.status == 403
    ensures r.Reject? && r.status == 401 <==> authorization == None || authorization == Some("")
    ensures r.Pass? <==>
      authorization.Some? && authorization.value != "" &&
      verify(authorization.value).ObjectPayload? && HasUserId(verify(authorization.value).claims)
    ensures r.Pass? ==> r.userId == verify(authorization.value).claims["userId"]
  {
    match authorization
    case None => Reject(401, NoTokenMessage)
    case Some(token) =>
      if token == "" then Reject(401, NoTokenMessage)
      else
        match verify(token)
        case Throws => Reject(403, VerifyFailedMessage)
        case StringPayload(_) => Reject(403, InvalidTokenMessage)
        case ObjectPayload(claims) =>
          if !HasUserId(claims) then Reject(403, InvalidTokenMessage)
          else Pass(claims["userId"])
  }

  /** A token that fails verification is answered 403 "Unauthorized". */
  lemma VerifyThrowsForbidden(token: string, verify: string -> Verified)
    requires token != "" && verify(token) == Throws
    ensures Decide(Some(token), verify) == Reject(403, VerifyFailedMessage)
  {
  }

  /** A payload decoded as a string, or a claims object whose `userId` is
      missing or falsy, is answered 403 "Unauthorized - Invalid token". */
  lemma InvalidPayloadForbidden(token: string, verify: string -> Verified)
    requires token != ""
    requires verify(token).StringPayload? || (verify(token).ObjectPayload? && !HasUserId(verify(token).claims))
    ensures Decide(Some(token), verify) == Reject(403, InvalidTokenMessage)
  {
  }

  /** An empty-string `userId` claim is falsy and is refused. */
  lemma EmptyUserIdForbidden(token: string, verify: string -> Verified)
    requires token != "" && verify(token) == ObjectPayload(map["userId" := JString("")])
    ensures Decide(Some(token), verify).Reject? && Decide(Some(token), verify).status == 403
  {
  }

  /** The header value goes to `verify` unchanged: a "Bearer " prefix is not
      stripped, so a header that verify refuses with the prefix is refused
      even though the bare token would pass. */
  lemma BearerPrefixNotStripped(token: string, verify: string -> Verified)
    requires verify("Bearer " + token) == Throws
    requires verify(token).ObjectPayload? && HasUserId(verify(token).claims)
    ensures Decide(Some("Bearer " + token), verify) == Reject(403, VerifyFailedMessage)
    ensures token != "" ==> Decide(Some(token), verify).Pass?
  {
  }

  /** The decision reads `verify` only at the header value, and not at all
      when the header is missing or empty. */
  lemma DecisionUsesVerifyOnlyAtHeader(authorization: Option<string>, v1: string -> Verified, v2: string -> Verified)
    requires authorization.Some? && authorization.value != "" ==> v1(authorization.value) == v2(authorization.value)
    ensures Decide(authorization, v1) == Decide(authorization, v2)
  {
  }

  /** `req`: the header read by the gate and the `userId` field it attaches. */
  class Request {
    const authorization: Option<string>
    var userId: Option<JsValue>

    constructor (authorization: Option<string>)
      ensures this.authorization == authorization && userId == None
    {
      this.authorization := authorization;
      userId := None;
    }
  }

  /** `res`: the status and JSON message written by `res.status(..).json(..)`. */
  class Response {
    var status: Option<int>
    var message: Option<string>

    constructor ()
      ensures status == None && message == None
    {
      status, message := None, None;
    }

    method Send(code: int, text: string)
      modifies this
      ensures status == Some(code) && message == Some(text)
    {
      status, message := Some(code), Some(text);
    }
  }

  /** `next`: counts how many times control was handed on. */
  class Continuation {
    var calls: nat

    constructor ()
      ensures calls == 0
    {
      calls := 0;
    }

    method Call()
      modifies this
      ensures calls == old(calls) + 1
    {
      calls := calls + 1;
    }
  }

  /** `middleware(req, res, next)`: either writes a 401/403 response, or
      attaches the user id to `req` and calls `next` once; never both. */
  method Middleware(req: Request, res: Response, next: Continuation, verify: string -> Verified)
    modifies req, res, next
    ensures match Decide(req.authorization, verify)
      case Reject(code, text) =>
        res.status == Some(code) && res.message == Some(text) &&
        next.calls == old(next.calls) && req.userId == old(req.userId)
      case Pass(id) =>
        req.userId == Some(id) && next.calls == old(next.calls) + 1 &&
        res.status == old(res.status) && res.message == old(res.message)
    ensures old(res.status) == None ==> (res.status != None <==> next.calls == old(next.calls))
    ensures next.calls <= old(next.calls) + 1
  {
    var token := req.authorization;
    if token == None || token.value == "" {
      res.Send(401, NoTokenMessage);
      return;
    }
    var decoded := verify(token.value);
    if decoded.Throws? {
      // the catch block
      res.Send(403, VerifyFailedMessage);
      return;
    }
    if decoded.StringPayload? || !HasUserId(decoded.claims) {
      res.Send(403, InvalidTokenMessage);
      return;
    }
    req.userId := Some(decoded.claims["userId"]);
    next.Call();
  }
}
