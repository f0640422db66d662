/**
 * AuthMiddleware of server/middleware/auth.go: where the access token comes
 * from, the "Bearer " prefix, the claim check, and the request context the
 * handler then sees. utils.ValidateToken (signature and expiry checks) is
 * foreign and given as a parameter.
 */
module Auth {
  import opened Wrappers
  import opened Text
  import opened Http

  /** utils.Claims, without the registered JWT claims. */
  datatype Claims = Claims(userId: int, email: string, sessionId: int, tokenType: string)

  /** utils.ValidateToken: the claims of a valid token, None when validation fails. */
  type Validator = string -> Option<Claims>

  /** The raw token: the Authorization header when non-empty, else the access_token cookie, if any. */
  function RawToken(r: Request): (t: Option<string>)
    ensures Get(r.header, "Authorization") != "" ==> t == Some(Get(r.header, "Authorization"))
    ensures Get(r.header, "Authorization") == "" && "access_token" in r.cookies ==> t == Some(r.cookies["access_token"])
    ensures Get(r.header, "Authorization") == "" && "access_token" !in r.cookies ==> t == None
  {
    var header := Get(r.header, "Authorization");
    if header != "" then Some(header)
    else if "access_token" in r.cookies then Some(r.cookies["access_token"])
    else None
  }

  const BearerPrefix := "Bearer "

  /** The token handed to ValidateToken: the raw token with one leading "Bearer " removed. */
  function Token(r: Request): Option<string> {
    match RawToken(r)
    case None => None
    case Some(raw) => Some(TrimPrefix(raw, BearerPrefix))
  }

  /** The context the handler sees after a successful check: the three claims, by value. */
  function WithClaims(r: Request, c: Claims): Request {
    r.(context := Context(Some(c.userId), Some(c.email), Some(c.sessionId)))
  }

  /** AuthMiddleware on one request. */
  function Authenticated(validate: Validator, next: Handler, r: Request, h: Header): Outcome {
    match Token(r)
    case None => WriteError(h, StatusUnauthorized, "Access token required")
    case Some(token) =>
      match validate(token)
      case None => WriteError(h, StatusUnauthorized, "Invalid access token")
      case Some(claims) =>
        if claims.tokenType != "access" then WriteError(h, StatusUnauthorized, "Invalid access token")
        else next(WithClaims(r, claims), h)
  }

  function AuthMiddleware(validate: Validator): Middleware {
    (next: Handler) => (r: Request, h: Header) => Authenticated(validate, next, r, h)
  }

  /** Whether a request gets past AuthMiddleware, and with which claims. */
  function Accepted(validate: Validator, r: Request): (c: Option<Claims>)
    ensures c.Some? ==> Token(r).Some? && validate(Token(r).value) == c && c.value.tokenType == "access"
    ensures c.None? ==> Token(r).None? || validate(Token(r).value).None? || validate(Token(r).value).value.tokenType != "access"
  {
    match Token(r)
    case None => None
    case Some(token) =>
      match validate(token)
      case None => None
      case Some(claims) => if claims.tokenType == "access" then Some(claims) else None
  }

  /**
   * "Bearer " is removed once and the rest is kept as it is; a header
   * without the prefix is validated verbatim.
   */
  lemma {:induction false} BearerStrippedOnce(r: Request, t: string)
    ensures Get(r.header, "Authorization") == BearerPrefix + t ==> Token(r) == Some(t)
    ensures var raw := Get(r.header, "Authorization");
            raw != "" && !HasPrefix(raw, BearerPrefix) ==> Token(r) == Some(raw)
  {
    var raw := Get(r.header, "Authorization");
    if raw == BearerPrefix + t {
      assert raw[..|BearerPrefix|] == BearerPrefix;
      assert raw[|BearerPrefix|..] == t;
    }
  }

  /** So a doubled prefix survives once: "Bearer Bearer x" is validated as "Bearer x". */
  lemma {:induction false} DoubledBearerKeepsOne(r: Request)
    requires Get(r.header, "Authorization") == "Bearer Bearer x"
    ensures Token(r) == Some("Bearer x")
  {
    BearerStrippedOnce(r, "Bearer x");
  }

  /**
   * A rejected request is answered 401 (Unauthorized, section 15.5.2 of
   * RFC 9110) with the reason, and the handler never runs: the outcome is
   * the same whatever the handler is.
   */
  lemma {:induction false} AuthRejects(validate: Validator, next1: Handler, next2: Handler, r: Request, h: Header)
    requires Accepted(validate, r).None?
    ensures var o := AuthMiddleware(validate)(next1)(r, h);
            && o.calls[0] == WriteHeader(StatusUnauthorized)
            && (Token(r).None? ==> o == WriteError(h, StatusUnauthorized, "Access token required"))
            && (Token(r).Some? ==> o == WriteError(h, StatusUnauthorized, "Invalid access token"))
            && o.steps == []
            && o == AuthMiddleware(validate)(next2)(r, h)
  {
  }

  /** An accepted request runs the handler once, on the same request carrying the claims in its context. */
  lemma {:induction false} AuthAccepts(validate: Validator, next: Handler, r: Request, h: Header)
    requires Accepted(validate, r).Some?
    ensures var c := Accepted(validate, r).value;
            && AuthMiddleware(validate)(next)(r, h) == next(WithClaims(r, c), h)
            && WithClaims(r, c).context.userId == Some(c.userId)
            && WithClaims(r, c).context.email == Some(c.email)
            && WithClaims(r, c).context.sessionId == Some(c.sessionId)
            && WithClaims(r, c).header == r.header && WithClaims(r, c).path == r.path
  {
  }

  /** A non-empty Authorization header wins: the cookie is then never consulted. */
  lemma {:induction false} HeaderBeforeCookie(r: Request, cookies: map<string, string>)
    requires Get(r.header, "Authorization") != ""
    ensures Token(r.(cookies := cookies)) == Token(r)
  {
  }
}
