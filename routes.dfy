/**
 * The route table of server/routes/user_routes.go: which middlewares wrap
 * which endpoint, in which order, behind which method guard. The endpoint
 * handlers themselves (server/handlers) are given as parameters; the CORS
 * wrapper around the mux is not part of this model.
 */
module Routes {
  import opened Wrappers
  import opened Text
  import opened Http
  import opened ClientIp
  import opened RateLimit
  import opened ResponseCache
  import opened Auth

  const MethodNotAllowedMessage := "Method not allowed"

  /** methodGuard: 405 with http.Error's plain-text body unless the method matches. */
  function MethodGuard(httpMethod: string, handler: Handler): Handler {
    (r: Request, h: Header) => Guarded(httpMethod, handler, r, h)
  }

  function Guarded(httpMethod: string, handler: Handler, r: Request, h: Header): Outcome {
    if r.httpMethod != httpMethod then HttpError(h, MethodNotAllowedMessage, StatusMethodNotAllowed)
    else handler(r, h)
  }

  /**
   * A request with another method is answered 405 (section 15.5.6 of
   * RFC 9110) without running the handler; a request with the method runs it
   * once, unchanged.
   */
  lemma {:induction false} MethodGuardDecides(httpMethod: string, handler1: Handler, handler2: Handler, r: Request, h: Header)
    ensures r.httpMethod != httpMethod ==>
              var o := MethodGuard(httpMethod, handler1)(r, h);
              && o.calls[0] == WriteHeader(StatusMethodNotAllowed)
              && Get(o.header, "Content-Type") == "text/plain; charset=utf-8"
              && o.steps == []
              && o == MethodGuard(httpMethod, handler2)(r, h)
    ensures r.httpMethod == httpMethod ==> MethodGuard(httpMethod, handler1)(r, h) == handler1(r, h)
  {
  }

  /** The handler a list of middlewares makes of h: the first one listed is the outermost. */
  function Chain(ms: seq<Middleware>, h: Handler): Handler
    decreases |ms|
  {
    if ms == [] then h else ms[0](Chain(ms[1..], h))
  }

  /** applyMiddleware: wraps from the last middleware to the first. */
  method ApplyMiddleware(handler: Handler, ms: seq<Middleware>) returns (result: Handler)
    ensures result == Chain(ms, handler)
  {
    result := handler;
    var i := |ms|;
    while i > 0
      invariant 0 <= i <= |ms|
      invariant result == Chain(ms[i..], handler)
    {
      i := i - 1;
      assert ms[i..][1..] == ms[i + 1..];
      result := ms[i](result);
    }
  }

  /** Wrapping with a concatenation is wrapping with the second list, then with the first. */
  lemma {:induction false} ChainAppend(a: seq<Middleware>, b: seq<Middleware>, h: Handler)
    ensures Chain(a + b, h) == Chain(a, Chain(b, h))
    decreases |a|
  {
    if a == [] {
      assert a + b == b;
    } else {
      assert (a + b)[1..] == a[1..] + b;
      ChainAppend(a[1..], b, h);
    }
  }

  /** No middleware leaves the handler as it is; with two, the first listed runs first. */
  lemma {:induction false} ChainOrder(m0: Middleware, m1: Middleware, h: Handler)
    ensures Chain([], h) == h
    ensures Chain([m0, m1], h) == m0(m1(h))
  {
    assert [m0, m1][1..] == [m1];
    assert [m1][1..] == [];
    assert Chain([m1], h) == m1(h);
  }

  /** What the routes need besides the endpoints: the limiter, the address functions, the validator, the cache. */
  datatype Deps = Deps(check: Checker, net: Net, sha: Sha256, validate: Validator, cache: Env)

  /** handlers.RegisterUser, LoginUser, LogoutUser, GetAllProducts and GetCurrentUser. */
  datatype Endpoints = Endpoints(register: Handler, login: Handler, logout: Handler, products: Handler, me: Handler)

  function AuthRateLimitMiddleware(d: Deps): Middleware {
    RateLimitMiddleware(AuthRateLimit, d.check, d.net, d.sha)
  }

  function APIRateLimitMiddleware(d: Deps): Middleware {
    RateLimitMiddleware(DefaultRateLimit, d.check, d.net, d.sha)
  }

  /** SetupRoutes: the handler registered for a path, None for the paths the mux does not know. */
  function Route(path: string, e: Endpoints, d: Deps): Option<Handler> {
    if path == "/register" then Some(MethodGuard("POST", Chain([AuthRateLimitMiddleware(d)], e.register)))
    else if path == "/login" then Some(MethodGuard("POST", Chain([AuthRateLimitMiddleware(d)], e.login)))
    else if path == "/logout" then
      Some(MethodGuard("POST", Chain([AuthMiddleware(d.validate), AuthRateLimitMiddleware(d)], e.logout)))
    else if path == "/products" then
      Some(MethodGuard("GET", Chain([APIRateLimitMiddleware(d), APICacheMiddleware(d.cache)], e.products)))
    else if path == "/me" then
      Some(MethodGuard("GET", Chain([AuthMiddleware(d.validate), AuthRateLimitMiddleware(d)], e.me)))
    else None
  }

  /** The handler SetupRoutes registers for /products. */
  lemma {:induction false} ProductsRoute(e: Endpoints, d: Deps)
    ensures Route("/products", e, d)
            == Some(MethodGuard("GET", Chain([APIRateLimitMiddleware(d), APICacheMiddleware(d.cache)], e.products)))
  {
    assert "/products" != "/register" && "/products" != "/login" && "/products" != "/logout" by {
      assert "/products"[1] == 'p';
    }
  }

  /**
   * On /products the limiter wraps the cache: a request the limiter denies
   * is answered 429 and never reaches the cache lookup, so its only step is
   * the rate-limit check.
   */
  lemma {:induction false} ProductsDenialSkipsCache(e: Endpoints, d: Deps, r: Request, h: Header)
    requires r.httpMethod == "GET"
    requires !d.check(DefaultRateLimit, GetClientIdentifier(r, d.net, d.sha)).allowed
    ensures var o := Route("/products", e, d).value(r, h);
            && o.steps == [RateLimitChecked(GetClientIdentifier(r, d.net, d.sha))]
            && |o.calls| >= 1 && o.calls[0] == WriteHeader(StatusTooManyRequests)
  {
    var inner := APICacheMiddleware(d.cache)(e.products);
    ProductsRoute(e, d);
    ChainOrder(APIRateLimitMiddleware(d), APICacheMiddleware(d.cache), e.products);
    RateLimitDenial(DefaultRateLimit, d.check, d.net, d.sha, inner, inner, r, h);
  }

  /** The /products chain without its method guard: the limiter's check comes first, then the cache lookup. */
  lemma {:induction false} ProductsChainAdmits(e: Endpoints, d: Deps, r: Request, h: Header)
    requires r.httpMethod == "GET" && Get(r.header, "Authorization") == ""
    requires d.check(DefaultRateLimit, GetClientIdentifier(r, d.net, d.sha)).allowed
    ensures var o := Chain([APIRateLimitMiddleware(d), APICacheMiddleware(d.cache)], e.products)(r, h);
            && |o.steps| >= 2
            && o.steps[0] == RateLimitChecked(GetClientIdentifier(r, d.net, d.sha))
            && o.steps[1] == CacheRead(CacheKey(r, d.cache.sha))
  {
    var id := GetClientIdentifier(r, d.net, d.sha);
    var h1 := RateLimitHeaders(h, d.check(DefaultRateLimit, id));
    var inner := APICacheMiddleware(d.cache)(e.products);
    ChainOrder(APIRateLimitMiddleware(d), APICacheMiddleware(d.cache), e.products);
    var o := RateLimited(DefaultRateLimit, d.check, d.net, d.sha, inner, r, h);
    var cached := inner(r, h1);
    assert o.steps == [RateLimitChecked(id)] + cached.steps;
    CacheReadFirst(d.cache, e.products, r, h1);
  }

  /** A request /products admits is looked up in the cache after the check, under its cache key. */
  lemma {:induction false} ProductsAdmittedReachesCache(e: Endpoints, d: Deps, r: Request, h: Header)
    requires r.httpMethod == "GET" && Get(r.header, "Authorization") == ""
    requires d.check(DefaultRateLimit, GetClientIdentifier(r, d.net, d.sha)).allowed
    ensures var o := Route("/products", e, d).value(r, h);
            && |o.steps| >= 2
            && o.steps[0] == RateLimitChecked(GetClientIdentifier(r, d.net, d.sha))
            && o.steps[1] == CacheRead(CacheKey(r, d.cache.sha))
  {
    ProductsRoute(e, d);
    ProductsChainAdmits(e, d, r, h);
  }

  /** The handler registered for /logout or /me. */
  function Protected(path: string, e: Endpoints, d: Deps): Handler
    requires path == "/logout" || path == "/me"
  {
    Route(path, e, d).value
  }

  /** The handler behind /logout and /me: the method guard, then AuthMiddleware, then the auth limiter. */
  lemma {:induction false} ProtectedShape(path: string, e: Endpoints, d: Deps, r: Request, h: Header)
    requires path == "/logout" || path == "/me"
    requires r.httpMethod == (if path == "/logout" then "POST" else "GET")
    ensures var endpoint := if path == "/logout" then e.logout else e.me;
            Protected(path, e, d)(r, h) == Authenticated(d.validate, AuthRateLimitMiddleware(d)(endpoint), r, h)
  {
    var endpoint := if path == "/logout" then e.logout else e.me;
    ChainOrder(AuthMiddleware(d.validate), AuthRateLimitMiddleware(d), endpoint);
  }

  /**
   * On /logout and /me authentication runs before rate limiting: a request
   * that fails authentication is answered 401 without being counted at all ...
   */
  lemma {:induction false} ProtectedRejectedUncounted(path: string, e: Endpoints, d: Deps, r: Request, h: Header)
    requires path == "/logout" || path == "/me"
    requires r.httpMethod == (if path == "/logout" then "POST" else "GET")
    requires Accepted(d.validate, r).None?
    ensures var o := Protected(path, e, d)(r, h);
            o.steps == [] && |o.calls| >= 1 && o.calls[0] == WriteHeader(StatusUnauthorized)
  {
    var endpoint := if path == "/logout" then e.logout else e.me;
    var inner := AuthRateLimitMiddleware(d)(endpoint);
    ProtectedShape(path, e, d, r, h);
    AuthRejects(d.validate, inner, inner, r, h);
  }

  /** ... and one that passes is counted under "user:<id>", never under its address. */
  lemma {:induction false} ProtectedAcceptedCountedPerUser(path: string, e: Endpoints, d: Deps, r: Request, h: Header)
    requires path == "/logout" || path == "/me"
    requires r.httpMethod == (if path == "/logout" then "POST" else "GET")
    requires Accepted(d.validate, r).Some?
    ensures var o := Protected(path, e, d)(r, h);
            |o.steps| >= 1 && o.steps[0] == RateLimitChecked("user:" + IntToString(Accepted(d.validate, r).value.userId))
  {
    var endpoint := if path == "/logout" then e.logout else e.me;
    var inner := AuthRateLimitMiddleware(d)(endpoint);
    var c := Accepted(d.validate, r).value;
    ProtectedShape(path, e, d, r, h);
    AuthAccepts(d.validate, inner, r, h);
    var r1 := WithClaims(r, c);
    assert GetClientIdentifier(r1, d.net, d.sha) == "user:" + IntToString(c.userId);
    RateLimitCheckedFirst(AuthRateLimit, d.check, d.net, d.sha, endpoint, r1, h);
  }

  /** A path with the wrong method is answered 405 before any middleware runs. */
  lemma {:induction false} WrongMethodStopsAtGuard(path: string, e: Endpoints, d: Deps, r: Request, h: Header)
    requires Route(path, e, d).Some?
    requires r.httpMethod != "GET" && r.httpMethod != "POST"
    ensures var o := Route(path, e, d).value(r, h);
            o.steps == [] && |o.calls| >= 1 && o.calls[0] == WriteHeader(StatusMethodNotAllowed)
  {
  }
}
