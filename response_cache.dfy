/**
 * The response cache of server/middleware/cache.go: APICacheMiddleware,
 * its capturing responseWriter and generateCacheKey.
 *
 * Looking a key up stands for cache.DefaultCache.Get with the API-response
 * configuration, decoding into a ResponseCache: found and decoded, or not
 * (a miss and an error are treated alike). Storing happens in a goroutine
 * after the response is written, so the model records it as a scheduled
 * write in the request's trace.
 */
module ResponseCache {
  import opened Wrappers
  import opened Text
  import opened Http

  // ------------------------------------------------------ the capturing writer

  /** The status a writer holds after the calls, starting from `initial`: the last WriteHeader's code. */
  function StatusAfter(initial: int, calls: seq<WriterCall>): int {
    if calls == [] then initial
    else if calls[|calls| - 1].WriteHeader? then calls[|calls| - 1].code
    else StatusAfter(initial, calls[..|calls| - 1])
  }

  /** The status responseWriter captures: 200 unless WriteHeader was called. */
  function CapturedStatus(calls: seq<WriterCall>): int {
    StatusAfter(StatusOK, calls)
  }

  /** The bytes one call writes; a JSON value is written as its encoding. */
  function BytesOf(c: WriterCall, encode: ErrorResponse -> seq<byte>): seq<byte> {
    match c
    case WriteHeader(_) => []
    case Write(data) => data
    case WriteJson(v) => encode(v)
  }

  /** The body responseWriter captures: every written byte, in order. */
  function CapturedBody(calls: seq<WriterCall>, encode: ErrorResponse -> seq<byte>): seq<byte> {
    if calls == [] then [] else CapturedBody(calls[..|calls| - 1], encode) + BytesOf(calls[|calls| - 1], encode)
  }

  /**
   * The captured status is 200 when no WriteHeader was made, and otherwise
   * the code of the last WriteHeader.
   */
  lemma {:induction false} CapturedStatusIsLastCode(calls: seq<WriterCall>)
    ensures (forall i :: 0 <= i < |calls| ==> !calls[i].WriteHeader?) ==> CapturedStatus(calls) == StatusOK
    ensures forall i :: 0 <= i < |calls| && calls[i].WriteHeader?
                        && (forall j :: i < j < |calls| ==> !calls[j].WriteHeader?)
                        ==> CapturedStatus(calls) == calls[i].code
  {
    if calls != [] {
      var n := |calls| - 1;
      var init := calls[..n];
      CapturedStatusIsLastCode(init);
      forall i | 0 <= i < |calls| && calls[i].WriteHeader? && (forall j :: i < j < |calls| ==> !calls[j].WriteHeader?)
        ensures CapturedStatus(calls) == calls[i].code
      {
        if i < n {
          assert init[i] == calls[i];
          assert forall j :: i < j < |init| ==> init[j] == calls[j];
        }
      }
    }
  }

  /** Capturing a body distributes over a sequence of calls split in two. */
  lemma {:induction false} CapturedBodyAppend(a: seq<WriterCall>, b: seq<WriterCall>, encode: ErrorResponse -> seq<byte>)
    ensures CapturedBody(a + b, encode) == CapturedBody(a, encode) + CapturedBody(b, encode)
    decreases |b|
  {
    if b == [] {
      assert a + b == a;
    } else {
      var n := |b| - 1;
      var z := BytesOf(b[n], encode);
      assert CapturedBody(a + b, encode) == CapturedBody(a + b[..n], encode) + z by {
        var ab := a + b;
        assert ab[..|ab| - 1] == a + b[..n];
        assert ab[|ab| - 1] == b[n];
      }
      CapturedBodyAppend(a, b[..n], encode);
      var x, y := CapturedBody(a, encode), CapturedBody(b[..n], encode);
      assert CapturedBody(b, encode) == y + z;
      assert (x + y) + z == x + (y + z);
    }
  }

  /** responseWriter: remembers the status and the body, and forwards every call to the writer it wraps. */
  class ResponseWriter {
    var statusCode: int
    var body: seq<byte>
    /** The calls passed on to the wrapped http.ResponseWriter. */
    var forwarded: seq<WriterCall>

    constructor ()
      ensures statusCode == StatusOK && body == [] && forwarded == []
    {
      statusCode := StatusOK;
      body := [];
      forwarded := [];
    }

    method Write(data: seq<byte>)
      modifies this
      ensures body == old(body) + data && forwarded == old(forwarded) + [Http.Write(data)]
      ensures statusCode == old(statusCode)
    {
      body := body + data;
      forwarded := forwarded + [Http.Write(data)];
    }

    method WriteHeader(code: int)
      modifies this
      ensures statusCode == code && forwarded == old(forwarded) + [Http.WriteHeader(code)]
      ensures body == old(body)
    {
      statusCode := code;
      forwarded := forwarded + [Http.WriteHeader(code)];
    }

    /** json.NewEncoder(rw).Encode(v): one Write of the encoding. */
    method WriteJson(v: ErrorResponse, encode: ErrorResponse -> seq<byte>)
      modifies this
      ensures body == old(body) + encode(v) && forwarded == old(forwarded) + [Http.WriteJson(v)]
      ensures statusCode == old(statusCode)
    {
      body := body + encode(v);
      forwarded := forwarded + [Http.WriteJson(v)];
    }

    /** The calls a handler makes, made on this writer one after another. */
    method Serve(calls: seq<WriterCall>, encode: ErrorResponse -> seq<byte>)
      modifies this
      ensures statusCode == StatusAfter(old(statusCode), calls)
      ensures body == old(body) + CapturedBody(calls, encode)
      ensures forwarded == old(forwarded) + calls
    {
      var i := 0;
      while i < |calls|
        invariant 0 <= i <= |calls|
        invariant statusCode == StatusAfter(old(statusCode), calls[..i])
        invariant body == old(body) + CapturedBody(calls[..i], encode)
        invariant forwarded == old(forwarded) + calls[..i]
      {
        assert calls[..i + 1][..i] == calls[..i];
        match calls[i] {
          case WriteHeader(code) => WriteHeader(code);
          case Write(data) => Write(data);
          case WriteJson(v) => WriteJson(v, encode);
        }
        i := i + 1;
      }
      assert calls[..|calls|] == calls;
    }
  }

  /** A fresh capturing writer that served a handler's calls holds exactly CapturedStatus and CapturedBody. */
  method Capture(calls: seq<WriterCall>, encode: ErrorResponse -> seq<byte>) returns (status: int, body: seq<byte>)
    ensures status == CapturedStatus(calls) && body == CapturedBody(calls, encode)
  {
    var rw := new ResponseWriter();
    rw.Serve(calls, encode);
    status, body := rw.statusCode, rw.body;
  }

  // ------------------------------------------------------------ cache key

  /** The request headers that take part in the key, in this order. */
  const CacheHeaders := ["Accept", "Accept-Language", "Accept-Encoding"]

  /** "Name:value" for each of the first n key headers that is present and non-empty. */
  function HeaderPart(r: Request, n: nat): string
    requires n <= |CacheHeaders|
  {
    if n == 0 then ""
    else
      var name := CacheHeaders[n - 1];
      var value := Get(r.header, name);
      HeaderPart(r, n - 1) + (if value != "" then name + ":" + value else "")
  }

  /** Everything generateCacheKey feeds the hash, unseparated: path, raw query, then the key headers. */
  function CacheKeyInput(r: Request): string {
    r.path + r.rawQuery + HeaderPart(r, |CacheHeaders|)
  }

  /** The cache key: the first 16 hex digits of the hash. */
  function CacheKey(r: Request, sha: Sha256): (key: string)
    ensures |key| == 16 && forall k :: 0 <= k < 16 ==> IsHexDigit(key[k])
  {
    HexEncodePrefix(sha(CacheKeyInput(r)), 8);
    HexEncode(sha(CacheKeyInput(r)))[..16]
  }

  /** generateCacheKey's loop over the key headers: "Name:value" for each one present. */
  method KeyHeaders(r: Request) returns (headers: string)
    ensures headers == HeaderPart(r, |CacheHeaders|)
  {
    headers := "";
    var i := 0;
    while i < |CacheHeaders|
      invariant 0 <= i <= |CacheHeaders|
      invariant headers == HeaderPart(r, i)
    {
      var name := CacheHeaders[i];
      var value := Get(r.header, name);
      if value != "" {
        headers := headers + (name + ":" + value);
      }
      i := i + 1;
    }
  }

  /** generateCacheKey. */
  method GenerateCacheKey(r: Request, sha: Sha256) returns (key: string)
    ensures key == CacheKey(r, sha)
  {
    var headers := KeyHeaders(r);
    var written := r.path + r.rawQuery + headers;
    key := HexEncode(sha(written))[..16];
  }

  /**
   * Requests that differ only in headers outside the three key headers
   * share a key (Authorization requests never get this far, and cookies
   * take no part).
   */
  lemma {:induction false} CacheKeyIgnoresOtherHeaders(r1: Request, r2: Request, sha: Sha256)
    requires r1.path == r2.path && r1.rawQuery == r2.rawQuery
    requires forall k :: 0 <= k < |CacheHeaders| ==> Get(r1.header, CacheHeaders[k]) == Get(r2.header, CacheHeaders[k])
    ensures CacheKey(r1, sha) == CacheKey(r2, sha)
  {
    assert HeaderPart(r1, 1) == HeaderPart(r2, 1);
    assert HeaderPart(r1, 2) == HeaderPart(r2, 2);
    assert HeaderPart(r1, 3) == HeaderPart(r2, 3);
  }

  // ------------------------------------------------------------ replay headers

  /** The response header map after adding every stored value to it. */
  function WithStoredHeaders(h: Header, stored: Header): (r: Header)
    ensures forall n :: Values(r, n) == Values(h, n) + Values(stored, n)
  {
    map n | n in h.Keys + stored.Keys :: Values(h, n) + Values(stored, n)
  }

  /** The inner loop of the hit path: Header.Add of each value under one name, in order. */
  method AddValues(h: Header, name: string, values: seq<string>) returns (r: Header)
    ensures Values(r, name) == Values(h, name) + values
    ensures forall n :: n != name ==> Values(r, n) == Values(h, n)
  {
    r := h;
    var j := 0;
    while j < |values|
      invariant 0 <= j <= |values|
      invariant Values(r, name) == Values(h, name) + values[..j]
      invariant forall n :: n != name ==> Values(r, n) == Values(h, n)
    {
      assert values[..j + 1] == values[..j] + [values[j]];
      r := Add(r, name, values[j]);
      j := j + 1;
    }
    assert values[..j] == values;
  }

  /**
   * The hit path's nested loops: for each stored name, in the order the
   * runtime's map iteration gives (any order that lists each name once),
   * Header.Add of each of its values.
   */
  method AddStoredHeaders(h: Header, stored: Header, names: seq<string>) returns (r: Header)
    requires forall i, j :: 0 <= i < j < |names| ==> names[i] != names[j]
    requires forall n :: n in stored <==> n in names
    ensures forall n :: Values(r, n) == Values(WithStoredHeaders(h, stored), n)
  {
    r := h;
    var i := 0;
    while i < |names|
      invariant 0 <= i <= |names|
      invariant forall n :: n in names[..i] ==> Values(r, n) == Values(h, n) + Values(stored, n)
      invariant forall n :: n !in names[..i] ==> Values(r, n) == Values(h, n)
    {
      var name := names[i];
      assert name !in names[..i];
      assert names[..i + 1] == names[..i] + [name];
      r := AddValues(r, name, stored[name]);
      i := i + 1;
    }
    assert names[..|names|] == names;
  }

  // -------------------------------------------------------------- middleware

  /** A cache lookup: the stored response, or None on a miss or an error. */
  type Lookup = string -> Option<CachedResponse>

  /**
   * The middleware's environment: the lookup, the hash, the JSON encoder of
   * error bodies, time.Time.Format(time.RFC3339), and the time a miss is
   * cached at.
   */
  datatype Env = Env(lookup: Lookup, sha: Sha256, encode: ErrorResponse -> seq<byte>,
                     rfc3339: int -> string, now: int)

  /** The hit path: HIT, the cache date, the stored headers, then the stored status and body. */
  function ServeHit(h: Header, key: string, cached: CachedResponse, env: Env): (o: Outcome)
    ensures o.calls == [WriteHeader(cached.statusCode), Write(cached.body)]
    ensures o.steps == [CacheRead(key)]
    ensures forall n :: n != "X-Cache" && n != "X-Cache-Date" ==> Values(o.header, n) == Values(h, n) + Values(cached.headers, n)
    ensures Values(o.header, "X-Cache") == ["HIT"] + Values(cached.headers, "X-Cache")
    ensures Values(o.header, "X-Cache-Date") == [env.rfc3339(cached.cachedAt)] + Values(cached.headers, "X-Cache-Date")
  {
    var h1 := Set(h, "X-Cache", "HIT");
    var h2 := Set(h1, "X-Cache-Date", env.rfc3339(cached.cachedAt));
    Outcome(WithStoredHeaders(h2, cached.headers), [WriteHeader(cached.statusCode), Write(cached.body)], [CacheRead(key)])
  }

  /** What the miss path schedules: the response, when its captured status is 2xx. */
  function ToStore(key: string, inner: Outcome, env: Env): (s: seq<Step>)
    ensures |s| <= 1
    ensures s != [] <==> 200 <= CapturedStatus(inner.calls) < 300
    ensures s != [] ==> s[0] == CacheWriteScheduled(key, CachedResponse(CapturedStatus(inner.calls), inner.header,
                                                                        CapturedBody(inner.calls, env.encode), env.now))
  {
    var status := CapturedStatus(inner.calls);
    if 200 <= status < 300 then
      [CacheWriteScheduled(key, CachedResponse(status, inner.header, CapturedBody(inner.calls, env.encode), env.now))]
    else []
  }

  /** APICacheMiddleware on one request. */
  function Cached(env: Env, next: Handler, r: Request, h: Header): Outcome {
    if r.httpMethod != "GET" || Get(r.header, "Authorization") != "" then next(r, h)
    else
      var key := CacheKey(r, env.sha);
      match env.lookup(key)
      case Some(cached) => ServeHit(h, key, cached, env)
      case None =>
        var inner := next(r, Set(h, "X-Cache", "MISS"));
        Outcome(inner.header, inner.calls, [CacheRead(key)] + inner.steps + ToStore(key, inner, env))
  }

  /** APICacheMiddleware(cacheDuration); the duration is never read. */
  function APICacheMiddleware(env: Env): Middleware {
    (next: Handler) => (r: Request, h: Header) => Cached(env, next, r, h)
  }

  /** Requests other than GET, and requests with an Authorization header, go straight to the handler. */
  lemma {:induction false} CacheBypass(env: Env, next: Handler, r: Request, h: Header)
    requires r.httpMethod != "GET" || Get(r.header, "Authorization") != ""
    ensures APICacheMiddleware(env)(next)(r, h) == next(r, h)
  {
  }

  /**
   * A hit replays the stored response and never runs the handler: the
   * outcome is the same for any two handlers.
   */
  lemma {:induction false} CacheHitSkipsHandler(env: Env, next1: Handler, next2: Handler, r: Request, h: Header)
    requires r.httpMethod == "GET" && Get(r.header, "Authorization") == ""
    requires env.lookup(CacheKey(r, env.sha)).Some?
    ensures var cached := env.lookup(CacheKey(r, env.sha)).value;
            var o := APICacheMiddleware(env)(next1)(r, h);
            && o.calls == [WriteHeader(cached.statusCode), Write(cached.body)]
            && Get(o.header, "X-Cache") == "HIT"
            && o.steps == [CacheRead(CacheKey(r, env.sha))]
            && o == APICacheMiddleware(env)(next2)(r, h)
  {
  }

  /**
   * A miss runs the handler once, with X-Cache: MISS set; the response is
   * the handler's, and a write is scheduled exactly when the captured
   * status is 2xx.
   */
  lemma {:induction false} CacheMissRunsHandler(env: Env, next: Handler, r: Request, h: Header)
    requires r.httpMethod == "GET" && Get(r.header, "Authorization") == ""
    requires env.lookup(CacheKey(r, env.sha)).None?
    ensures var key := CacheKey(r, env.sha);
            var inner := next(r, Set(h, "X-Cache", "MISS"));
            var o := APICacheMiddleware(env)(next)(r, h);
            && o.calls == inner.calls && o.header == inner.header
            && o.steps[0] == CacheRead(key) && o.steps[1..|inner.steps| + 1] == inner.steps
            && (|o.steps| == |inner.steps| + 2 <==> 200 <= CapturedStatus(inner.calls) < 300)
            && (|o.steps| == |inner.steps| + 1 <==> !(200 <= CapturedStatus(inner.calls) < 300))
  {
  }

  /** Hit or miss, a cacheable request's first step is the lookup under its key. */
  lemma {:induction false} CacheReadFirst(env: Env, next: Handler, r: Request, h: Header)
    requires r.httpMethod == "GET" && Get(r.header, "Authorization") == ""
    ensures var o := APICacheMiddleware(env)(next)(r, h);
            |o.steps| >= 1 && o.steps[0] == CacheRead(CacheKey(r, env.sha))
  {
  }

  /**
   * The stored headers are the response's headers after the handler, which
   * still hold the MISS marker unless the handler changed it; serving that
   * entry later gives X-Cache: HIT followed by the stored MISS.
   */
  lemma {:induction false} HitRepeatsStoredMarker(env: Env, next: Handler, r: Request, h: Header, later: Env)
    requires r.httpMethod == "GET" && Get(r.header, "Authorization") == ""
    requires env.lookup(CacheKey(r, env.sha)).None?
    requires var inner := next(r, Set(h, "X-Cache", "MISS"));
             200 <= CapturedStatus(inner.calls) < 300 && Values(inner.header, "X-Cache") == ["MISS"]
    requires later.sha == env.sha
    requires var o := APICacheMiddleware(env)(next)(r, h);
             && |o.steps| >= 1 && o.steps[|o.steps| - 1].CacheWriteScheduled?
             && later.lookup(CacheKey(r, env.sha)) == Some(o.steps[|o.steps| - 1].response)
    ensures Values(APICacheMiddleware(later)(next)(r, h).header, "X-Cache") == ["HIT", "MISS"]
  {
    var key := CacheKey(r, env.sha);
    var inner := next(r, Set(h, "X-Cache", "MISS"));
    var stored := CachedResponse(CapturedStatus(inner.calls), inner.header, CapturedBody(inner.calls, env.encode), env.now);
    var o := Cached(env, next, r, h);
    assert o.steps == [CacheRead(key)] + inner.steps + [CacheWriteScheduled(key, stored)];
    assert later.lookup(key) == Some(stored);
    assert Cached(later, next, r, h) == ServeHit(h, key, stored, later);
  }
}
