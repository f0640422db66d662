/**
 * The slice of net/http the server code relies on: a header map with
 * Get/Set/Add, requests, what a handler writes, and handlers and
 * middlewares as values.
 *
 * A handler is run on a request and on the response header map as it stands
 * when the handler is entered (outer middlewares set headers before calling
 * inward); it yields the final header map, the calls it made on the
 * ResponseWriter, and a trace of the observable steps taken on the way
 * (rate-limit checks, cache reads and writes, what the endpoint logs).
 */
module Http {
  import opened Wrappers
  import opened Text

  /** http.Header: header name to its values, in the order they were added. */
  type Header = map<string, seq<string>>

  function Values(h: Header, name: string): seq<string> {
    if name in h then h[name] else []
  }

  /** Header.Get: the first value, or "" when there is none. */
  function Get(h: Header, name: string): (v: string)
    ensures Values(h, name) == [] ==> v == ""
    ensures Values(h, name) != [] ==> v == Values(h, name)[0]
  {
    if Values(h, name) == [] then "" else Values(h, name)[0]
  }

  /** Header.Set: replaces every value of one name by a single value. */
  function Set(h: Header, name: string, v: string): (r: Header)
    ensures Values(r, name) == [v]
    ensures forall n :: n != name ==> Values(r, n) == Values(h, n)
  {
    h[name := [v]]
  }

  /** Header.Add: appends one value to a name. */
  function Add(h: Header, name: string, v: string): (r: Header)
    ensures Values(r, name) == Values(h, name) + [v]
    ensures forall n :: n != name ==> Values(r, n) == Values(h, n)
  {
    h[name := Values(h, name) + [v]]
  }

  /** The request-scoped values the server stores with context.WithValue. */
  datatype Context = Context(userId: Option<int>, email: Option<string>, sessionId: Option<int>)

  const EmptyContext := Context(None, None, None)

  datatype Request = Request(
    httpMethod: string,
    path: string,
    rawQuery: string,
    header: Header,
    cookies: map<string, string>,
    remoteAddr: string,
    context: Context)

  /** utils.ErrorResponse, the JSON object WriteError sends. */
  datatype ErrorResponse = ErrorResponse(error: string, message: string)

  /** A call made on the ResponseWriter. WriteJson stands for json.NewEncoder(w).Encode(v). */
  datatype WriterCall =
    | WriteHeader(code: int)
    | Write(data: seq<byte>)
    | WriteJson(value: ErrorResponse)

  /** The response the cache middleware stores and replays (middleware.ResponseCache). */
  datatype CachedResponse = CachedResponse(statusCode: int, headers: Header, body: seq<byte>, cachedAt: int)

  /** The observable steps a request takes through the middlewares and the endpoint. */
  datatype Step =
    | RateLimitChecked(identifier: string)
    | CacheRead(key: string)
    | CacheWriteScheduled(key: string, response: CachedResponse)
    | Endpoint(name: string)

  datatype Outcome = Outcome(header: Header, calls: seq<WriterCall>, steps: seq<Step>)

  type Handler = (Request, Header) -> Outcome

  type Middleware = Handler -> Handler

  const StatusOK := 200
  const StatusUnauthorized := 401
  const StatusMethodNotAllowed := 405
  const StatusTooManyRequests := 429

  /** http.StatusText for the statuses the server writes itself. */
  function StatusText(code: int): string {
    if code == 200 then "OK"
    else if code == 401 then "Unauthorized"
    else if code == 405 then "Method Not Allowed"
    else if code == 429 then "Too Many Requests"
    else ""
  }

  /** utils.WriteError: a JSON content type, the status, then the error object. */
  function WriteError(h: Header, status: int, message: string): (o: Outcome)
    ensures Get(o.header, "Content-Type") == "application/json"
    ensures o.calls == [WriteHeader(status), WriteJson(ErrorResponse(StatusText(status), message))]
    ensures o.steps == []
  {
    Outcome(Set(h, "Content-Type", "application/json"),
            [WriteHeader(status), WriteJson(ErrorResponse(StatusText(status), message))], [])
  }

  /** The bytes of an ASCII string. */
  function Ascii(s: string): (b: seq<byte>)
    requires forall k :: 0 <= k < |s| ==> s[k] as int < 128
    ensures |b| == |s|
  {
    if s == [] then [] else [s[0] as int as byte] + Ascii(s[1..])
  }

  /** http.Error: a plain-text content type, nosniff, the status, then the message and a newline. */
  function HttpError(h: Header, message: string, status: int): (o: Outcome)
    requires forall k :: 0 <= k < |message| ==> message[k] as int < 128
    ensures Get(o.header, "Content-Type") == "text/plain; charset=utf-8"
    ensures Get(o.header, "X-Content-Type-Options") == "nosniff"
    ensures o.calls == [WriteHeader(status), Write(Ascii(message + "\n"))]
    ensures o.steps == []
  {
    var h1 := Set(h, "Content-Type", "text/plain; charset=utf-8");
    Outcome(Set(h1, "X-Content-Type-Options", "nosniff"),
            [WriteHeader(status), Write(Ascii(message + "\n"))], [])
  }
}
