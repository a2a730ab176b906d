/**
  The HTTP client wrapper (src/api/client.js): the bearer-token slot in
  persistent storage and `request`, which builds the URL and headers,
  reads the body as JSON or text and turns a non-2xx status into an error.

  `localStorage` is an explicit `Storage` map, `fetch` is replaced by the
  `Response` the server gave, and `JSON.parse` is the `parse` parameter.
 */
module Client {
  import opened Js

  /** Browser-persistent storage: slot name to stored string. */
  type Storage = map<string, string>

  const TOKEN_KEY := "xdsec_token"
  const DEFAULT_API_BASE := "/api/v2"
  const JSON_TYPE := "application/json"
  const REQUEST_FAILED := "Request failed"
  /** The message of the `SyntaxError` thrown by `response.json()`; engine-specific. */
  const BAD_JSON := "Unexpected token in JSON"

  /** `VITE_API_BASE_URL || "/api/v2"`; an unset variable is passed as "". */
  function ApiBase(env: string): (base: string)
    ensures env != "" ==> base == env
    ensures env == "" ==> base == DEFAULT_API_BASE
  {
    if env != "" then env else DEFAULT_API_BASE
  }

  // ---------------------------------------------------------------------
  // The token slot
  // ---------------------------------------------------------------------

  /** `getItem(TOKEN_KEY) || ""`. */
  function GetToken(st: Storage): (t: string)
    ensures TOKEN_KEY !in st ==> t == ""
    ensures TOKEN_KEY in st ==> t == st[TOKEN_KEY]
  {
    if TOKEN_KEY in st then st[TOKEN_KEY] else ""
  }

  /** Writes the token slot only for a truthy token; `setItem` stores `String(token)`. */
  function SetToken(st: Storage, token: Json): (st': Storage)
    ensures !Truthy(token) ==> st' == st
    ensures Truthy(token) ==> TOKEN_KEY in st' && st'[TOKEN_KEY] == ToJsString(token)
    ensures forall k :: k != TOKEN_KEY ==> (k in st' <==> k in st)
    ensures forall k :: k != TOKEN_KEY && k in st ==> st'[k] == st[k]
  {
    if Truthy(token) then st[TOKEN_KEY := ToJsString(token)] else st
  }

  /** Removes the token slot and no other. */
  function ClearToken(st: Storage): (st': Storage)
    ensures TOKEN_KEY !in st'
    ensures forall k :: k != TOKEN_KEY ==> (k in st' <==> k in st)
    ensures forall k :: k != TOKEN_KEY && k in st ==> st'[k] == st[k]
  {
    st - {TOKEN_KEY}
  }

  /** A stored non-empty token reads back unchanged. */
  lemma TokenRoundTrip(st: Storage, t: string)
    requires t != ""
    ensures GetToken(SetToken(st, Str(t))) == t
  {
  }

  /** After clearing, the client sends no credentials. */
  lemma ClearedTokenReadsEmpty(st: Storage)
    ensures GetToken(ClearToken(st)) == ""
  {
  }

  // ---------------------------------------------------------------------
  // request
  // ---------------------------------------------------------------------

  /** The options object a caller passes; `body` is the value handed to
      `JSON.stringify`. */
  datatype Options = Options(httpMethod: Option<string>, headers: Option<map<string, string>>, body: Option<Json>)

  /** What `request` hands to `fetch`. */
  datatype FetchInit = FetchInit(url: string, httpMethod: Option<string>, headers: map<string, string>, body: Option<Json>)

  /** What the server answered, or a transport failure of `fetch`. */
  datatype Response =
    | Received(status: int, contentType: Option<string>, text: string)
    | NetworkFailure(message: string)

  datatype Exchange = Exchange(sent: FetchInit, outcome: Result<Json>)

  /** `response.ok` (the Fetch standard: a status in 200..299). */
  predicate IsOk(status: int)
  {
    200 <= status <= 299
  }

  /** `{ "Content-Type": "application/json", ...(headers || {}) }`, then
      `Authorization` when a token is stored. */
  function Headers(caller: map<string, string>, token: string): (h: map<string, string>)
    ensures "Content-Type" in h
    ensures "Content-Type" !in caller ==> h["Content-Type"] == JSON_TYPE
    ensures token != "" ==> "Authorization" in h && h["Authorization"] == "Bearer " + token
    ensures token == "" ==> ("Authorization" in h <==> "Authorization" in caller)
    ensures forall k :: k in caller && (k != "Authorization" || token == "") ==> k in h && h[k] == caller[k]
    ensures forall k :: k in h ==> k == "Content-Type" || k == "Authorization" || k in caller
  {
    var base := map["Content-Type" := JSON_TYPE] + caller;
    if token != "" then base["Authorization" := "Bearer " + token] else base
  }

  /** `response.json()` when the content type mentions JSON, else `response.text()`. */
  function ReadBody(contentType: Option<string>, text: string, parse: string -> Option<Json>): (r: Result<Json>)
    ensures !Includes(contentType.GetOr(""), JSON_TYPE) ==> r == Ok(Str(text))
    ensures Includes(contentType.GetOr(""), JSON_TYPE) && parse(text).Some? ==> r == Ok(parse(text).value)
    ensures Includes(contentType.GetOr(""), JSON_TYPE) && parse(text).None? ==> r == Err(Thrown(BAD_JSON))
  {
    if Includes(contentType.GetOr(""), JSON_TYPE) then
      match parse(text)
      case Some(v) => Ok(v)
      case None => Err(Thrown(BAD_JSON))
    else Ok(Str(text))
  }

  /** The error thrown for a non-2xx status: `new Error(body?.message || "Request failed")`. */
  function HttpFailure(status: int, body: Json): (e: Error)
    ensures e.HttpError? && e.status == status && e.payload == body
    ensures Truthy(Chain(body, "message")) ==> e.message == ToJsString(Chain(body, "message"))
    ensures !Truthy(Chain(body, "message")) ==> e.message == REQUEST_FAILED
  {
    HttpError(ToJsString(Or(Chain(body, "message"), Str(REQUEST_FAILED))), status, body)
  }

  /** `request(path, options)`: the init handed to `fetch` and how the
      returned promise settles. */
  function Request(env: string, st: Storage, path: string, opts: Options, resp: Response,
                   parse: string -> Option<Json>): (x: Exchange)
    ensures x.sent.url == ApiBase(env) + path
    ensures x.sent.httpMethod == opts.httpMethod && x.sent.body == opts.body
    ensures x.sent.headers == Headers(opts.headers.GetOr(map[]), GetToken(st))
    ensures resp.NetworkFailure? ==> x.outcome == Err(Thrown(resp.message))
    ensures resp.Received? ==>
      var body := ReadBody(resp.contentType, resp.text, parse);
      && (body.Err? ==> x.outcome == body)
      && (body.Ok? && IsOk(resp.status) ==> x.outcome == body)
      && (body.Ok? && !IsOk(resp.status) ==> x.outcome == Err(HttpFailure(resp.status, body.value)))
  {
    var headers := Headers(opts.headers.GetOr(map[]), GetToken(st));
    var sent := FetchInit(ApiBase(env) + path, opts.httpMethod, headers, opts.body);
    match resp
    case NetworkFailure(m) => Exchange(sent, Err(Thrown(m)))
    case Received(status, contentType, text) =>
      match ReadBody(contentType, text, parse)
      case Err(e) => Exchange(sent, Err(e))
      case Ok(body) =>
        if IsOk(status) then Exchange(sent, Ok(body))
        else Exchange(sent, Err(HttpFailure(status, body)))
  }

  /** The credential a server reads back from an `Authorization: Bearer` header. */
  function BearerToken(headers: map<string, string>): string
  {
    if "Authorization" in headers && StartsWith(headers["Authorization"], "Bearer ")
    then headers["Authorization"][|"Bearer "|..]
    else ""
  }

  /** The header carries exactly the stored token: a server decoding it
      recovers what `getToken` returned, and recovers nothing when no token
      is stored (for callers that set no `Authorization` header themselves). */
  lemma BearerRecoversToken(env: string, st: Storage, path: string, opts: Options, resp: Response,
                            parse: string -> Option<Json>)
    requires "Authorization" !in opts.headers.GetOr(map[])
    ensures BearerToken(Request(env, st, path, opts, resp, parse).sent.headers) == GetToken(st)
  {
    var h := Request(env, st, path, opts, resp, parse).sent.headers;
    var t := GetToken(st);
    if t != "" {
      assert h["Authorization"] == "Bearer " + t;
      assert StartsWith(h["Authorization"], "Bearer ");
      assert h["Authorization"][|"Bearer "|..] == t;
    }
  }

  /** A successful request resolves to the body exactly as read. */
  lemma OkReturnsBody(env: string, st: Storage, path: string, opts: Options, status: int,
                      contentType: Option<string>, text: string, parse: string -> Option<Json>)
    requires IsOk(status)
    ensures var x := Request(env, st, path, opts, Received(status, contentType, text), parse);
            x.outcome == ReadBody(contentType, text, parse)
  {
  }
}
