/**
  Authentication endpoints (src/api/auth.js). Passwords leave the client
  only as their SHA-256 hex digest, which the model takes as the `hash`
  parameter; a token in a successful answer is stored in the token slot.
 */
module AuthApi {
  import opened Js
  import Client
  import Api

  /** The names `auth.js` exports; a page calling `authApi.<name>` through
      the namespace import gets `undefined` for any other name. */
  const EXPORTS := {"register", "login", "logout", "changePassword", "me"}

  /** Calling `authApi[name](...)`: the call's own outcome when the module
      exports `name`, otherwise the `TypeError` of calling `undefined`,
      raised before any request is made. */
  function CallExport(name: string, outcome: Result<Json>): (r: Result<Json>)
    ensures name in EXPORTS ==> r == outcome
    ensures name !in EXPORTS ==> r.Err? && r.error.Thrown? && r.error.message != ""
  {
    if name in EXPORTS then outcome else Err(Thrown("authApi." + name + " is not a function"))
  }

  /** `{ ...payload, password: hashed }`. */
  function HashedCredentials(payload: Json, hash: Json -> string): (body: Json)
    ensures body.Obj? && body.fields.Keys == Own(payload).Keys + {"password"}
    ensures body.fields["password"] == Str(hash(Get(payload, "password")))
    ensures forall k :: k in Own(payload) && k != "password" ==> body.fields[k] == Own(payload)[k]
  {
    Obj(Own(payload)["password" := Str(hash(Get(payload, "password")))])
  }

  /** The `.then` of `register` and `login`: store `data.data.token` when it
      is truthy, and hand the answer on unchanged. */
  function AfterAuth(st: Client.Storage, outcome: Result<Json>): (r: (Client.Storage, Result<Json>))
    ensures r.1 == outcome
    ensures outcome.Ok? && Truthy(Chain(Chain(outcome.value, "data"), "token")) ==>
      Client.GetToken(r.0) == ToJsString(Chain(Chain(outcome.value, "data"), "token"))
    ensures outcome.Err? || !Truthy(Chain(Chain(outcome.value, "data"), "token")) ==> r.0 == st
    ensures forall k :: k != Client.TOKEN_KEY ==> (k in r.0 <==> k in st) && (k in st ==> r.0[k] == st[k])
  {
    match outcome
    case Err(_) => (st, outcome)
    case Ok(data) => (Client.SetToken(st, Chain(Chain(data, "data"), "token")), outcome)
  }

  /** What a call to `register` or `login` did: the request it sent (none
      when reading the password threw), the storage afterwards and how its
      promise settled. */
  datatype AuthOutcome = AuthOutcome(sent: Option<Client.FetchInit>, storage: Client.Storage, result: Result<Json>)

  /** The options `register` and `login` pass to `request`. */
  function CredentialOptions(payload: Json, hash: Json -> string): Client.Options
  {
    Client.Options(Some("POST"), None, Some(HashedCredentials(payload, hash)))
  }

  /** `register` and `login` share this shape; they differ only in `path`.
      Reading `payload.password` of a missing payload throws before any
      request. */
  function Authenticate(path: string, env: string, st: Client.Storage, payload: Json, hash: Json -> string,
                        resp: Client.Response, parse: string -> Option<Json>): (o: AuthOutcome)
    ensures Nullish(payload) <==> o.sent.None?
    ensures Nullish(payload) ==> o.storage == st && o.result.Err?
    ensures o.sent.Some? ==>
      var x := Client.Request(env, st, path, CredentialOptions(payload, hash), resp, parse);
      o.sent.value == x.sent && o.result == x.outcome
    ensures o.result.Err? ==> o.storage == st
    ensures o.result.Ok? && Truthy(Chain(Chain(o.result.value, "data"), "token")) ==>
      Client.GetToken(o.storage) == ToJsString(Chain(Chain(o.result.value, "data"), "token"))
    ensures o.result.Ok? && !Truthy(Chain(Chain(o.result.value, "data"), "token")) ==> o.storage == st
    ensures forall k :: k != Client.TOKEN_KEY ==> (k in o.storage <==> k in st) && (k in st ==> o.storage[k] == st[k])
  {
    if Nullish(payload) then AuthOutcome(None, st, Err(Thrown(TypeErrorMessage("password"))))
    else
      var x := Client.Request(env, st, path, CredentialOptions(payload, hash), resp, parse);
      var after := AfterAuth(st, x.outcome);
      AuthOutcome(Some(x.sent), after.0, after.1)
  }

  /** `register(payload)` creates an account: the credentials go to
      `/auth/register`, and the token slot is written exactly when the
      answer carries a truthy `data.data.token`; otherwise the storage is
      as it was. */
  function Register(env: string, st: Client.Storage, payload: Json, hash: Json -> string,
                    resp: Client.Response, parse: string -> Option<Json>): (r: AuthOutcome)
    ensures r.sent.Some? ==> r.sent.value.url == Client.ApiBase(env) + "/auth/register"
    ensures r.result.Ok? && Truthy(Chain(Chain(r.result.value, "data"), "token")) ==>
      Client.GetToken(r.storage) == ToJsString(Chain(Chain(r.result.value, "data"), "token"))
    ensures r.result.Err? || !Truthy(Chain(Chain(r.result.value, "data"), "token")) ==> r.storage == st
  {
    Authenticate("/auth/register", env, st, payload, hash, resp, parse)
  }

  /** `login(payload)` signs in: the credentials go to `/auth/login`, and
      the token slot is written exactly when the answer carries a truthy
      `data.data.token`; otherwise the storage is as it was. */
  function Login(env: string, st: Client.Storage, payload: Json, hash: Json -> string,
                 resp: Client.Response, parse: string -> Option<Json>): (r: AuthOutcome)
    ensures r.sent.Some? ==> r.sent.value.url == Client.ApiBase(env) + "/auth/login"
    ensures r.result.Ok? && Truthy(Chain(Chain(r.result.value, "data"), "token")) ==>
      Client.GetToken(r.storage) == ToJsString(Chain(Chain(r.result.value, "data"), "token"))
    ensures r.result.Err? || !Truthy(Chain(Chain(r.result.value, "data"), "token")) ==> r.storage == st
  {
    Authenticate("/auth/login", env, st, payload, hash, resp, parse)
  }

  /** The credentials go out as a POST to the endpoint, with the password
      replaced by its digest and every other field as the caller gave it. */
  lemma CredentialsSentHashed(path: string, env: string, st: Client.Storage, payload: Json, hash: Json -> string,
                              resp: Client.Response, parse: string -> Option<Json>)
    requires !Nullish(payload)
    ensures var o := Authenticate(path, env, st, payload, hash, resp, parse);
      && o.sent.Some?
      && o.sent.value.url == Client.ApiBase(env) + path
      && o.sent.value.httpMethod == Some("POST")
      && o.sent.value.body.Some? && o.sent.value.body.value.Obj?
      && o.sent.value.body.value.fields["password"] == Str(hash(Get(payload, "password")))
      && forall k :: k in Own(payload) && k != "password" ==> o.sent.value.body.value.fields[k] == Own(payload)[k]
  {
  }

  /** A token in a successful answer authorises every later request: the
      next request carries it as its bearer credential. */
  lemma TokenAuthorisesLaterRequests(path: string, env: string, st: Client.Storage, payload: Json,
                                     hash: Json -> string, resp: Client.Response, parse: string -> Option<Json>,
                                     nextPath: string, nextOpts: Client.Options, nextResp: Client.Response)
    requires !Nullish(payload)
    requires "Authorization" !in nextOpts.headers.GetOr(map[])
    requires var o := Authenticate(path, env, st, payload, hash, resp, parse);
      o.result.Ok? && Truthy(Chain(Chain(o.result.value, "data"), "token"))
    ensures var o := Authenticate(path, env, st, payload, hash, resp, parse);
      var token := ToJsString(Chain(Chain(o.result.value, "data"), "token"));
      Client.BearerToken(Client.Request(env, o.storage, nextPath, nextOpts, nextResp, parse).sent.headers) == token
  {
    var o := Authenticate(path, env, st, payload, hash, resp, parse);
    Client.BearerRecoversToken(env, o.storage, nextPath, nextOpts, nextResp, parse);
  }

  /** `logout()`: clears the token and resolves `{ ok: true }` without any
      request. */
  function Logout(st: Client.Storage): (r: (Client.Storage, Json))
    ensures Client.GetToken(r.0) == "" && Client.TOKEN_KEY !in r.0
    ensures forall k :: k != Client.TOKEN_KEY ==> (k in r.0 <==> k in st) && (k in st ==> r.0[k] == st[k])
    ensures r.1 == Obj(map["ok" := Bool(true)])
  {
    (Client.ClearToken(st), Obj(map["ok" := Bool(true)]))
  }

  /** `changePassword(payload)`: exactly the two digests, nothing else of
      the payload. */
  function ChangePassword(payload: Json, hash: Json -> string): (r: Result<Api.Call>)
    ensures r.Err? <==> Nullish(payload)
    ensures r.Ok? ==> r.value.path == "/auth/change-password" && r.value.options.httpMethod == Some("POST")
    ensures r.Ok? ==> r.value.options.body.Some? && r.value.options.body.value.Obj?
    ensures r.Ok? ==> r.value.options.body.value.fields.Keys == {"old_password", "new_password"}
    ensures r.Ok? ==> r.value.options.body.value.fields["old_password"] == Str(hash(Get(payload, "old_password")))
    ensures r.Ok? ==> r.value.options.body.value.fields["new_password"] == Str(hash(Get(payload, "new_password")))
  {
    if Nullish(payload) then Err(Thrown(TypeErrorMessage("old_password")))
    else
      Ok(Api.Send("POST", "/auth/change-password", Obj(map[
        "old_password" := Str(hash(Get(payload, "old_password"))),
        "new_password" := Str(hash(Get(payload, "new_password")))])))
  }

  function Me(): Api.Call
  {
    Api.Fetch("/auth/me")
  }

  /** `me()` reads the signed-in user: a plain GET of `/auth/me`. */
  lemma MeRoute()
    ensures Api.Segments(Me().path) == ["", "auth", "me"]
    ensures Me().options.httpMethod.None? && Me().options.body.None?
  {
    assert Me().path == "/" + "auth" + "/" + "me";
    Api.Route2("auth", "me");
  }

  /** Registration and login differ only in their endpoint: both POST the
      credentials with the password replaced by its digest. */
  lemma AuthEndpoints(env: string, st: Client.Storage, payload: Json, hash: Json -> string,
                      resp: Client.Response, parse: string -> Option<Json>)
    requires !Nullish(payload)
    ensures var r := Register(env, st, payload, hash, resp, parse);
      && r.sent.Some? && r.sent.value.url == Client.ApiBase(env) + "/auth/register"
      && r.sent.value.httpMethod == Some("POST")
      && r.sent.value.body.Some? && r.sent.value.body.value.Obj?
      && r.sent.value.body.value.fields["password"] == Str(hash(Get(payload, "password")))
    ensures var l := Login(env, st, payload, hash, resp, parse);
      && l.sent.Some? && l.sent.value.url == Client.ApiBase(env) + "/auth/login"
      && l.sent.value.httpMethod == Some("POST")
      && l.sent.value.body == Register(env, st, payload, hash, resp, parse).sent.value.body
  {
    CredentialsSentHashed("/auth/register", env, st, payload, hash, resp, parse);
    CredentialsSentHashed("/auth/login", env, st, payload, hash, resp, parse);
  }

  /** The email-code and password-reset calls the pages make are not among
      the exports, so every such call rejects with a `TypeError`. */
  lemma EmailCodeCallsMissing(outcome: Result<Json>)
    ensures CallExport("requestEmailCode", outcome).Err?
    ensures CallExport("resetPassword", outcome).Err?
  {
  }
}
