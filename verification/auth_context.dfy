/**
  The session state machine of `AuthProvider` (src/context/AuthContext.jsx):
  the signed-in user, the loading flag and the browser storage, with the
  transitions `refresh`, `login` and `logout`. The signed-in user is kept
  in the `xdsec_user` slot as JSON text so that a later refresh can merge
  it with what the server reports.
 */
module AuthContext {
  import opened Js
  import Client
  import AuthApi

  const USER_KEY := "xdsec_user"
  const OUTSIDE_PROVIDER := "useAuth must be used within AuthProvider"

  /** The provider's state; `user` is `null` when nobody is signed in. */
  datatype Session = Session(user: Json, loading: bool, storage: Client.Storage)

  /** `useState(null)` and `useState(true)`, over whatever storage the
      browser holds. */
  function Initial(st: Client.Storage): (s: Session)
    ensures s.user == Null && s.loading && s.storage == st
  {
    Session(Null, true, st)
  }

  /** `stored ? JSON.parse(stored) : null`; None when parsing throws. */
  function CachedUser(parse: string -> Option<Json>, st: Client.Storage): (r: Option<Json>)
    ensures USER_KEY !in st || st[USER_KEY] == "" ==> r == Some(Null)
    ensures USER_KEY in st && st[USER_KEY] != "" ==> r == parse(st[USER_KEY])
  {
    if USER_KEY in st && st[USER_KEY] != "" then parse(st[USER_KEY]) else Some(Null)
  }

  /** `data?.data?.user || null`. */
  function ServerUser(data: Json): (u: Json)
    ensures Truthy(Chain(Chain(data, "data"), "user")) ==> u == Chain(Chain(data, "data"), "user")
    ensures !Truthy(Chain(Chain(data, "data"), "user")) ==> u == Null
  {
    Or(Chain(Chain(data, "data"), "user"), Null)
  }

  /** The cached and the server user describe the same account. */
  predicate SameAccount(cached: Json, current: Json)
  {
    Truthy(current) && Truthy(cached) && StrictEq(Get(cached, "email"), Get(current, "email"))
  }

  /** `{ ...cached, ...current }` for the same account, otherwise `current`. */
  function Merge(cached: Json, current: Json): (m: Json)
    ensures SameAccount(cached, current) ==> m.Obj? && m.fields.Keys == Own(cached).Keys + Own(current).Keys
    ensures SameAccount(cached, current) ==> forall k :: k in Own(current) ==> m.fields[k] == Own(current)[k]
    ensures SameAccount(cached, current) ==>
      forall k :: k in Own(cached) && k !in Own(current) ==> m.fields[k] == Own(cached)[k]
    ensures !SameAccount(cached, current) ==> m == current
  {
    if SameAccount(cached, current) then Obj(Own(cached) + Own(current)) else current
  }

  /** `refresh()`, given how `authApi.me()` settled. A cached user that is
      not valid JSON makes `JSON.parse` throw into the same failure branch as
      a failed request. */
  function Refresh(codec: Codec, s: Session, me: Result<Json>): (s': Session)
    ensures !s'.loading
    ensures me.Err? || CachedUser(codec.parse, s.storage).None? ==>
      s'.user == Null && s'.storage == Client.ClearToken(s.storage)
    ensures me.Ok? && CachedUser(codec.parse, s.storage).Some? ==>
      var merged := Merge(CachedUser(codec.parse, s.storage).value, ServerUser(me.value));
      && s'.user == merged
      && (Truthy(merged) ==> s'.storage == s.storage[USER_KEY := codec.stringify(merged)])
      && (!Truthy(merged) ==> s'.storage == s.storage)
  {
    match me
    case Err(_) => Session(Null, false, Client.ClearToken(s.storage))
    case Ok(data) =>
      match CachedUser(codec.parse, s.storage)
      case None => Session(Null, false, Client.ClearToken(s.storage))
      case Some(cached) =>
        var merged := Merge(cached, ServerUser(data));
        Session(merged, false, if Truthy(merged) then s.storage[USER_KEY := codec.stringify(merged)] else s.storage)
  }

  /** A failed refresh signs the user out of the client and forgets the
      token, but leaves the cached user in place. */
  lemma FailedRefreshKeepsCache(codec: Codec, s: Session, e: Error)
    ensures var s' := Refresh(codec, s, Err(e));
      && s'.user == Null && Client.GetToken(s'.storage) == ""
      && (USER_KEY in s'.storage <==> USER_KEY in s.storage)
      && (USER_KEY in s.storage ==> s'.storage[USER_KEY] == s.storage[USER_KEY])
  {
  }

  /** An answer without a user signs the user out of the client but leaves
      both the token and the cached user as they were. */
  lemma NoServerUserKeepsStorage(codec: Codec, s: Session, data: Json)
    requires !Truthy(Chain(Chain(data, "data"), "user"))
    requires CachedUser(codec.parse, s.storage).Some?
    ensures Refresh(codec, s, Ok(data)) == Session(Null, false, s.storage)
  {
  }

  /** Refreshing again with the same server answer changes nothing, when
      the server reports the user as an object and the stored text parses
      back to what was stored. */
  lemma RefreshIdempotent(codec: Codec, s: Session, data: Json)
    requires CachedUser(codec.parse, s.storage).Some?
    requires ServerUser(data).Obj? || ServerUser(data) == Null
    requires var u := Refresh(codec, s, Ok(data)).user;
      Truthy(u) ==> RoundTrips(codec, u) && codec.stringify(u) != ""
    ensures Refresh(codec, Refresh(codec, s, Ok(data)), Ok(data)) == Refresh(codec, s, Ok(data))
  {
    var s1 := Refresh(codec, s, Ok(data));
    var cached := CachedUser(codec.parse, s.storage).value;
    var current := ServerUser(data);
    var merged := s1.user;
    if Truthy(merged) {
      assert CachedUser(codec.parse, s1.storage) == Some(merged);
      assert Get(merged, "email") == Get(current, "email");
      if StrictEq(Get(merged, "email"), Get(current, "email")) {
        assert Own(merged) + Own(current) == Own(merged);
      }
      assert Merge(merged, current) == merged;
      assert s1.storage[USER_KEY := codec.stringify(merged)] == s1.storage;
    }
  }

  /** `login(payload)`: the account API call, then the user from
      `data.data.userInfo` replaces the session user wholesale. A rejected
      call rejects `login` and leaves the session as it was. */
  function Login(codec: Codec, s: Session, env: string, payload: Json, hash: Json -> string,
                 resp: Client.Response): (r: (Session, Result<Json>))
    ensures var o := AuthApi.Login(env, s.storage, payload, hash, resp, codec.parse);
      && r.1 == o.result
      && (o.result.Err? ==> r.0 == s)
      && (o.result.Ok? ==>
            var next := Or(Chain(Chain(o.result.value, "data"), "userInfo"), Null);
            && r.0.user == next && r.0.loading == s.loading
            && (Truthy(next) ==> r.0.storage == o.storage[USER_KEY := codec.stringify(next)])
            && (!Truthy(next) ==> r.0.storage == o.storage))
  {
    var o := AuthApi.Login(env, s.storage, payload, hash, resp, codec.parse);
    match o.result
    case Err(e) => (s, Err(e))
    case Ok(data) =>
      var next := Or(Chain(Chain(data, "data"), "userInfo"), Null);
      (Session(next, s.loading, if Truthy(next) then o.storage[USER_KEY := codec.stringify(next)] else o.storage),
       Ok(data))
  }

  /** `logout()`: no token, no cached user, nobody signed in. */
  function Logout(s: Session): (s': Session)
    ensures s'.user == Null && s'.loading == s.loading
    ensures Client.GetToken(s'.storage) == "" && USER_KEY !in s'.storage
    ensures forall k :: k != USER_KEY && k != Client.TOKEN_KEY ==>
      (k in s'.storage <==> k in s.storage) && (k in s.storage ==> s'.storage[k] == s.storage[k])
  {
    Session(Null, s.loading, AuthApi.Logout(s.storage).0 - {USER_KEY})
  }

  /** `useAuth()`: the provider's session, or an error outside a provider. */
  function UseAuth(context: Option<Session>): (r: Result<Session>)
    ensures context.Some? ==> r == Ok(context.value)
    ensures context.None? ==> r == Err(Thrown(OUTSIDE_PROVIDER))
  {
    match context
    case Some(s) => Ok(s)
    case None => Err(Thrown(OUTSIDE_PROVIDER))
  }

  /** Whenever somebody is signed in, the cached-user slot holds them. */
  predicate Persisted(codec: Codec, s: Session)
  {
    Truthy(s.user) ==> USER_KEY in s.storage && s.storage[USER_KEY] == codec.stringify(s.user)
  }

  /** Every transition keeps the signed-in user cached. */
  lemma PersistenceInvariant(codec: Codec, s: Session, st: Client.Storage, me: Result<Json>,
                             env: string, payload: Json, hash: Json -> string, resp: Client.Response)
    requires Persisted(codec, s)
    ensures Persisted(codec, Initial(st))
    ensures Persisted(codec, Refresh(codec, s, me))
    ensures Persisted(codec, Login(codec, s, env, payload, hash, resp).0)
    ensures Persisted(codec, Logout(s))
  {
  }
}
