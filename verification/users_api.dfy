/**
  User endpoints (src/api/users.js): listing and fetching users, which the
  client reshapes with `normalizeUser`, and the profile, role, passed
  directions and account-deletion calls.

  Application directions and passed directions may arrive as a native
  array or as JSON text; `parseJsonField` reads both.
 */
module UsersApi {
  import opened Js
  import Lists
  import Api
  import CommentsApi
  import Client

  /** `parseJsonField(value)`: falsy gives `[]`, an array is kept, anything
      else is parsed as JSON text (a non-string through `String(value)`),
      and text that fails to parse gives `[]`. */
  function ParseJsonField(parse: string -> Option<Json>, v: Json): (r: Json)
    ensures !Truthy(v) ==> r == Arr([])
    ensures v.Arr? ==> r == v
    ensures Truthy(v) && !v.Arr? && parse(ToJsString(v)).Some? ==> r == parse(ToJsString(v)).value
    ensures Truthy(v) && !v.Arr? && parse(ToJsString(v)).None? ==> r == Arr([])
  {
    if !Truthy(v) then Arr([])
    else if v.Arr? then v
    else if v.Str? && StartsWith(v.s, "[") then parse(v.s).GetOr(Arr([]))
    else parse(ToJsString(v)).GetOr(Arr([]))
  }

  /** A list stored as JSON text reads the same as the list stored natively. */
  lemma EncodedListReadsBack(codec: Codec, xs: seq<Json>)
    requires RoundTrips(codec, Arr(xs))
    requires codec.stringify(Arr(xs)) != ""
    ensures ParseJsonField(codec.parse, Str(codec.stringify(Arr(xs)))) == ParseJsonField(codec.parse, Arr(xs)) == Arr(xs)
  {
  }

  /** Reading a field that already holds a list is the identity, so reading
      twice is reading once whenever the first read yields a list. */
  lemma ParseJsonFieldStable(parse: string -> Option<Json>, v: Json)
    requires ParseJsonField(parse, v).Arr?
    ensures ParseJsonField(parse, ParseJsonField(parse, v)) == ParseJsonField(parse, v)
  {
  }

  /** The keys of a normalised application: exactly these eight. */
  const APPLICATION_KEYS := {"realName", "phone", "gender", "department", "major", "studentId", "directions", "resume"}

  /** `user.application ? { ... } : null`: a fresh record with the eight
      client-side keys; every other key of the stored application is dropped. */
  function Application(parse: string -> Option<Json>, a: Json): (r: Json)
    ensures !Truthy(a) <==> r == Null
    ensures Truthy(a) ==> r.Obj? && r.fields.Keys == APPLICATION_KEYS
    ensures Truthy(a) ==>
      && r.fields["realName"] == Or(Get(a, "real_name"), Get(a, "realName"))
      && r.fields["studentId"] == Or(Get(a, "student_id"), Get(a, "studentId"))
      && r.fields["directions"] == ParseJsonField(parse, Get(a, "directions"))
      && (forall k :: k in {"phone", "gender", "department", "major", "resume"} ==> r.fields[k] == Get(a, k))
  {
    if Truthy(a) then Obj(map k | k in APPLICATION_KEYS :: ApplicationField(parse, a, k))
    else Null
  }

  /** How one key of the application is read: the two names with a
      snake_case spelling prefer it, `directions` is decoded, the rest are
      copied. */
  function ApplicationField(parse: string -> Option<Json>, a: Json, k: string): Json
  {
    if k == "realName" then Or(Get(a, "real_name"), Get(a, "realName"))
    else if k == "studentId" then Or(Get(a, "student_id"), Get(a, "studentId"))
    else if k == "directions" then ParseJsonField(parse, Get(a, "directions"))
    else Get(a, k)
  }

  /** The summary of a user's task: `id`, `createdAt` and `updatedAt`
      aliased, everything else kept. */
  const USER_TASK_FIELDS: map<string, Api.Alias> := map[
    "id" := Api.Alias(Some("uuid"), None),
    "createdAt" := Api.Alias(Some("created_at"), None),
    "updatedAt" := Api.Alias(Some("updated_at"), None)]

  /** `user.task ? { ...user.task, ... } : null`. */
  function UserTask(t: Json): (r: Json)
    ensures !Truthy(t) <==> r == Null
    ensures Truthy(t) ==> r.Obj? && r.fields.Keys == Own(t).Keys + USER_TASK_FIELDS.Keys
    ensures Truthy(t) ==> r.fields["id"] == Or(Get(t, "uuid"), Get(t, "id"))
    ensures Truthy(t) ==>
      && r.fields["createdAt"] == Or(Get(t, "created_at"), Get(t, "createdAt"))
      && r.fields["updatedAt"] == Or(Get(t, "updated_at"), Get(t, "updatedAt"))
    ensures Truthy(t) ==> forall k :: k in Own(t) && k !in USER_TASK_FIELDS ==> r.fields[k] == Own(t)[k]
  {
    if Truthy(t) then UserTaskTable(); Api.Normalize(t, USER_TASK_FIELDS).value else Null
  }

  /** The three rules of the task summary, read off the table. */
  lemma UserTaskTable()
    ensures USER_TASK_FIELDS.Keys == {"id", "createdAt", "updatedAt"}
    ensures USER_TASK_FIELDS["id"] == Api.Alias(Some("uuid"), None)
    ensures USER_TASK_FIELDS["createdAt"] == Api.Alias(Some("created_at"), None)
    ensures USER_TASK_FIELDS["updatedAt"] == Api.Alias(Some("updated_at"), None)
  {
  }

  /** `Array.isArray(user.comments) ? user.comments.map(...) : []`. */
  function UserComments(c: Json): (r: Result<Json>)
    ensures !c.Arr? ==> r == Ok(Arr([]))
    ensures c.Arr? ==> (r.Ok? <==> forall i :: 0 <= i < |c.items| ==> !Nullish(c.items[i]))
    ensures c.Arr? && r.Ok? ==>
      && r.value.Arr? && |r.value.items| == |c.items|
      && forall i :: 0 <= i < |c.items| ==> r.value.items[i] == CommentsApi.NormalizeComment(c.items[i]).value
  {
    if !c.Arr? then Ok(Arr([]))
    else
      match Lists.MapAll(c.items, CommentsApi.NormalizeComment)
      case Ok(ys) => Ok(Arr(ys))
      case Err(e) => Err(e)
  }

  /** The keys `normalizeUser` writes over the spread user. */
  const USER_KEYS := {"id", "email", "application", "passedDirections", "passedDirectionsBy", "comments", "task"}

  /** The fields `normalizeUser` writes over the spread user, given the
      normalised comments. */
  function UserFields(parse: string -> Option<Json>, u: Json, comments: Json): (f: map<string, Json>)
    ensures f.Keys == USER_KEYS
    ensures f["id"] == Or(Get(u, "uuid"), Get(u, "id"))
    ensures f["email"] == Get(u, "email")
    ensures f["application"] == Application(parse, Get(u, "application"))
    ensures f["passedDirections"] == ParseJsonField(parse, Or(Get(u, "passed_directions"), Get(u, "passedDirections")))
    ensures f["passedDirectionsBy"]
            == ParseJsonField(parse, Or(Get(u, "passed_directions_by"), Get(u, "passedDirectionsBy")))
    ensures f["comments"] == comments
    ensures f["task"] == UserTask(Get(u, "task"))
  {
    var id := Or(Get(u, "uuid"), Get(u, "id"));
    var email := Get(u, "email");
    var application := Application(parse, Get(u, "application"));
    var passed := ParseJsonField(parse, Or(Get(u, "passed_directions"), Get(u, "passedDirections")));
    var passedBy := ParseJsonField(parse, Or(Get(u, "passed_directions_by"), Get(u, "passedDirectionsBy")));
    var task := UserTask(Get(u, "task"));
    map["id" := id, "email" := email, "application" := application, "passedDirections" := passed,
        "passedDirectionsBy" := passedBy, "comments" := comments, "task" := task]
  }

  /** `normalizeUser(user)`. Reading `user.application` of a missing user
      throws, and so does normalising a `null` embedded comment. */
  function NormalizeUser(parse: string -> Option<Json>, u: Json): (r: Result<Json>)
    ensures r.Ok? <==> !Nullish(u) && (Get(u, "comments").Arr? ==>
      forall i :: 0 <= i < |Get(u, "comments").items| ==> !Nullish(Get(u, "comments").items[i]))
    ensures r.Ok? ==> r.value.Obj? && r.value.fields.Keys == Own(u).Keys + USER_KEYS
    ensures r.Ok? ==> r.value.fields == Own(u) + UserFields(parse, u, UserComments(Get(u, "comments")).value)
  {
    if Nullish(u) then Err(Thrown(TypeErrorMessage("application")))
    else
      match UserComments(Get(u, "comments"))
      case Err(e) => Err(e)
      case Ok(comments) => Ok(Obj(Own(u) + UserFields(parse, u, comments)))
  }

  /** The normalised user's `application` is the rebuilt application. */
  lemma NormalizedApplication(parse: string -> Option<Json>, u: Json)
    requires NormalizeUser(parse, u).Ok?
    ensures Get(NormalizeUser(parse, u).value, "application") == Application(parse, Get(u, "application"))
  {
    var f := UserFields(parse, u, UserComments(Get(u, "comments")).value);
    assert "application" in f;
  }

  /** Every key of the stored user that the normaliser does not write is
      kept with its value. */
  lemma UserPassesThrough(parse: string -> Option<Json>, u: Json, k: string)
    requires NormalizeUser(parse, u).Ok?
    requires k in Own(u) && k !in USER_KEYS
    ensures NormalizeUser(parse, u).value.fields[k] == Own(u)[k]
  {
  }

  /** Whatever the server sends, a normalised user's comments are a list and
      its task is an object or `null`. */
  lemma NormalizedUserShape(parse: string -> Option<Json>, u: Json)
    requires NormalizeUser(parse, u).Ok?
    ensures var f := NormalizeUser(parse, u).value.fields;
            f["comments"].Arr? && (f["task"].Null? || f["task"].Obj?)
            && (f["application"].Null? || f["application"].fields.Keys == APPLICATION_KEYS)
  {
  }

  /** A user whose passed directions arrive as JSON text normalises exactly
      like the same user with the list stored natively. */
  lemma PassedDirectionsFormsAgree(codec: Codec, u: Json, xs: seq<Json>)
    requires u.Obj? && "passed_directions" !in u.fields
    requires RoundTrips(codec, Arr(xs)) && codec.stringify(Arr(xs)) != ""
    ensures var asText := Obj(u.fields["passedDirections" := Str(codec.stringify(Arr(xs)))]);
            var native := Obj(u.fields["passedDirections" := Arr(xs)]);
            NormalizeUser(codec.parse, asText).Ok? <==> NormalizeUser(codec.parse, native).Ok?
    ensures var asText := Obj(u.fields["passedDirections" := Str(codec.stringify(Arr(xs)))]);
            var native := Obj(u.fields["passedDirections" := Arr(xs)]);
            NormalizeUser(codec.parse, asText).Ok? ==>
              NormalizeUser(codec.parse, asText).value.fields["passedDirections"]
              == NormalizeUser(codec.parse, native).value.fields["passedDirections"] == Arr(xs)
  {
    var asText := Obj(u.fields["passedDirections" := Str(codec.stringify(Arr(xs)))]);
    var native := Obj(u.fields["passedDirections" := Arr(xs)]);
    assert Get(asText, "passed_directions") == Undefined;
    assert Get(native, "passed_directions") == Undefined;
    assert Get(asText, "comments") == Get(native, "comments");
    EncodedListReadsBack(codec, xs);
  }

  /** `data?.data?.user || data?.user || data`. */
  function UnwrapUser(data: Json): (u: Json)
    ensures Truthy(Chain(Chain(data, "data"), "user")) ==> u == Chain(Chain(data, "data"), "user")
    ensures !Truthy(Chain(Chain(data, "data"), "user")) && Truthy(Chain(data, "user")) ==> u == Chain(data, "user")
    ensures !Truthy(Chain(Chain(data, "data"), "user")) && !Truthy(Chain(data, "user")) ==> u == data
  {
    Or(Or(Chain(Chain(data, "data"), "user"), Chain(data, "user")), data)
  }

  /** The three answer shapes `getUser` accepts carry the same user. */
  lemma UserEnvelopesAgree(u: Json)
    requires Truthy(u)
    requires !Truthy(Chain(Chain(u, "data"), "user")) && !Truthy(Chain(u, "user"))
    ensures UnwrapUser(Obj(map["data" := Obj(map["user" := u])])) == u
    ensures UnwrapUser(Obj(map["user" := u])) == u
    ensures UnwrapUser(u) == u
  {
    var inner := Obj(map["user" := u]);
    assert Get(Obj(map["data" := inner]), "data") == inner;
    assert Get(inner, "user") == u;
  }

  function ListUsers(params: seq<(string, string)>): (call: Api.Call)
    ensures params == [] ==> call.path == "/users/"
    ensures params != [] ==> call.path == "/users/?" + Api.QueryString(params)
  {
    Api.Fetch(Api.WithQuery("/users/", params))
  }

  /** `listUsers`: what the promise settles to, given the request's value. */
  function ListUsersResult(parse: string -> Option<Json>, data: Json): (r: Result<Json>)
  {
    Api.ListEnvelope(data, u => NormalizeUser(parse, u))
  }

  /** Every listed user is normalised, in the order the server sent them:
      the id is aliased and the embedded comments are a list. */
  lemma ListedUsersNormalized(parse: string -> Option<Json>, data: Json)
    requires ListUsersResult(parse, data).Ok?
    ensures var xs := Api.RawItems(data).items;
            var ys := ListUsersResult(parse, data).value.fields["items"].items;
            |ys| == |xs| && forall i :: 0 <= i < |xs| ==>
              && ys[i].Obj?
              && ys[i].fields["id"] == Or(Get(xs[i], "uuid"), Get(xs[i], "id"))
              && ys[i].fields["comments"].Arr?
  {
    var xs := Api.RawItems(data).items;
    var ys := ListUsersResult(parse, data).value.fields["items"].items;
    forall i | 0 <= i < |xs|
      ensures ys[i].Obj? && ys[i].fields["id"] == Or(Get(xs[i], "uuid"), Get(xs[i], "id"))
      ensures ys[i].fields["comments"].Arr?
    {
      assert ys[i] == NormalizeUser(parse, xs[i]).value;
      var f := UserFields(parse, xs[i], UserComments(Get(xs[i], "comments")).value);
      assert "id" in f && "comments" in f;
    }
  }

  function GetUser(userId: Json): Api.Call
  {
    Api.Fetch("/users/" + ToJsString(userId))
  }

  /** `getUser`: what the promise settles to, given the request's value. */
  function GetUserResult(parse: string -> Option<Json>, data: Json): (r: Result<Json>)
  {
    NormalizeUser(parse, UnwrapUser(data))
  }

  /** Whichever of the three shapes the answer takes, `getUser` settles to
      the same normalised user. */
  lemma GotUserAgrees(parse: string -> Option<Json>, u: Json)
    requires Truthy(u)
    requires !Truthy(Chain(Chain(u, "data"), "user")) && !Truthy(Chain(u, "user"))
    ensures GetUserResult(parse, Obj(map["data" := Obj(map["user" := u])])) == NormalizeUser(parse, u)
    ensures GetUserResult(parse, Obj(map["user" := u])) == NormalizeUser(parse, u)
    ensures GetUserResult(parse, u) == NormalizeUser(parse, u)
    ensures GetUserResult(parse, u).Ok? <==>
      Get(u, "comments").Arr? ==> forall i :: 0 <= i < |Get(u, "comments").items| ==> !Nullish(Get(u, "comments").items[i])
  {
    UserEnvelopesAgree(u);
  }

  function UpdateProfile(payload: Json): Api.Call
  {
    Api.Send("PATCH", "/users/me", payload)
  }

  /** `updateRole(userId, role)`: the role travels as `{ role }`. */
  function UpdateRole(userId: Json, role: Json): (call: Api.Call)
    ensures call.options.body == Some(Obj(map["role" := role]))
  {
    Api.Send("POST", "/users/" + ToJsString(userId) + "/role", Obj(map["role" := role]))
  }

  /** `updatePassedDirections(userId, directions)`: sent as `{ directions }`. */
  function UpdatePassedDirections(userId: Json, directions: Json): (call: Api.Call)
    ensures call.options.body == Some(Obj(map["directions" := directions]))
  {
    Api.Send("POST", "/users/" + ToJsString(userId) + "/passed-directions", Obj(map["directions" := directions]))
  }

  function DeleteUser(userId: Json): Api.Call
  {
    Api.Bare("DELETE", "/users/" + ToJsString(userId))
  }

  /** `deleteMe(payload)`: a body only for a truthy payload. */
  function DeleteMe(payload: Json): (call: Api.Call)
    ensures call.path == "/users/me" && call.options.httpMethod == Some("DELETE")
    ensures Truthy(payload) <==> call.options.body.Some?
    ensures Truthy(payload) ==> call.options.body.value == payload
  {
    Api.Call("/users/me", Client.Options(Some("DELETE"), None, if Truthy(payload) then Some(payload) else None))
  }

  /** The server's router reads each call back as the resource, the user id
      (or `me`) and the action (for ids without a slash). */
  lemma UserRoutes(userId: Json)
    requires '/' !in ToJsString(userId)
    ensures Api.Segments(GetUser(userId).path) == ["", "users", ToJsString(userId)]
    ensures Api.Segments(DeleteUser(userId).path) == ["", "users", ToJsString(userId)]
    ensures Api.Segments(UpdateRole(userId, Null).path) == ["", "users", ToJsString(userId), "role"]
    ensures Api.Segments(UpdatePassedDirections(userId, Null).path)
            == ["", "users", ToJsString(userId), "passed-directions"]
  {
    ItemRoutes(ToJsString(userId));
  }

  lemma ItemRoutes(s: string)
    requires '/' !in s
    ensures Api.Segments("/users/" + s) == ["", "users", s]
    ensures Api.Segments("/users/" + s + "/role") == ["", "users", s, "role"]
    ensures Api.Segments("/users/" + s + "/passed-directions") == ["", "users", s, "passed-directions"]
  {
    Api.Route2("users", s);
    assert "/users/" + s == "/" + "users" + "/" + s;
    RoleRoute(s);
    PassedRoute(s);
  }

  lemma RoleRoute(s: string)
    requires '/' !in s
    ensures Api.Segments("/users/" + s + "/role") == ["", "users", s, "role"]
  {
    Api.Route3("users", s, "role");
    assert "/users/" + s + "/role" == "/" + "users" + "/" + s + "/" + "role";
  }

  lemma PassedRoute(s: string)
    requires '/' !in s
    ensures Api.Segments("/users/" + s + "/passed-directions") == ["", "users", s, "passed-directions"]
  {
    PassedPath(s);
    Api.Route3("users", s, "passed-directions");
  }

  lemma PassedPath(s: string)
    ensures '/' !in "passed-directions"
    ensures "/users/" + s + "/passed-directions" == "/" + "users" + "/" + s + "/" + "passed-directions"
  {
    assert "/users/" == "/" + "users" + "/";
    assert "/passed-directions" == "/" + "passed-directions";
  }

  /** The verbs and bodies of the user calls: reads carry neither, the
      profile update sends the payload as it is, and deletion has no body. */
  lemma UserVerbs(userId: Json, payload: Json)
    ensures GetUser(userId).options.httpMethod.None? && GetUser(userId).options.body.None?
    ensures UpdateProfile(payload).options.httpMethod == Some("PATCH")
    ensures UpdateProfile(payload).options.body == Some(payload)
    ensures DeleteUser(userId).options.httpMethod == Some("DELETE") && DeleteUser(userId).options.body.None?
    ensures UpdateRole(userId, payload).options.httpMethod == Some("POST")
    ensures UpdatePassedDirections(userId, payload).options.httpMethod == Some("POST")
  {
  }

  /** A user whose id is `me` is not distinguishable from the caller's own
      profile path: `getUser("me")` reads the same route `updateProfile` writes. */
  lemma MeRouteShared()
    ensures GetUser(Str("me")).path == UpdateProfile(Null).path == DeleteMe(Null).path
  {
  }
}
