/**
  Comment endpoints (src/api/comments.js). The comment normaliser is also
  the one users.js applies to a user's embedded comments.
 */
module CommentsApi {
  import opened Js
  import Api

  /** `id` from `uuid`, then the snake_case spellings first; `updatedAt`
      is not aliased. */
  const COMMENT_FIELDS: map<string, Api.Alias> := map[
    "id" := Api.Alias(Some("uuid"), None),
    "intervieweeId" := Api.Alias(Some("interviewee_id"), None),
    "interviewerId" := Api.Alias(Some("interviewer_id"), None),
    "interviewerName" := Api.Alias(Some("interviewer_name"), None),
    "createdAt" := Api.Alias(Some("created_at"), None)]

  lemma CommentTable()
    ensures COMMENT_FIELDS.Keys == {"id", "intervieweeId", "interviewerId", "interviewerName", "createdAt"}
    ensures COMMENT_FIELDS["id"] == Api.Alias(Some("uuid"), None)
    ensures COMMENT_FIELDS["intervieweeId"] == Api.Alias(Some("interviewee_id"), None)
    ensures COMMENT_FIELDS["interviewerId"] == Api.Alias(Some("interviewer_id"), None)
    ensures COMMENT_FIELDS["interviewerName"] == Api.Alias(Some("interviewer_name"), None)
    ensures COMMENT_FIELDS["createdAt"] == Api.Alias(Some("created_at"), None)
  {
  }

  /** One backend comment in client shape. */
  function NormalizeComment(c: Json): (r: Result<Json>)
    ensures r.Err? <==> Nullish(c)
    ensures r.Ok? ==> r.value.Obj? && COMMENT_FIELDS.Keys <= r.value.fields.Keys
    ensures r.Ok? ==> forall k :: k !in COMMENT_FIELDS ==>
      (k in r.value.fields <==> k in Own(c)) && (k in Own(c) ==> r.value.fields[k] == Own(c)[k])
  {
    Api.Normalize(c, COMMENT_FIELDS)
  }

  /** The fields the client reads under their camelCase names: `id` from
      `uuid` first, the others from their snake_case spelling first. */
  lemma CommentFields(c: Json)
    requires !Nullish(c)
    ensures var f := NormalizeComment(c).value.fields;
      && f["id"] == Or(Get(c, "uuid"), Get(c, "id"))
      && f["intervieweeId"] == Or(Get(c, "interviewee_id"), Get(c, "intervieweeId"))
      && f["interviewerId"] == Or(Get(c, "interviewer_id"), Get(c, "interviewerId"))
      && f["interviewerName"] == Or(Get(c, "interviewer_name"), Get(c, "interviewerName"))
      && f["createdAt"] == Or(Get(c, "created_at"), Get(c, "createdAt"))
  {
    CommentTable();
    var f := NormalizeComment(c).value.fields;
    assert f["id"] == Api.AliasValue(c, "id", COMMENT_FIELDS["id"]);
    assert f["intervieweeId"] == Api.AliasValue(c, "intervieweeId", COMMENT_FIELDS["intervieweeId"]);
    assert f["interviewerId"] == Api.AliasValue(c, "interviewerId", COMMENT_FIELDS["interviewerId"]);
    assert f["interviewerName"] == Api.AliasValue(c, "interviewerName", COMMENT_FIELDS["interviewerName"]);
    assert f["createdAt"] == Api.AliasValue(c, "createdAt", COMMENT_FIELDS["createdAt"]);
  }

  /** `updatedAt` is not normalised: a comment carrying only `updated_at`
      keeps it under that name and gains no `updatedAt`. */
  lemma UpdatedAtPassesThrough(c: Json)
    requires !Nullish(c)
    ensures "updatedAt" in Own(c) <==> "updatedAt" in NormalizeComment(c).value.fields
    ensures "updated_at" in Own(c) ==> NormalizeComment(c).value.fields["updated_at"] == Own(c)["updated_at"]
  {
    CommentTable();
  }

  /** Normalising an already normalised comment changes nothing. */
  lemma NormalizeCommentIdempotent(c: Json)
    requires !Nullish(c)
    ensures NormalizeComment(NormalizeComment(c).value) == NormalizeComment(c)
  {
    Api.NormalizeIdempotent(c, COMMENT_FIELDS);
  }

  /** `listComments(intervieweeId)`: the request. */
  function ListComments(intervieweeId: Json): (call: Api.Call)
    ensures call.path == "/comments/" + ToJsString(intervieweeId)
    ensures call.options.body.None? && call.options.httpMethod.None?
  {
    Api.Fetch("/comments/" + ToJsString(intervieweeId))
  }

  /** `listComments`: what the promise settles to, given the request's value. */
  function ListCommentsResult(data: Json): (r: Result<Json>)
  {
    Api.ListEnvelope(data, NormalizeComment)
  }

  /** Count and order of comments survive normalisation, and every comment
      in the list has a normalised id. */
  lemma ListCommentsKeepsOrder(data: Json)
    requires ListCommentsResult(data).Ok?
    ensures var xs := Api.RawItems(data).items;
            var ys := ListCommentsResult(data).value.fields["items"].items;
            |ys| == |xs| && forall i :: 0 <= i < |xs| ==>
              ys[i].Obj? && ys[i].fields["id"] == Or(Get(xs[i], "uuid"), Get(xs[i], "id"))
  {
    var xs := Api.RawItems(data).items;
    var ys := ListCommentsResult(data).value.fields["items"].items;
    forall i | 0 <= i < |xs|
      ensures ys[i].Obj? && ys[i].fields["id"] == Or(Get(xs[i], "uuid"), Get(xs[i], "id"))
    {
      assert ys[i] == NormalizeComment(xs[i]).value;
      CommentFields(xs[i]);
    }
  }

  /** `createComment(payload)`. */
  function CreateComment(payload: Json): (call: Api.Call)
    ensures call.path == "/comments" && call.options.httpMethod == Some("POST")
    ensures call.options.body == Some(payload)
  {
    Api.Send("POST", "/comments", payload)
  }
}
