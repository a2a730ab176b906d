/**
  Announcement endpoints (src/api/announcements.js). Listing fills in the
  visibility defaults; pinning sends `{ pinned }` to its own sub-resource.
 */
module AnnouncementsApi {
  import opened Js
  import Api

  const PUBLIC := "public"

  /** `id` from `uuid`, snake_case spellings first, `visibility` defaulting
      to public and `allowedStatuses` to the empty list. */
  const ANNOUNCEMENT_FIELDS: map<string, Api.Alias> := map[
    "id" := Api.Alias(Some("uuid"), None),
    "authorNickname" := Api.Alias(Some("author_nickname"), None),
    "createdAt" := Api.Alias(Some("created_at"), None),
    "updatedAt" := Api.Alias(Some("updated_at"), None),
    "visibility" := Api.Alias(None, Some(Str(PUBLIC))),
    "allowedStatuses" := Api.Alias(Some("allowed_statuses"), Some(Arr([])))]

  lemma AnnouncementTable()
    ensures ANNOUNCEMENT_FIELDS.Keys == {"id", "authorNickname", "createdAt", "updatedAt", "visibility", "allowedStatuses"}
    ensures ANNOUNCEMENT_FIELDS["id"] == Api.Alias(Some("uuid"), None)
    ensures ANNOUNCEMENT_FIELDS["authorNickname"] == Api.Alias(Some("author_nickname"), None)
    ensures ANNOUNCEMENT_FIELDS["createdAt"] == Api.Alias(Some("created_at"), None)
    ensures ANNOUNCEMENT_FIELDS["updatedAt"] == Api.Alias(Some("updated_at"), None)
    ensures ANNOUNCEMENT_FIELDS["visibility"] == Api.Alias(None, Some(Str(PUBLIC)))
    ensures ANNOUNCEMENT_FIELDS["allowedStatuses"] == Api.Alias(Some("allowed_statuses"), Some(Arr([])))
  {
  }

  /** One backend announcement in client shape. */
  function NormalizeAnnouncement(a: Json): (r: Result<Json>)
    ensures r.Err? <==> Nullish(a)
    ensures r.Ok? ==> r.value.Obj? && ANNOUNCEMENT_FIELDS.Keys <= r.value.fields.Keys
    ensures r.Ok? ==> forall k :: k !in ANNOUNCEMENT_FIELDS ==>
      (k in r.value.fields <==> k in Own(a)) && (k in Own(a) ==> r.value.fields[k] == Own(a)[k])
  {
    Api.Normalize(a, ANNOUNCEMENT_FIELDS)
  }

  /** The fields the client reads under their camelCase names: `id` from
      `uuid` first, the others from their snake_case spelling first, with
      the visibility and status-list defaults. */
  lemma AnnouncementFields(a: Json)
    requires !Nullish(a)
    ensures var f := NormalizeAnnouncement(a).value.fields;
      && f["id"] == Or(Get(a, "uuid"), Get(a, "id"))
      && f["authorNickname"] == Or(Get(a, "author_nickname"), Get(a, "authorNickname"))
      && f["createdAt"] == Or(Get(a, "created_at"), Get(a, "createdAt"))
      && f["updatedAt"] == Or(Get(a, "updated_at"), Get(a, "updatedAt"))
      && f["visibility"] == Or(Get(a, "visibility"), Str(PUBLIC))
      && f["allowedStatuses"] == Or(Or(Get(a, "allowed_statuses"), Get(a, "allowedStatuses")), Arr([]))
  {
    AnnouncementTable();
    var f := NormalizeAnnouncement(a).value.fields;
    assert f["id"] == Api.AliasValue(a, "id", ANNOUNCEMENT_FIELDS["id"]);
    assert f["authorNickname"] == Api.AliasValue(a, "authorNickname", ANNOUNCEMENT_FIELDS["authorNickname"]);
    assert f["createdAt"] == Api.AliasValue(a, "createdAt", ANNOUNCEMENT_FIELDS["createdAt"]);
    assert f["updatedAt"] == Api.AliasValue(a, "updatedAt", ANNOUNCEMENT_FIELDS["updatedAt"]);
    assert f["visibility"] == Api.AliasValue(a, "visibility", ANNOUNCEMENT_FIELDS["visibility"]);
    assert f["allowedStatuses"] == Api.AliasValue(a, "allowedStatuses", ANNOUNCEMENT_FIELDS["allowedStatuses"]);
  }

  /** After normalisation the visibility and the status list are never
      missing: a record without them reads as public to everyone. */
  lemma DefaultsFilled(a: Json)
    requires !Nullish(a)
    ensures var n := NormalizeAnnouncement(a).value;
            && Truthy(n.fields["visibility"]) && Truthy(n.fields["allowedStatuses"])
            && (!Truthy(Get(a, "visibility")) ==> n.fields["visibility"] == Str(PUBLIC))
            && (!Truthy(Get(a, "allowed_statuses")) && !Truthy(Get(a, "allowedStatuses"))
                ==> n.fields["allowedStatuses"] == Arr([]))
  {
    AnnouncementFields(a);
  }

  /** Normalising an already normalised announcement changes nothing. */
  lemma NormalizeAnnouncementIdempotent(a: Json)
    requires !Nullish(a)
    ensures NormalizeAnnouncement(NormalizeAnnouncement(a).value) == NormalizeAnnouncement(a)
  {
    Api.NormalizeIdempotent(a, ANNOUNCEMENT_FIELDS);
  }

  function ListAnnouncements(): Api.Call
  {
    Api.Fetch("/announcements")
  }

  /** `listAnnouncements`: what the promise settles to, given the request's value. */
  function ListAnnouncementsResult(data: Json): (r: Result<Json>)
  {
    Api.ListEnvelope(data, NormalizeAnnouncement)
  }

  /** Every listed announcement has a visibility, in the server's order. */
  lemma ListedAnnouncementsHaveVisibility(data: Json)
    requires ListAnnouncementsResult(data).Ok?
    ensures var xs := Api.RawItems(data).items;
            var ys := ListAnnouncementsResult(data).value.fields["items"].items;
            |ys| == |xs| && forall i :: 0 <= i < |ys| ==>
              ys[i].Obj? && Truthy(ys[i].fields["visibility"])
              && ys[i].fields["id"] == Or(Get(xs[i], "uuid"), Get(xs[i], "id"))
  {
    var xs := Api.RawItems(data).items;
    var ys := ListAnnouncementsResult(data).value.fields["items"].items;
    forall i | 0 <= i < |ys|
      ensures ys[i].Obj? && Truthy(ys[i].fields["visibility"])
      ensures ys[i].fields["id"] == Or(Get(xs[i], "uuid"), Get(xs[i], "id"))
    {
      assert ys[i] == NormalizeAnnouncement(xs[i]).value;
      AnnouncementFields(xs[i]);
    }
  }

  function CreateAnnouncement(payload: Json): Api.Call
  {
    Api.Send("POST", "/announcements", payload)
  }

  function UpdateAnnouncement(id: Json, payload: Json): Api.Call
  {
    Api.Send("PATCH", "/announcements/" + ToJsString(id), payload)
  }

  /** `pinAnnouncement(id, pinned)`: the flag travels as `{ pinned }`. */
  function PinAnnouncement(id: Json, pinned: Json): (call: Api.Call)
    ensures call.options.body.Some? && call.options.body.value.Obj?
    ensures call.options.body.value.fields.Keys == {"pinned"}
    ensures call.options.body.value.fields["pinned"] == pinned
  {
    Api.Send("POST", "/announcements/" + ToJsString(id) + "/pin", Obj(map["pinned" := pinned]))
  }

  function DeleteAnnouncement(id: Json): Api.Call
  {
    Api.Bare("DELETE", "/announcements/" + ToJsString(id))
  }

  /** The server's router reads each call back as the resource, the
      announcement id and the action (for ids without a slash). */
  lemma AnnouncementRoutes(id: Json, payload: Json, pinned: Json)
    requires '/' !in ToJsString(id)
    ensures Api.Segments(ListAnnouncements().path) == ["", "announcements"]
    ensures Api.Segments(CreateAnnouncement(payload).path) == ["", "announcements"]
    ensures Api.Segments(UpdateAnnouncement(id, payload).path) == ["", "announcements", ToJsString(id)]
    ensures Api.Segments(PinAnnouncement(id, pinned).path) == ["", "announcements", ToJsString(id), "pin"]
    ensures Api.Segments(DeleteAnnouncement(id).path) == ["", "announcements", ToJsString(id)]
  {
    var s := ToJsString(id);
    CollectionRoute();
    ItemRoutes(s);
  }

  lemma CollectionRoute()
    ensures Api.Segments("/announcements") == ["", "announcements"]
  {
    assert "/announcements" == "/" + "announcements";
    Api.Route1("announcements");
  }

  lemma ItemRoutes(s: string)
    requires '/' !in s
    ensures Api.Segments("/announcements/" + s) == ["", "announcements", s]
    ensures Api.Segments("/announcements/" + s + "/pin") == ["", "announcements", s, "pin"]
  {
    ItemPaths(s);
    Api.Route2("announcements", s);
    Api.Route3("announcements", s, "pin");
  }

  lemma ItemPaths(s: string)
    ensures '/' !in "announcements" && '/' !in "pin"
    ensures "/announcements/" + s == "/" + "announcements" + "/" + s
    ensures "/announcements/" + s + "/pin" == "/" + "announcements" + "/" + s + "/" + "pin"
  {
    assert "/announcements/" == "/" + "announcements" + "/";
    assert "/pin" == "/" + "pin";
  }

  /** Only listing uses the default verb; pinning posts; the payload of
      create and update is sent as is and a delete carries no body. */
  lemma AnnouncementVerbs(id: Json, payload: Json, pinned: Json)
    ensures ListAnnouncements().options.httpMethod.None?
    ensures CreateAnnouncement(payload).options.httpMethod == Some("POST")
    ensures UpdateAnnouncement(id, payload).options.httpMethod == Some("PATCH")
    ensures PinAnnouncement(id, pinned).options.httpMethod == Some("POST")
    ensures DeleteAnnouncement(id).options.httpMethod == Some("DELETE")
    ensures CreateAnnouncement(payload).options.body == UpdateAnnouncement(id, payload).options.body == Some(payload)
    ensures DeleteAnnouncement(id).options.body.None?
  {
  }
}
