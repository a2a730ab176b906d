/**
  Task endpoints (src/api/tasks.js): listing with optional filters, and the
  create, update, report and delete calls.
 */
module TasksApi {
  import opened Js
  import Api

  /** `id` from `uuid`, then the snake_case spellings first. */
  const TASK_FIELDS: map<string, Api.Alias> := map[
    "id" := Api.Alias(Some("uuid"), None),
    "targetUserId" := Api.Alias(Some("target_user_id"), None),
    "targetUserName" := Api.Alias(Some("target_user_name"), None),
    "assignedBy" := Api.Alias(Some("assigned_by"), None),
    "createdAt" := Api.Alias(Some("created_at"), None),
    "updatedAt" := Api.Alias(Some("updated_at"), None)]

  lemma TaskTable()
    ensures TASK_FIELDS.Keys == {"id", "targetUserId", "targetUserName", "assignedBy", "createdAt", "updatedAt"}
    ensures TASK_FIELDS["id"] == Api.Alias(Some("uuid"), None)
    ensures TASK_FIELDS["targetUserId"] == Api.Alias(Some("target_user_id"), None)
    ensures TASK_FIELDS["targetUserName"] == Api.Alias(Some("target_user_name"), None)
    ensures TASK_FIELDS["assignedBy"] == Api.Alias(Some("assigned_by"), None)
    ensures TASK_FIELDS["createdAt"] == Api.Alias(Some("created_at"), None)
    ensures TASK_FIELDS["updatedAt"] == Api.Alias(Some("updated_at"), None)
  {
  }

  /** One backend task in client shape; every other field passes through. */
  function NormalizeTask(t: Json): (r: Result<Json>)
    ensures r.Err? <==> Nullish(t)
    ensures r.Ok? ==> r.value.Obj? && TASK_FIELDS.Keys <= r.value.fields.Keys
    ensures r.Ok? ==> forall k :: k !in TASK_FIELDS ==>
      (k in r.value.fields <==> k in Own(t)) && (k in Own(t) ==> r.value.fields[k] == Own(t)[k])
  {
    Api.Normalize(t, TASK_FIELDS)
  }

  /** The fields the client reads under their camelCase names: `id` from
      `uuid` first, the others from their snake_case spelling first. */
  lemma TaskFields(t: Json)
    requires !Nullish(t)
    ensures var f := NormalizeTask(t).value.fields;
      && f["id"] == Or(Get(t, "uuid"), Get(t, "id"))
      && f["targetUserId"] == Or(Get(t, "target_user_id"), Get(t, "targetUserId"))
      && f["targetUserName"] == Or(Get(t, "target_user_name"), Get(t, "targetUserName"))
      && f["assignedBy"] == Or(Get(t, "assigned_by"), Get(t, "assignedBy"))
      && f["createdAt"] == Or(Get(t, "created_at"), Get(t, "createdAt"))
      && f["updatedAt"] == Or(Get(t, "updated_at"), Get(t, "updatedAt"))
  {
    TaskTable();
    var f := NormalizeTask(t).value.fields;
    assert f["id"] == Api.AliasValue(t, "id", TASK_FIELDS["id"]);
    assert f["targetUserId"] == Api.AliasValue(t, "targetUserId", TASK_FIELDS["targetUserId"]);
    assert f["targetUserName"] == Api.AliasValue(t, "targetUserName", TASK_FIELDS["targetUserName"]);
    assert f["assignedBy"] == Api.AliasValue(t, "assignedBy", TASK_FIELDS["assignedBy"]);
    assert f["createdAt"] == Api.AliasValue(t, "createdAt", TASK_FIELDS["createdAt"]);
    assert f["updatedAt"] == Api.AliasValue(t, "updatedAt", TASK_FIELDS["updatedAt"]);
  }

  /** Normalising an already normalised task changes nothing. */
  lemma NormalizeTaskIdempotent(t: Json)
    requires !Nullish(t)
    ensures NormalizeTask(NormalizeTask(t).value) == NormalizeTask(t)
  {
    TaskTable();
    Api.NormalizeIdempotent(t, TASK_FIELDS);
  }

  /** `listTasks(params)`: the request, with the query only when there are filters. */
  function ListTasks(params: seq<(string, string)>): (call: Api.Call)
    ensures params == [] ==> call.path == "/tasks"
    ensures params != [] ==> call.path == "/tasks?" + Api.QueryString(params)
    ensures call.options.httpMethod.None? && call.options.body.None?
  {
    Api.Fetch(Api.WithQuery("/tasks", params))
  }

  /** `listTasks`: what the promise settles to, given the request's value. */
  function ListTasksResult(data: Json): (r: Result<Json>)
  {
    Api.ListEnvelope(data, NormalizeTask)
  }

  /** Every listed task carries the normalised target and author fields,
      in the order the server sent the tasks. */
  lemma ListTasksKeepsOrder(data: Json)
    requires ListTasksResult(data).Ok?
    ensures var xs := Api.RawItems(data).items;
            var ys := ListTasksResult(data).value.fields["items"].items;
            |ys| == |xs| && forall i :: 0 <= i < |xs| ==>
              && ys[i].Obj?
              && ys[i].fields["id"] == Or(Get(xs[i], "uuid"), Get(xs[i], "id"))
              && ys[i].fields["targetUserId"] == Or(Get(xs[i], "target_user_id"), Get(xs[i], "targetUserId"))
  {
    var xs := Api.RawItems(data).items;
    var ys := ListTasksResult(data).value.fields["items"].items;
    forall i | 0 <= i < |xs|
      ensures ys[i].Obj?
      ensures ys[i].fields["id"] == Or(Get(xs[i], "uuid"), Get(xs[i], "id"))
      ensures ys[i].fields["targetUserId"] == Or(Get(xs[i], "target_user_id"), Get(xs[i], "targetUserId"))
    {
      assert ys[i] == NormalizeTask(xs[i]).value;
      TaskFields(xs[i]);
    }
  }

  /** A single `null` task rejects the whole listing. */
  lemma NullTaskRejectsList(data: Json, i: nat)
    requires Api.RawItems(data).Arr? && i < |Api.RawItems(data).items|
    requires Api.RawItems(data).items[i] == Null
    ensures ListTasksResult(data).Err?
  {
  }

  function CreateTask(payload: Json): Api.Call
  {
    Api.Send("POST", "/tasks", payload)
  }

  function UpdateTask(taskId: Json, payload: Json): Api.Call
  {
    Api.Send("PATCH", "/tasks/" + ToJsString(taskId), payload)
  }

  function SubmitTaskReport(taskId: Json, payload: Json): Api.Call
  {
    Api.Send("POST", "/tasks/" + ToJsString(taskId) + "/report", payload)
  }

  function DeleteTask(taskId: Json): Api.Call
  {
    Api.Bare("DELETE", "/tasks/" + ToJsString(taskId))
  }

  /** The server's router reads each call back as the resource, the task id
      and the action, with the verb that tells update and delete apart and
      the payload sent as is (for ids without a slash). */
  lemma TaskRoutes(taskId: Json, payload: Json)
    requires '/' !in ToJsString(taskId)
    ensures Api.Segments(CreateTask(payload).path) == ["", "tasks"]
    ensures Api.Segments(UpdateTask(taskId, payload).path) == ["", "tasks", ToJsString(taskId)]
    ensures Api.Segments(SubmitTaskReport(taskId, payload).path) == ["", "tasks", ToJsString(taskId), "report"]
    ensures Api.Segments(DeleteTask(taskId).path) == ["", "tasks", ToJsString(taskId)]
    ensures UpdateTask(taskId, payload).options.httpMethod == Some("PATCH")
    ensures DeleteTask(taskId).options.httpMethod == Some("DELETE")
    ensures SubmitTaskReport(taskId, payload).options.httpMethod == Some("POST")
    ensures CreateTask(payload).options.body == UpdateTask(taskId, payload).options.body
            == SubmitTaskReport(taskId, payload).options.body == Some(payload)
    ensures DeleteTask(taskId).options.body.None?
  {
    var id := ToJsString(taskId);
    Api.Route1("tasks");
    Api.Route2("tasks", id);
    assert "/tasks/" + id == "/" + "tasks" + "/" + id;
    Api.Route3("tasks", id, "report");
    assert "/tasks/" + id + "/report" == "/" + "tasks" + "/" + id + "/" + "report";
  }
}
