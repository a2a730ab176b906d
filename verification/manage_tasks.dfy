/**
  The task management page of interviewers (src/pages/ManageTasks.jsx):
  the task editor, the interviewee search that fills in the target, and
  deletion.
 */
module ManageTasksPage {
  import opened Js
  import Api
  import CrudForm
  import TasksApi
  import UsersApi

  datatype TaskForm = TaskForm(title: Json, description: Json, targetUserId: Json)

  const BLANK := TaskForm(Str(""), Str(""), Str(""))

  const CREATE_FAILED := "任务创建失败。"
  const UPDATE_FAILED := "任务更新失败。"
  const DELETE_FAILED := "任务删除失败。"
  const LOAD_FAILED := "任务加载失败。"
  const SEARCH_FAILED := "用户搜索失败。"
  const EDITING := "正在编辑任务，发布后将覆盖原内容。"

  /** The editor, the search text and the search results. `options` holds
      `data.items || []` of a user listing, always an array. */
  datatype Page = Page(editor: CrudForm.Editor<TaskForm>, query: string, options: Json)

  const INITIAL := Page(CrudForm.Fresh(BLANK), "", Arr([]))

  /** `load()` lists every task. */
  const LOAD_CALL := TasksApi.ListTasks([("scope", "all")])

  /** The debounced search: interviewees matching the typed text, also
      when the text is empty. */
  function SearchCall(query: string): (call: Api.Call)
    ensures call.path == "/users/?" + Api.QueryString([("role", "interviewee"), ("q", query)])
  {
    UsersApi.ListUsers([("role", "interviewee"), ("q", query)])
  }

  /** The search settling: results replace the options; a failure reports
      and keeps the old options. */
  function SearchSettled(p: Page, outcome: Result<Json>): (p': Page)
    ensures p'.query == p.query && p'.editor.form == p.editor.form && p'.editor.editingId == p.editor.editingId
    ensures (p'.options, p'.editor.status) ==
      CrudForm.ListLoad(p.options, p.editor.status, outcome, SEARCH_FAILED)
  {
    var (options, status) := CrudForm.ListLoad(p.options, p.editor.status, outcome, SEARCH_FAILED);
    Page(p.editor.(status := status), p.query, options)
  }

  /** `userQuery && userOptions.length > 0`: whether the result list shows. */
  predicate ShowOptions(p: Page)
  {
    p.query != "" && p.options.Arr? && |p.options.items| > 0
  }

  /** Typing into the search box. */
  function Search(p: Page, text: string): (p': Page)
    ensures p'.query == text && p'.options == p.options && p'.editor == p.editor
  {
    p.(query := text)
  }

  /** Picking a listed user: the target becomes the user's id and the
      search is cleared. */
  function Pick(p: Page, user: Json): (p': Page)
    requires !Nullish(user)
    ensures p'.editor.form == p.editor.form.(targetUserId := Get(user, "id"))
    ensures p'.editor.editingId == p.editor.editingId && p'.editor.status == p.editor.status
    ensures p'.query == "" && p'.options == Arr([])
  {
    Page(p.editor.(form := p.editor.form.(targetUserId := Get(user, "id"))), "", Arr([]))
  }

  /** After a pick the list stays hidden, even once the search for the now
      empty text settles, until something is typed again; typing brings
      back whatever the search found. */
  lemma PickHidesOptions(p: Page, user: Json, outcome: Result<Json>, text: string)
    requires !Nullish(user)
    ensures !ShowOptions(Pick(p, user))
    ensures !ShowOptions(SearchSettled(Pick(p, user), outcome))
    ensures var q := Search(SearchSettled(Pick(p, user), outcome), text);
            ShowOptions(q) <==> text != "" && q.options.Arr? && |q.options.items| > 0
  {
  }

  /** The request body: the form's three keys. */
  function Payload(f: TaskForm): (body: Json)
    ensures body.Obj? && body.fields.Keys == {"title", "description", "targetUserId"}
    ensures Get(body, "title") == f.title && Get(body, "description") == f.description
    ensures Get(body, "targetUserId") == f.targetUserId
  {
    Obj(map["title" := f.title, "description" := f.description, "targetUserId" := f.targetUserId])
  }

  /** The request `onSubmit` makes: update the task being edited, or create. */
  function SubmitCall(e: CrudForm.Editor<TaskForm>): (call: Api.Call)
    ensures CrudForm.ModeOf(e.editingId).Update? ==> call == TasksApi.UpdateTask(e.editingId, Payload(e.form))
    ensures CrudForm.ModeOf(e.editingId).Create? ==> call == TasksApi.CreateTask(Payload(e.form))
  {
    if Truthy(e.editingId) then TasksApi.UpdateTask(e.editingId, Payload(e.form))
    else TasksApi.CreateTask(Payload(e.form))
  }

  /** `onSubmit` once the call has settled (the reload is not modelled). */
  function Submitted(p: Page, outcome: Result<Json>): (p': Page)
    ensures outcome.Ok? ==> p'.editor == CrudForm.Fresh(BLANK)
    ensures outcome.Err? ==> p'.editor.form == p.editor.form && p'.editor.editingId == p.editor.editingId
    ensures outcome.Err? ==>
      p'.editor.status == MessageOr(outcome.error, if Truthy(p.editor.editingId) then UPDATE_FAILED else CREATE_FAILED)
    ensures outcome.Err? && outcome.error.message == "" ==>
      p'.editor.status == (if Truthy(p.editor.editingId) then UPDATE_FAILED else CREATE_FAILED)
    ensures p'.query == p.query && p'.options == p.options
  {
    p.(editor := CrudForm.Submit(p.editor, BLANK, outcome, CREATE_FAILED, UPDATE_FAILED))
  }

  /** `onEdit(task)`: load a listed task into the form. */
  function OnEdit(p: Page, task: Json): (p': Page)
    requires !Nullish(task)
    ensures p'.editor.editingId == Get(task, "id") && p'.editor.status == EDITING
    ensures p'.editor.form == TaskForm(Or(Get(task, "title"), Str("")), Or(Get(task, "description"), Str("")),
                                       Or(Get(task, "targetUserId"), Str("")))
    ensures p'.query == p.query && p'.options == p.options
  {
    p.(editor := CrudForm.Editor(
      TaskForm(Or(Get(task, "title"), Str("")), Or(Get(task, "description"), Str("")),
               Or(Get(task, "targetUserId"), Str(""))),
      Get(task, "id"), EDITING))
  }

  /** The record the server keeps for a submitted form under `id`. */
  function Stored(f: TaskForm, id: Json): (t: Json)
    ensures t.Obj? && t.fields.Keys == {"title", "description", "targetUserId", "id"}
    ensures Get(t, "id") == id && Get(t, "uuid") == Undefined
    ensures Get(t, "targetUserId") == f.targetUserId && Get(t, "target_user_id") == Undefined
    ensures t.fields["title"] == f.title && t.fields["description"] == f.description
  {
    Obj(Payload(f).fields["id" := id])
  }

  /** Listing such a record keeps its id, its target and its text. */
  lemma ListedStored(f: TaskForm, id: Json)
    ensures var n := TasksApi.NormalizeTask(Stored(f, id)).value;
            && n.fields["id"] == id && n.fields["targetUserId"] == f.targetUserId
            && n.fields["title"] == f.title && n.fields["description"] == f.description
  {
    var t := Stored(f, id);
    TasksApi.TaskFields(t);
    TasksApi.TaskTable();
    assert "title" !in TasksApi.TASK_FIELDS && "description" !in TasksApi.TASK_FIELDS;
  }

  /** A task saved from a filled-in form (every input is required), listed
      and edited again puts the same values back, under the stored id. */
  lemma EditRoundTrip(p: Page, f: TaskForm, id: Json)
    requires Truthy(f.title) && Truthy(f.description) && Truthy(f.targetUserId)
    ensures var listed := TasksApi.NormalizeTask(Stored(f, id)).value;
            OnEdit(p, listed).editor.form == f && OnEdit(p, listed).editor.editingId == id
  {
    ListedStored(f, id);
  }

  /** `onDelete(task.id)`: the request and the status line. */
  function OnDelete(task: Json, outcome: Result<Json>): (r: (Api.Call, string))
    requires !Nullish(task)
    ensures r.0 == TasksApi.DeleteTask(Get(task, "id"))
    ensures outcome.Err? ==> r.1 == MessageOr(outcome.error, DELETE_FAILED)
    ensures outcome.Ok? ==> r.1 == ""
  {
    (TasksApi.DeleteTask(Get(task, "id")), CrudForm.ActionStatus(outcome, DELETE_FAILED))
  }
}
