/**
  The interviewee's task page (src/pages/MyTasks.jsx): one report draft
  per task, the textarea that shows the draft or the saved report, and
  report submission.

  `report` is a plain object keyed by task id; JavaScript converts each id
  to a property name with `String(id)`, which `Key` makes explicit.
 */
module MyTasksPage {
  import opened Js
  import Api
  import TasksApi

  /** The draft object: property name to the text typed for that task. */
  type Drafts = map<string, Json>

  const SUBMITTED := "报告已提交。"
  const SUBMIT_FAILED := "提交报告失败。"
  const LOAD_FAILED := "任务加载失败。"

  /** `loadTasks()` lists the signed-in user's own tasks. */
  const LOAD_CALL := TasksApi.ListTasks([("scope", "mine")])

  function Key(taskId: Json): string
  {
    ToJsString(taskId)
  }

  /** `report[taskId]`. */
  function Draft(d: Drafts, taskId: Json): (v: Json)
    ensures Key(taskId) in d ==> v == d[Key(taskId)]
    ensures Key(taskId) !in d ==> v == Undefined
  {
    if Key(taskId) in d then d[Key(taskId)] else Undefined
  }

  /** Typing in a task's textarea: `{ ...prev, [task.id]: value }`. */
  function EditDraft(d: Drafts, taskId: Json, text: string): (d': Drafts)
    ensures Draft(d', taskId) == Str(text)
    ensures forall other :: Key(other) != Key(taskId) ==> Draft(d', other) == Draft(d, other)
  {
    d[Key(taskId) := Str(text)]
  }

  /** What the textarea of a task shows: `report[task.id] || task.report || ""`. */
  function Shown(d: Drafts, task: Json): (v: Json)
    ensures Truthy(Draft(d, Get(task, "id"))) ==> v == Draft(d, Get(task, "id"))
    ensures !Truthy(Draft(d, Get(task, "id"))) && Truthy(Get(task, "report")) ==> v == Get(task, "report")
    ensures !Truthy(Draft(d, Get(task, "id"))) && !Truthy(Get(task, "report")) ==> v == Str("")
  {
    Or(Or(Draft(d, Get(task, "id")), Get(task, "report")), Str(""))
  }

  /** A task whose box was cleared shows its saved report again. */
  lemma ClearedDraftShowsSaved(d: Drafts, task: Json)
    requires Truthy(Get(task, "report"))
    ensures Shown(EditDraft(d, Get(task, "id"), ""), task) == Get(task, "report")
  {
  }

  /** Editing one task's draft leaves every other task's box as it was. */
  lemma EditIsLocal(d: Drafts, task: Json, other: Json, text: string)
    requires Key(Get(other, "id")) != Key(Get(task, "id"))
    ensures Shown(EditDraft(d, Get(task, "id"), text), other) == Shown(d, other)
  {
  }

  function ReportBody(report: Json): (body: Json)
    ensures body.Obj? && body.fields.Keys == {"report"} && body.fields["report"] == report
  {
    Obj(map["report" := report])
  }

  /** `submitReport(task.id)` as written: it sends `report[taskId] || ""`,
      the draft alone. */
  function SubmitAsWritten(d: Drafts, taskId: Json): (call: Api.Call)
    ensures call.path == "/tasks/" + ToJsString(taskId) + "/report" && call.options.httpMethod == Some("POST")
    ensures call.options.body.Some? && call.options.body.value.Obj? && call.options.body.value.fields.Keys == {"report"}
    ensures Truthy(Draft(d, taskId)) ==> call.options.body.value.fields["report"] == Draft(d, taskId)
    ensures !Truthy(Draft(d, taskId)) ==> call.options.body.value.fields["report"] == Str("")
  {
    TasksApi.SubmitTaskReport(taskId, ReportBody(Or(Draft(d, taskId), Str(""))))
  }

  /** The discrepancy: a task with a saved report and no draft shows the
      report, but submitting it as written replaces the report by "". */
  lemma UntouchedSubmitErasesReport()
    ensures var task := Obj(map["id" := Str("t1"), "report" := Str("done")]);
            && Shown(map[], task) == Str("done")
            && SubmitAsWritten(map[], Get(task, "id")).options.body == Some(ReportBody(Str("")))
  {
    var task := Obj(map["id" := Str("t1"), "report" := Str("done")]);
    assert Get(task, "id") == Str("t1") && Get(task, "report") == Str("done");
    assert Draft(map[], Str("t1")) == Undefined;
  }

  /** Submitting, corrected: the request carries what the textarea shows. */
  function Submit(d: Drafts, task: Json): (call: Api.Call)
    ensures call.path == TasksApi.SubmitTaskReport(Get(task, "id"), Str("")).path
    ensures call.options.body.Some? && call.options.body.value.Obj? && call.options.body.value.fields.Keys == {"report"}
    ensures Truthy(Draft(d, Get(task, "id"))) ==> call.options.body.value.fields["report"] == Draft(d, Get(task, "id"))
    ensures !Truthy(Draft(d, Get(task, "id"))) ==> call.options.body.value.fields["report"] == Or(Get(task, "report"), Str(""))
  {
    TasksApi.SubmitTaskReport(Get(task, "id"), ReportBody(Shown(d, task)))
  }

  /** The corrected submit sends what is on screen: an untouched task
      re-sends its saved report, and a typed draft is sent as typed. It
      agrees with the code as written whenever a non-empty draft exists. */
  lemma SubmitSendsShown(d: Drafts, task: Json)
    ensures Submit(d, task).options.body == Some(ReportBody(Shown(d, task)))
    ensures Key(Get(task, "id")) !in d ==> Submit(d, task).options.body == Some(ReportBody(Or(Get(task, "report"), Str(""))))
    ensures Truthy(Draft(d, Get(task, "id"))) ==> Submit(d, task) == SubmitAsWritten(d, Get(task, "id"))
  {
  }

  /** The status line once the submission settles; drafts are kept either
      way and the list is reloaded after a success. */
  function SubmitStatus(outcome: Result<Json>): (status: string)
    ensures outcome.Ok? ==> status == SUBMITTED
    ensures outcome.Err? ==> status == MessageOr(outcome.error, SUBMIT_FAILED)
  {
    if outcome.Ok? then SUBMITTED else MessageOr(outcome.error, SUBMIT_FAILED)
  }
}
