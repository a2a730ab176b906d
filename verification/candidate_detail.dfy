/**
  The interviewer's view of one candidate (src/pages/CandidateDetail.jsx):
  loading the candidate with their comments and tasks, the interview
  status and passed directions, and the comment thread.

  `id` is the route parameter, a string. The update and delete comment
  calls and `updateApplicationStatus` come from modules that are not part
  of this model (src/api/comments.js exports neither comment call, and
  src/api/applications.js is not part of this model); for those the model
  records the arguments the page passes.
 */
module CandidateDetailPage {
  import opened Js
  import Lists
  import Api
  import CrudForm
  import UsersApi
  import CommentsApi
  import TasksApi
  import ManageAnnouncementsPage

  const STATUSES := ["r1_pending", "r1_passed", "r2_pending", "r2_passed", "rejected", "offer"]

  const STATUS_LABELS: map<string, string> := map[
    "r1_pending" := "一轮待定",
    "r1_passed" := "一轮通过",
    "r2_pending" := "二轮待定",
    "r2_passed" := "二轮通过",
    "rejected" := "已拒绝",
    "offer" := "已录取"]

  const DIRECTIONS := ["Web", "Pwn", "Reverse", "Crypto", "Misc", "Dev", "Art"]

  const DEFAULT_STATUS := "r1_pending"
  const CANDIDATES_PATH := "/interviewer/candidates"
  const INTERVIEWER := "interviewer"

  const LOAD_FAILED := "候选人详情加载失败。"
  const PROMOTE_FAILED := "设置面试官失败。"
  const REMOVE_FAILED := "删除用户失败。"
  const STATUS_FAILED := "更新面试状态失败。"
  const PASSED_FAILED := "更新通过方向失败。"
  const EMPTY_COMMENT := "评论内容不能为空。"
  const COMMENT_FAILED := "提交评论失败。"
  const SAVE_FAILED := "更新评论失败。"
  const DELETE_COMMENT_FAILED := "删除评论失败。"
  /** The `TypeError` of calling `filter` on a task list that is not an array. */
  const NOT_FILTERABLE := "allTasks.filter is not a function"

  /** The page state (the collapsible sections are left out). */
  datatype Detail = Detail(
    user: Json, comments: Json, tasks: Json, status: string, passed: Json,
    commentInput: string, editingCommentId: Json, editingContent: Json)

  const INITIAL := Detail(Null, Arr([]), Arr([]), "", Arr([]), "", Str(""), Str(""))

  // ---------------------------------------------------------------------
  // Statuses
  // ---------------------------------------------------------------------

  /** Every status the select offers has a label. */
  lemma StatusesLabelled()
    ensures forall s :: s in STATUSES <==> s in STATUS_LABELS
  {
  }

  /** The announcement page offers the same statuses, in the same order,
      with the same labels. */
  lemma StatusTablesAgree()
    ensures ManageAnnouncementsPage.STATUSES == STATUSES
    ensures forall i :: 0 <= i < |STATUSES| ==>
      STATUS_LABELS[STATUSES[i]] == ManageAnnouncementsPage.STATUS_LABELS[i].1
  {
    var theirs := ManageAnnouncementsPage.STATUS_LABELS;
    assert |ManageAnnouncementsPage.STATUSES| == |theirs| == |STATUSES|;
    forall i | 0 <= i < |STATUSES|
      ensures ManageAnnouncementsPage.STATUSES[i] == STATUSES[i]
      ensures STATUS_LABELS[STATUSES[i]] == theirs[i].1
    {
      assert ManageAnnouncementsPage.STATUSES[i] == theirs[i].0;
    }
  }

  /** `user.status || "r1_pending"`: the status the select shows. */
  function StatusShown(user: Json): (v: Json)
    ensures Truthy(Get(user, "status")) ==> v == Get(user, "status")
    ensures !Truthy(Get(user, "status")) ==> v == Str(DEFAULT_STATUS)
  {
    Or(Get(user, "status"), Str(DEFAULT_STATUS))
  }

  /** `STATUS_LABELS[user.status || "r1_pending"]`; None where the lookup
      gives `undefined` and nothing is printed. */
  function StatusLabel(user: Json): (text: Option<string>)
    ensures text.Some? <==> StatusShown(user).Str? && StatusShown(user).s in STATUS_LABELS
    ensures text.Some? ==> text.value == STATUS_LABELS[StatusShown(user).s]
  {
    var shown := StatusShown(user);
    if shown.Str? && shown.s in STATUS_LABELS then Some(STATUS_LABELS[shown.s]) else None
  }

  /** A candidate whose status is unset reads as first-round pending, and
      any status the select can set reads back with its label. */
  lemma StatusLabelled(user: Json, i: nat)
    requires i < |STATUSES|
    ensures !Truthy(Get(user, "status")) ==> StatusLabel(user) == Some("一轮待定")
    ensures Get(user, "status") == Str(STATUSES[i]) ==> StatusLabel(user) == Some(STATUS_LABELS[STATUSES[i]])
  {
  }

  // ---------------------------------------------------------------------
  // Directions
  // ---------------------------------------------------------------------

  /** `user.application?.directions || user.directions || []`, or `[]`
      while no user is loaded. */
  function DisplayDirections(user: Json): (v: Json)
    ensures !Truthy(user) ==> v == Arr([])
    ensures Truthy(user) && Truthy(Chain(Get(user, "application"), "directions")) ==>
      v == Chain(Get(user, "application"), "directions")
    ensures Truthy(user) && !Truthy(Chain(Get(user, "application"), "directions")) ==>
      v == Or(Get(user, "directions"), Arr([]))
  {
    if !Truthy(user) then Arr([])
    else Or(Or(Chain(Get(user, "application"), "directions"), Get(user, "directions")), Arr([]))
  }

  /** For a loaded candidate with an application, the directions shown are
      the application's, decoded from JSON text when stored as text; an
      application with an empty list hides any top-level `directions`. */
  lemma DisplayedDirectionsFromApplication(parse: string -> Option<Json>, u: Json)
    requires UsersApi.NormalizeUser(parse, u).Ok?
    requires Truthy(Get(u, "application"))
    requires UsersApi.ParseJsonField(parse, Get(Get(u, "application"), "directions")).Arr?
    ensures DisplayDirections(UsersApi.NormalizeUser(parse, u).value)
            == UsersApi.ParseJsonField(parse, Get(Get(u, "application"), "directions"))
  {
    var n := UsersApi.NormalizeUser(parse, u).value;
    var dirs := UsersApi.ParseJsonField(parse, Get(Get(u, "application"), "directions"));
    UsersApi.NormalizedApplication(parse, u);
    var app := UsersApi.Application(parse, Get(u, "application"));
    assert "directions" in app.fields && app.fields["directions"] == dirs;
    assert Chain(Get(n, "application"), "directions") == dirs;
    assert Truthy(n) && Truthy(dirs);
  }

  /** The passed-direction checkbox: `prev || []` with `direction`
      removed when present and appended otherwise. The requires keeps to
      a list that is an array or falsy; a string list behaves
      differently and is left out. */
  function TogglePassed(p: Detail, direction: string): (p': Detail)
    requires Or(p.passed, Arr([])).Arr?
    ensures p'.passed == Arr(Lists.Toggle(Or(p.passed, Arr([])).items, Str(direction)))
    ensures p' == p.(passed := p'.passed)
  {
    p.(passed := Arr(Lists.Toggle(Or(p.passed, Arr([])).items, Str(direction))))
  }

  // ---------------------------------------------------------------------
  // Loading
  // ---------------------------------------------------------------------

  /** `task.targetUserId === id`. */
  predicate TargetsCandidate(id: string, task: Json)
  {
    StrictEq(Get(task, "targetUserId"), Str(id))
  }

  /** The candidate's tasks among all tasks, in listing order. */
  function TasksFor(id: string, all: seq<Json>): (r: seq<Json>)
    ensures forall t :: t in r <==> t in all && Get(t, "targetUserId") == Str(id)
  {
    Lists.Filter(all, t => TargetsCandidate(id, t))
  }

  /** Selecting tasks commutes with concatenating listings, so the
      candidate's tasks keep the listing's relative order. */
  lemma TasksForAppend(id: string, a: seq<Json>, b: seq<Json>)
    ensures TasksFor(id, a + b) == TasksFor(id, a) + TasksFor(id, b)
  {
    Lists.FilterAppend(a, b, t => TargetsCandidate(id, t));
  }

  /** `load()` once `Promise.all` has settled: with the user detail, the
      comment listing and the task listing, or with the first rejection.
      The setters run in order, so a later step that throws leaves the
      earlier ones applied. */
  function Load(p: Detail, id: string, outcome: Result<(Json, Json, Json)>): (p': Detail)
    ensures outcome.Err? ==> p' == p.(status := MessageOr(outcome.error, LOAD_FAILED))
    ensures outcome.Ok? ==> p'.user == outcome.value.0
    ensures outcome.Ok? && !Nullish(outcome.value.1) && !Nullish(outcome.value.2)
            && Or(Get(outcome.value.2, "items"), Arr([])).Arr? && !Nullish(outcome.value.0) ==>
      && p'.comments == Or(Get(outcome.value.1, "items"), Arr([]))
      && p'.tasks == Arr(TasksFor(id, Or(Get(outcome.value.2, "items"), Arr([])).items))
      && p'.passed == Or(Get(outcome.value.0, "passedDirections"), Arr([]))
      && p'.status == p.status
    ensures p'.commentInput == p.commentInput && p'.editingCommentId == p.editingCommentId
            && p'.editingContent == p.editingContent
  {
    match outcome
    case Err(e) => p.(status := MessageOr(e, LOAD_FAILED))
    case Ok((detail, commentData, taskData)) =>
      var p1 := p.(user := detail);
      if Nullish(commentData) then p1.(status := TypeErrorMessage("items"))
      else
        var p2 := p1.(comments := Or(Get(commentData, "items"), Arr([])));
        if Nullish(taskData) then p2.(status := TypeErrorMessage("items"))
        else
          var all := Or(Get(taskData, "items"), Arr([]));
          if !all.Arr? then p2.(status := NOT_FILTERABLE)
          else
            var p3 := p2.(tasks := Arr(TasksFor(id, all.items)));
            if Nullish(detail) then p3.(status := TypeErrorMessage("passedDirections"))
            else p3.(passed := Or(Get(detail, "passedDirections"), Arr([])))
  }

  /** `Promise.all` over the three requests: the three values, or the
      first rejection in argument order. */
  function Joint(detail: Result<Json>, commentData: Result<Json>, taskData: Result<Json>)
    : (r: Result<(Json, Json, Json)>)
    ensures r.Ok? <==> detail.Ok? && commentData.Ok? && taskData.Ok?
    ensures r.Ok? ==> r.value == (detail.value, commentData.value, taskData.value)
    ensures detail.Err? ==> r == Err(detail.error)
  {
    match detail
    case Err(e) => Err(e)
    case Ok(d) =>
      match commentData
      case Err(e) => Err(e)
      case Ok(c) =>
        match taskData
        case Err(e) => Err(e)
        case Ok(t) => Ok((d, c, t))
  }

  /** The three requests `load()` makes. */
  function LoadCalls(id: string): (calls: seq<Api.Call>)
    ensures |calls| == 3
    ensures calls[0].path == "/users/" + id && calls[1].path == "/comments/" + id
    ensures calls[2].path == "/tasks?" + Api.QueryString([("scope", "all")])
  {
    [UsersApi.GetUser(Str(id)), CommentsApi.ListComments(Str(id)), TasksApi.ListTasks([("scope", "all")])]
  }

  /** Directions submitted for a candidate come back on reload: the server
      may store them as JSON text, and the checkboxes are then restored to
      the same list. */
  lemma PassedSurvivesReload(codec: Codec, p: Detail, id: string, u: Json, xs: seq<Json>,
                             commentData: Json, taskData: Json)
    requires u.Obj? && "passed_directions" !in u.fields
    requires RoundTrips(codec, Arr(xs)) && codec.stringify(Arr(xs)) != ""
    requires UsersApi.NormalizeUser(codec.parse, Obj(u.fields["passedDirections" := Str(codec.stringify(Arr(xs)))])).Ok?
    requires !Nullish(commentData) && !Nullish(taskData) && Or(Get(taskData, "items"), Arr([])).Arr?
    ensures var detail := UsersApi.NormalizeUser(codec.parse, Obj(u.fields["passedDirections" := Str(codec.stringify(Arr(xs)))])).value;
            Load(p, id, Ok((detail, commentData, taskData))).passed == Arr(xs)
  {
    UsersApi.PassedDirectionsFormsAgree(codec, u, xs);
    var detail := UsersApi.NormalizeUser(codec.parse, Obj(u.fields["passedDirections" := Str(codec.stringify(Arr(xs)))])).value;
    assert Get(detail, "passedDirections") == Arr(xs);
    assert !Nullish(detail);
  }

  // ---------------------------------------------------------------------
  // Candidate actions
  // ---------------------------------------------------------------------

  /** A page action: the request made (None when nothing is sent), the
      status line and where the router goes next. */
  datatype Act = Act(call: Option<Api.Call>, status: string, navigate: Option<string>)

  /** `user.role === "interviewee"`: whether the promote button shows. */
  predicate ShowPromote(user: Json)
  {
    StrictEq(Get(user, "role"), Str("interviewee"))
  }

  /** `promote()`: nothing is sent unless confirmed. */
  function Promote(id: string, confirmed: bool, outcome: Result<Json>): (a: Act)
    ensures a.call.Some? <==> confirmed
    ensures confirmed ==> a.call.value == UsersApi.UpdateRole(Str(id), Str(INTERVIEWER))
    ensures !confirmed || outcome.Ok? ==> a.status == ""
    ensures confirmed && outcome.Err? ==> a.status == MessageOr(outcome.error, PROMOTE_FAILED)
    ensures a.navigate.None?
  {
    if !confirmed then Act(None, "", None)
    else Act(Some(UsersApi.UpdateRole(Str(id), Str(INTERVIEWER))), CrudForm.ActionStatus(outcome, PROMOTE_FAILED), None)
  }

  /** `removeUser()`: a confirmed, successful deletion returns to the list. */
  function RemoveUser(id: string, confirmed: bool, outcome: Result<Json>): (a: Act)
    ensures a.call.Some? <==> confirmed
    ensures confirmed ==> a.call.value == UsersApi.DeleteUser(Str(id))
    ensures a.navigate.Some? <==> confirmed && outcome.Ok?
    ensures a.navigate.Some? ==> a.navigate.value == CANDIDATES_PATH
    ensures confirmed && outcome.Err? ==> a.status == MessageOr(outcome.error, REMOVE_FAILED)
    ensures !(confirmed && outcome.Err?) ==> a.status == ""
  {
    if !confirmed then Act(None, "", None)
    else match outcome
      case Ok(_) => Act(Some(UsersApi.DeleteUser(Str(id))), "", Some(CANDIDATES_PATH))
      case Err(e) => Act(Some(UsersApi.DeleteUser(Str(id))), MessageOr(e, REMOVE_FAILED), None)
  }

  /** `updatePassed()`: the checked directions, as they stand, once confirmed. */
  function UpdatePassed(p: Detail, id: string, confirmed: bool, outcome: Result<Json>): (a: Act)
    ensures a.call.Some? <==> confirmed
    ensures confirmed ==> a.call.value == UsersApi.UpdatePassedDirections(Str(id), p.passed)
    ensures !confirmed || outcome.Ok? ==> a.status == ""
    ensures confirmed && outcome.Err? ==> a.status == MessageOr(outcome.error, PASSED_FAILED)
    ensures a.navigate.None?
  {
    if !confirmed then Act(None, "", None)
    else Act(Some(UsersApi.UpdatePassedDirections(Str(id), p.passed)), CrudForm.ActionStatus(outcome, PASSED_FAILED), None)
  }

  /** `updateStatus(next)`: the arguments of `updateApplicationStatus` and
      the status line. */
  function UpdateStatus(id: string, next: string, outcome: Result<Json>): (r: ((Json, Json), string))
    ensures r.0 == (Str(id), Str(next))
    ensures outcome.Ok? ==> r.1 == ""
    ensures outcome.Err? ==> r.1 == MessageOr(outcome.error, STATUS_FAILED)
  {
    ((Str(id), Str(next)), CrudForm.ActionStatus(outcome, STATUS_FAILED))
  }

  // ---------------------------------------------------------------------
  // Comments
  // ---------------------------------------------------------------------

  /** `currentUser?.role === "interviewer" && currentUser?.id === comment.interviewerId`. */
  predicate CanManageComment(currentUser: Json, comment: Json)
  {
    StrictEq(Chain(currentUser, "role"), Str(INTERVIEWER)) && StrictEq(Chain(currentUser, "id"), Get(comment, "interviewerId"))
  }

  /** Only interviewers manage comments, and an interviewer with an id
      manages exactly the listed comments that name that id as author,
      under either spelling the server uses. Nobody manages anything while
      signed out. */
  lemma CommentOwnership(me: Json, c: Json)
    requires !Nullish(c)
    ensures var listed := CommentsApi.NormalizeComment(c).value;
      && (!StrictEq(Chain(me, "role"), Str(INTERVIEWER)) ==> !CanManageComment(me, listed))
      && (Nullish(me) ==> !CanManageComment(me, listed))
      && (Get(me, "role") == Str(INTERVIEWER) && !Nullish(me) && Get(me, "id").Str? ==>
            (CanManageComment(me, listed) <==> Or(Get(c, "interviewer_id"), Get(c, "interviewerId")) == Get(me, "id")))
  {
    CommentsApi.CommentFields(c);
  }

  /** `submitComment()`: trim, refuse blank text, otherwise post and clear
      the box on success. */
  function SubmitComment(p: Detail, id: string, outcome: Result<Json>): (r: (Option<Api.Call>, Detail))
    ensures r.0.Some? <==> Trim(p.commentInput) != ""
    ensures r.0.Some? ==> r.0.value == CommentsApi.CreateComment(
      Obj(map["intervieweeId" := Str(id), "content" := Str(Trim(p.commentInput))]))
    ensures r.0.None? ==> r.1 == p.(status := EMPTY_COMMENT)
    ensures r.0.Some? && outcome.Ok? ==> r.1 == p.(commentInput := "")
    ensures r.0.Some? && outcome.Err? ==> r.1 == p.(status := MessageOr(outcome.error, COMMENT_FAILED))
  {
    var content := Trim(p.commentInput);
    if content == "" then (None, p.(status := EMPTY_COMMENT))
    else
      var call := CommentsApi.CreateComment(Obj(map["intervieweeId" := Str(id), "content" := Str(content)]));
      match outcome
      case Ok(_) => (Some(call), p.(commentInput := ""))
      case Err(e) => (Some(call), p.(status := MessageOr(e, COMMENT_FAILED)))
  }

  /** Blank comments never reach the server, and what is posted is already
      trimmed: the server sees no leading or trailing white space. */
  lemma CommentsPostedTrimmed(p: Detail, id: string, outcome: Result<Json>)
    ensures SubmitComment(p, id, outcome).0.Some? <==> !AllSpace(p.commentInput)
    ensures var r := SubmitComment(p, id, outcome);
      r.0.Some? ==> var text := r.0.value.options.body.value.fields["content"].s;
        Trim(text) == text && text != ""
  {
    TrimEmptyIff(p.commentInput);
    TrimIdempotent(p.commentInput);
  }

  /** `onEditComment(comment)`. */
  function EditComment(p: Detail, comment: Json): (p': Detail)
    requires !Nullish(comment)
    ensures p' == p.(editingCommentId := Get(comment, "id"), editingContent := Or(Get(comment, "content"), Str("")))
  {
    p.(editingCommentId := Get(comment, "id"), editingContent := Or(Get(comment, "content"), Str("")))
  }

  /** `onSaveComment()`: the arguments of `updateComment`, if called. Not
      editing does nothing; a non-string draft makes `trim` throw outside
      the `try`, which also changes nothing. */
  function SaveComment(p: Detail, outcome: Result<Json>): (r: (Option<(Json, Json)>, Detail))
    ensures r.0.Some? <==> Truthy(p.editingCommentId) && p.editingContent.Str? && Trim(p.editingContent.s) != ""
    ensures r.0.Some? ==> r.0.value == (p.editingCommentId, Obj(map["content" := Str(Trim(p.editingContent.s))]))
    ensures !Truthy(p.editingCommentId) || !p.editingContent.Str? ==> r.1 == p
    ensures Truthy(p.editingCommentId) && p.editingContent.Str? && Trim(p.editingContent.s) == "" ==>
      r.1 == p.(status := EMPTY_COMMENT)
    ensures r.0.Some? && outcome.Ok? ==> r.1 == p.(editingCommentId := Str(""), editingContent := Str(""))
    ensures r.0.Some? && outcome.Err? ==> r.1 == p.(status := MessageOr(outcome.error, SAVE_FAILED))
  {
    if !Truthy(p.editingCommentId) || !p.editingContent.Str? then (None, p)
    else
      var content := Trim(p.editingContent.s);
      if content == "" then (None, p.(status := EMPTY_COMMENT))
      else
        var args := (p.editingCommentId, Obj(map["content" := Str(content)]));
        match outcome
        case Ok(_) => (Some(args), p.(editingCommentId := Str(""), editingContent := Str("")))
        case Err(e) => (Some(args), p.(status := MessageOr(e, SAVE_FAILED)))
  }

  /** Editing a comment and saving it unchanged re-sends its trimmed text
      under its own id, and a successful save leaves editing mode. */
  lemma EditThenSave(p: Detail, comment: Json, data: Json)
    requires !Nullish(comment) && Truthy(Get(comment, "id"))
    requires Get(comment, "content").Str? && !AllSpace(Get(comment, "content").s)
    ensures var r := SaveComment(EditComment(p, comment), Ok(data));
      && r.0 == Some((Get(comment, "id"), Obj(map["content" := Str(Trim(Get(comment, "content").s))])))
      && !Truthy(r.1.editingCommentId)
  {
    var text := Get(comment, "content").s;
    TrimEmptyIff(text);
    var q := EditComment(p, comment);
    assert q.editingCommentId == Get(comment, "id") && q.editingContent == Str(text);
    assert Trim(text) != "";
  }

  /** The editor's cancel button: leaves editing mode and drops the draft,
      touching nothing else. */
  function CancelEdit(p: Detail): (p': Detail)
    ensures !Truthy(p'.editingCommentId) && p'.editingContent == Str("")
    ensures p'.(editingCommentId := p.editingCommentId, editingContent := p.editingContent) == p
  {
    p.(editingCommentId := Str(""), editingContent := Str(""))
  }

  /** Cancelling undoes opening the editor on a page that was not editing,
      and a save pressed after cancelling sends nothing and changes
      nothing. */
  lemma EditThenCancel(p: Detail, comment: Json, outcome: Result<Json>)
    requires !Nullish(comment)
    requires p.editingCommentId == Str("") && p.editingContent == Str("")
    ensures CancelEdit(EditComment(p, comment)) == p
    ensures var q := CancelEdit(EditComment(p, comment)); SaveComment(q, outcome) == (None, q)
  {
  }

  /** `onDeleteComment(commentId)`: the id passed to `deleteComment` once
      confirmed, and the status line (left alone unless the call fails). */
  function DeleteComment(p: Detail, commentId: Json, confirmed: bool, outcome: Result<Json>): (r: (Option<Json>, Detail))
    ensures r.0.Some? <==> confirmed
    ensures confirmed ==> r.0.value == commentId
    ensures !confirmed || outcome.Ok? ==> r.1 == p
    ensures confirmed && outcome.Err? ==> r.1 == p.(status := MessageOr(outcome.error, DELETE_COMMENT_FAILED))
  {
    if !confirmed then (None, p)
    else match outcome
      case Ok(_) => (Some(commentId), p)
      case Err(e) => (Some(commentId), p.(status := MessageOr(e, DELETE_COMMENT_FAILED)))
  }
}
