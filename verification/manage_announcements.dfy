/**
  The announcement management page (src/pages/ManageAnnouncements.jsx):
  the editor form with its visibility rule, the status checkboxes, and the
  pin and delete actions on listed announcements.
 */
module ManageAnnouncementsPage {
  import opened Js
  import Lists
  import Api
  import CrudForm
  import AnnouncementsApi

  /** The form state. Fields hold whatever `onEdit` copied from a listed
      announcement, so they are JavaScript values, not strings. */
  datatype AnnForm = AnnForm(title: Json, content: Json, visibility: Json, allowedStatuses: Json)

  const STATUS_VISIBILITY := "status"

  /** The empty form: public, no statuses. */
  const BLANK := AnnForm(Str(""), Str(""), Str(AnnouncementsApi.PUBLIC), Arr([]))

  /** `STATUS_LABELS`, in the order its keys are written. */
  const STATUS_LABELS: seq<(string, string)> := [
    ("r1_pending", "一轮待定"),
    ("r1_passed", "一轮通过"),
    ("r2_pending", "二轮待定"),
    ("r2_passed", "二轮通过"),
    ("rejected", "已拒绝"),
    ("offer", "已录取")]

  /** `Object.keys(STATUS_LABELS)`. */
  function Keys(pairs: seq<(string, string)>): (ks: seq<string>)
    ensures |ks| == |pairs| && forall i :: 0 <= i < |pairs| ==> ks[i] == pairs[i].0
  {
    if pairs == [] then [] else [pairs[0].0] + Keys(pairs[1..])
  }

  const STATUSES := Keys(STATUS_LABELS)

  const CREATE_FAILED := "创建公告失败。"
  const UPDATE_FAILED := "更新公告失败。"
  const PIN_FAILED := "置顶设置失败。"
  const DELETE_FAILED := "删除公告失败。"
  const LOAD_FAILED := "公告加载失败。"
  const EDITING := "正在编辑公告，发布后将覆盖原内容。"

  /** The visibility caption of a listed announcement. */
  function VisibilityLabel(item: Json): (text: string)
    ensures text == "仅面试官可见" <==> StrictEq(Get(item, "visibility"), Str("interviewer"))
    ensures text == "仅登录用户可见" <==> StrictEq(Get(item, "visibility"), Str("all"))
    ensures text == "指定面试状态可见" <==> StrictEq(Get(item, "visibility"), Str(STATUS_VISIBILITY))
    ensures text == "所有人可见" <==>
      Get(item, "visibility") !in {Str("interviewer"), Str("all"), Str(STATUS_VISIBILITY)}
  {
    var v := Get(item, "visibility");
    if v == Str("interviewer") then "仅面试官可见"
    else if v == Str("all") then "仅登录用户可见"
    else if v == Str(STATUS_VISIBILITY) then "指定面试状态可见"
    else "所有人可见"
  }

  /** An announcement the server would store as public gets the public
      caption, whether its visibility is missing or spelled out. */
  lemma DefaultVisibilityCaption(a: Json)
    requires !Nullish(a) && !Truthy(Get(a, "visibility"))
    ensures VisibilityLabel(AnnouncementsApi.NormalizeAnnouncement(a).value) == "所有人可见"
  {
    AnnouncementsApi.DefaultsFilled(a);
  }

  /** The request body: the form as an object with its four keys. */
  function Payload(f: AnnForm): (body: Json)
    ensures body.Obj? && body.fields.Keys == {"title", "content", "visibility", "allowedStatuses"}
    ensures Get(body, "visibility") == f.visibility && Get(body, "allowedStatuses") == f.allowedStatuses
    ensures Get(body, "title") == f.title && Get(body, "content") == f.content
  {
    Obj(map["title" := f.title, "content" := f.content, "visibility" := f.visibility,
            "allowedStatuses" := f.allowedStatuses])
  }

  /** The request `onSubmit` makes: update the record being edited, or create. */
  function SubmitCall(e: CrudForm.Editor<AnnForm>): (call: Api.Call)
    ensures CrudForm.ModeOf(e.editingId).Update? ==>
      call == AnnouncementsApi.UpdateAnnouncement(e.editingId, Payload(e.form))
    ensures CrudForm.ModeOf(e.editingId).Create? ==> call == AnnouncementsApi.CreateAnnouncement(Payload(e.form))
  {
    if Truthy(e.editingId) then AnnouncementsApi.UpdateAnnouncement(e.editingId, Payload(e.form))
    else AnnouncementsApi.CreateAnnouncement(Payload(e.form))
  }

  /** `onSubmit` once the call has settled (the reload is not modelled). */
  function Submitted(e: CrudForm.Editor<AnnForm>, outcome: Result<Json>): (e': CrudForm.Editor<AnnForm>)
    ensures outcome.Ok? ==> e' == CrudForm.Fresh(BLANK)
    ensures outcome.Err? ==> e'.form == e.form && e'.editingId == e.editingId
    ensures outcome.Err? ==>
      e'.status == MessageOr(outcome.error, if Truthy(e.editingId) then UPDATE_FAILED else CREATE_FAILED)
    ensures outcome.Err? && outcome.error.message == "" ==>
      e'.status == (if Truthy(e.editingId) then UPDATE_FAILED else CREATE_FAILED)
  {
    CrudForm.Submit(e, BLANK, outcome, CREATE_FAILED, UPDATE_FAILED)
  }

  /** `onEdit(item)`: load a listed announcement into the form. */
  function OnEdit(item: Json): (e: CrudForm.Editor<AnnForm>)
    requires !Nullish(item)
    ensures e.editingId == Get(item, "id") && e.status == EDITING
    ensures e.form.title == Or(Get(item, "title"), Str(""))
    ensures e.form.content == Or(Get(item, "content"), Str(""))
    ensures e.form.visibility == Or(Get(item, "visibility"), Str(AnnouncementsApi.PUBLIC))
    ensures e.form.allowedStatuses == Or(Get(item, "allowedStatuses"), Arr([]))
  {
    CrudForm.Editor(
      AnnForm(Or(Get(item, "title"), Str("")), Or(Get(item, "content"), Str("")),
              Or(Get(item, "visibility"), Str(AnnouncementsApi.PUBLIC)),
              Or(Get(item, "allowedStatuses"), Arr([]))),
      Get(item, "id"), EDITING)
  }

  /** Choosing a visibility: the status list survives only when "status"
      is chosen. */
  function ChangeVisibility(f: AnnForm, value: string): (f': AnnForm)
    ensures f'.visibility == Str(value) && f'.title == f.title && f'.content == f.content
    ensures value == STATUS_VISIBILITY ==> f'.allowedStatuses == f.allowedStatuses
    ensures value != STATUS_VISIBILITY ==> f'.allowedStatuses == Arr([])
  {
    f.(visibility := Str(value), allowedStatuses := if value == STATUS_VISIBILITY then f.allowedStatuses else Arr([]))
  }

  /** The checkbox of status `item`: `(prev.allowedStatuses || [])` with
      `item` removed when present and appended otherwise. The requires
      keeps to a list that is an array or falsy; a string list (the
      announcement answer passes `allowed_statuses` through unparsed)
      behaves differently and is left out. */
  function ToggleStatus(f: AnnForm, item: string): (f': AnnForm)
    requires Or(f.allowedStatuses, Arr([])).Arr?
    ensures f'.allowedStatuses.Arr?
    ensures f'.allowedStatuses.items == Lists.Toggle(Or(f.allowedStatuses, Arr([])).items, Str(item))
    ensures f'.title == f.title && f'.content == f.content && f'.visibility == f.visibility
  {
    f.(allowedStatuses := Arr(Lists.Toggle(Or(f.allowedStatuses, Arr([])).items, Str(item))))
  }

  /** The form keeps statuses only under "status" visibility, and then only
      the page's own status names. */
  predicate Consistent(f: AnnForm)
  {
    && f.allowedStatuses.Arr?
    && (f.visibility != Str(STATUS_VISIBILITY) ==> f.allowedStatuses == Arr([]))
    && forall v :: v in f.allowedStatuses.items ==> v.Str? && v.s in STATUSES
  }

  /** The blank form is consistent, and so is every form reached from a
      consistent one by choosing a visibility, ticking a rendered checkbox
      (they are rendered only under "status"), or typing a title or body. */
  lemma {:induction false} ConsistentPreserved(f: AnnForm, value: string, i: nat, text: Json)
    requires Consistent(f) && i < |STATUSES|
    ensures Consistent(BLANK)
    ensures Consistent(ChangeVisibility(f, value))
    ensures f.visibility == Str(STATUS_VISIBILITY) ==> Consistent(ToggleStatus(f, STATUSES[i]))
    ensures Consistent(f.(title := text)) && Consistent(f.(content := text))
  {
    if f.visibility == Str(STATUS_VISIBILITY) {
      var xs := f.allowedStatuses.items;
      var ys := ToggleStatus(f, STATUSES[i]).allowedStatuses.items;
      forall v | v in ys
        ensures v.Str? && v.s in STATUSES
      {
        if v != Str(STATUSES[i]) {
          assert multiset(ys)[v] == multiset(xs)[v];
          assert v in multiset(xs);
        }
      }
    }
  }

  /** The record the server keeps for a submitted form under `id`. */
  function Stored(f: AnnForm, id: Json): (a: Json)
    ensures a.Obj? && a.fields.Keys == {"title", "content", "visibility", "allowedStatuses", "id"}
    ensures Get(a, "id") == id && Get(a, "uuid") == Undefined
    ensures Get(a, "visibility") == f.visibility
    ensures Get(a, "allowedStatuses") == f.allowedStatuses && Get(a, "allowed_statuses") == Undefined
    ensures a.fields["title"] == f.title && a.fields["content"] == f.content
  {
    Obj(Payload(f).fields["id" := id])
  }

  /** Listing such a record keeps its id, its visibility and its statuses. */
  lemma ListedStored(f: AnnForm, id: Json)
    requires f.allowedStatuses.Arr? && Truthy(f.visibility)
    ensures var n := AnnouncementsApi.NormalizeAnnouncement(Stored(f, id)).value;
            && n.fields["id"] == id && n.fields["visibility"] == f.visibility
            && n.fields["allowedStatuses"] == f.allowedStatuses
            && n.fields["title"] == f.title && n.fields["content"] == f.content
  {
    ListedAliases(f, id);
    ListedText(f, id);
  }

  lemma ListedAliases(f: AnnForm, id: Json)
    requires f.allowedStatuses.Arr? && Truthy(f.visibility)
    ensures var n := AnnouncementsApi.NormalizeAnnouncement(Stored(f, id)).value;
            && n.fields["id"] == id && n.fields["visibility"] == f.visibility
            && n.fields["allowedStatuses"] == f.allowedStatuses
  {
    AnnouncementsApi.AnnouncementTable();
  }

  lemma ListedText(f: AnnForm, id: Json)
    ensures var n := AnnouncementsApi.NormalizeAnnouncement(Stored(f, id)).value;
            n.fields["title"] == f.title && n.fields["content"] == f.content
  {
    AnnouncementsApi.AnnouncementTable();
    var s := Stored(f, id);
    assert "title" !in AnnouncementsApi.ANNOUNCEMENT_FIELDS && "content" !in AnnouncementsApi.ANNOUNCEMENT_FIELDS;
    assert "title" in Own(s) && "content" in Own(s);
  }

  /** An announcement stored from a consistent form (title and body filled
      in, as the inputs require), listed and edited again puts the same
      values back into the form, under the stored id. */
  lemma EditRoundTrip(f: AnnForm, id: Json)
    requires Consistent(f) && Truthy(f.title) && Truthy(f.content) && Truthy(f.visibility)
    ensures var listed := AnnouncementsApi.NormalizeAnnouncement(Stored(f, id)).value;
            OnEdit(listed).form == f && OnEdit(listed).editingId == id
  {
    ListedStored(f, id);
  }

  /** `onPin(item.id, !item.pinned)`: the request and the status line. */
  function OnPin(item: Json, outcome: Result<Json>): (r: (Api.Call, string))
    requires !Nullish(item)
    ensures r.0 == AnnouncementsApi.PinAnnouncement(Get(item, "id"), Bool(!Truthy(Get(item, "pinned"))))
    ensures r.1 == CrudForm.ActionStatus(outcome, PIN_FAILED)
  {
    (AnnouncementsApi.PinAnnouncement(Get(item, "id"), Bool(!Truthy(Get(item, "pinned")))),
     CrudForm.ActionStatus(outcome, PIN_FAILED))
  }

  /** The pin button flips the flag: once the server stores what was sent,
      the next click sends the original flag back (as a boolean). */
  lemma PinTwiceRestores(item: Json, o1: Result<Json>, o2: Result<Json>)
    requires item.Obj?
    ensures var sent := OnPin(item, o1).0.options.body.value.fields["pinned"];
            var item' := Obj(item.fields["pinned" := sent]);
            && (Truthy(sent) <==> !Truthy(Get(item, "pinned")))
            && OnPin(item', o2).0.options.body.value.fields["pinned"] == Bool(Truthy(Get(item, "pinned")))
  {
  }

  /** `onDelete(item.id)`: the request and the status line. */
  function OnDelete(item: Json, outcome: Result<Json>): (r: (Api.Call, string))
    requires !Nullish(item)
    ensures r.0 == AnnouncementsApi.DeleteAnnouncement(Get(item, "id"))
    ensures outcome.Err? ==> r.1 == MessageOr(outcome.error, DELETE_FAILED)
    ensures outcome.Ok? ==> r.1 == ""
  {
    (AnnouncementsApi.DeleteAnnouncement(Get(item, "id")), CrudForm.ActionStatus(outcome, DELETE_FAILED))
  }
}
