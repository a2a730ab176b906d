/**
  The editor pattern the management pages share (src/pages/ManageAnnouncements.jsx,
  src/pages/ManageTasks.jsx): one form that creates a record, or updates
  the record whose id `editingId` holds; a successful submit resets the
  form, a failed one keeps it and reports the error. Also the list reload
  `load()` every page performs.
 */
module CrudForm {
  import opened Js

  /** The form, the id of the record being edited ("" when creating) and
      the status line. */
  datatype Editor<F> = Editor(form: F, editingId: Json, status: string)

  /** What a submit does with the form. */
  datatype Mode = Create | Update(id: Json)

  /** `if (editingId) update(editingId, form) else create(form)`. */
  function ModeOf(editingId: Json): (m: Mode)
    ensures m.Update? <==> Truthy(editingId)
    ensures m.Update? ==> m.id == editingId
  {
    if Truthy(editingId) then Update(editingId) else Create
  }

  /** An editor that is not editing anything. */
  function Fresh<F>(blank: F): (e: Editor<F>)
    ensures e.form == blank && ModeOf(e.editingId) == Create && e.status == ""
  {
    Editor(blank, Str(""), "")
  }

  /** `onSubmit`, given how the create or update call settled. */
  function Submit<F>(e: Editor<F>, blank: F, outcome: Result<Json>, createFailed: string, updateFailed: string)
    : (e': Editor<F>)
    ensures outcome.Ok? ==> e' == Fresh(blank)
    ensures outcome.Err? ==> e'.form == e.form && e'.editingId == e.editingId
    ensures outcome.Err? && outcome.error.message != "" ==> e'.status == outcome.error.message
    ensures outcome.Err? && outcome.error.message == "" ==>
      e'.status == (if ModeOf(e.editingId).Update? then updateFailed else createFailed)
  {
    match outcome
    case Ok(_) => Fresh(blank)
    case Err(err) => Editor(e.form, e.editingId, MessageOr(err, if Truthy(e.editingId) then updateFailed else createFailed))
  }

  /** After a successful submit the next submit creates a new record. */
  lemma SuccessEndsEditing<F>(e: Editor<F>, blank: F, data: Json, createFailed: string, updateFailed: string)
    ensures ModeOf(Submit(e, blank, Ok(data), createFailed, updateFailed).editingId) == Create
  {
  }

  /** A failed submit can be retried: the retry makes the same call. */
  lemma FailureKeepsMode<F>(e: Editor<F>, blank: F, err: Error, createFailed: string, updateFailed: string)
    ensures ModeOf(Submit(e, blank, Err(err), createFailed, updateFailed).editingId) == ModeOf(e.editingId)
  {
  }

  /** The status line of a one-shot action (`onPin`, `onDelete`, ...):
      cleared on success, the error or the fallback on failure. */
  function ActionStatus(outcome: Result<Json>, fallback: string): (status: string)
    ensures outcome.Ok? ==> status == ""
    ensures outcome.Err? ==> status == MessageOr(outcome.error, fallback)
  {
    if outcome.Ok? then "" else MessageOr(outcome.error, fallback)
  }

  /** `load()`: `setItems(data.items || [])`, or the page's failure line
      when the listing rejects (the list is then kept). */
  function ListLoad(items: Json, status: string, outcome: Result<Json>, failure: string): (r: (Json, string))
    ensures outcome.Ok? && !Nullish(outcome.value) ==> r == (Or(Get(outcome.value, "items"), Arr([])), status)
    ensures outcome.Err? || Nullish(outcome.value) ==> r == (items, failure)
  {
    match outcome
    case Ok(data) => if Nullish(data) then (items, failure) else (Or(Get(data, "items"), Arr([])), status)
    case Err(_) => (items, failure)
  }
}
