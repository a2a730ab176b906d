/**
  The application page of an interviewee (src/pages/ApplicationForm.jsx):
  the form loaded from the saved application, the direction checkboxes,
  submission and deletion. The application endpoints themselves
  (`src/api/applications.js`) are not part of this model; their outcomes
  are parameters.
 */
module ApplicationFormPage {
  import opened Js
  import Lists

  const DIRECTIONS := ["Web", "Pwn", "Reverse", "Crypto", "Misc", "Dev", "Art"]

  /** The form object, which after loading is a copy of whatever the
      saved application held. */
  type Form = map<string, Json>

  const TEXT_FIELDS := {"realName", "phone", "gender", "department", "major", "studentId", "resume"}

  const EMPTY: Form := map[
    "realName" := Str(""), "phone" := Str(""), "gender" := Str(""), "department" := Str(""),
    "major" := Str(""), "studentId" := Str(""), "directions" := Arr([]), "resume" := Str("")]

  const SUBMITTED := "申请已提交。"
  const SUBMIT_FAILED := "提交失败。"
  const DELETED := "申请已删除。"
  const DELETE_FAILED := "删除失败。"

  datatype Page = Page(form: Form, status: string)

  const INITIAL := Page(EMPTY, "")

  /** The load effect: `{ ...data.application }` replaces the form when the
      answer carries a truthy application; anything else, including a
      rejected request or a `null` answer, leaves the form alone. */
  function Load(p: Page, outcome: Result<Json>): (p': Page)
    ensures p'.status == p.status
    ensures outcome.Ok? && !Nullish(outcome.value) && Truthy(Get(outcome.value, "application")) ==>
      p'.form == Own(Get(outcome.value, "application"))
    ensures outcome.Err? || Nullish(outcome.value) || !Truthy(Get(outcome.value, "application")) ==>
      p'.form == p.form
  {
    match outcome
    case Ok(data) =>
      if !Nullish(data) && Truthy(Get(data, "application")) then p.(form := Own(Get(data, "application")))
      else p
    case Err(_) => p
  }

  /** Typing into one of the text inputs: `{ ...form, [key]: value }`. */
  function Edit(p: Page, key: string, value: string): (p': Page)
    requires key in TEXT_FIELDS
    ensures p'.form.Keys == p.form.Keys + {key} && p'.form[key] == Str(value)
    ensures forall k :: k in p.form && k != key ==> p'.form[k] == p.form[k]
    ensures p'.status == p.status
  {
    p.(form := p.form[key := Str(value)])
  }

  /** The direction checkbox: `prev.directions` with `value` removed when
      present and appended otherwise. The requires keeps to a directions
      array; a missing one makes `includes` throw, and a string one
      behaves differently and is left out. */
  function ToggleDirection(p: Page, value: string): (p': Page)
    requires "directions" in p.form && p.form["directions"].Arr?
    ensures p'.form.Keys == p.form.Keys && p'.status == p.status
    ensures p'.form["directions"] == Arr(Lists.Toggle(p.form["directions"].items, Str(value)))
    ensures forall k :: k in p.form && k != "directions" ==> p'.form[k] == p.form[k]
  {
    p.(form := p.form["directions" := Arr(Lists.Toggle(p.form["directions"].items, Str(value)))])
  }

  /** The form lists only known directions. */
  predicate DirectionsValid(f: Form)
  {
    && "directions" in f && f["directions"].Arr?
    && forall v :: v in f["directions"].items ==> v.Str? && v.s in DIRECTIONS
  }

  /** The empty form is valid, and typing or ticking one of the rendered
      checkboxes keeps a valid form valid. */
  lemma DirectionsStayValid(p: Page, key: string, value: string, i: nat)
    requires DirectionsValid(p.form) && key in TEXT_FIELDS && i < |DIRECTIONS|
    ensures DirectionsValid(EMPTY)
    ensures DirectionsValid(Edit(p, key, value).form)
    ensures DirectionsValid(ToggleDirection(p, DIRECTIONS[i]).form)
  {
    var xs := p.form["directions"].items;
    var ys := ToggleDirection(p, DIRECTIONS[i]).form["directions"].items;
    forall v | v in ys
      ensures v.Str? && v.s in DIRECTIONS
    {
      if v != Str(DIRECTIONS[i]) {
        assert multiset(ys)[v] == multiset(xs)[v];
        assert v in multiset(xs);
      }
    }
  }

  /** `onSubmit`: the form goes out as it stands and stays as it is. */
  function Submit(p: Page, outcome: Result<Json>): (r: (Json, Page))
    ensures r.0 == Obj(p.form) && r.1.form == p.form
    ensures outcome.Ok? ==> r.1.status == SUBMITTED
    ensures outcome.Err? ==> r.1.status == MessageOr(outcome.error, SUBMIT_FAILED)
  {
    (Obj(p.form), p.(status := if outcome.Ok? then SUBMITTED else MessageOr(outcome.error, SUBMIT_FAILED)))
  }

  /** `onDelete`: nothing is requested unless the confirmation is accepted;
      a successful deletion puts back the empty form. The flag tells
      whether the deletion was requested. */
  function Delete(p: Page, confirmed: bool, outcome: Result<Json>): (r: (bool, Page))
    ensures r.0 == confirmed
    ensures !confirmed ==> r.1 == p.(status := "")
    ensures confirmed && outcome.Ok? ==> r.1 == Page(EMPTY, DELETED)
    ensures confirmed && outcome.Err? ==> r.1 == p.(status := MessageOr(outcome.error, DELETE_FAILED))
  {
    if !confirmed then (false, p.(status := ""))
    else match outcome
      case Ok(_) => (true, Page(EMPTY, DELETED))
      case Err(e) => (true, p.(status := MessageOr(e, DELETE_FAILED)))
  }

  /** After a successful deletion the page is the one a first visit with
      no saved application shows, apart from the status line. */
  lemma DeleteRestoresFresh(p: Page, data: Json, none: Result<Json>)
    requires none.Err? || Nullish(none.value) || !Truthy(Get(none.value, "application"))
    ensures Delete(p, true, Ok(data)).1.form == Load(INITIAL, none).form
  {
  }

  /** A failed submission or deletion never loses what was typed. */
  lemma FailuresKeepForm(p: Page, e: Error, confirmed: bool)
    ensures Submit(p, Err(e)).1.form == p.form
    ensures Delete(p, confirmed, Err(e)).1.form == p.form
  {
  }
}
