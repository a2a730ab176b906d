/**
  The password-reset page (src/pages/ForgotPassword.jsx): the form, the
  code control, and submission.

  The page calls `authApi.resetPassword` through a namespace import of
  src/api/auth.js, which exports no such function (`AuthApi.EXPORTS`):
  as written, submission rejects before any request is made.
  `SubmitAsWritten` models that; `Submit` is the page with a working
  request.
 */
module ForgotPasswordPage {
  import opened Js
  import AuthApi
  import EmailCode

  const FORM_KEYS := {"email", "emailCode", "newPassword"}
  const PURPOSE := "reset"
  const RESET := "密码已更新，请登录。"
  const FAILED := "重置失败。"

  datatype Page = Page(form: map<string, string>, code: EmailCode.Sender, submitting: bool)

  const INITIAL := Page(map k | k in FORM_KEYS :: "", EmailCode.IDLE, false)

  function Email(p: Page): string
  {
    if "email" in p.form then p.form["email"] else ""
  }

  /** The code request's body: the same control as registration, with the
      reset purpose. */
  function CodeRequest(p: Page): (body: Json)
    ensures body.Obj? && body.fields.Keys == {"email", "purpose"}
    ensures body.fields["email"] == Str(Email(p)) && body.fields["purpose"] == Str("reset")
  {
    EmailCode.Payload(Email(p), PURPOSE)
  }

  /** `sendCode` as written. */
  function SendCodeAsWritten(p: Page, outcome: Result<Json>): (p': Page)
    ensures p'.form == p.form && !p'.code.sending
    ensures p'.code.cooldown == p.code.cooldown && p'.code.message != EmailCode.SENT
  {
    p.(code := EmailCode.SendAsWritten(p.code, outcome))
  }

  /** `sendCode` with a request that settles with `outcome`. */
  function SendCode(p: Page, outcome: Result<Json>): (p': Page)
    ensures p'.form == p.form && !p'.code.sending
    ensures outcome.Ok? ==> p'.code.cooldown == EmailCode.COOLDOWN && p'.code.message == EmailCode.SENT
    ensures outcome.Err? ==> p'.code.cooldown == p.code.cooldown
  {
    p.(code := EmailCode.Send(p.code, outcome))
  }

  /** The status line a settled reset leaves. */
  function ResetMessage(outcome: Result<Json>): (message: string)
    ensures outcome.Ok? ==> message == RESET
    ensures outcome.Err? ==> message == MessageOr(outcome.error, FAILED)
  {
    if outcome.Ok? then RESET else MessageOr(outcome.error, FAILED)
  }

  /** `onSubmit` as written: the missing export decides the outcome. */
  function SubmitAsWritten(p: Page, outcome: Result<Json>): (p': Page)
    ensures p'.form == p.form && !p'.submitting
    ensures p'.code.message == ResetMessage(AuthApi.CallExport("resetPassword", outcome))
  {
    p.(submitting := false, code := p.code.(message := ResetMessage(AuthApi.CallExport("resetPassword", outcome))))
  }

  /** The discrepancy: as written, no reset ever succeeds; the page shows
      the `TypeError` whatever the server would have said. */
  lemma ResetNeverSucceeds(p: Page, outcome: Result<Json>)
    ensures SubmitAsWritten(p, outcome).code.message != RESET
    ensures SubmitAsWritten(p, outcome).code.message == AuthApi.CallExport("resetPassword", outcome).error.message
  {
    AuthApi.EmailCodeCallsMissing(outcome);
  }

  /** `onSubmit` with a request that settles with `outcome`. */
  function Submit(p: Page, outcome: Result<Json>): (p': Page)
    ensures p'.form == p.form && !p'.submitting
    ensures p'.code.message == ResetMessage(outcome)
  {
    p.(submitting := false, code := p.code.(message := ResetMessage(outcome)))
  }

  /** With a working request a successful reset tells the user to sign in,
      and the form (and so the typed e-mail) is kept either way. */
  lemma ResetReportsSuccess(p: Page, data: Json, e: Error)
    ensures Submit(p, Ok(data)).code.message == RESET
    ensures e.message != "" ==> Submit(p, Err(e)).code.message == e.message
    ensures Email(Submit(p, Ok(data))) == Email(p)
  {
  }
}
