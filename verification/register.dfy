/**
  The registration page (src/pages/Register.jsx): the form, the code
  control, and submission, which registers, refreshes the session and
  moves on to the login page.
 */
module RegisterPage {
  import opened Js
  import Client
  import AuthApi
  import AuthContext
  import EmailCode

  const FORM_KEYS := {"password", "email", "nickname", "signature", "emailCode"}
  const PURPOSE := "register"
  const FAILED := "注册失败。"
  const LOGIN_PATH := "/login"

  /** The form (every input is a text field), the code control, which also
      owns the page's status line, and the submit flag. */
  datatype Page = Page(form: map<string, string>, code: EmailCode.Sender, submitting: bool)

  const INITIAL := Page(map k | k in FORM_KEYS :: "", EmailCode.IDLE, false)

  /** Typing into an input. */
  function Edit(p: Page, key: string, value: string): (p': Page)
    requires key in FORM_KEYS
    ensures p'.form == p.form[key := value] && p'.code == p.code && p'.submitting == p.submitting
  {
    p.(form := p.form[key := value])
  }

  function Email(p: Page): string
  {
    if "email" in p.form then p.form["email"] else ""
  }

  /** The form as the object handed to `authApi.register`. */
  function Payload(p: Page): (body: Json)
    ensures body.Obj? && body.fields.Keys == p.form.Keys
    ensures forall k :: k in p.form ==> body.fields[k] == Str(p.form[k])
  {
    Obj(map k | k in p.form :: Str(p.form[k]))
  }

  /** The code request's body. */
  function CodeRequest(p: Page): (body: Json)
    ensures body.Obj? && body.fields.Keys == {"email", "purpose"}
    ensures body.fields["email"] == Str(Email(p)) && body.fields["purpose"] == Str("register")
  {
    EmailCode.Payload(Email(p), PURPOSE)
  }

  /** `sendCode` as written (the request never leaves the page). */
  function SendCodeAsWritten(p: Page, outcome: Result<Json>): (p': Page)
    ensures p'.form == p.form && !p'.code.sending
    ensures p'.code.cooldown == p.code.cooldown && p'.code.message != EmailCode.SENT
  {
    p.(code := EmailCode.SendAsWritten(p.code, outcome))
  }

  /** `sendCode` with a request that settles with `outcome`. */
  function SendCode(p: Page, outcome: Result<Json>): (p': Page)
    ensures p'.form == p.form && !p'.code.sending
    ensures outcome.Ok? ==> p'.code.cooldown == EmailCode.COOLDOWN && p'.code.message == EmailCode.SENT
    ensures outcome.Err? ==> p'.code.cooldown == p.code.cooldown
  {
    p.(code := EmailCode.Send(p.code, outcome))
  }

  /** Pressing submit: the button locks and the status line clears. */
  function SubmitStarted(p: Page): (p': Page)
    ensures p'.submitting && p'.code.message == "" && p'.form == p.form
  {
    p.(submitting := true, code := p.code.(message := ""))
  }

  /** Where submission leaves the page, the session and the router. */
  datatype Submission = Submission(page: Page, session: AuthContext.Session, navigate: Option<string>)

  /** `onSubmit`, settled. `register` runs against the browser storage of
      `s` and the server's response `resp`; on success `refresh()` runs
      with the stored token and `me` as the answer to `/auth/me`, and the
      router moves to the login page (`refresh` never rejects). On failure
      the session is untouched and the status line reports. */
  function Submit(codec: Codec, s: AuthContext.Session, p: Page, env: string, hash: Json -> string,
                  resp: Client.Response, me: Result<Json>): (r: Submission)
    ensures var o := AuthApi.Register(env, s.storage, Payload(p), hash, resp, codec.parse);
      && !r.page.submitting && r.page.form == p.form
      && (o.result.Ok? ==>
            && r.navigate == Some(LOGIN_PATH)
            && r.session == AuthContext.Refresh(codec, s.(storage := o.storage), me)
            && r.page.code.message == "")
      && (o.result.Err? ==>
            && r.navigate.None? && r.session == s
            && r.page.code.message == MessageOr(o.result.error, FAILED))
  {
    var started := SubmitStarted(p);
    var o := AuthApi.Register(env, s.storage, Payload(p), hash, resp, codec.parse);
    match o.result
    case Ok(_) =>
      Submission(started.(submitting := false), AuthContext.Refresh(codec, s.(storage := o.storage), me), Some(LOGIN_PATH))
    case Err(e) =>
      Submission(started.(submitting := false, code := started.code.(message := MessageOr(e, FAILED))), s, None)
  }

  /** A rejected registration leaves the browser storage as it was and
      stays on the page; an accepted one reaches the login page even when
      the follow-up refresh fails, and then nobody is signed in. */
  lemma SubmitOutcomes(codec: Codec, s: AuthContext.Session, p: Page, env: string, hash: Json -> string,
                       resp: Client.Response, e: Error)
    ensures var o := AuthApi.Register(env, s.storage, Payload(p), hash, resp, codec.parse);
      var r := Submit(codec, s, p, env, hash, resp, Err(e));
      && (o.result.Err? ==> r.session.storage == s.storage && r.navigate.None?)
      && (o.result.Ok? ==> r.navigate == Some(LOGIN_PATH) && r.session.user == Null && !r.session.loading)
  {
  }

  /** The submit button is locked exactly while a submission runs. */
  lemma SubmitLock(codec: Codec, s: AuthContext.Session, p: Page, env: string, hash: Json -> string,
                   resp: Client.Response, me: Result<Json>)
    ensures SubmitStarted(p).submitting
    ensures !Submit(codec, s, p, env, hash, resp, me).page.submitting
  {
  }
}
