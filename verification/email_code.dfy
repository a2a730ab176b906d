/**
  The "send verification code" control shared by the registration and
  password-reset pages (src/pages/Register.jsx, src/pages/ForgotPassword.jsx):
  the request, the status line, and the 60-second resend cooldown that a
  one-second timer counts down.

  Both pages call `authApi.requestEmailCode` through a namespace import of
  src/api/auth.js, which exports no such function (`AuthApi.EXPORTS`): as
  written, the call throws before any request is made. `SendAsWritten`
  models that; `Send` is the control with a working request.
 */
module EmailCode {
  import opened Js
  import AuthApi

  const COOLDOWN := 60
  const SENDING := "正在发送验证码..."
  const SENT := "验证码已发送，请查看邮箱。"
  const SEND_FAILED := "验证码发送失败。"

  /** The control's state, and the page's status line it writes. */
  datatype Sender = Sender(sending: bool, cooldown: int, message: string)

  const IDLE := Sender(false, 0, "")

  /** `{ email: form.email, purpose }`, the request body. */
  function Payload(email: string, purpose: string): (body: Json)
    ensures body.Obj? && body.fields.Keys == {"email", "purpose"}
    ensures body.fields["email"] == Str(email) && body.fields["purpose"] == Str(purpose)
  {
    Obj(map["email" := Str(email), "purpose" := Str(purpose)])
  }

  /** `disabled={!form.email || sending || cooldown > 0}`. */
  predicate SendDisabled(email: string, s: Sender)
  {
    email == "" || s.sending || s.cooldown > 0
  }

  /** One firing of the timer effect: nothing happens at zero, otherwise
      the counter drops by one. */
  function Tick(s: Sender): (s': Sender)
    ensures s.cooldown <= 0 ==> s' == s
    ensures s.cooldown > 0 ==> s'.cooldown == s.cooldown - 1
    ensures s'.sending == s.sending && s'.message == s.message
  {
    if s.cooldown <= 0 then s else s.(cooldown := s.cooldown - 1)
  }

  /** `n` seconds of the timer. */
  function Ticks(s: Sender, n: nat): Sender
    decreases n
  {
    if n == 0 then s else Ticks(Tick(s), n - 1)
  }

  /** The counter counts down to zero and stays there. */
  lemma {:induction false} TicksCountDown(s: Sender, n: nat)
    requires s.cooldown >= 0
    ensures Ticks(s, n).cooldown == if s.cooldown >= n then s.cooldown - n else 0
    ensures Ticks(s, n).sending == s.sending && Ticks(s, n).message == s.message
    decreases n
  {
    if n > 0 {
      TicksCountDown(Tick(s), n - 1);
    }
  }

  /** Clicking the button: `sending` and the progress line. */
  function Started(s: Sender): (s': Sender)
    ensures s'.sending && s'.cooldown == s.cooldown && s'.message == SENDING
  {
    s.(sending := true, message := SENDING)
  }

  /** The request settling: on success the cooldown starts and the user is
      told to check the mailbox; either way `sending` is released. */
  function Finished(s: Sender, outcome: Result<Json>): (s': Sender)
    ensures !s'.sending
    ensures outcome.Ok? ==> s'.cooldown == COOLDOWN && s'.message == SENT
    ensures outcome.Err? ==> s'.cooldown == s.cooldown && s'.message == MessageOr(outcome.error, SEND_FAILED)
  {
    match outcome
    case Ok(_) => Sender(false, COOLDOWN, SENT)
    case Err(e) => Sender(false, s.cooldown, MessageOr(e, SEND_FAILED))
  }

  /** `sendCode` as written: the missing export makes the call reject
      whatever the server would have answered. */
  function SendAsWritten(s: Sender, outcome: Result<Json>): (s': Sender)
    ensures !s'.sending && s'.cooldown == s.cooldown
    ensures s'.message != SENT && s'.message != SENDING
  {
    Finished(Started(s), AuthApi.CallExport("requestEmailCode", outcome))
  }

  /** The discrepancy: as written, no code is ever requested, the
      "code sent" line never appears and the cooldown never starts, so the
      button is enabled again at once. */
  lemma AsWrittenNeverSends(s: Sender, outcome: Result<Json>, email: string)
    requires s.cooldown == 0 && email != ""
    ensures SendAsWritten(s, outcome).message != SENT
    ensures SendAsWritten(s, outcome).cooldown == 0
    ensures !SendDisabled(email, SendAsWritten(s, outcome))
  {
    AuthApi.EmailCodeCallsMissing(outcome);
  }

  /** `sendCode` with a request that settles with `outcome`. */
  function Send(s: Sender, outcome: Result<Json>): (s': Sender)
    ensures !s'.sending
    ensures outcome.Ok? ==> s'.cooldown == COOLDOWN && s'.message == SENT
    ensures outcome.Err? ==> s'.cooldown == s.cooldown && s'.message == MessageOr(outcome.error, SEND_FAILED)
  {
    Finished(Started(s), outcome)
  }

  /** After a code is sent the button stays disabled for 60 timer
      firings, and is enabled again by the 60th. */
  lemma SendLocksForCooldown(s: Sender, data: Json, email: string, n: nat)
    requires email != ""
    ensures n < COOLDOWN ==> SendDisabled(email, Ticks(Send(s, Ok(data)), n))
    ensures n >= COOLDOWN ==> !SendDisabled(email, Ticks(Send(s, Ok(data)), n))
  {
    TicksCountDown(Send(s, Ok(data)), n);
  }

  /** The counter never leaves 0..60. */
  predicate Valid(s: Sender)
  {
    0 <= s.cooldown <= COOLDOWN
  }

  lemma ValidPreserved(s: Sender, outcome: Result<Json>, n: nat)
    requires Valid(s)
    ensures Valid(IDLE)
    ensures Valid(Started(s)) && Valid(Send(s, outcome)) && Valid(SendAsWritten(s, outcome))
    ensures Valid(Ticks(s, n))
  {
    TicksCountDown(s, n);
  }
}
