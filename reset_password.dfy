/** The reset-password page (src/components/ResetPasswordPageComponent.tsx):
    a status machine idle → submitting → success | error around one POST,
    guarded by the check that both passwords agree. `handleSubmit` runs in
    two halves around its `await`, so the state in between can be observed
    (the button is disabled then). */
module ResetPassword {
  import opened Wrappers
  import opened Js

  datatype Status = Idle | Submitting | Success | Error

  /** The backend's answer: accepted; refused with the error body's
      `message`, if any, and the status text; or a thrown error (network,
      or an error body that is not JSON) with its message. */
  datatype Answer = Accepted | Refused(message: Option<string>, statusText: string) | Thrown(reason: string)

  datatype ResetRequest = ResetRequest(token: string, newPassword: string)

  /** `query.get("token") || ""`. */
  function TokenFrom(param: Option<string>): (t: string)
    ensures param.Some? ==> t == param.value
    ensures param.None? ==> t == ""
  {
    if TruthyText(param) then param.value else ""
  }

  /** The effect `if (!token) navigate("/auth/forgot-password")`. */
  function RedirectTarget(token: string): (r: Option<string>)
    ensures r.Some? <==> token == ""
    ensures r.Some? ==> r.value == "/auth/forgot-password"
  {
    if token == "" then Some("/auth/forgot-password") else None
  }

  /** The form is hidden once the status is success. */
  function FormVisible(status: Status): (r: bool)
    ensures r <==> status in {Idle, Submitting, Error}
  {
    status != Success
  }

  /** `disabled={status === "submitting"}`. */
  function SubmitDisabled(status: Status): (r: bool)
    ensures r ==> FormVisible(status)
    ensures !r <==> status in {Idle, Success, Error}
  {
    status == Submitting
  }

  /** `body.message || res.statusText`, or the thrown error's message. */
  function FailureMessage(answer: Answer): (m: string)
    requires !answer.Accepted?
    ensures answer.Refused? && answer.message.Some? && answer.message.value != "" ==> m == answer.message.value
    ensures answer.Refused? && (answer.message.None? || answer.message.value == "") ==> m == answer.statusText
    ensures answer.Thrown? ==> m == answer.reason
  {
    match answer
    case Refused(message, statusText) => if TruthyText(message) then message.value else statusText
    case Thrown(reason) => reason
  }

  class ResetPasswordPage {
    const token: string
    var newPassword: string
    var confirmPassword: string
    var status: Status
    var error: Option<string>
    var sent: seq<ResetRequest>

    constructor (param: Option<string>)
      ensures token == TokenFrom(param) && newPassword == "" && confirmPassword == ""
      ensures status == Idle && error == None && sent == []
    {
      token := TokenFrom(param);
      newPassword, confirmPassword, status, error, sent := "", "", Idle, None, [];
    }

    method SetPasswords(p: string, c: string)
      modifies this
      ensures newPassword == p && confirmPassword == c
      ensures status == old(status) && error == old(error) && sent == old(sent)
    {
      newPassword, confirmPassword := p, c;
    }

    /** `handleSubmit` up to its `await`. A mismatch sets the message and
        stops with the status unchanged; otherwise the page is submitting,
        the error cleared and the request sent (`proceeds`). */
    method BeginSubmit() returns (proceeds: bool)
      modifies this
      ensures proceeds <==> newPassword == confirmPassword
      ensures !proceeds ==> status == old(status) && error == Some("Le password non coincidono") && sent == old(sent)
      ensures proceeds ==> status == Submitting && error == None && sent == old(sent) + [ResetRequest(token, newPassword)]
      ensures newPassword == old(newPassword) && confirmPassword == old(confirmPassword)
    {
      if newPassword != confirmPassword {
        error := Some("Le password non coincidono");
        return false;
      }
      status := Submitting;
      error := None;
      sent := sent + [ResetRequest(token, newPassword)];
      proceeds := true;
    }

    /** `handleSubmit` after its `await`. */
    method FinishSubmit(answer: Answer)
      requires status == Submitting
      modifies this
      ensures answer.Accepted? ==> status == Success && error == old(error)
      ensures !answer.Accepted? ==> status == Error && error == Some(FailureMessage(answer))
      ensures newPassword == old(newPassword) && confirmPassword == old(confirmPassword) && sent == old(sent)
    {
      if answer.Accepted? {
        status := Success;
      } else {
        error := Some(FailureMessage(answer));
        status := Error;
      }
    }

    /** The whole handler: agreeing passwords always end in success or
        error, and the form stays on screen exactly after an error. */
    method HandleSubmit(answer: Answer)
      modifies this
      ensures newPassword == old(newPassword) && confirmPassword == old(confirmPassword)
      ensures old(newPassword) != old(confirmPassword) ==>
                status == old(status) && error == Some("Le password non coincidono") && sent == old(sent)
      ensures old(newPassword) == old(confirmPassword) ==> sent == old(sent) + [ResetRequest(token, newPassword)]
      ensures old(newPassword) == old(confirmPassword) && answer.Accepted? ==> status == Success && error == None && !FormVisible(status)
      ensures old(newPassword) == old(confirmPassword) && !answer.Accepted? ==>
                status == Error && error == Some(FailureMessage(answer)) && FormVisible(status) && !SubmitDisabled(status)
    {
      var proceeds := BeginSubmit();
      if proceeds {
        FinishSubmit(answer);
      }
    }
  }

  /** A client: a mismatch on a fresh page sends nothing and keeps the page idle. */
  method MismatchOnFreshPage(param: Option<string>, p: string, c: string)
    requires p != c
  {
    var page := new ResetPasswordPage(param);
    page.SetPasswords(p, c);
    page.HandleSubmit(Accepted);
    assert page.status == Idle && page.sent == [];
    assert FormVisible(page.status) && !SubmitDisabled(page.status);
  }
}
