/** The forgot-password page (src/components/ForgotPasswordPageComponent.tsx):
    a status machine idle → sending → sent | error around one POST, split
    at its `await` like the reset page. */
module ForgotPassword {
  import opened Wrappers
  import opened Js
  import RP = ResetPassword

  datatype Status = Idle | Sending | Sent | Error

  /** The form is hidden once the email has been sent. */
  function FormVisible(status: Status): (r: bool)
    ensures r <==> status in {Idle, Sending, Error}
  {
    status != Sent
  }

  /** `disabled={status === "sending"}`. */
  function SubmitDisabled(status: Status): (r: bool)
    ensures r ==> FormVisible(status)
    ensures !r <==> status in {Idle, Sent, Error}
  {
    status == Sending
  }

  class ForgotPasswordPage {
    var email: string
    var status: Status
    var error: Option<string>
    var sent: seq<string>

    constructor ()
      ensures email == "" && status == Idle && error == None && sent == []
    {
      email, status, error, sent := "", Idle, None, [];
    }

    method SetEmail(e: string)
      modifies this
      ensures email == e && status == old(status) && error == old(error) && sent == old(sent)
    {
      email := e;
    }

    /** `handleSubmit` up to its `await`: from any status, sending with no error. */
    method BeginSubmit()
      modifies this
      ensures status == Sending && error == None && sent == old(sent) + [email]
      ensures email == old(email)
    {
      status := Sending;
      error := None;
      sent := sent + [email];
    }

    /** `handleSubmit` after its `await`. The failure text is the one the
        reset page builds. */
    method FinishSubmit(answer: RP.Answer)
      requires status == Sending
      modifies this
      ensures answer.Accepted? ==> status == Sent && error == old(error)
      ensures !answer.Accepted? ==> status == Error && error == Some(RP.FailureMessage(answer))
      ensures email == old(email) && sent == old(sent)
    {
      if answer.Accepted? {
        status := Sent;
      } else {
        error := Some(RP.FailureMessage(answer));
        status := Error;
      }
    }

    method HandleSubmit(answer: RP.Answer)
      modifies this
      ensures email == old(email) && sent == old(sent) + [old(email)]
      ensures answer.Accepted? ==> status == Sent && error == None && !FormVisible(status)
      ensures !answer.Accepted? ==> status == Error && error == Some(RP.FailureMessage(answer))
                                    && FormVisible(status) && !SubmitDisabled(status)
    {
      BeginSubmit();
      FinishSubmit(answer);
    }
  }

  /** A client: a retry after an error starts over, and while it waits the
      button is disabled. */
  method RetryAfterError(e: string)
  {
    var page := new ForgotPasswordPage();
    page.SetEmail(e);
    page.HandleSubmit(RP.Thrown("Failed to fetch"));
    assert page.status == Error;
    page.BeginSubmit();
    assert SubmitDisabled(page.status) && page.error == None;
    assert page.sent == [e, e];
  }
}
