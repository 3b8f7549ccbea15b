/** The "Pay" button: with a session token it posts the booking to the backend and
    sends the browser to the checkout page the backend returns; otherwise it shows
    why it could not. */
module PaymentButton {
  import opened Wrappers
  import opened Text

  /** The JSON body the button posts. */
  datatype PaymentBody = PaymentBody(doctor_id: int, date: string, time: string, reason: string)

  /** The parsed reply: `checkout_url` on success, `detail` on failure. */
  datatype PaymentData = PaymentData(checkout_url: Option<string>, detail: Option<string>)

  /** How the request ended: a response (`response.ok` and its JSON), or a throw
      (network failure or a body that is not JSON). */
  datatype PaymentReply = Replied(ok: bool, data: PaymentData) | Failed

  const LoginToPay := "Please login to make payment"
  const SessionFailed := "Failed to create payment session"
  const NetworkFailed := "Network error occurred. Please try again."

  predicate LeadsToCheckout(reply: PaymentReply)
  {
    reply.Replied? && reply.ok && Truthy(reply.data.checkout_url)
  }

  class Button {
    const doctorId: int
    const date: string
    const time: string
    const reason: string
    const disabled: bool
    var isLoading: bool
    var error: string
    /** Where `window.location.href` was sent, if anywhere. */
    var redirect: Option<string>

    constructor (doctorId: int, date: string, time: string, reason: string, disabled: bool)
      ensures this.doctorId == doctorId && this.date == date && this.time == time && this.reason == reason
      ensures this.disabled == disabled && !isLoading && error == "" && redirect.None?
    {
      this.doctorId := doctorId;
      this.date := date;
      this.time := time;
      this.reason := reason;
      this.disabled := disabled;
      isLoading := false;
      error := "";
      redirect := None;
    }

    /** The button is disabled while a payment is in flight or when the caller
        disables it. */
    predicate IsDisabled()
      reads this
    {
      disabled || isLoading
    }

    /** `handlePayment`. Without a token nothing is sent and the login message is
        shown. With one, exactly the four booking fields from the props are sent;
        the browser goes to the checkout only for an ok reply with a checkout URL,
        and otherwise the reply's `detail`, the default, or the network message is
        shown. Loading ends on every path that started it. */
    method HandlePayment(token: Option<string>, reply: PaymentReply) returns (sent: Option<PaymentBody>)
      modifies this`isLoading, this`error, this`redirect
      ensures !Truthy(token) ==> sent.None? && error == LoginToPay && isLoading == old(isLoading) && redirect == old(redirect)
      ensures Truthy(token) ==> sent == Some(PaymentBody(doctorId, date, time, reason)) && !isLoading && IsDisabled() == disabled
      ensures Truthy(token) && LeadsToCheckout(reply) ==> redirect == reply.data.checkout_url && error == ""
      ensures Truthy(token) && reply.Replied? && !LeadsToCheckout(reply) ==>
        error == OrElse(reply.data.detail, SessionFailed) && redirect == old(redirect)
      ensures Truthy(token) && reply.Failed? ==> error == NetworkFailed && redirect == old(redirect)
    {
      if !Truthy(token) {
        error := LoginToPay;
        return None;
      }
      isLoading := true;
      error := "";
      sent := Some(PaymentBody(doctorId, date, time, reason));
      AwaitReply(reply);
    }

    /** The `try`/`catch`/`finally` around the request. */
    method AwaitReply(reply: PaymentReply)
      modifies this`isLoading, this`error, this`redirect
      ensures LeadsToCheckout(reply) ==> redirect == reply.data.checkout_url && error == old(error)
      ensures reply.Replied? && !LeadsToCheckout(reply) ==> error == OrElse(reply.data.detail, SessionFailed) && redirect == old(redirect)
      ensures reply.Failed? ==> error == NetworkFailed && redirect == old(redirect)
      ensures !isLoading
    {
      match reply {
        case Replied(ok, data) =>
          if LeadsToCheckout(reply) {
            redirect := data.checkout_url;
          } else {
            error := OrElse(data.detail, SessionFailed);
          }
        case Failed =>
          error := NetworkFailed;
      }
      isLoading := false;
    }
  }
}
