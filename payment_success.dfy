/** The page the payment provider returns to: it verifies the checkout session
    named in the URL and shows whether the appointment is paid. */
module PaymentSuccess {
  import opened Wrappers
  import opened Text

  /** The JSON of a verification reply. */
  datatype VerifyBody = VerifyBody(
    payment_status: Option<string>,
    appointment_paid: bool,
    appointment_status: Option<string>,
    detail: Option<string>)

  /** How the verification request ended. */
  datatype VerifyReply = Verified(ok: bool, body: VerifyBody) | VerifyFailed

  const NoSession := "No payment session found"
  const VerifyFailedMessage := "Failed to verify payment"
  const NetworkFailed := "Network error occurred"
  const SuccessTitle := "Payment Successful!"
  const ProcessingTitle := "Payment Processing"
  const ConfirmedLine := "Appointment: Confirmed"
  const PendingLine := "Appointment: Pending"

  /** `isPaymentSuccessful` */
  predicate IsPaymentSuccessful(status: Option<VerifyBody>)
  {
    status.Some? && status.value.payment_status == Some("paid") && status.value.appointment_paid
  }

  /** What the page shows. */
  datatype View =
    | LoadingView
    | ErrorView(message: string)
    | ResultView(successful: bool, title: string, alert: string, statusLine: string, appointmentLine: string, paymentLine: string)

  /** `paymentStatus?.payment_status` */
  function PaymentStatusOf(status: Option<VerifyBody>): Option<string>
  {
    if status.Some? then status.value.payment_status else None
  }

  /** `paymentStatus?.appointment_status` */
  function AppointmentStatusOf(status: Option<VerifyBody>): Option<string>
  {
    if status.Some? then status.value.appointment_status else None
  }

  /** The page's render: loading first, then the error, then the result. */
  function PageView(isLoading: bool, error: string, status: Option<VerifyBody>): (v: View)
    ensures isLoading ==> v == LoadingView
    ensures !isLoading && error != "" ==> v == ErrorView(error)
    ensures !isLoading && error == "" ==> v.ResultView? && (v.successful <==> IsPaymentSuccessful(status))
  {
    if isLoading then LoadingView
    else if error != "" then ErrorView(error)
    else
      var ok := IsPaymentSuccessful(status);
      var paymentStatus := PaymentStatusOf(status);
      ResultView(
        ok,
        if ok then SuccessTitle else ProcessingTitle,
        if ok then "Payment completed successfully. You will receive a confirmation email shortly."
        else "Payment Status: " + OrElse(paymentStatus, "Unknown"),
        "Status: " + OrElse(AppointmentStatusOf(status), "Unknown"),
        if status.Some? && status.value.appointment_paid then ConfirmedLine else PendingLine,
        "Payment: " + OrElse(paymentStatus, "Processing"))
  }

  /** The success text appears exactly when the payment status is "paid" and the
      appointment is paid; any other reply, including a paid payment whose
      appointment is not yet marked paid, shows "Payment Processing" with the
      payment status or "Unknown". The appointment line reads "Confirmed" exactly
      when the appointment is paid. */
  lemma ResultText(status: VerifyBody)
    ensures var v := PageView(false, "", Some(status));
      (v.title == SuccessTitle <==> status.payment_status == Some("paid") && status.appointment_paid) &&
      (v.title != SuccessTitle ==>
         (v.title == ProcessingTitle && v.alert == "Payment Status: " + OrElse(status.payment_status, "Unknown"))) &&
      (v.appointmentLine == ConfirmedLine <==> status.appointment_paid)
  {
    assert SuccessTitle[8] != ProcessingTitle[8];
    assert ConfirmedLine[13] != PendingLine[13];
  }

  class Page {
    var isLoading: bool
    var paymentStatus: Option<VerifyBody>
    var error: string

    constructor ()
      ensures isLoading && paymentStatus.None? && error == ""
    {
      isLoading := true;
      paymentStatus := None;
      error := "";
    }

    function View(): View
      reads this
    {
      PageView(isLoading, error, paymentStatus)
    }

    /** The effect on load. Without a session id the error is set and loading
        ends with no verification; otherwise the session is verified. `verified`
        is the session id sent for verification, if any. */
    method OnLoad(sessionId: Option<string>, reply: VerifyReply) returns (verified: Option<string>)
      modifies this
      ensures !Truthy(sessionId) ==> verified.None? && error == NoSession && paymentStatus == old(paymentStatus)
      ensures Truthy(sessionId) ==> verified == sessionId
      ensures Truthy(sessionId) && reply.Verified? && reply.ok ==> paymentStatus == Some(reply.body) && error == old(error)
      ensures Truthy(sessionId) && reply.Verified? && !reply.ok ==>
        error == OrElse(reply.body.detail, VerifyFailedMessage) && paymentStatus == old(paymentStatus)
      ensures Truthy(sessionId) && reply.VerifyFailed? ==> error == NetworkFailed && paymentStatus == old(paymentStatus)
      ensures !isLoading
    {
      if !Truthy(sessionId) {
        error := NoSession;
        isLoading := false;
        return None;
      }
      VerifyPayment(reply);
      return sessionId;
    }

    /** `verifyPayment` */
    method VerifyPayment(reply: VerifyReply)
      modifies this
      ensures reply.Verified? && reply.ok ==> paymentStatus == Some(reply.body) && error == old(error)
      ensures reply.Verified? && !reply.ok ==> error == OrElse(reply.body.detail, VerifyFailedMessage) && paymentStatus == old(paymentStatus)
      ensures reply.VerifyFailed? ==> error == NetworkFailed && paymentStatus == old(paymentStatus)
      ensures !isLoading
    {
      match reply {
        case Verified(ok, body) =>
          if ok {
            paymentStatus := Some(body);
          } else {
            error := OrElse(body.detail, VerifyFailedMessage);
          }
        case VerifyFailed =>
          error := NetworkFailed;
      }
      isLoading := false;
    }
  }

  /** Starting from the initial state, the page after loading shows either an
      error or a verified result, never the spinner; it shows the success text
      only for a verified, paid session. */
  lemma AfterLoad(sessionId: Option<string>, reply: VerifyReply, error: string, status: Option<VerifyBody>)
    requires !Truthy(sessionId) ==> error == NoSession && status.None?
    requires Truthy(sessionId) && reply.Verified? && reply.ok ==> status == Some(reply.body) && error == ""
    requires Truthy(sessionId) && reply.Verified? && !reply.ok ==> error == OrElse(reply.body.detail, VerifyFailedMessage) && status.None?
    requires Truthy(sessionId) && reply.VerifyFailed? ==> error == NetworkFailed && status.None?
    ensures var v := PageView(false, error, status);
      (v.ErrorView? || v.ResultView?) &&
      (v.ResultView? && v.successful ==>
         (Truthy(sessionId) && reply.Verified? && reply.ok &&
          reply.body.payment_status == Some("paid") && reply.body.appointment_paid))
  {
  }
}
