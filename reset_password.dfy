/** The reset-password page: it takes the reset token from the link, checks the
    new password and posts it with the token. */
module ResetPassword {
  import opened Wrappers
  import opened Text

  const TooShort := "Password must be at least 8 characters long"
  const NoLower := "Password must contain at least one lowercase letter"
  const NoUpper := "Password must contain at least one uppercase letter"
  const NoDigit := "Password must contain at least one number"
  const Mismatch := "Passwords do not match"
  const InvalidToken := "Invalid reset token"
  const InvalidLink := "Invalid reset link. Please request a new password reset."
  const ResetDone := "Password reset successful! You can now login with your new password."
  const ResetFailedMessage := "Failed to reset password. Please try again."
  const NetworkFailed := "Network error. Please check your connection and try again."

  predicate HasLower(p: string)
  {
    exists i :: 0 <= i < |p| && 'a' <= p[i] <= 'z'
  }

  predicate HasUpper(p: string)
  {
    exists i :: 0 <= i < |p| && 'A' <= p[i] <= 'Z'
  }

  /** `\d` without the `u` flag: an ASCII digit. */
  predicate HasDigit(p: string)
  {
    exists i :: 0 <= i < |p| && IsDigit(p[i])
  }

  /** `validatePassword`: the message of the first rule the password breaks, in
      the order length, lowercase, uppercase, digit. */
  function ValidatePassword(p: string): (r: Option<string>)
    ensures |p| < 8 ==> r == Some(TooShort)
    ensures |p| >= 8 && !HasLower(p) ==> r == Some(NoLower)
    ensures |p| >= 8 && HasLower(p) && !HasUpper(p) ==> r == Some(NoUpper)
    ensures |p| >= 8 && HasLower(p) && HasUpper(p) && !HasDigit(p) ==> r == Some(NoDigit)
  {
    if |p| < 8 then Some(TooShort)
    else if !HasLower(p) then Some(NoLower)
    else if !HasUpper(p) then Some(NoUpper)
    else if !HasDigit(p) then Some(NoDigit)
    else None
  }

  /** A password passes exactly when it is at least 8 long and holds a lowercase
      letter, an uppercase letter and a digit. */
  lemma ValidIff(p: string)
    ensures ValidatePassword(p).None? <==> |p| >= 8 && HasLower(p) && HasUpper(p) && HasDigit(p)
  {
  }

  /** The checks `handleSubmit` makes before sending, in order: the password
      rules, then the confirmation, then the token. */
  function SubmitCheck(password: string, confirm: string, token: string): (r: Option<string>)
    ensures ValidatePassword(password).Some? ==> r == ValidatePassword(password)
    ensures ValidatePassword(password).None? && password != confirm ==> r == Some(Mismatch)
    ensures ValidatePassword(password).None? && password == confirm && token == "" ==> r == Some(InvalidToken)
    ensures r.None? <==> ValidatePassword(password).None? && password == confirm && token != ""
  {
    var e := ValidatePassword(password);
    if e.Some? then e
    else if password != confirm then Some(Mismatch)
    else if token == "" then Some(InvalidToken)
    else None
  }

  /** The JSON body posted to the reset endpoint. */
  datatype ResetBody = ResetBody(token: string, new_password: string)

  /** How the request ended: a JSON response (`response.ok` and `detail`), or a
      throw (network failure or a body that is not JSON). */
  datatype ResetReply = ResetReplied(ok: bool, detail: Option<string>) | ResetFailed

  class Page {
    var password: string
    var confirmPassword: string
    var token: string
    var isLoading: bool
    var message: string
    var isSuccess: bool

    constructor ()
      ensures password == "" && confirmPassword == "" && token == ""
      ensures !isLoading && message == "" && !isSuccess
    {
      password := "";
      confirmPassword := "";
      token := "";
      isLoading := false;
      message := "";
      isSuccess := false;
    }

    /** The effect reading the `token` query parameter. */
    method OnLoad(tokenParam: Option<string>)
      modifies this`token, this`message
      ensures Truthy(tokenParam) ==> token == tokenParam.value && message == old(message)
      ensures !Truthy(tokenParam) ==> token == old(token) && message == InvalidLink
    {
      if Truthy(tokenParam) {
        token := tokenParam.value;
      } else {
        message := InvalidLink;
      }
    }

    /** The submit button is disabled while loading or while the password, the
        confirmation or the token is empty. */
    predicate SubmitDisabled()
      reads this
    {
      isLoading || password == "" || confirmPassword == "" || token == ""
    }

    /** `handleSubmit`. A failed check sets its message and sends nothing; else
        the token and new password are posted and the reply decides the message.
        Loading ends on every path. */
    method HandleSubmit(reply: ResetReply) returns (sent: Option<ResetBody>)
      modifies this`isLoading, this`message, this`isSuccess
      ensures !isLoading
      ensures SubmitCheck(password, confirmPassword, token).Some? ==>
        sent.None? && message == SubmitCheck(password, confirmPassword, token).value && isSuccess == old(isSuccess)
      ensures SubmitCheck(password, confirmPassword, token).None? ==> sent == Some(ResetBody(token, password))
      ensures SubmitCheck(password, confirmPassword, token).None? && reply.ResetReplied? && reply.ok ==>
        isSuccess && message == ResetDone
      ensures SubmitCheck(password, confirmPassword, token).None? && reply.ResetReplied? && !reply.ok ==>
        isSuccess == old(isSuccess) && message == OrElse(reply.detail, ResetFailedMessage)
      ensures SubmitCheck(password, confirmPassword, token).None? && reply.ResetFailed? ==>
        isSuccess == old(isSuccess) && message == NetworkFailed
    {
      isLoading := true;
      message := "";
      var failure := SubmitCheck(password, confirmPassword, token);
      if failure.Some? {
        message := failure.value;
        isLoading := false;
        return None;
      }
      sent := Some(ResetBody(token, password));
      match reply {
        case ResetReplied(ok, detail) =>
          if ok {
            isSuccess := true;
            message := ResetDone;
          } else {
            message := OrElse(detail, ResetFailedMessage);
          }
        case ResetFailed =>
          message := NetworkFailed;
      }
      isLoading := false;
    }
  }
}
