/** The verification-code form (src/components/otp-form.tsx): the code must be
    six characters long, and the input box holds at most six. */
module OtpForm {
  import opened Common

  const OtpLength: nat := 6
  const OtpMessage: string := "OTP must be 6 digits."

  /** `otpSchema`: a `min(6)` and a `max(6)` rule with the same message; at
      most one of them can fail. */
  function Errors(otp: string): (errors: seq<FieldError>)
    ensures errors == [] <==> |otp| == OtpLength
    ensures errors != [] ==> errors == [FieldError("otp", OtpMessage)]
  {
    (if |otp| < OtpLength then [FieldError("otp", OtpMessage)] else [])
    + (if |otp| > OtpLength then [FieldError("otp", OtpMessage)] else [])
  }

  /** `maxLength={6}`: what the box keeps of what was typed. */
  function CapInput(typed: string): (kept: string)
    ensures |kept| <= OtpLength && |kept| <= |typed|
    ensures kept == typed[..|kept|]
    ensures |typed| <= OtpLength ==> kept == typed
  {
    if |typed| <= OtpLength then typed else typed[..OtpLength]
  }

  /** `form.handleSubmit(onSubmit)`. */
  function Submit(otp: string): (forwarded: Option<string>)
    ensures forwarded.Some? <==> Errors(otp) == []
    ensures forwarded.Some? ==> forwarded.value == otp
  {
    if Errors(otp) == [] then Some(otp) else None
  }

  /** Through the box, only a short entry can be refused: the `max` rule
      never fires, and six or more typed characters always pass. */
  lemma CappedInputRefusedOnlyWhenShort(typed: string)
    ensures Submit(CapInput(typed)).Some? <==> |typed| >= OtpLength
    ensures |typed| >= OtpLength ==> Submit(CapInput(typed)) == Some(typed[..OtpLength])
  {
  }

  /** The rule counts characters only: six letters pass although the message
      speaks of digits. */
  lemma LettersAccepted()
    ensures Submit("abcdef") == Some("abcdef")
  {
  }
}
