/** The sign-in form (src/components/login-form.tsx): the schema for address,
    password and CAPTCHA answer, the CAPTCHA code drawn from 62 characters,
    and the case-insensitive check that either forwards the form or clears
    the answer and draws a new code. */
module LoginForm {
  import opened Common
  import opened JsText

  const Alphabet: string := "ABCDEFGHIJKLMNOPQRSTUVWXYZabcdefghijklmnopqrstuvwxyz0123456789"
  const CaptchaLength: nat := 6

  const EmailMessage: string := "Please enter a valid email."
  const PasswordMessage: string := "Password is required."
  const CaptchaMessage: string := "Please solve the CAPTCHA."

  /** The first position of an alphabet character. */
  function AlphabetIndex(c: char): (i: int)
    requires c in Alphabet
    ensures 0 <= i < |Alphabet| && Alphabet[i] == c
  {
    IndexOf(Alphabet, c)
  }

  /** Each draw of `Math.floor(Math.random() * chars.length)` is a position
      in the alphabet. */
  predicate ValidDraws(draws: seq<int>) {
    |draws| == CaptchaLength && forall i :: 0 <= i < |draws| ==> 0 <= draws[i] < |Alphabet|
  }

  /** The code six draws spell. */
  function CodeFromDraws(draws: seq<int>): (code: string)
    requires forall i :: 0 <= i < |draws| ==> 0 <= draws[i] < |Alphabet|
    ensures |code| == |draws|
    ensures forall i :: 0 <= i < |draws| ==> code[i] == Alphabet[draws[i]]
  {
    seq(|draws|, i requires 0 <= i < |draws| => Alphabet[draws[i]])
  }

  /** The draws that spell a code over the alphabet. */
  function DrawsFor(code: string): (draws: seq<int>)
    requires forall i :: 0 <= i < |code| ==> code[i] in Alphabet
    ensures |draws| == |code|
    ensures forall i :: 0 <= i < |code| ==> 0 <= draws[i] < |Alphabet|
  {
    seq(|code|, i requires 0 <= i < |code| => AlphabetIndex(code[i]))
  }

  /** Every code over the alphabet is spelled by some draws: the
      generator can miss no code over the alphabet. */
  lemma EveryCodeCanBeDrawn(code: string)
    requires |code| == CaptchaLength && forall i :: 0 <= i < |code| ==> code[i] in Alphabet
    ensures ValidDraws(DrawsFor(code)) && CodeFromDraws(DrawsFor(code)) == code
  {
  }

  /** `generateCaptchaCode`: six characters, one per draw. */
  method GenerateCaptchaCode(draws: seq<int>) returns (captcha: string)
    requires ValidDraws(draws)
    ensures captcha == CodeFromDraws(draws)
    ensures |captcha| == CaptchaLength && forall i :: 0 <= i < |captcha| ==> captcha[i] in Alphabet
  {
    captcha := "";
    for i := 0 to CaptchaLength
      invariant |captcha| == i
      invariant forall k :: 0 <= k < i ==> captcha[k] == Alphabet[draws[k]]
    {
      captcha := captcha + [Alphabet[draws[i]]];
    }
    assert forall k :: 0 <= k < |captcha| ==> captcha[k] == Alphabet[draws[k]];
  }

  /** The submitted form: `LoginFormData`. */
  datatype LoginFormData = LoginFormData(email: string, password: string, captcha: string)

  /** `loginSchema`, with the e-mail check supplied by the caller: one
      message per failing field, in the order email, password, captcha. */
  function Errors(data: LoginFormData, isEmail: string -> bool): (errors: seq<FieldError>)
    ensures errors == [] <==> isEmail(data.email) && data.password != "" && data.captcha != ""
    ensures FieldError("email", EmailMessage) in errors <==> !isEmail(data.email)
    ensures FieldError("password", PasswordMessage) in errors <==> data.password == ""
    ensures FieldError("captcha", CaptchaMessage) in errors <==> data.captcha == ""
  {
    (if isEmail(data.email) then [] else [FieldError("email", EmailMessage)])
    + (if data.password == "" then [FieldError("password", PasswordMessage)] else [])
    + (if data.captcha == "" then [FieldError("captcha", CaptchaMessage)] else [])
  }

  /** `data.captcha.toLowerCase() !== captchaCode.toLowerCase()`, negated. */
  predicate CaptchaMatches(answer: string, code: string) {
    EqualsIgnoringCase(answer, code)
  }

  /** The answer is accepted in whatever case it is typed, and only when it
      agrees with the code character by character up to case. */
  lemma CaptchaIgnoresCase(code: string)
    ensures CaptchaMatches(ToUpper(code), code) && CaptchaMatches(ToLower(code), code)
    ensures forall answer :: CaptchaMatches(answer, code) ==>
      |answer| == |code| && forall k :: 0 <= k < |code| ==> LowerChar(answer[k]) == LowerChar(code[k])
  {
    UpperEqualsIgnoringCase(code);
    assert forall k :: 0 <= k < |code| ==> LowerChar(LowerChar(code[k])) == LowerChar(code[k]);
    EqualsIgnoringCasePointwise(ToLower(code), code);
    forall answer | CaptchaMatches(answer, code)
      ensures |answer| == |code| && forall k :: 0 <= k < |code| ==> LowerChar(answer[k]) == LowerChar(code[k])
    {
      EqualsIgnoringCasePointwise(answer, code);
    }
  }

  class LoginFormState {
    var captchaCode: string
    var values: LoginFormData
    var showPassword: bool

    /** The first render: no code yet, empty fields, password hidden. */
    constructor ()
      ensures captchaCode == "" && values == LoginFormData("", "", "") && !showPassword
    {
      captchaCode := "";
      values := LoginFormData("", "", "");
      showPassword := false;
    }

    /** `generateNewCaptcha`: run on mount and by the refresh button. */
    method GenerateNewCaptcha(draws: seq<int>)
      requires ValidDraws(draws)
      modifies this
      ensures captchaCode == CodeFromDraws(draws)
      ensures values == old(values) && showPassword == old(showPassword)
    {
      captchaCode := GenerateCaptchaCode(draws);
    }

    /** Typing into one of the fields. */
    method SetValues(data: LoginFormData)
      modifies this
      ensures values == data
      ensures captchaCode == old(captchaCode) && showPassword == old(showPassword)
    {
      values := data;
    }

    /** `togglePasswordVisibility`. */
    method TogglePasswordVisibility()
      modifies this
      ensures showPassword == !old(showPassword)
      ensures captchaCode == old(captchaCode) && values == old(values)
    {
      showPassword := !showPassword;
    }

    /** Submitting: invalid fields stop at the schema; a wrong CAPTCHA answer
        is cleared and a new code drawn; otherwise the form data is forwarded
        to `onSubmit` unchanged. */
    method Submit(isEmail: string -> bool, draws: seq<int>) returns (forwarded: Option<LoginFormData>)
      requires ValidDraws(draws)
      modifies this
      ensures forwarded.Some? <==>
        Errors(old(values), isEmail) == [] && CaptchaMatches(old(values).captcha, old(captchaCode))
      ensures forwarded.Some? ==> forwarded.value == old(values)
      ensures Errors(old(values), isEmail) != [] ==>
        values == old(values) && captchaCode == old(captchaCode)
      ensures Errors(old(values), isEmail) == [] && !CaptchaMatches(old(values).captcha, old(captchaCode)) ==>
        values == old(values).(captcha := "") && captchaCode == CodeFromDraws(draws)
      ensures forwarded.Some? ==> values == old(values) && captchaCode == old(captchaCode)
      ensures showPassword == old(showPassword)
    {
      if Errors(values, isEmail) != [] {
        return None;
      }
      if !CaptchaMatches(values.captcha, captchaCode) {
        values := values.(captcha := "");
        GenerateNewCaptcha(draws);
        return None;
      }
      forwarded := Some(values);
    }
  }
}
