/** The sign-up form (src/components/signup-form.tsx): its schema, including
    the object-level rule that the two passwords agree, and the hand-off of
    valid data. */
module SignupForm {
  import opened Common

  datatype SignupFormData = SignupFormData(name: string, email: string, password: string, confirmPassword: string)

  const NameMessage: string := "Name must be at least 2 characters."
  const EmailMessage: string := "Please enter a valid email."
  const PasswordMessage: string := "Password must be at least 8 characters."
  const MismatchMessage: string := "Passwords don't match"

  /** `defaultValues`: every field empty. */
  function Defaults(): (data: SignupFormData)
    ensures data.name == "" && data.email == "" && data.password == "" && data.confirmPassword == ""
  {
    SignupFormData("", "", "", "")
  }

  /** `signupSchema`, with the e-mail check supplied by the caller. The field
      rules come first, in field order; the password comparison is reported
      on `confirmPassword` and is made whether or not the field rules pass
      (they fail without making the values malformed). */
  function Errors(data: SignupFormData, isEmail: string -> bool): (errors: seq<FieldError>)
    ensures errors == [] <==>
      |data.name| >= 2 && isEmail(data.email) && |data.password| >= 8 && data.password == data.confirmPassword
    ensures FieldError("name", NameMessage) in errors <==> |data.name| < 2
    ensures FieldError("email", EmailMessage) in errors <==> !isEmail(data.email)
    ensures FieldError("password", PasswordMessage) in errors <==> |data.password| < 8
    ensures FieldError("confirmPassword", MismatchMessage) in errors <==> data.password != data.confirmPassword
  {
    (if |data.name| < 2 then [FieldError("name", NameMessage)] else [])
    + (if isEmail(data.email) then [] else [FieldError("email", EmailMessage)])
    + (if |data.password| < 8 then [FieldError("password", PasswordMessage)] else [])
    + (if data.password != data.confirmPassword then [FieldError("confirmPassword", MismatchMessage)] else [])
  }

  /** `form.handleSubmit(handleFormSubmit)`: valid data is passed on unchanged,
      invalid data is not passed on. */
  function Submit(data: SignupFormData, isEmail: string -> bool): (forwarded: Option<SignupFormData>)
    ensures forwarded.Some? <==> Errors(data, isEmail) == []
    ensures forwarded.Some? ==> forwarded.value == data
  {
    if Errors(data, isEmail) == [] then Some(data) else None
  }

  /** The untouched form is refused: its name and password are too short,
      even though its two empty passwords agree. */
  lemma DefaultsRejected(isEmail: string -> bool)
    ensures Submit(Defaults(), isEmail) == None
    ensures FieldError("confirmPassword", MismatchMessage) !in Errors(Defaults(), isEmail)
  {
  }
}
