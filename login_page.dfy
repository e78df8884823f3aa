/** The stand-alone sign-in page (src/app/login/page.tsx): an address and a
    password that is checked for presence only, a sign-in through the
    authentication provider, and the redirect of a signed-in user. */
module LoginPage {
  import opened Common
  import AuthContext

  datatype LoginValues = LoginValues(email: string, password: string)

  const EmailMessage: string := "Please enter a valid email."
  const PasswordMessage: string := "Password is required."
  const ProfilePath: string := "/profile"

  /** `defaultValues`. */
  function Defaults(): (v: LoginValues)
    ensures v.email == "" && v.password == ""
  {
    LoginValues("", "")
  }

  /** `formSchema`, with the e-mail check supplied by the caller. */
  function Errors(v: LoginValues, isEmail: string -> bool): (errors: seq<FieldError>)
    ensures errors == [] <==> isEmail(v.email) && v.password != ""
    ensures FieldError("email", EmailMessage) in errors <==> !isEmail(v.email)
    ensures FieldError("password", PasswordMessage) in errors <==> v.password == ""
  {
    (if isEmail(v.email) then [] else [FieldError("email", EmailMessage)])
    + (if v.password == "" then [FieldError("password", PasswordMessage)] else [])
  }

  /** The effect on `user`: a signed-in user is sent to the profile page. */
  function RedirectTarget(user: Option<AuthContext.User>): (target: Option<string>)
    ensures target.Some? <==> user.Some?
    ensures target.Some? ==> target.value == ProfilePath
  {
    if user.Some? then Some(ProfilePath) else None
  }

  /** `form.handleSubmit(onSubmit)`: valid values sign in under the address
      alone (any non-empty password will do); invalid ones change nothing. */
  method Submit(auth: AuthContext.AuthProvider, v: LoginValues, isEmail: string -> bool) returns (signedIn: bool)
    modifies auth
    ensures signedIn <==> Errors(v, isEmail) == []
    ensures !signedIn ==> auth.user == old(auth.user) && auth.storage == old(auth.storage)
    ensures signedIn ==>
      && auth.user == Some(AuthContext.LoginUser(v.email))
      && auth.storage == old(auth.storage)[AuthContext.UserKey := Parsed(AuthContext.LoginUser(v.email))]
    ensures auth.loading == old(auth.loading)
    ensures signedIn ==> RedirectTarget(auth.user) == Some(ProfilePath)
  {
    if Errors(v, isEmail) != [] {
      return false;
    }
    auth.Login(v.email);
    signedIn := true;
  }
}
