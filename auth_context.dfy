/** The mock authentication provider (src/context/auth-context.tsx): the signed-in
    user, the flag that is set until the stored session has been read, and
    the `user` entry of local storage. */
module AuthContext {
  import opened Common
  import opened JsText

  /** `User` of src/lib/types.ts; the provider never sets `avatarUrl`. */
  datatype User = User(name: string, email: string, initials: string, avatarUrl: Option<string>)

  const UserKey: string := "user"

  /** `email.split('@')[0]`: everything before the first `@`, or the whole
      address when it has none. */
  function NameFromEmail(email: string): (name: string)
    ensures '@' !in name
    ensures |name| <= |email| && name == email[..|name|]
    ensures |name| < |email| ==> email[|name|] == '@'
    ensures '@' !in email ==> name == email
  {
    var parts := Split(email, '@');
    NamePrefix(email);
    parts[0]
  }

  lemma NamePrefix(email: string)
    ensures var name := Split(email, '@')[0];
      |name| <= |email| && name == email[..|name|] && (|name| < |email| ==> email[|name|] == '@')
  {
    var k := IndexOf(email, '@');
    if k != -1 {
      assert Split(email, '@')[0] == email[..k];
    }
  }

  /** For an address `local@domain`, the name is the local part. */
  lemma NameIsLocalPart(local: string, domain: string)
    requires '@' !in local
    ensures NameFromEmail(local + "@" + domain) == local
  {
    var email := local + "@" + domain;
    IndexOfAfterSeparatorFree(local, domain, '@');
    assert email[..|local|] == local;
  }

  /** `(s[0] || '').toUpperCase()`: the first character upper-cased, or
      nothing for an empty string. */
  function Initials(s: string): (r: string)
    ensures |r| == if s == [] then 0 else 1
    ensures s != [] ==> r[0] == UpperChar(s[0])
  {
    if s == [] then "" else [UpperChar(s[0])]
  }

  /** The user `login` creates: the name taken from the address. */
  function LoginUser(email: string): (u: User)
    ensures u.email == email && u.name == NameFromEmail(email) && u.avatarUrl.None?
    ensures u.initials == Initials(u.name)
  {
    User(NameFromEmail(email), email, Initials(NameFromEmail(email)), None)
  }

  /** The user `signup` creates: the name as entered. */
  function SignupUser(email: string, name: string): (u: User)
    ensures u.email == email && u.name == name && u.avatarUrl.None?
    ensures u.initials == Initials(name)
  {
    User(name, email, Initials(name), None)
  }

  /** Logging in is signing up under the name derived from the address, so
      both paths agree on the initials. */
  lemma LoginIsSignupWithDerivedName(email: string)
    ensures LoginUser(email) == SignupUser(email, NameFromEmail(email))
  {
  }

  /** An address starting with a lower-case letter gets that letter's
      capital as its initials. */
  lemma LowerCaseInitial(local: string, domain: string)
    requires '@' !in local && local != [] && 'a' <= local[0] <= 'z'
    ensures LoginUser(local + "@" + domain).initials == [(local[0] as int - 32) as char]
  {
    NameIsLocalPart(local, domain);
  }

  class AuthProvider {
    var user: Option<User>
    var loading: bool
    /** The browser's local storage, as far as the provider uses it. */
    var storage: map<string, Stored<User>>

    /** The user in memory is exactly the one a page load would restore. */
    predicate Synced()
      reads this
    {
      user == if UserKey in storage && storage[UserKey].Parsed? then Some(storage[UserKey].value) else None
    }

    /** The provider's first render: no user, still loading. */
    constructor (stored: map<string, Stored<User>>)
      ensures user == None && loading && storage == stored
    {
      user := None;
      loading := true;
      storage := stored;
    }

    /** The mount effect: a stored user is restored, an entry that does not
        parse is deleted, and loading ends in every case. */
    method RestoreSession()
      modifies this
      ensures !loading
      ensures UserKey !in old(storage) ==> user == old(user) && storage == old(storage)
      ensures UserKey in old(storage) && old(storage)[UserKey].Parsed? ==>
        user == Some(old(storage)[UserKey].value) && storage == old(storage)
      ensures UserKey in old(storage) && old(storage)[UserKey].Corrupt? ==>
        user == old(user) && storage == old(storage) - {UserKey}
      ensures old(user).None? || old(Synced()) ==> Synced()
    {
      if UserKey in storage {
        match storage[UserKey]
        case Parsed(u) =>
          user := Some(u);
        case Corrupt =>
          storage := storage - {UserKey};
      }
      loading := false;
    }

    /** `login`: the user derived from the address is stored and signed in. */
    method Login(email: string)
      modifies this
      ensures user == Some(LoginUser(email))
      ensures storage == old(storage)[UserKey := Parsed(LoginUser(email))]
      ensures loading == old(loading)
      ensures Synced()
    {
      var u := LoginUser(email);
      storage := storage[UserKey := Parsed(u)];
      user := Some(u);
    }

    /** `signup`: the user with the entered name is stored and signed in. */
    method Signup(email: string, name: string)
      modifies this
      ensures user == Some(SignupUser(email, name))
      ensures storage == old(storage)[UserKey := Parsed(SignupUser(email, name))]
      ensures loading == old(loading)
      ensures Synced()
    {
      var u := SignupUser(email, name);
      storage := storage[UserKey := Parsed(u)];
      user := Some(u);
    }

    /** `logout`: the stored user is removed and nobody is signed in. */
    method Logout()
      modifies this
      ensures user == None && storage == old(storage) - {UserKey}
      ensures loading == old(loading)
      ensures Synced()
    {
      storage := storage - {UserKey};
      user := None;
    }
  }
}
