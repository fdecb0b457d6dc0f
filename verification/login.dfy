/** The sign-in form: required-field checks, then a mock credential check
    against the one demo password; on success the session store gets a
    payload with the username and an id, never the password. */
module Login {
  import opened Common
  import opened Text
  import AuthContext
  import Storage

  datatype Field = Username | Password

  const UsernameRequired := "Username is required"
  const PasswordRequired := "Password is required"
  const PasswordTooShort := "Password must be at least 6 characters"
  const InvalidCredentials := "Invalid username or password"
  const DemoPassword := "password123"
  const MinPasswordLength := 6

  /** The `newErrors` object `validateForm` builds: a username error exactly
      when the username is blank, a password error exactly when the password
      is shorter than six UTF-16 units, and which message each carries. */
  function FormErrors(username: string, password: string): (errors: map<Field, string>)
    ensures Username in errors <==> Trim(username) == ""
    ensures Username in errors ==> errors[Username] == UsernameRequired
    ensures Password in errors <==> Utf16Length(password) < MinPasswordLength
    ensures Password in errors ==> errors[Password] == if password == "" then PasswordRequired else PasswordTooShort
  {
    var withUsername := if Trim(username) == "" then map[Username := UsernameRequired] else map[];
    if password == "" then withUsername[Password := PasswordRequired]
    else if Utf16Length(password) < MinPasswordLength then withUsername[Password := PasswordTooShort]
    else withUsername
  }

  /** The form is valid iff the username is not blank and the password has
      at least six UTF-16 units. */
  lemma ValidIff(username: string, password: string)
    ensures FormErrors(username, password) == map[] <==>
      (exists i :: 0 <= i < |username| && !IsWhitespace(username[i])) && Utf16Length(password) >= MinPasswordLength
  {
    TrimEmptyIffBlank(username);
    var errors := FormErrors(username, password);
    if errors == map[] {
      assert Username !in errors && Password !in errors;
    }
  }

  /** What one submit of the form leads to. */
  datatype Submission = Invalid(errors: map<Field, string>) | WrongCredentials | Accepted(payload: User)

  /** `handleSubmit` decided: `login` is called iff the form is valid and
      the password is the demo one, with the username and the clock's id;
      a valid form with another password is refused with a message. */
  function Submit(username: string, password: string, clockId: string): (r: Submission)
    ensures r.Invalid? <==> FormErrors(username, password) != map[]
    ensures r.Invalid? ==> r.errors == FormErrors(username, password)
    ensures r.Accepted? <==> FormErrors(username, password) == map[] && password == DemoPassword
    ensures r.Accepted? ==> r.payload == User(username, clockId)
  {
    var errors := FormErrors(username, password);
    if errors != map[] then Invalid(errors)
    else if password == DemoPassword then Accepted(User(username, clockId))
    else WrongCredentials
  }

  /** A string without characters beyond the Basic Multilingual Plane has as
      many UTF-16 units as characters. */
  lemma {:induction false} BmpUtf16Length(s: string)
    requires forall i :: 0 <= i < |s| ==> s[i] as int <= 0xFFFF
    ensures Utf16Length(s) == |s|
  {
    if s != [] {
      BmpUtf16Length(s[1..]);
    }
  }

  /** With the demo password, only a blank username stops the login. */
  lemma DemoPasswordNeedsOnlyUsername(username: string, clockId: string)
    ensures Submit(username, DemoPassword, clockId).Accepted? <==> Trim(username) != ""
    ensures Trim(username) == "" ==> Submit(username, DemoPassword, clockId) == Invalid(map[Username := UsernameRequired])
  {
    assert Utf16Length(DemoPassword) >= |DemoPassword| == 11;
  }

  /** "alice" is not blank. */
  lemma AliceNotBlank()
    ensures Trim("alice") != ""
  {
    TrimEmptyIffBlank("alice");
    assert !IsWhitespace("alice"[0]);
  }

  /** "wrong" has five UTF-16 units. */
  lemma WrongIsShort()
    ensures Utf16Length("wrong") < MinPasswordLength
  {
    BmpUtf16Length("wrong");
  }

  /** "alice" with the demo password gets in. */
  lemma AliceSignsIn(clockId: string)
    ensures Submit("alice", DemoPassword, clockId) == Accepted(User("alice", clockId))
  {
    AliceNotBlank();
    DemoPasswordNeedsOnlyUsername("alice", clockId);
  }

  /** A non-blank username with a non-empty password shorter than six units
      is refused by validation with the length message alone. */
  lemma ShortPasswordFailsValidation(username: string, password: string, clockId: string)
    requires Trim(username) != "" && password != "" && Utf16Length(password) < MinPasswordLength
    ensures Submit(username, password, clockId) == Invalid(map[Password := PasswordTooShort])
  {
    var errors := FormErrors(username, password);
    assert Username !in errors && Password in errors && errors[Password] == PasswordTooShort;
    assert errors == map[Password := PasswordTooShort];
  }

  /** "alice" with "wrong" is stopped by the length check before the
      credential check, so no credentials message appears and `login` is
      not called. */
  lemma ShortWrongPasswordFailsValidation(clockId: string)
    ensures Submit("alice", "wrong", clockId) == Invalid(map[Password := PasswordTooShort])
  {
    AliceNotBlank();
    WrongIsShort();
    ShortPasswordFailsValidation("alice", "wrong", clockId);
  }

  class LoginForm {
    var username: string
    var password: string
    var errors: map<Field, string>
    var loginError: string
    const auth: AuthContext.AuthStore

    constructor (auth: AuthContext.AuthStore)
      ensures this.auth == auth
      ensures username == "" && password == "" && errors == map[] && loginError == ""
    {
      this.auth := auth;
      username, password, errors, loginError := "", "", map[], "";
    }

    /** `handleChange`: the edited field takes the value, and its own error,
        if it has a non-empty one, is blanked; other errors stay. */
    method HandleChange(field: Field, value: string)
      modifies this
      ensures username == (if field == Username then value else old(username))
      ensures password == (if field == Password then value else old(password))
      ensures errors == if field in old(errors) && old(errors)[field] != "" then old(errors)[field := ""] else old(errors)
      ensures loginError == old(loginError)
    {
      if field == Username {
        username := value;
      } else {
        password := value;
      }
      if field in errors && errors[field] != "" {
        errors := errors[field := ""];
      }
    }

    /** `validateForm`: build the errors field by field, store them, and say
        whether there were none. */
    method ValidateForm() returns (valid: bool)
      modifies this
      ensures errors == FormErrors(username, password)
      ensures valid <==> |errors| == 0
      ensures username == old(username) && password == old(password) && loginError == old(loginError)
    {
      var newErrors: map<Field, string> := map[];
      var trimmed := Trim(username);
      if trimmed == "" {
        newErrors := newErrors[Username := UsernameRequired];
      }
      if password == "" {
        newErrors := newErrors[Password := PasswordRequired];
      } else if Utf16Length(password) < MinPasswordLength {
        newErrors := newErrors[Password := PasswordTooShort];
      }
      assert newErrors == FormErrors(username, password);
      errors := newErrors;
      valid := |newErrors| == 0;
    }

    /** `handleSubmit`, with `Date.now().toString()` given as `clockId`. */
    method HandleSubmit(clockId: string) returns (loggedIn: bool)
      modifies this, auth, auth.storage
      ensures var s := Submit(username, password, clockId);
        && loggedIn == s.Accepted?
        && loginError == (if s.WrongCredentials? then InvalidCredentials else "")
        && (s.Accepted? ==>
              && auth.user == Some(s.payload) && auth.isAuthenticated
              && auth.storage.entries == old(auth.storage.entries)[Storage.UserKey := Storage.UserJson(s.payload)])
        && (!s.Accepted? ==>
              && auth.user == old(auth.user) && auth.isAuthenticated == old(auth.isAuthenticated)
              && auth.storage.entries == old(auth.storage.entries))
      ensures errors == FormErrors(username, password)
      ensures username == old(username) && password == old(password)
    {
      loginError := "";
      var valid := ValidateForm();
      loggedIn := false;
      if valid {
        if password == DemoPassword {
          auth.Login(User(username, clockId));
          loggedIn := true;
        } else {
          loginError := InvalidCredentials;
        }
      }
    }
  }
}
