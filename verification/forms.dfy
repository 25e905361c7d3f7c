/**
 * Client-side validation of the sign-up and log-in forms
 * (SignupFormModal.jsx, LoginFormModal.jsx, LoginFormPage.jsx): the error
 * map `handleSubmit` builds, what happens after it, and the predicate that
 * disables the submit button.
 */
module Forms {
  import opened Wrappers
  import opened Text

  /** The keys of `newErrors`: `email`, `username`, `password`, `confirmPassword`. */
  datatype Field = Email | Username | Password | ConfirmPassword

  /** A client-side error map: field to message. */
  type FieldErrors = map<Field, string>

  /** An error object as the server (or the catch-all) supplies it: key to message. */
  type Errors = map<string, string>

  /** What a submit ends in. */
  datatype FormResult =
    | Rejected(fieldErrors: FieldErrors) // client-side errors shown; nothing dispatched
    | ServerErrors(errors: Errors)  // the thunk's answer (or a catch-all) shown as errors
    | Closed                        // the modal closes
    | Navigated(to: string)         // the router moves to `to`
    | Unhandled                     // the awaited thunk threw and nothing catches it

  /** What the awaited login/sign-up thunk gives back: an error object, nothing, or a throw. */
  datatype ThunkAnswer = Answered(errors: Option<Errors>) | Threw

  /** `!s.trim() || !/\S+@\S+\.\S+/.test(s)` */
  predicate BadEmail(email: string) {
    Blank(email) || !EmailLike(email)
  }

  /** `newErrors.email` of the sign-up form, if set. */
  function SignupEmailError(email: string): Option<string> {
    if BadEmail(email) then Some("Invalid email") else None
  }

  /** `newErrors.username`, if set. */
  function UsernameError(username: string): Option<string> {
    if Blank(username) then Some("Username is required")
    else if |username| < 4 then Some("Username must be at least 4 characters")
    else if EmailLike(username) then Some("Username cannot be an email")
    else None
  }

  /** `newErrors.password`, if set. */
  function PasswordError(password: string): Option<string> {
    if Blank(password) then Some("Password is required")
    else if |password| < 6 then Some("Password must be 6 characters or more")
    else None
  }

  /** `newErrors.confirmPassword`, if set. */
  function ConfirmError(password: string, confirmPassword: string): Option<string> {
    if password != confirmPassword then Some("Confirm Password must match") else None
  }

  /** The email is flagged exactly when it is blank or does not match the pattern. */
  lemma SignupEmailRule(email: string)
    ensures SignupEmailError(email).Some? <==> Blank(email) || !EmailLike(email)
    ensures SignupEmailError(email).Some? ==> SignupEmailError(email).value == "Invalid email"
  {
  }

  /** Username checks in priority order: blank, then shorter than 4, then email-like; one message at most. */
  lemma UsernameRule(username: string)
    ensures UsernameError(username).Some? <==> Blank(username) || |username| < 4 || EmailLike(username)
    ensures Blank(username) ==> UsernameError(username) == Some("Username is required")
    ensures !Blank(username) && |username| < 4 ==> UsernameError(username) == Some("Username must be at least 4 characters")
    ensures !Blank(username) && |username| >= 4 && EmailLike(username) ==>
      UsernameError(username) == Some("Username cannot be an email")
  {
  }

  /** Blank after trimming first; otherwise the untrimmed length must reach 6. */
  lemma PasswordRule(password: string)
    ensures PasswordError(password).Some? <==> Blank(password) || |password| < 6
    ensures Blank(password) ==> PasswordError(password) == Some("Password is required")
    ensures !Blank(password) && |password| < 6 ==> PasswordError(password) == Some("Password must be 6 characters or more")
  {
  }

  /** The confirmation is flagged exactly when it differs from the password. */
  lemma ConfirmRule(password: string, confirmPassword: string)
    ensures ConfirmError(password, confirmPassword).Some? <==> password != confirmPassword
    ensures ConfirmError(password, confirmPassword).Some? ==>
      ConfirmError(password, confirmPassword).value == "Confirm Password must match"
  {
  }

  /** `e` with field `f` set to the message, when there is one. */
  function WithError(e: FieldErrors, f: Field, m: Option<string>): FieldErrors {
    if m.Some? then e[f := m.value] else e
  }

  /** The error map SignupFormModal's `handleSubmit` builds. */
  function SignupValidation(email: string, username: string, password: string, confirmPassword: string): FieldErrors {
    var e1 := WithError(map[], Email, SignupEmailError(email));
    var e2 := WithError(e1, Username, UsernameError(username));
    var e3 := WithError(e2, Password, PasswordError(password));
    WithError(e3, ConfirmPassword, ConfirmError(password, confirmPassword))
  }

  /** Each field of the sign-up error map holds exactly its own message, or is absent. */
  lemma SignupValidationFields(email: string, username: string, password: string, confirmPassword: string)
    ensures var e := SignupValidation(email, username, password, confirmPassword);
      && e.Keys <= {Email, Username, Password, ConfirmPassword}
      && (SignupEmailError(email).Some? <==> Email in e)
      && (UsernameError(username).Some? <==> Username in e)
      && (PasswordError(password).Some? <==> Password in e)
      && (ConfirmError(password, confirmPassword).Some? <==> ConfirmPassword in e)
      && (Email in e ==> e[Email] == SignupEmailError(email).value)
      && (Username in e ==> e[Username] == UsernameError(username).value)
      && (Password in e ==> e[Password] == PasswordError(password).value)
      && (ConfirmPassword in e ==> e[ConfirmPassword] == ConfirmError(password, confirmPassword).value)
  {
    FilledFields(SignupEmailError(email), UsernameError(username), PasswordError(password),
                 ConfirmError(password, confirmPassword));
  }

  /** Four optional messages filled in field by field: each key is present exactly with its message. */
  lemma FilledFields(m1: Option<string>, m2: Option<string>, m3: Option<string>, m4: Option<string>)
    ensures var e := WithError(WithError(WithError(WithError(map[], Email, m1), Username, m2), Password, m3),
                               ConfirmPassword, m4);
      && e.Keys <= {Email, Username, Password, ConfirmPassword}
      && (m1.Some? <==> Email in e) && (m2.Some? <==> Username in e)
      && (m3.Some? <==> Password in e) && (m4.Some? <==> ConfirmPassword in e)
      && (Email in e ==> e[Email] == m1.value) && (Username in e ==> e[Username] == m2.value)
      && (Password in e ==> e[Password] == m3.value) && (ConfirmPassword in e ==> e[ConfirmPassword] == m4.value)
  {
  }

  /** `isSignUpDisabled()` */
  predicate SignUpDisabled(email: string, username: string, password: string, confirmPassword: string) {
    Blank(email) || Blank(username) || |username| < 4 || |password| < 6 || password != confirmPassword
  }

  /**
   * Whenever the button is disabled, validation would refuse the form too;
   * an enabled button can still meet an error, but only for a malformed
   * email, an email-like username or a password of six or more spaces.
   */
  lemma SignUpButtonAgreesWithValidation(email: string, username: string, password: string, confirmPassword: string)
    ensures SignUpDisabled(email, username, password, confirmPassword) ==>
      SignupValidation(email, username, password, confirmPassword) != map[]
    ensures !SignUpDisabled(email, username, password, confirmPassword) ==>
      var e := SignupValidation(email, username, password, confirmPassword);
      && ConfirmPassword !in e
      && (Email in e ==> !EmailLike(email))
      && (Username in e ==> EmailLike(username))
      && (Password in e ==> AllSpace(password))
  {
    SignupValidationFields(email, username, password, confirmPassword);
    SignupEmailRule(email);
    UsernameRule(username);
    PasswordRule(password);
    ConfirmRule(password, confirmPassword);
    if !SignUpDisabled(email, username, password, confirmPassword) {
      BlankIffAllSpace(password);
    }
  }

  /** Fills the sign-up error map field by field, as `handleSubmit` does. */
  method SignupErrors(email: string, username: string, password: string, confirmPassword: string)
    returns (newErrors: FieldErrors)
    ensures newErrors == SignupValidation(email, username, password, confirmPassword)
  {
    var emailError, usernameError := SignupEmailError(email), UsernameError(username);
    var passwordError, confirmError := PasswordError(password), ConfirmError(password, confirmPassword);
    newErrors := FillErrors(emailError, usernameError, passwordError, confirmError);
  }

  /** `newErrors` filled field by field from the four optional messages. */
  method FillErrors(m1: Option<string>, m2: Option<string>, m3: Option<string>, m4: Option<string>)
    returns (newErrors: FieldErrors)
    ensures newErrors == WithError(WithError(WithError(WithError(map[], Email, m1), Username, m2), Password, m3),
                                   ConfirmPassword, m4)
  {
    newErrors := map[];
    if m1.Some? {
      newErrors := newErrors[Email := m1.value];
    }
    if m2.Some? {
      newErrors := newErrors[Username := m2.value];
    }
    if m3.Some? {
      newErrors := newErrors[Password := m3.value];
    }
    if m4.Some? {
      newErrors := newErrors[ConfirmPassword := m4.value];
    }
  }

  /**
   * SignupFormModal's `handleSubmit`: fills the error map field by field;
   * with any error it shows them and dispatches nothing, otherwise an
   * answer from the thunk becomes the errors and no answer closes the
   * modal; a throw from the thunk is not caught.
   */
  method SignupSubmit(email: string, username: string, password: string, confirmPassword: string, answer: ThunkAnswer)
    returns (r: FormResult)
    ensures SignupValidation(email, username, password, confirmPassword) != map[] ==>
      r == Rejected(SignupValidation(email, username, password, confirmPassword))
    ensures SignupValidation(email, username, password, confirmPassword) == map[] ==>
      r == match answer
           case Threw => Unhandled
           case Answered(errors) => if errors.Some? then ServerErrors(errors.value) else Closed
  {
    var newErrors := SignupErrors(email, username, password, confirmPassword);
    if |newErrors| > 0 {
      return Rejected(newErrors);
    }
    if answer.Threw? {
      return Unhandled;
    }
    if answer.errors.Some? {
      r := ServerErrors(answer.errors.value);
    } else {
      r := Closed;
    }
  }

  /** The error map both login forms build. */
  function LoginValidation(email: string, password: string): (e: FieldErrors)
    ensures e.Keys <= {Email, Password}
    ensures Email in e <==> BadEmail(email)
    ensures Email in e ==> e[Email] == "Invalid email address"
    ensures Password in e <==> Blank(password)
    ensures Password in e ==> e[Password] == "Password is required"
  {
    var e1: FieldErrors := if BadEmail(email) then map[Email := "Invalid email address"] else map[];
    if Blank(password) then e1[Password := "Password is required"] else e1
  }

  /** `isLoginDisabled()`, the same expression in the modal and the page. */
  predicate LoginDisabled(email: string, password: string) {
    Blank(email) || !EmailLike(email) || Blank(password)
  }

  /** The login button is disabled exactly when validation would refuse the form. */
  lemma LoginButtonAgreesWithValidation(email: string, password: string)
    ensures LoginDisabled(email, password) <==> LoginValidation(email, password) != map[]
  {
    var e := LoginValidation(email, password);
    if LoginDisabled(email, password) {
      if BadEmail(email) {
        assert Email in e;
      } else {
        assert Password in e;
      }
    }
  }

  /** Builds the login error map field by field, as both login forms do. */
  method LoginErrors(email: string, password: string) returns (newErrors: FieldErrors)
    ensures newErrors == LoginValidation(email, password)
    ensures newErrors == map[] <==> !LoginDisabled(email, password)
  {
    newErrors := map[];
    if Blank(email) || !EmailLike(email) {
      newErrors := newErrors[Email := "Invalid email address"];
    }
    if Blank(password) {
      newErrors := newErrors[Password := "Password is required"];
    }
    LoginButtonAgreesWithValidation(email, password);
  }

  /**
   * LoginFormModal's `handleSubmit`: client errors stop it; an error object
   * from the thunk is shown, no answer closes the modal, and a throw is
   * caught and shown as a single `general` error.
   */
  method LoginModalSubmit(email: string, password: string, answer: ThunkAnswer) returns (r: FormResult)
    ensures LoginDisabled(email, password) ==> r == Rejected(LoginValidation(email, password))
    ensures !LoginDisabled(email, password) && answer.Threw? ==>
      r == ServerErrors(map["general" := "Login failed. Please try again."])
    ensures !LoginDisabled(email, password) && answer.Answered? ==>
      r == if answer.errors.Some? then ServerErrors(answer.errors.value) else Closed
  {
    var newErrors := LoginErrors(email, password);
    if |newErrors| > 0 {
      return Rejected(newErrors);
    }
    if answer.Threw? {
      return ServerErrors(map["general" := "Login failed. Please try again."]);
    }
    if answer.errors.Some? {
      r := ServerErrors(answer.errors.value);
    } else {
      r := Closed;
    }
  }

  /**
   * LoginFormPage: with a session user the page only redirects home; else
   * its `handleSubmit` is the modal's, except that success navigates to "/"
   * and a throw is not caught.
   */
  method LoginPageSubmit(sessionUser: bool, email: string, password: string, answer: ThunkAnswer) returns (r: FormResult)
    ensures sessionUser ==> r == Navigated("/")
    ensures !sessionUser && LoginDisabled(email, password) ==> r == Rejected(LoginValidation(email, password))
    ensures !sessionUser && !LoginDisabled(email, password) ==>
      r == match answer
           case Threw => Unhandled
           case Answered(errors) => if errors.Some? then ServerErrors(errors.value) else Navigated("/")
  {
    if sessionUser {
      return Navigated("/");
    }
    var newErrors := LoginErrors(email, password);
    if |newErrors| > 0 {
      return Rejected(newErrors);
    }
    if answer.Threw? {
      return Unhandled;
    }
    if answer.errors.Some? {
      r := ServerErrors(answer.errors.value);
    } else {
      r := Navigated("/");
    }
  }
}
