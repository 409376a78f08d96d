/**
 * The login form: the two field rules, the error record they fill, and the
 * submit handler that only calls the session's login when the form is valid.
 */
module LoginPage {
  import opened Wrappers
  import FormRules
  import AuthContext

  /** The `errors` state: at most one message per field. */
  datatype LoginErrors = LoginErrors(email: Option<string>, password: Option<string>)

  const NoErrors: LoginErrors := LoginErrors(None, None)

  const LoginSucceeded: string := "Login successful!"
  const LoginFailed: string := "Invalid email or password. Please try again."

  /** `validateForm`: fills the error record field by field and reports whether it stayed empty. */
  method ValidateForm(email: string, password: string) returns (errors: LoginErrors, isValid: bool)
    ensures errors.email == FormRules.EmailError(email)
    ensures errors.password == FormRules.PasswordError(password)
    ensures isValid <==> errors == NoErrors
    ensures isValid <==> email != "" && FormRules.LooksLikeEmail(email) && |password| >= 6
  {
    var formErrors := NoErrors;
    isValid := true;

    if email == "" {
      formErrors := formErrors.(email := Some(FormRules.EmailRequired));
      isValid := false;
    } else if !FormRules.LooksLikeEmail(email) {
      formErrors := formErrors.(email := Some(FormRules.EmailInvalid));
      isValid := false;
    }

    if password == "" {
      formErrors := formErrors.(password := Some(FormRules.PasswordRequired));
      isValid := false;
    } else if |password| < 6 {
      formErrors := formErrors.(password := Some(FormRules.PasswordTooShort));
      isValid := false;
    }

    errors := formErrors;
  }

  /**
   * `handleSubmit`: validate; on failure return before calling login.
   * Otherwise log in, then show the success or failure notice; only a
   * successful login leads to the home page.
   */
  method HandleSubmit(email: string, password: string, session: AuthContext.Session, storageFails: bool)
    returns (errors: LoginErrors, newSession: AuthContext.Session, loginCalled: bool,
             notice: Option<string>, toHome: bool)
    ensures errors.email == FormRules.EmailError(email)
    ensures errors.password == FormRules.PasswordError(password)
    ensures loginCalled <==> errors == NoErrors
    ensures !loginCalled ==> newSession == session && notice == None && !toHome
    ensures loginCalled ==>
      var (s, outcome) := AuthContext.LoggedIn(session, email, password, storageFails);
      && newSession == s
      && toHome == (outcome == AuthContext.Resolved)
      && notice == Some(if toHome then LoginSucceeded else LoginFailed)
  {
    var isValid;
    errors, isValid := ValidateForm(email, password);
    if !isValid {
      return errors, session, false, None, false;
    }
    loginCalled := true;
    var result := AuthContext.LoggedIn(session, email, password, storageFails);
    newSession := result.0;
    var outcome := result.1;
    toHome := outcome == AuthContext.Resolved;
    notice := Some(if toHome then LoginSucceeded else LoginFailed);
  }
}
