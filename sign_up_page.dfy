/**
 * The sign-up form: four field rules, the error record they fill, the
 * password-strength score with its four-bar meter and caption, and the
 * submit handler that only calls the session's sign-up for a valid form.
 */
module SignUpPage {
  import opened Wrappers
  import FormRules
  import AuthContext
  import Text

  // ---------------------------------------------------------------------
  // Validation
  // ---------------------------------------------------------------------

  /** The `errors` state: at most one message per field. */
  datatype SignUpErrors = SignUpErrors(
    email: Option<string>,
    username: Option<string>,
    password: Option<string>,
    confirmPassword: Option<string>)

  const NoErrors: SignUpErrors := SignUpErrors(None, None, None, None)

  const UsernameRequired: string := "Username is required"
  const UsernameTooShort: string := "Username must be at least 3 characters"
  const ConfirmRequired: string := "Please confirm your password"
  const ConfirmMismatch: string := "Passwords do not match"

  const SignUpSucceeded: string := "Account created successfully!"
  const SignUpFailed: string := "Failed to create an account. Please try again."

  /** The user-name field: required, then at least 3 characters. */
  function UsernameError(username: string): (r: Option<string>)
    ensures r == None <==> |username| >= 3
    ensures username == "" ==> r == Some(UsernameRequired)
    ensures username != "" && |username| < 3 ==> r == Some(UsernameTooShort)
  {
    if username == "" then Some(UsernameRequired)
    else if |username| < 3 then Some(UsernameTooShort)
    else None
  }

  /** The confirmation field: required, then equal to the password. */
  function ConfirmError(password: string, confirmPassword: string): (r: Option<string>)
    ensures r == None <==> confirmPassword != "" && confirmPassword == password
    ensures confirmPassword == "" ==> r == Some(ConfirmRequired)
    ensures confirmPassword != "" && confirmPassword != password ==> r == Some(ConfirmMismatch)
  {
    if confirmPassword == "" then Some(ConfirmRequired)
    else if password != confirmPassword then Some(ConfirmMismatch)
    else None
  }

  /** `validateForm`: fills the error record field by field and reports whether it stayed empty. */
  method ValidateForm(email: string, username: string, password: string, confirmPassword: string)
    returns (errors: SignUpErrors, isValid: bool)
    ensures errors.email == FormRules.EmailError(email)
    ensures errors.username == UsernameError(username)
    ensures errors.password == FormRules.PasswordError(password)
    ensures errors.confirmPassword == ConfirmError(password, confirmPassword)
    ensures isValid <==> errors == NoErrors
    ensures isValid <==>
      && email != "" && FormRules.LooksLikeEmail(email)
      && |username| >= 3 && |password| >= 6 && confirmPassword == password
  {
    var formErrors := NoErrors;
    isValid := true;

    if email == "" {
      formErrors := formErrors.(email := Some(FormRules.EmailRequired));
      isValid := false;
    } else if !FormRules.LooksLikeEmail(email) {
      formErrors := formErrors.(email := Some(FormRules.EmailInvalid));
      isValid := false;
    }

    if username == "" {
      formErrors := formErrors.(username := Some(UsernameRequired));
      isValid := false;
    } else if |username| < 3 {
      formErrors := formErrors.(username := Some(UsernameTooShort));
      isValid := false;
    }

    if password == "" {
      formErrors := formErrors.(password := Some(FormRules.PasswordRequired));
      isValid := false;
    } else if |password| < 6 {
      formErrors := formErrors.(password := Some(FormRules.PasswordTooShort));
      isValid := false;
    }

    if confirmPassword == "" {
      formErrors := formErrors.(confirmPassword := Some(ConfirmRequired));
      isValid := false;
    } else if password != confirmPassword {
      formErrors := formErrors.(confirmPassword := Some(ConfirmMismatch));
      isValid := false;
    }

    errors := formErrors;
  }

  /**
   * `handleSubmit`: validate; on failure return before calling sign-up.
   * Otherwise sign up (`id` stands for the random id the mock draws), then
   * show the success or failure notice; only success leads to the home page.
   */
  method HandleSubmit(email: string, username: string, password: string, confirmPassword: string,
                      session: AuthContext.Session, id: string, storageFails: bool)
    returns (errors: SignUpErrors, newSession: AuthContext.Session, signupCalled: bool,
             notice: Option<string>, toHome: bool)
    ensures errors.email == FormRules.EmailError(email)
    ensures errors.username == UsernameError(username)
    ensures errors.password == FormRules.PasswordError(password)
    ensures errors.confirmPassword == ConfirmError(password, confirmPassword)
    ensures signupCalled <==> errors == NoErrors
    ensures !signupCalled ==> newSession == session && notice == None && !toHome
    ensures signupCalled ==>
      var (s, outcome) := AuthContext.SignedUp(session, email, password, username, id, storageFails);
      && newSession == s
      && toHome == (outcome == AuthContext.Resolved)
      && notice == Some(if toHome then SignUpSucceeded else SignUpFailed)
  {
    var isValid;
    errors, isValid := ValidateForm(email, username, password, confirmPassword);
    if !isValid {
      return errors, session, false, None, false;
    }
    signupCalled := true;
    var result := AuthContext.SignedUp(session, email, password, username, id, storageFails);
    newSession := result.0;
    var outcome := result.1;
    toHome := outcome == AuthContext.Resolved;
    notice := Some(if toHome then SignUpSucceeded else SignUpFailed);
  }

  // ---------------------------------------------------------------------
  // Password strength
  // ---------------------------------------------------------------------

  /** `/[A-Z]/.test(p)` */
  predicate HasUpper(p: string) { exists i | 0 <= i < |p| :: Text.IsUpperAscii(p[i]) }
  /** `/[a-z]/.test(p)` */
  predicate HasLower(p: string) { exists i | 0 <= i < |p| :: Text.IsLowerAscii(p[i]) }
  /** `/[0-9]/.test(p)` */
  predicate HasDigit(p: string) { exists i | 0 <= i < |p| :: Text.IsDigit(p[i]) }
  /** `/[^A-Za-z0-9]/.test(p)` */
  predicate HasSymbol(p: string) {
    exists i | 0 <= i < |p| :: !Text.IsUpperAscii(p[i]) && !Text.IsLowerAscii(p[i]) && !Text.IsDigit(p[i])
  }

  function Point(b: bool): nat {
    if b then 1 else 0
  }

  /**
   * `getPasswordStrength`: one point each for length 8 or more, a capital,
   * a small letter, a digit and a symbol, capped at 4; 0 for no password.
   */
  function PasswordStrength(p: string): (r: nat)
    ensures r <= 4
    ensures r == 0 <==> p == ""
    ensures |p| >= 8 && HasUpper(p) && HasLower(p) && HasDigit(p) && HasSymbol(p) ==> r == 4
  {
    if p == "" then 0
    else
      var c := p[0];
      assert Text.IsUpperAscii(c) ==> HasUpper(p);
      assert Text.IsLowerAscii(c) ==> HasLower(p);
      assert Text.IsDigit(c) ==> HasDigit(p);
      assert !Text.IsUpperAscii(c) && !Text.IsLowerAscii(c) && !Text.IsDigit(c) ==> HasSymbol(p);
      var strength := Point(|p| >= 8) + Point(HasUpper(p)) + Point(HasLower(p)) + Point(HasDigit(p))
                      + Point(HasSymbol(p));
      if strength < 4 then strength else 4
  }

  /** Typing more characters never lowers the strength. */
  lemma {:induction false} StrengthNeverDrops(p: string, q: string)
    ensures PasswordStrength(p) <= PasswordStrength(p + q)
  {
    var pq := p + q;
    if p != "" {
      if HasUpper(p) {
        var i :| 0 <= i < |p| && Text.IsUpperAscii(p[i]);
        assert pq[i] == p[i];
      }
      if HasLower(p) {
        var i :| 0 <= i < |p| && Text.IsLowerAscii(p[i]);
        assert pq[i] == p[i];
      }
      if HasDigit(p) {
        var i :| 0 <= i < |p| && Text.IsDigit(p[i]);
        assert pq[i] == p[i];
      }
      if HasSymbol(p) {
        var i :| 0 <= i < |p| && !Text.IsUpperAscii(p[i]) && !Text.IsLowerAscii(p[i]) && !Text.IsDigit(p[i]);
        assert pq[i] == p[i];
      }
    }
  }

  // ---------------------------------------------------------------------
  // The strength meter
  // ---------------------------------------------------------------------

  const BarColors: seq<string> := ["bg-error", "bg-error", "bg-yellow-500", "bg-green-500", "bg-green-600"]
  const UnlitBar: string := "bg-gray-700"
  const StrengthLabels: seq<string> := ["", "Weak", "Fair", "Good", "Strong"]

  datatype Caption = Caption(text: string, colour: string)

  /** The four bars (their colour classes) and the caption under them, if shown. */
  datatype Meter = Meter(bars: seq<string>, caption: Option<Caption>)

  /** `renderPasswordStrength`. */
  function StrengthMeter(password: string): (m: Meter)
    ensures |m.bars| == 4
    ensures forall i :: 0 <= i < 4 ==> (m.bars[i] != UnlitBar <==> i < PasswordStrength(password))
    ensures forall i :: 0 <= i < 4 && i < PasswordStrength(password) ==>
      m.bars[i] == BarColors[PasswordStrength(password)]
    ensures m.caption.Some? <==> password != ""
    ensures m.caption.Some? ==>
      && m.caption.value.text == StrengthLabels[PasswordStrength(password)]
      && m.caption.value.text != ""
      && m.caption.value.colour == (if PasswordStrength(password) <= 1 then "text-error"
                                     else if PasswordStrength(password) == 2 then "text-yellow-500"
                                     else "text-green-500")
  {
    var strength := PasswordStrength(password);
    var bars := seq(4, i requires 0 <= i < 4 => if strength > i then BarColors[strength] else UnlitBar);
    var colour := if strength <= 1 then "text-error" else if strength == 2 then "text-yellow-500" else "text-green-500";
    Meter(bars, if password != "" then Some(Caption(StrengthLabels[strength], colour)) else None)
  }
}
