/**
 * The field rules the login and sign-up forms share: the e-mail pattern
 * `\S+@\S+\.\S+` (tested unanchored, so it only has to occur somewhere in
 * the text) and the required/length rules with their messages.
 */
module FormRules {
  import opened Wrappers

  /** The characters JavaScript's `\s` matches; `\S` is every other character. */
  predicate IsWhitespace(c: char) {
    || c == ' ' || c == '\t' || c == '\n' || c == '\r' || c == '\U{B}' || c == '\U{C}'
    || c == '\U{A0}' || c == '\U{1680}' || ('\U{2000}' <= c <= '\U{200A}')
    || c == '\U{2028}' || c == '\U{2029}' || c == '\U{202F}' || c == '\U{205F}'
    || c == '\U{3000}' || c == '\U{FEFF}'
  }

  predicate NoWhitespace(t: string) {
    forall k :: 0 <= k < |t| ==> !IsWhitespace(t[k])
  }

  /**
   * The pattern matches with its `@` at `at` and its `.` at `dot`: a
   * non-space right before the `@`, non-spaces strictly between the two,
   * and a non-space right after the `.`.
   */
  predicate EmailMatchAt(s: string, at: int, dot: int) {
    && 0 < at && at + 1 < dot && dot + 1 < |s|
    && s[at] == '@' && s[dot] == '.'
    && !IsWhitespace(s[at - 1]) && !IsWhitespace(s[dot + 1])
    && forall k :: at < k < dot ==> !IsWhitespace(s[k])
  }

  /** `/\S+@\S+\.\S+/.test(s)`. */
  predicate LooksLikeEmail(s: string): (b: bool)
    ensures b ==> '@' in s && '.' in s && |s| >= 5
  {
    exists at, dot | 0 <= at < |s| && 0 <= dot < |s| :: EmailMatchAt(s, at, dot)
  }

  /**
   * The regular expression read literally: any text, then one or more
   * non-spaces, `@`, one or more non-spaces, `.`, one or more non-spaces,
   * then any text.  Every such string passes the test ...
   */
  lemma {:induction false} LooksLikeEmailFromParts(u: string, x: string, y: string, z: string, v: string)
    requires |x| > 0 && |y| > 0 && |z| > 0
    requires NoWhitespace(x) && NoWhitespace(y) && NoWhitespace(z)
    ensures LooksLikeEmail(u + x + "@" + y + "." + z + v)
  {
    var s := u + x + "@" + y + "." + z + v;
    var at := |u| + |x|;
    var dot := at + 1 + |y|;
    assert s[at - 1] == x[|x| - 1];
    assert s[dot + 1] == z[0];
    forall k | at < k < dot ensures !IsWhitespace(s[k]) {
      assert s[k] == y[k - at - 1];
    }
    assert EmailMatchAt(s, at, dot);
  }

  /** ... and every string that passes the test splits that way. */
  lemma {:induction false} PartsFromLooksLikeEmail(s: string) returns (u: string, x: string, y: string, z: string, v: string)
    requires LooksLikeEmail(s)
    ensures s == u + x + "@" + y + "." + z + v
    ensures |x| > 0 && |y| > 0 && |z| > 0
    ensures NoWhitespace(x) && NoWhitespace(y) && NoWhitespace(z)
  {
    var at, dot :| 0 <= at < |s| && 0 <= dot < |s| && EmailMatchAt(s, at, dot);
    u, x, y, z, v := s[..at - 1], [s[at - 1]], s[at + 1..dot], [s[dot + 1]], s[dot + 2..];
    assert s == s[..at - 1] + [s[at - 1]] + [s[at]] + s[at + 1..dot] + [s[dot]] + [s[dot + 1]] + s[dot + 2..];
    forall k | 0 <= k < |y| ensures !IsWhitespace(y[k]) {
      assert y[k] == s[at + 1 + k];
    }
  }

  /** Text without an `@` never passes. */
  lemma NoAtNoEmail(s: string)
    requires forall k :: 0 <= k < |s| ==> s[k] != '@'
    ensures !LooksLikeEmail(s)
  {
  }

  const EmailRequired: string := "Email is required"
  const EmailInvalid: string := "Email is invalid"
  const PasswordRequired: string := "Password is required"
  const PasswordTooShort: string := "Password must be at least 6 characters"

  /** The e-mail field: required, then the pattern.  At most one message. */
  function EmailError(email: string): (r: Option<string>)
    ensures r == None <==> email != "" && LooksLikeEmail(email)
    ensures email == "" ==> r == Some(EmailRequired)
    ensures email != "" && !LooksLikeEmail(email) ==> r == Some(EmailInvalid)
  {
    if email == "" then Some(EmailRequired)
    else if !LooksLikeEmail(email) then Some(EmailInvalid)
    else None
  }

  /** The password field: required, then at least 6 characters.  At most one message. */
  function PasswordError(password: string): (r: Option<string>)
    ensures r == None <==> |password| >= 6
    ensures password == "" ==> r == Some(PasswordRequired)
    ensures password != "" && |password| < 6 ==> r == Some(PasswordTooShort)
  {
    if password == "" then Some(PasswordRequired)
    else if |password| < 6 then Some(PasswordTooShort)
    else None
  }
}
