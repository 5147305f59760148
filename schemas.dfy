/** The form validators. Each schema gives the list of issues it reports, as
    (field, message) in the order the checks run: fields in declaration order,
    every failing check of a field, then the whole-form refinement (which runs
    because failed length checks do not abort parsing). The form is accepted
    exactly when the list is empty. Whether a string is an e-mail address is
    an input (`isEmail`). */
module Schemas {

  datatype Issue = Issue(path: string, message: string)

  /** One check: no issue when it holds. */
  function Check(holds: bool, path: string, message: string): (issues: seq<Issue>)
    ensures holds <==> issues == []
    ensures !holds ==> issues == [Issue(path, message)]
  {
    if holds then [] else [Issue(path, message)]
  }

  predicate IsLower(c: char) { 'a' <= c <= 'z' }
  predicate IsUpper(c: char) { 'A' <= c <= 'Z' }
  predicate IsDigit(c: char) { '0' <= c <= '9' }
  /** `[\W_]`: anything but an ASCII letter or digit. */
  predicate IsSpecial(c: char) { !IsLower(c) && !IsUpper(c) && !IsDigit(c) }
  /** What `.` does not match without the `s` flag. */
  predicate IsLineTerminator(c: char) { c == '\n' || c == '\r' || c == '\U{2028}' || c == '\U{2029}' }

  /** The search a lookahead `(?=.*X)` at the start performs: scan forward over
      characters `.` matches until one matches `X`; a line terminator may still
      match `X` itself but cannot be skipped. */
  function LookaheadMatches(s: string, x: char -> bool): bool {
    if |s| == 0 then false
    else if x(s[0]) then true
    else if IsLineTerminator(s[0]) then false
    else LookaheadMatches(s[1..], x)
  }

  /** The scan succeeds exactly when some character matching `X` has no line
      terminator before it. */
  lemma {:induction false} LookaheadMatchesIff(s: string, x: char -> bool)
    ensures LookaheadMatches(s, x) <==>
      exists i :: 0 <= i < |s| && x(s[i]) && forall j :: 0 <= j < i ==> !IsLineTerminator(s[j])
  {
    if |s| > 0 {
      LookaheadMatchesIff(s[1..], x);
      if LookaheadMatches(s, x) && !x(s[0]) {
        var i :| 0 <= i < |s[1..]| && x(s[1..][i]) && forall j :: 0 <= j < i ==> !IsLineTerminator(s[1..][j]);
        assert x(s[i + 1]) && forall j :: 0 <= j < i + 1 ==> !IsLineTerminator(s[j]);
      }
      if !LookaheadMatches(s, x) && !x(s[0]) && !IsLineTerminator(s[0]) {
        forall i | 0 <= i < |s| && x(s[i])
          ensures exists j :: 0 <= j < i && IsLineTerminator(s[j])
        {
          assert i > 0 && s[1..][i - 1] == s[i];
          var j :| 0 <= j < i - 1 && IsLineTerminator(s[1..][j]);
          assert IsLineTerminator(s[j + 1]);
        }
      }
    }
  }

  /** `/^(?=.*[a-z])(?=.*[A-Z])(?=.*\d)(?=.*[\W_])[a-zA-Z\d\W_]{8,}$/`. The final
      class matches every character, so it only asks for 8 of them. */
  predicate StrongPassword(s: string) {
    && LookaheadMatches(s, IsLower)
    && LookaheadMatches(s, IsUpper)
    && LookaheadMatches(s, IsDigit)
    && LookaheadMatches(s, IsSpecial)
    && |s| >= 8
  }

  /** On a single line the pattern asks for 8 characters among which a
      lowercase letter, an uppercase letter, a digit and a non-alphanumeric one. */
  lemma StrongPasswordOneLine(s: string)
    requires forall j :: 0 <= j < |s| ==> !IsLineTerminator(s[j])
    ensures StrongPassword(s) <==>
      && |s| >= 8
      && (exists i :: 0 <= i < |s| && IsLower(s[i]))
      && (exists i :: 0 <= i < |s| && IsUpper(s[i]))
      && (exists i :: 0 <= i < |s| && IsDigit(s[i]))
      && (exists i :: 0 <= i < |s| && IsSpecial(s[i]))
  {
    LookaheadMatchesIff(s, IsLower);
    LookaheadMatchesIff(s, IsUpper);
    LookaheadMatchesIff(s, IsDigit);
    LookaheadMatchesIff(s, IsSpecial);
  }

  /** Past a line break the letter classes are out of reach: a string whose only
      uppercase letter follows a newline is rejected. */
  lemma UppercaseAfterNewlineRejected()
    ensures !StrongPassword("abcdef1!\nA")
  {
    var s := "abcdef1!\nA";
    assert s[0] == 'a' && s[8] == '\n';
    LookaheadMatchesIff(s, IsUpper);
    assert IsLineTerminator(s[8]);
    assert forall i :: 0 <= i < |s| && IsUpper(s[i]) ==> i == 9;
  }

  const PasswordRule := "Password should contain at least one uppercase letter, one lowercase letter, one number, and one special character."

  /** `LoginSchema`. */
  function LoginIssues(identifier: string, password: string): (issues: seq<Issue>)
    ensures issues == [] <==> 3 <= |identifier| <= 30 && |password| >= 8
  {
    Check(|identifier| >= 3, "identifier", "Identifier should be at least 3 letters long.")
    + Check(|identifier| <= 30, "identifier", "Should be at most 30 letters long.")
    + Check(|password| >= 8, "password", "Password should be at least 8 characters.")
  }

  /** `OtpSchema`. */
  function OtpIssues(email: string, isEmail: bool, otp: string): (issues: seq<Issue>)
    ensures issues == [] <==> isEmail && 5 <= |email| <= 255 && |otp| >= 6
  {
    Check(isEmail, "email", "Email invalid.")
    + Check(|email| >= 5, "email", "Email is too short.")
    + Check(|email| <= 255, "email", "Email is too long.")
    + Check(|otp| >= 6, "otp", "OTP should be at least 6 characters.")
  }

  /** `RegisterUserSchema`. */
  function RegisterIssues(email: string, isEmail: bool, username: string, password: string): (issues: seq<Issue>)
    ensures issues == [] <==>
      isEmail && 5 <= |email| <= 255 && 3 <= |username| <= 30 && StrongPassword(password) && password != username
    ensures password == username ==>
      |issues| > 0 && issues[|issues| - 1] == Issue("", "Password should not be the same as username.")
  {
    Check(isEmail, "email", "Email is required.")
    + Check(|email| >= 5, "email", "Not a valid email.")
    + Check(|email| <= 255, "email", "Email is too long.")
    + Check(|username| >= 3, "username", "Username is required 3 characters.")
    + Check(|username| <= 30, "username", "Username is too long.")
    + Check(|password| >= 8, "password", "Password should be at least 8 characters.")
    + Check(StrongPassword(password), "password", PasswordRule)
    + Check(password != username, "", "Password should not be the same as username.")
  }

  /** `ForgotPasswordSchema`. */
  function ForgotIssues(email: string, isEmail: bool): (issues: seq<Issue>)
    ensures issues == [] <==> isEmail && 5 <= |email| <= 255
  {
    Check(isEmail, "email", "Email is required.")
    + Check(|email| >= 5, "email", "Not a valid email.")
    + Check(|email| <= 255, "email", "Email is too long.")
  }

  /** `ResetPasswordSchema`; the mismatch is reported on `confirm_password`. */
  function ResetIssues(email: string, isEmail: bool, token: string, newPassword: string, confirmPassword: string): (issues: seq<Issue>)
    ensures issues == [] <==>
      isEmail && 3 <= |email| <= 255 && |token| >= 3 && StrongPassword(newPassword)
      && |confirmPassword| >= 8 && newPassword == confirmPassword
    ensures newPassword != confirmPassword ==>
      |issues| > 0 && issues[|issues| - 1] == Issue("confirm_password", "Passwords must be the same.")
  {
    Check(|email| >= 3, "email", "Token is required.")
    + Check(isEmail, "email", "Not a valid email.")
    + Check(|email| <= 255, "email", "Email is too long.")
    + Check(|token| >= 3, "token", "Token is required.")
    + Check(|newPassword| >= 8, "new_password", "Password should be at least 8 characters.")
    + Check(StrongPassword(newPassword), "new_password", PasswordRule)
    + Check(|confirmPassword| >= 8, "confirm_password", "Passwords must be the same")
    + Check(newPassword == confirmPassword, "confirm_password", "Passwords must be the same.")
  }

  /** `habitSchema`. The goal is the number the form holds: 0 is falsy, becomes
      `undefined` and is reported as missing; any other value must be at least 1.
      The name checks carry the library's default messages. */
  function HabitIssues(name: string, goal: int, color: string): (issues: seq<Issue>)
    ensures issues == [] <==> 3 <= |name| <= 30 && goal >= 1 && |color| > 0
    ensures goal == 0 ==> Issue("goal", "Required") in issues
    ensures goal < 0 ==> Issue("goal", "Goal must be at least 1.") in issues
  {
    Check(|name| >= 3, "name", "String must contain at least 3 character(s)")
    + Check(|name| <= 30, "name", "String must contain at most 30 character(s)")
    + (if goal == 0 then [Issue("goal", "Required")]
       else Check(goal >= 1, "goal", "Goal must be at least 1."))
    + Check(|color| > 0, "color", "Please pick a color.")
  }

  /** `EditUserSchema`. */
  function EditUserIssues(username: string): (issues: seq<Issue>)
    ensures issues == [] <==> 3 <= |username| <= 30
  {
    Check(|username| >= 3, "username", "Username is required 3 characters.")
    + Check(|username| <= 30, "username", "Username is too long.")
  }

  /** A strong password is also long enough, so the length check never fires
      alone on a password that passes the pattern, and a password shorter than
      8 characters gets both messages. */
  lemma ShortPasswordTwoIssues(email: string, isEmail: bool, username: string, password: string)
    requires |password| < 8
    ensures Issue("password", "Password should be at least 8 characters.") in RegisterIssues(email, isEmail, username, password)
    ensures Issue("password", PasswordRule) in RegisterIssues(email, isEmail, username, password)
  {
  }
}
