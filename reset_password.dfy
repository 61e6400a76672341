/**
 * The reset-password form (app/auth/reset-password/page.js): the token read
 * from the query string on mount, the password policy regular expression,
 * and the chain of checks `handleSubmit` makes before it sends anything.
 */
module ResetPassword {
  import opened Wrappers
  import opened Chars
  import opened Storage
  import opened Http

  // ---------------------------------------------------------------------------
  // The policy
  // ---------------------------------------------------------------------------

  /** `[!@#$%^&*()_+]`. */
  predicate IsSpecial(c: char) {
    c in "!@#$%^&*()_+"
  }

  /** `[A-Za-z\d!@#$%^&*()_+]`. */
  predicate InAlphabet(c: char) {
    IsLower(c) || IsUpper(c) || IsDigit(c) || IsSpecial(c)
  }

  /** The characters `.` does not match. */
  predicate IsLineTerminator(c: char) {
    c == '\n' || c == '\r' || c as int == 0x2028 || c as int == 0x2029
  }

  datatype CharClass = Lowercase | Uppercase | Digit | Special

  predicate InClass(c: char, k: CharClass) {
    match k
    case Lowercase => IsLower(c)
    case Uppercase => IsUpper(c)
    case Digit => IsDigit(c)
    case Special => IsSpecial(c)
  }

  /** `(?=.*X)` at the start of the input: an X is reached over characters `.` matches. */
  predicate Lookahead(p: string, k: CharClass) {
    exists i :: 0 <= i < |p| && InClass(p[i], k) && forall j :: 0 <= j < i ==> !IsLineTerminator(p[j])
  }

  /** `^(?=.*[a-z])(?=.*[A-Z])(?=.*\d)(?=.*[!@#$%^&*()_+])[A-Za-z\d!@#$%^&*()_+]{8,}$`, as written. */
  predicate PasswordRegexMatches(p: string) {
    && Lookahead(p, Lowercase) && Lookahead(p, Uppercase) && Lookahead(p, Digit) && Lookahead(p, Special)
    && |p| >= 8 && forall i :: 0 <= i < |p| ==> InAlphabet(p[i])
  }

  predicate HasClass(p: string, k: CharClass) {
    exists i :: 0 <= i < |p| && InClass(p[i], k)
  }

  /** The policy the error message states. */
  predicate PasswordPolicy(p: string) {
    && |p| >= 8
    && (forall i :: 0 <= i < |p| ==> InAlphabet(p[i]))
    && HasClass(p, Lowercase) && HasClass(p, Uppercase) && HasClass(p, Digit) && HasClass(p, Special)
  }

  lemma LookaheadOverAlphabet(p: string, k: CharClass)
    requires forall i :: 0 <= i < |p| ==> InAlphabet(p[i])
    ensures Lookahead(p, k) <==> HasClass(p, k)
  {
    if HasClass(p, k) {
      var i :| 0 <= i < |p| && InClass(p[i], k);
      assert forall j :: 0 <= j < i ==> InAlphabet(p[j]) && !IsLineTerminator(p[j]);
    }
  }

  /** The regular expression accepts exactly the passwords the policy describes. */
  lemma RegexIsPolicy(p: string)
    ensures PasswordRegexMatches(p) <==> PasswordPolicy(p)
  {
    if forall i :: 0 <= i < |p| ==> InAlphabet(p[i]) {
      LookaheadOverAlphabet(p, Lowercase);
      LookaheadOverAlphabet(p, Uppercase);
      LookaheadOverAlphabet(p, Digit);
      LookaheadOverAlphabet(p, Special);
    }
  }

  lemma PolicyAcceptsExample()
    ensures PasswordPolicy("Passw0rd!")
  {
    var good := "Passw0rd!";
    assert InClass(good[1], Lowercase) && InClass(good[0], Uppercase) && InClass(good[5], Digit) && InClass(good[8], Special);
  }

  /** No special character, too short, or a character outside the alphabet: each is refused. */
  lemma PolicyRejectsExamples()
    ensures !PasswordPolicy("Passw0rd")
    ensures !PasswordPolicy("Pa0!")
    ensures !PasswordPolicy("Passw0rd!-")
  {
    assert !InAlphabet("Passw0rd!-"[9]);
    var plain := "Passw0rd";
    forall i | 0 <= i < |plain| ensures !IsSpecial(plain[i]) {
      assert IsLower(plain[i]) || IsUpper(plain[i]) || IsDigit(plain[i]);
    }
  }

  // ---------------------------------------------------------------------------
  // The checks of handleSubmit
  // ---------------------------------------------------------------------------

  datatype Rejection = Mismatch | WeakPassword | MissingToken

  /**
   * The checks in the handler's order: confirmation, then policy, then token.
   * The first failing check decides the rejection.
   */
  function Validate(password: string, confirm: string, token: string): (r: Option<Rejection>)
    ensures r == Some(Mismatch) <==> password != confirm
    ensures r == Some(WeakPassword) <==> password == confirm && !PasswordPolicy(password)
    ensures r == Some(MissingToken) <==> password == confirm && PasswordPolicy(password) && token == ""
    ensures r.None? <==> password == confirm && PasswordPolicy(password) && token != ""
  {
    RegexIsPolicy(password);
    if password != confirm then Some(Mismatch)
    else if !PasswordRegexMatches(password) then Some(WeakPassword)
    else if token == "" then Some(MissingToken)
    else None
  }

  /** `PUT ${backendUrl}/users/reset-password/${token}` with `{ password }`. */
  datatype ResetRequest = ResetRequest(url: string, password: string)

  datatype ResetOutcome = Rejected(reason: Rejection) | ResetDone(notice: string) | ResetFailed(notice: string)

  const GenericFailure := "An unexpected error occurred during password reset. Please try again."

  /** The catch block's toast: the server's message if there is one. */
  function ResetFailureNotice(e: HttpError): string {
    if e.ErrorResponse? && Present(e.message) then "Error: " + e.message.value else GenericFailure
  }

  class ResetPasswordForm {
    var password: string
    var confirmPassword: string
    var loading: bool
    var token: string

    constructor ()
      ensures password == "" && confirmPassword == "" && !loading && token == ""
    {
      password, confirmPassword, loading, token := "", "", false, "";
    }

    /** The mount effect: take a truthy `token` query parameter; without one, redirect and keep "". */
    method ReadToken(tokenFromUrl: Option<string>) returns (redirected: bool)
      modifies this`token
      ensures redirected <==> !Present(tokenFromUrl)
      ensures token == if Present(tokenFromUrl) then tokenFromUrl.value else old(token)
    {
      if Present(tokenFromUrl) {
        token := tokenFromUrl.value;
        redirected := false;
      } else {
        redirected := true;
      }
    }

    /** The two password inputs' change handlers. */
    method Edit(newPassword: string, newConfirm: string)
      modifies this`password, this`confirmPassword
      ensures password == newPassword && confirmPassword == newConfirm
    {
      password, confirmPassword := newPassword, newConfirm;
    }

    /**
     * `handleSubmit`, given the configured backend URL ("" when unset) and the
     * reply it would await. A rejection sends nothing; an unset URL throws
     * before the request; `loading` is false when the handler is done.
     */
    method HandleSubmit(backendUrl: string, reply: Reply<Option<string>>)
      returns (outcome: ResetOutcome, request: Option<ResetRequest>)
      modifies this`loading
      ensures !loading
      ensures var check := Validate(password, confirmPassword, token);
        && (check.Some? ==> outcome == Rejected(check.value) && request.None?)
        && (request.Some? <==> check.None? && backendUrl != "")
        && (request.Some? ==> request.value == ResetRequest(backendUrl + "/users/reset-password/" + token, password))
        && (check.None? && backendUrl == "" ==> outcome == ResetFailed(GenericFailure))
        && (request.Some? && reply.Replied? ==>
              outcome == ResetDone(if Present(reply.body) then reply.body.value else "Password has been reset successfully!"))
        && (request.Some? && reply.Threw? ==> outcome == ResetFailed(ResetFailureNotice(reply.error)))
    {
      loading := true;
      request := None;
      var check := Validate(password, confirmPassword, token);
      if check.Some? {
        outcome := Rejected(check.value);
        loading := false;
        return;
      }
      if backendUrl == "" {
        outcome := ResetFailed(GenericFailure);
      } else {
        request := Some(ResetRequest(backendUrl + "/users/reset-password/" + token, password));
        outcome := match reply
          case Replied(message) => ResetDone(if Present(message) then message.value else "Password has been reset successfully!")
          case Threw(e) => ResetFailed(ResetFailureNotice(e));
      }
      loading := false;
    }
  }
}
