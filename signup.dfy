/** The sign-up page (admin-platform/app/auth/signup/page.tsx): validation of
    the details form, the e-mail pattern, the verification-code check and
    the resend cooldown. */
module SignUp {
  import opened Common

  // ---------------------------------------------------------------------
  // The e-mail pattern `^[^\s@]+@[^\s@]+\.[^\s@]+$`

  /** Free of white space and of `@`: a run of `[^\s@]`. */
  predicate Plain(s: string) {
    forall i :: 0 <= i < |s| ==> !IsJsSpace(s[i]) && s[i] != '@'
  }

  /** What the pattern describes: a non-empty local part, `@`, a non-empty
      domain, `.`, and a non-empty top-level part, none of the three
      containing white space or `@`. */
  ghost predicate EmailShape(e: string) {
    exists l: string, d: string, t: string {:trigger l + "@" + d + "." + t} ::
      e == l + "@" + d + "." + t && |l| > 0 && |d| > 0 && |t| > 0 && Plain(l) && Plain(d) && Plain(t)
  }

  /** `validateEmail`: the local part is everything before the first `@`;
      the rest must be plain and hold a `.` that is neither its first nor
      its last character. */
  function ValidateEmail(e: string): bool {
    match IndexOf(e, "@")
    case None => false
    case Some(k) =>
      var rest := e[k + 1..];
      k > 0 && Plain(e[..k]) && Plain(rest) && |rest| >= 3 && '.' in rest[1..|rest| - 1]
  }

  /** A slice of a plain string is plain. */
  lemma PlainSlice(s: string, i: nat, j: nat)
    requires Plain(s) && i <= j <= |s|
    ensures Plain(s[i..j])
  {
    forall x | 0 <= x < j - i ensures !IsJsSpace(s[i..j][x]) && s[i..j][x] != '@' {
      assert s[i..j][x] == s[i + x];
    }
  }

  /** A plain string with a `.` strictly inside splits around that `.` into
      two non-empty plain parts. */
  lemma SplitAtDot(rest: string) returns (d: string, t: string)
    requires Plain(rest) && |rest| >= 3 && '.' in rest[1..|rest| - 1]
    ensures rest == d + "." + t && |d| > 0 && |t| > 0 && Plain(d) && Plain(t)
  {
    var j :| 0 <= j < |rest| - 2 && rest[1..|rest| - 1][j] == '.';
    var i := j + 1;
    assert rest[i] == '.';
    d, t := rest[..i], rest[i + 1..];
    assert rest == d + "." + t;
    PlainSlice(rest, 0, i);
    PlainSlice(rest, i + 1, |rest|);
    assert rest[0..i] == d && rest[i + 1..|rest|] == t;
  }

  /** Every accepted address has the shape the pattern describes. */
  lemma ValidateEmailSound(e: string)
    requires ValidateEmail(e)
    ensures EmailShape(e)
  {
    var k := IndexOf(e, "@").value;
    var l, rest := e[..k], e[k + 1..];
    var d, t := SplitAtDot(rest);
    assert e[k] == '@' by { assert OccursAt(e, "@", k); assert e[k..k + 1][0] == e[k]; }
    assert e == l + "@" + rest;
    assert e == l + "@" + d + "." + t;
  }

  /** Every address of that shape is accepted. */
  lemma ValidateEmailComplete(l: string, d: string, t: string)
    requires |l| > 0 && |d| > 0 && |t| > 0 && Plain(l) && Plain(d) && Plain(t)
    ensures ValidateEmail(l + "@" + d + "." + t)
  {
    var rest := d + "." + t;
    var e := l + "@" + d + "." + t;
    assert '@' !in l by {
      forall x | 0 <= x < |l| ensures l[x] != '@' { }
    }
    FirstOccurrence(l, "@", rest);
    assert e == l + "@" + rest;
    assert e[..|l|] == l;
    assert e[|l| + 1..] == rest;
    assert Plain(rest) by {
      forall x | 0 <= x < |rest| ensures !IsJsSpace(rest[x]) && rest[x] != '@' {
        if x < |d| { assert rest[x] == d[x]; }
        else if x == |d| { assert rest[x] == '.'; }
        else { assert rest[x] == t[x - |d| - 1]; }
      }
    }
    assert rest[1..|rest| - 1][|d| - 1] == '.';
  }

  /** The pattern and the validation function agree on every input. */
  lemma ValidateEmailIffShape(e: string)
    ensures ValidateEmail(e) <==> EmailShape(e)
  {
    if ValidateEmail(e) {
      ValidateEmailSound(e);
    }
    if EmailShape(e) {
      var l: string, d: string, t: string :| e == l + "@" + d + "." + t && |l| > 0 && |d| > 0 && |t| > 0
        && Plain(l) && Plain(d) && Plain(t);
      ValidateEmailComplete(l, d, t);
    }
  }

  /** An accepted address holds exactly one `@`. */
  lemma ValidEmailHasOneAt(e: string)
    requires ValidateEmail(e)
    ensures '@' in e
    ensures forall i, j :: 0 <= i < |e| && 0 <= j < |e| && e[i] == '@' && e[j] == '@' ==> i == j
  {
    var k := IndexOf(e, "@").value;
    assert e[k] == '@' by { assert OccursAt(e, "@", k); assert e[k..k + 1][0] == e[k]; }
    forall i | 0 <= i < |e| && e[i] == '@' ensures i == k {
      if i < k {
        assert false;
      } else if i > k {
        assert false;
      }
    }
  }

  // ---------------------------------------------------------------------
  // The details form

  /** The error shown under each field; `None` when the field is fine. */
  datatype DetailErrors = DetailErrors(
    name: Option<string>,
    email: Option<string>,
    password: Option<string>,
    confirmPassword: Option<string>)

  predicate NoErrors(e: DetailErrors) {
    e.name.None? && e.email.None? && e.password.None? && e.confirmPassword.None?
  }

  /** The checks of `handleDetailsSubmit`: each field gets at most one
      message, and a missing value's "required" message takes precedence. */
  function CheckDetails(name: string, email: string, password: string, confirmPassword: string): (e: DetailErrors)
    ensures e.name.Some? <==> name == ""
    ensures email == "" ==> e.email == Some("Email is required")
    ensures e.email.Some? <==> email == "" || !ValidateEmail(email)
    ensures password == "" ==> e.password == Some("Password is required")
    ensures e.password.Some? <==> |password| < 8
    ensures confirmPassword == "" ==> e.confirmPassword == Some("Please confirm your password")
    ensures e.confirmPassword.Some? <==> confirmPassword == "" || password != confirmPassword
  {
    DetailErrors(
      if name == "" then Some("Name is required") else None,
      if email == "" then Some("Email is required")
      else if !ValidateEmail(email) then Some("Please enter a valid email address") else None,
      if password == "" then Some("Password is required")
      else if |password| < 8 then Some("Password must be at least 8 characters") else None,
      if confirmPassword == "" then Some("Please confirm your password")
      else if password != confirmPassword then Some("Passwords do not match") else None)
  }

  /** The details are accepted exactly when the name is given, the e-mail is
      given and well formed, the password has at least eight characters and
      the confirmation repeats it. */
  lemma DetailsAcceptedIff(name: string, email: string, password: string, confirmPassword: string)
    ensures NoErrors(CheckDetails(name, email, password, confirmPassword)) <==>
      name != "" && email != "" && EmailShape(email) && |password| >= 8 &&
      confirmPassword != "" && confirmPassword == password
  {
    ValidateEmailIffShape(email);
  }

  /** The verification code must have exactly six characters. */
  predicate CodeAccepted(code: string) {
    code != "" && |code| == 6
  }

  const CooldownSeconds: int := 60

  datatype Step = Details | Verification

  class SignUpPage {
    var step: Step
    var name: string
    var email: string
    var password: string
    var confirmPassword: string
    var verificationCode: string
    var errors: DetailErrors
    var codeError: Option<string>
    var isLoading: bool
    var resendCooldown: int

    constructor ()
      ensures step == Details && name == "" && email == "" && password == "" && confirmPassword == ""
      ensures verificationCode == "" && NoErrors(errors) && codeError == None
      ensures !isLoading && resendCooldown == 0
    {
      step := Details;
      name, email, password, confirmPassword, verificationCode := "", "", "", "", "";
      errors := DetailErrors(None, None, None, None);
      codeError := None;
      isLoading := false;
      resendCooldown := 0;
    }

    /** `handleDetailsSubmit`, up to its simulated request: the errors are
        recomputed (which also clears the code's error), and only error-free
        details start loading. */
    method SubmitDetails() returns (accepted: bool)
      modifies this
      ensures errors == CheckDetails(name, email, password, confirmPassword) && codeError == None
      ensures accepted <==> NoErrors(errors)
      ensures isLoading == (accepted || old(isLoading))
      ensures step == old(step) && resendCooldown == old(resendCooldown)
      ensures name == old(name) && email == old(email) && password == old(password)
      ensures confirmPassword == old(confirmPassword) && verificationCode == old(verificationCode)
    {
      errors := CheckDetails(name, email, password, confirmPassword);
      codeError := None;
      accepted := NoErrors(errors);
      if accepted {
        isLoading := true;
      }
    }

    /** The simulated request completes: the page moves to the verification
        step and the resend cooldown starts. */
    method DetailsSent()
      modifies this
      ensures step == Verification && resendCooldown == CooldownSeconds && !isLoading
      ensures errors == old(errors) && codeError == old(codeError)
      ensures name == old(name) && email == old(email) && password == old(password)
      ensures confirmPassword == old(confirmPassword) && verificationCode == old(verificationCode)
    {
      step := Verification;
      resendCooldown := CooldownSeconds;
      isLoading := false;
    }

    /** `handleVerificationSubmit`, up to its simulated request. */
    method SubmitVerification() returns (accepted: bool)
      modifies this
      ensures accepted <==> CodeAccepted(verificationCode)
      ensures accepted ==> codeError == None && isLoading
      ensures !accepted ==> codeError == Some("Please enter a valid verification code") && isLoading == old(isLoading)
      ensures NoErrors(errors)
      ensures step == old(step) && resendCooldown == old(resendCooldown)
      ensures name == old(name) && email == old(email) && password == old(password)
      ensures confirmPassword == old(confirmPassword) && verificationCode == old(verificationCode)
    {
      errors := DetailErrors(None, None, None, None);
      codeError := None;
      if !CodeAccepted(verificationCode) {
        codeError := Some("Please enter a valid verification code");
        return false;
      }
      isLoading := true;
      accepted := true;
    }

    /** `handleResendCode`, up to its simulated request: nothing happens
        while the cooldown runs. */
    method ResendCode() returns (started: bool)
      modifies this
      ensures started <==> old(resendCooldown) <= 0
      ensures isLoading == (started || old(isLoading))
      ensures step == old(step) && resendCooldown == old(resendCooldown)
      ensures errors == old(errors) && codeError == old(codeError)
      ensures name == old(name) && email == old(email) && password == old(password)
      ensures confirmPassword == old(confirmPassword) && verificationCode == old(verificationCode)
    {
      if resendCooldown > 0 {
        return false;
      }
      isLoading := true;
      started := true;
    }

    /** The resend request completes and the cooldown starts again. */
    method ResendDone()
      modifies this
      ensures resendCooldown == CooldownSeconds && !isLoading
      ensures step == old(step) && errors == old(errors) && codeError == old(codeError)
      ensures name == old(name) && email == old(email) && password == old(password)
      ensures confirmPassword == old(confirmPassword) && verificationCode == old(verificationCode)
    {
      resendCooldown := CooldownSeconds;
      isLoading := false;
    }

    /** One tick of the cooldown interval. */
    method CooldownTick()
      modifies this
      ensures resendCooldown == CountdownStep(old(resendCooldown))
      ensures step == old(step) && isLoading == old(isLoading) && errors == old(errors) && codeError == old(codeError)
      ensures name == old(name) && email == old(email) && password == old(password)
      ensures confirmPassword == old(confirmPassword) && verificationCode == old(verificationCode)
    {
      resendCooldown := CountdownStep(resendCooldown);
    }
  }
}
