/**
 * The sign-up form's validation rules, as react-hook-form applies them on
 * submit: for each field the rules run in the order `required`,
 * `minLength`, `pattern`, `validate`, and the first one that fails gives the
 * field's message.
 *
 * The email rule is the regular expression
 * `^[a-zA-Z0-9._%+-]+@[a-zA-Z0-9.-]+\.[a-zA-Z]{2,}$`. `MatchesEmailPattern`
 * states what it accepts; `IsEmail` is a recogniser that reads the address
 * from the right, and `EmailRecogniserCorrect` shows that the two agree.
 */
module RegisterForm {
  import opened Wrappers
  import opened Text

  /** `[a-zA-Z0-9._%+-]`. */
  predicate IsLocalChar(c: char) {
    IsAsciiLetter(c) || IsDigit(c) || c == '.' || c == '_' || c == '%' || c == '+' || c == '-'
  }

  /** `[a-zA-Z0-9.-]`. */
  predicate IsDomainChar(c: char) {
    IsAsciiLetter(c) || IsDigit(c) || c == '.' || c == '-'
  }

  predicate AllLocal(s: string) { forall k :: 0 <= k < |s| ==> IsLocalChar(s[k]) }
  predicate AllDomain(s: string) { forall k :: 0 <= k < |s| ==> IsDomainChar(s[k]) }
  predicate AllLetters(s: string) { forall k :: 0 <= k < |s| ==> IsAsciiLetter(s[k]) }

  /**
   * The pattern matches `s` with the `@` at `i` and the dot before the
   * top-level label at `j`: a non-empty local part, `@`, a non-empty domain,
   * `.`, and at least two letters up to the end.
   */
  predicate EmailSplit(s: string, i: nat, j: nat) {
    && 0 < i && i + 1 < j && j + 3 <= |s|
    && AllLocal(s[..i]) && s[i] == '@'
    && AllDomain(s[i + 1..j]) && s[j] == '.'
    && AllLetters(s[j + 1..])
  }

  /** What the regular expression accepts. */
  ghost predicate MatchesEmailPattern(s: string) {
    exists i: nat, j: nat :: EmailSplit(s, i, j)
  }

  /** The length of the longest suffix of `s` whose characters all satisfy `p`. */
  function SuffixRun(s: string, p: char -> bool): (n: nat)
    ensures n <= |s|
    ensures forall k :: |s| - n <= k < |s| ==> p(s[k])
    ensures n == |s| || !p(s[|s| - n - 1])
  {
    if s != [] && p(s[|s| - 1]) then 1 + SuffixRun(s[..|s| - 1], p) else 0
  }

  /** A suffix with the two properties of `SuffixRun` is the one it finds. */
  lemma SuffixRunUnique(s: string, p: char -> bool, m: nat)
    requires m <= |s|
    requires forall k :: |s| - m <= k < |s| ==> p(s[k])
    requires m == |s| || !p(s[|s| - m - 1])
    ensures SuffixRun(s, p) == m
  {
  }

  /**
   * The recogniser: the trailing letters must be at least two and be preceded
   * by a dot; before the dot, the longest run of domain characters must be
   * non-empty and be preceded by `@`; everything before the `@` must be a
   * non-empty run of local-part characters.
   */
  predicate IsEmail(s: string) {
    var n := SuffixRun(s, IsAsciiLetter);
    n >= 2 && n + 1 <= |s| &&
    var j := |s| - n - 1;
    s[j] == '.' &&
    var m := SuffixRun(s[..j], IsDomainChar);
    m >= 1 && m + 2 <= j &&
    var i := j - m - 1;
    s[i] == '@' && AllLocal(s[..i])
  }

  /** Every address the recogniser accepts matches the regular expression. */
  lemma IsEmailSound(s: string)
    requires IsEmail(s)
    ensures MatchesEmailPattern(s)
  {
    var n := SuffixRun(s, IsAsciiLetter);
    var j := |s| - n - 1;
    var d := s[..j];
    var m := SuffixRun(d, IsDomainChar);
    var i := j - m - 1;
    var domain, top := s[i + 1..j], s[j + 1..];
    forall k | 0 <= k < |domain| ensures IsDomainChar(domain[k]) {
      assert domain[k] == d[i + 1 + k];
    }
    forall k | 0 <= k < |top| ensures IsAsciiLetter(top[k]) {
      assert top[k] == s[j + 1 + k];
    }
    assert EmailSplit(s, i, j);
  }

  /** Every address the regular expression matches is accepted by the recogniser. */
  lemma IsEmailComplete(s: string, i: nat, j: nat)
    requires EmailSplit(s, i, j)
    ensures IsEmail(s)
  {
    var n := |s| - j - 1;
    forall k | |s| - n <= k < |s| ensures IsAsciiLetter(s[k]) {
      assert s[k] == s[j + 1..][k - j - 1];
    }
    SuffixRunUnique(s, IsAsciiLetter, n);
    var d := s[..j];
    var m := j - i - 1;
    forall k | |d| - m <= k < |d| ensures IsDomainChar(d[k]) {
      assert d[k] == s[i + 1..j][k - i - 1];
    }
    assert !IsDomainChar(d[|d| - m - 1]);
    SuffixRunUnique(d, IsDomainChar, m);
    assert s[..i] == s[..j - m - 1];
  }

  /** The recogniser accepts exactly what the regular expression matches. */
  lemma EmailRecogniserCorrect(s: string)
    ensures IsEmail(s) <==> MatchesEmailPattern(s)
  {
    if IsEmail(s) {
      IsEmailSound(s);
    }
    if MatchesEmailPattern(s) {
      var i: nat, j: nat :| EmailSplit(s, i, j);
      IsEmailComplete(s, i, j);
    }
  }

  /** The number of occurrences of `c` in `s`. */
  function CountChar(s: string, c: char): (n: nat)
    ensures n <= |s|
    ensures n == 0 <==> c !in s
  {
    if s == [] then 0 else (if s[0] == c then 1 else 0) + CountChar(s[1..], c)
  }

  lemma {:induction false} CountCharAppend(a: string, b: string, c: char)
    ensures CountChar(a + b, c) == CountChar(a, c) + CountChar(b, c)
  {
    if a == [] {
      assert a + b == b;
    } else {
      CountCharAppend(a[1..], b, c);
      assert (a + b)[1..] == a[1..] + b;
      assert (a + b)[0] == a[0];
    }
  }

  /** `@` is not a character of the local part, of the domain or of the top-level label. */
  lemma NoAtInParts(s: string, i: nat, j: nat)
    requires EmailSplit(s, i, j)
    ensures '@' !in s[..i] && '@' !in s[i + 1..j] && '@' !in s[j + 1..] && '.' !in s[j + 1..]
  {
    var local, domain, top := s[..i], s[i + 1..j], s[j + 1..];
    forall k | 0 <= k < |local| ensures local[k] != '@' { assert IsLocalChar(local[k]); }
    forall k | 0 <= k < |domain| ensures domain[k] != '@' { assert IsDomainChar(domain[k]); }
    forall k | 0 <= k < |top| ensures top[k] != '@' && top[k] != '.' { assert IsAsciiLetter(top[k]); }
  }

  /** Every accepted address has exactly one `@`. */
  lemma AcceptedEmailHasOneAt(s: string)
    requires MatchesEmailPattern(s)
    ensures CountChar(s, '@') == 1
  {
    var i: nat, j: nat :| EmailSplit(s, i, j);
    NoAtInParts(s, i, j);
    var local, domain, top := s[..i], s[i + 1..j], s[j + 1..];
    var rest := domain + ['.'] + top;
    assert s == local + (['@'] + rest);
    assert CountChar(rest, '@') == 0;
    assert CountChar(['@'], '@') == 1;
    CountCharAppend(['@'], rest, '@');
    CountCharAppend(local, ['@'] + rest, '@');
  }

  /** What follows the last dot of an accepted address is at least two letters and nothing else. */
  lemma AcceptedEmailTopLabel(s: string)
    requires MatchesEmailPattern(s)
    ensures exists j :: 0 <= j < |s| && s[j] == '.' && '.' !in s[j + 1..] && |s| - j - 1 >= 2 && AllLetters(s[j + 1..])
  {
    var i: nat, j: nat :| EmailSplit(s, i, j);
    NoAtInParts(s, i, j);
  }

  /** The values of the three inputs when the form is submitted. */
  datatype Form = Form(email: string, password: string, confirmPassword: string)

  /** The message shown under each input, `None` for no message. */
  datatype Errors = Errors(email: Option<string>, password: Option<string>, confirmPassword: Option<string>)

  /** `required`, then `pattern`. */
  function EmailError(email: string): (e: Option<string>)
    ensures e.None? <==> MatchesEmailPattern(email)
    ensures email == "" ==> e == Some("Email is required")
    ensures email != "" && !MatchesEmailPattern(email) ==> e == Some("Invalid email address")
  {
    EmailRecogniserCorrect(email);
    if email == "" then Some("Email is required")
    else if !IsEmail(email) then Some("Invalid email address")
    else None
  }

  /** `required`, then `minLength: 6`, which counts UTF-16 code units. */
  function PasswordError(password: string): (e: Option<string>)
    ensures e.None? <==> Utf16Length(password) >= 6
    ensures |password| >= 6 ==> e.None?
    ensures password == "" ==> e == Some("Password is required")
    ensures password != "" && Utf16Length(password) < 6 ==> e == Some("Password must be at least 6 characters long")
  {
    if password == "" then Some("Password is required")
    else if Utf16Length(password) < 6 then Some("Password must be at least 6 characters long")
    else None
  }

  /** `required`, then `validate` against the password's current value. */
  function ConfirmError(confirmPassword: string, password: string): (e: Option<string>)
    ensures e.None? <==> confirmPassword != "" && confirmPassword == password
    ensures confirmPassword == "" ==> e == Some("Please confirm your password")
    ensures confirmPassword != "" && confirmPassword != password ==> e == Some("Passwords do not match")
  {
    if confirmPassword == "" then Some("Please confirm your password")
    else if confirmPassword != password then Some("Passwords do not match")
    else None
  }

  function Validate(form: Form): Errors {
    Errors(EmailError(form.email), PasswordError(form.password), ConfirmError(form.confirmPassword, form.password))
  }

  /**
   * `handleSubmit(onSubmit)`: the form data reaches `onSubmit`, which only
   * logs it, exactly when no field has a message. Nothing is sent anywhere.
   */
  function Submit(form: Form): (logged: Option<Form>)
    ensures logged.Some? <==>
      MatchesEmailPattern(form.email) && Utf16Length(form.password) >= 6 && form.confirmPassword == form.password
    ensures logged.Some? ==> logged.value == form
  {
    var errors := Validate(form);
    if errors.email.None? && errors.password.None? && errors.confirmPassword.None? then Some(form) else None
  }
}
