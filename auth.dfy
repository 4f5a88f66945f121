/** The login/register script `src/auth.ts`: the password-strength heuristic, the form
    validators and the two submit handlers, which check every field, and on success store the
    user record under `userData`. */
module Auth {
  import opened Common
  import Store

  // ---------------------------------------------------------------------------
  // Password strength
  // ---------------------------------------------------------------------------

  /** `'' | 'weak' | 'medium' | 'strong'`. */
  datatype Strength = NoStrength | Weak | Medium | Strong

  /** The characters of `/[!@#$%^&*()_+\-=\[\]{};':"\\|,.<>\/?]/`. */
  const SpecialChars := "!@#$%^&*()_+-=[]{};':\"\\|,.<>/?"

  predicate HasUpper(s: string) { exists i | 0 <= i < |s| :: 'A' <= s[i] <= 'Z' }
  predicate HasLower(s: string) { exists i | 0 <= i < |s| :: 'a' <= s[i] <= 'z' }
  predicate HasDigit(s: string) { exists i | 0 <= i < |s| :: '0' <= s[i] <= '9' }
  predicate HasSpecial(s: string) { exists i | 0 <= i < |s| :: s[i] in SpecialChars }

  function Point(b: bool): nat { if b then 1 else 0 }

  /** One point each for length at least 8, length at least 12, an upper-case letter, a
      lower-case letter, a digit and a listed punctuation character. */
  function Score(password: string): (score: nat)
    ensures score <= 6
    ensures |password| < 8 ==> score <= 4
  {
    Point(|password| >= 8) + Point(|password| >= 12)
      + Point(HasUpper(password)) + Point(HasLower(password))
      + Point(HasDigit(password)) + Point(HasSpecial(password))
  }

  /** The strength shown for a password: none for the empty one; otherwise weak up to 2 points,
      medium up to 4, strong from 5. */
  function PasswordStrength(password: string): Strength {
    if |password| == 0 then NoStrength
    else if Score(password) <= 2 then Weak
    else if Score(password) <= 4 then Medium
    else Strong
  }

  /** `checkPasswordStrength`: counts the points one check at a time. */
  method CheckPasswordStrength(password: string) returns (strength: Strength)
    ensures strength == PasswordStrength(password)
  {
    if |password| == 0 {
      return NoStrength;
    }
    var score := 0;
    if |password| >= 8 { score := score + 1; }
    if |password| >= 12 { score := score + 1; }
    if HasUpper(password) { score := score + 1; }
    if HasLower(password) { score := score + 1; }
    if HasDigit(password) { score := score + 1; }
    if HasSpecial(password) { score := score + 1; }
    if score <= 2 {
      return Weak;
    }
    if score <= 4 {
      return Medium;
    }
    return Strong;
  }

  function Rank(s: Strength): nat {
    match s
    case NoStrength => 0
    case Weak => 1
    case Medium => 2
    case Strong => 3
  }

  /** A password shorter than 8 characters is never strong; a strong one has at least 8
      characters and at least three of the four character classes. */
  lemma StrongNeedsLengthAndVariety(password: string)
    ensures |password| < 8 ==> PasswordStrength(password) != Strong
    ensures PasswordStrength(password) == Strong ==>
              |password| >= 8
              && Point(HasUpper(password)) + Point(HasLower(password)) + Point(HasDigit(password)) + Point(HasSpecial(password)) >= 3
  {
  }

  /** Appending characters never lowers the score, so never lowers a non-empty password's
      strength. */
  lemma AppendNeverWeakens(p: string, q: string)
    ensures Score(p) <= Score(p + q)
    ensures p != [] ==> Rank(PasswordStrength(p)) <= Rank(PasswordStrength(p + q))
  {
    var s := p + q;
    assert HasUpper(p) ==> HasUpper(s) by {
      if HasUpper(p) {
        var i :| 0 <= i < |p| && 'A' <= p[i] <= 'Z';
        assert s[i] == p[i];
      }
    }
    assert HasLower(p) ==> HasLower(s) by {
      if HasLower(p) {
        var i :| 0 <= i < |p| && 'a' <= p[i] <= 'z';
        assert s[i] == p[i];
      }
    }
    assert HasDigit(p) ==> HasDigit(s) by {
      if HasDigit(p) {
        var i :| 0 <= i < |p| && '0' <= p[i] <= '9';
        assert s[i] == p[i];
      }
    }
    assert HasSpecial(p) ==> HasSpecial(s) by {
      if HasSpecial(p) {
        var i :| 0 <= i < |p| && p[i] in SpecialChars;
        assert s[i] == p[i];
      }
    }
  }

  /** No letter or digit is one of the listed punctuation characters. */
  lemma AlphanumericIsNotSpecial(c: char)
    requires 'a' <= c <= 'z' || 'A' <= c <= 'Z' || '0' <= c <= '9'
    ensures c !in SpecialChars
  {
  }

  /** A password of letters and digits only earns no punctuation point. */
  lemma AlphanumericHasNoSpecial(s: string)
    requires forall i :: 0 <= i < |s| ==> 'a' <= s[i] <= 'z' || 'A' <= s[i] <= 'Z' || '0' <= s[i] <= '9'
    ensures !HasSpecial(s)
  {
    forall i | 0 <= i < |s| ensures s[i] !in SpecialChars {
      AlphanumericIsNotSpecial(s[i]);
    }
  }

  /** "abc" is weak: one point, for lower case. */
  lemma ShortLowerIsWeak()
    ensures PasswordStrength("abc") == Weak
  {
    var p := "abc";
    assert !HasSpecial(p) by { AlphanumericHasNoSpecial(p); }
    assert Score(p) <= 2 by {
      assert !HasUpper(p) && !HasDigit(p);
    }
  }

  /** "Abcdef12" is medium: length 8, upper case, lower case and a digit. */
  lemma MixedEightIsMedium()
    ensures PasswordStrength("Abcdef12") == Medium
  {
    var p := "Abcdef12";
    assert !HasSpecial(p) by { AlphanumericHasNoSpecial(p); }
    assert HasUpper(p) by { assert 'A' <= p[0] <= 'Z'; }
    assert HasLower(p) by { assert 'a' <= p[1] <= 'z'; }
    assert HasDigit(p) by { assert '0' <= p[6] <= '9'; }
    assert |p| == 8;
    assert Score(p) == 1 + 0 + 1 + 1 + 1 + 0;
  }

  /** The demo password scores 5 and is strong. */
  lemma DemoPasswordIsStrong()
    ensures PasswordStrength(DemoPassword) == Strong
  {
    var p := DemoPassword;
    assert |p| == 10;
    assert HasUpper(p) by { assert 'A' <= p[0] <= 'Z'; }
    assert HasLower(p) by { assert 'a' <= p[1] <= 'z'; }
    assert HasDigit(p) by { assert '0' <= p[5] <= '9'; }
    assert HasSpecial(p) by { assert p[4] == SpecialChars[1]; }
    assert Score(p) == 5;
  }

  // ---------------------------------------------------------------------------
  // Validators
  // ---------------------------------------------------------------------------

  /** A character `[^\s@]` accepts. */
  predicate Plain(c: char) { !IsSpace(c) && c != '@' }

  predicate AllPlain(s: string) { forall i :: 0 <= i < |s| ==> Plain(s[i]) }

  /** A '.' with at least one character on each side. */
  predicate HasInnerDot(d: string) { exists i | 0 < i < |d| - 1 :: d[i] == '.' }

  /** `validateEmail`, read off the first '@': a non-empty local part, and a domain with an
      inner dot, neither holding white space or another '@'. */
  predicate ValidateEmail(email: string) {
    match IndexOf(email, '@')
    case None => false
    case Some(at) =>
      at > 0 && AllPlain(email[..at]) && AllPlain(email[at + 1..]) && HasInnerDot(email[at + 1..])
  }

  /** `^[^\s@]+@[^\s@]+\.[^\s@]+$` with the '@' at `at` and the separating '.' at `dot`:
      three non-empty runs of plain characters. */
  predicate PatternAt(email: string, at: nat, dot: nat) {
    && 0 < at && at + 1 < dot && dot + 1 < |email|
    && email[at] == '@' && email[dot] == '.'
    && AllPlain(email[..at]) && AllPlain(email[at + 1..dot]) && AllPlain(email[dot + 1..])
  }

  /** The address matches the pattern for some placement of '@' and '.'. */
  ghost predicate MatchesEmailPattern(email: string) {
    exists at: nat, dot: nat :: PatternAt(email, at, dot)
  }

  /** The first-'@' reading and the pattern accept the same addresses. */
  lemma ValidateEmailIsPattern(email: string)
    ensures ValidateEmail(email) <==> MatchesEmailPattern(email)
  {
    if ValidateEmail(email) {
      ValidEmailMatches(email);
    }
    if MatchesEmailPattern(email) {
      var at: nat, dot: nat :| PatternAt(email, at, dot);
      MatchIsValid(email, at, dot);
    }
  }

  lemma ValidEmailMatches(email: string)
    requires ValidateEmail(email)
    ensures MatchesEmailPattern(email)
  {
    var at := IndexOf(email, '@').value;
    var d := email[at + 1..];
    assert AllPlain(d) && HasInnerDot(d);
    var i :| 0 < i < |d| - 1 && d[i] == '.';
    var dot := at + 1 + i;
    assert email[at + 1..dot] == d[..i];
    assert email[dot + 1..] == d[i + 1..];
    assert PatternAt(email, at, dot);
  }

  lemma MatchIsValid(email: string, at: nat, dot: nat)
    requires PatternAt(email, at, dot)
    ensures ValidateEmail(email)
  {
    assert '@' !in email[..at] by {
      forall k | 0 <= k < at ensures email[k] != '@' {
        assert Plain(email[..at][k]);
      }
    }
    assert IndexOf(email, '@') == Some(at);
    var d := email[at + 1..];
    forall k | 0 <= k < |d| ensures Plain(d[k]) {
      if at + 1 + k < dot {
        assert d[k] == email[at + 1..dot][k];
      } else if at + 1 + k > dot {
        assert d[k] == email[dot + 1..][at + 1 + k - dot - 1];
      }
    }
    assert d[dot - at - 1] == '.';
  }

  /** An accepted address has no white space and exactly one '@', with something before it. */
  lemma ValidEmailShape(email: string)
    requires ValidateEmail(email)
    ensures forall i :: 0 <= i < |email| ==> !IsSpace(email[i])
    ensures exists at :: 0 < at < |email| && email[at] == '@' && forall i :: 0 <= i < |email| && i != at ==> email[i] != '@'
    ensures BeforeFirst(email, '@') != []
  {
    var at := IndexOf(email, '@').value;
    forall i | 0 <= i < |email| ensures !IsSpace(email[i]) && (i != at ==> email[i] != '@') {
      if i < at {
        assert email[i] == email[..at][i];
      } else if i > at {
        assert email[i] == email[at + 1..][i - at - 1];
      }
    }
  }

  /** Printable ASCII other than '@' is plain. */
  lemma PrintableIsPlain(s: string)
    requires forall i :: 0 <= i < |s| ==> '!' <= s[i] <= '~' && s[i] != '@'
    ensures AllPlain(s)
  {
  }

  lemma DemoPartsArePlain()
    ensures AllPlain("demo") && AllPlain("therapy.com")
  {
    PrintableIsPlain("demo");
    PrintableIsPlain("therapy.com");
  }

  lemma DemoEmailParts()
    ensures IndexOf(DemoEmail, '@') == Some(4)
    ensures DemoEmail[..4] == "demo" && DemoEmail[5..] == "therapy.com"
  {
    var e := DemoEmail;
    assert e[..4] == "demo";
    assert e[5..] == "therapy.com";
    IndexOfAt(e, '@', 4);
  }

  /** The demo address is accepted. */
  lemma DemoEmailIsValid()
    ensures ValidateEmail(DemoEmail)
  {
    DemoPartsArePlain();
    DemoEmailParts();
    assert HasInnerDot("therapy.com") by {
      assert "therapy.com"[7] == '.';
    }
  }

  /** A missing dot, a second '@' and a space are each rejected. */
  lemma InvalidEmailExamples()
    ensures !ValidateEmail("a@b")
    ensures !ValidateEmail("a@@b.c")
    ensures !ValidateEmail("a b@c.d")
  {
    assert IndexOf("a@b", '@') == Some(1) by { assert "a@b"[1] == '@' && '@' !in "a@b"[..1]; }
    assert "a@b"[2..] == "b";
    assert IndexOf("a@@b.c", '@') == Some(1) by { assert "a@@b.c"[1] == '@' && '@' !in "a@@b.c"[..1]; }
    assert "a@@b.c"[2..][0] == '@';
    assert IndexOf("a b@c.d", '@') == Some(3) by {
      assert "a b@c.d"[3] == '@' && '@' !in "a b@c.d"[..3];
    }
    assert "a b@c.d"[..3][1] == ' ';
  }

  /** `validatePassword`. */
  predicate ValidatePassword(password: string) { |password| >= 8 }

  /** `validateName`. */
  predicate ValidateName(name: string) { |Trim(name)| >= 2 }

  /** `validateID`. */
  predicate ValidateID(id: string) { |Trim(id)| >= 3 }

  // ---------------------------------------------------------------------------
  // Form checks
  // ---------------------------------------------------------------------------

  const DemoEmail := "demo@therapy.com"
  const DemoPassword := "Demo@12345"

  /** The message under the email field, if any. */
  function EmailError(email: string): Option<string> {
    if Trim(email) == [] then Some("Email is required")
    else if !ValidateEmail(email) then Some("Please enter a valid email")
    else None
  }

  /** The message under a password field, if any. */
  function PasswordError(password: string): Option<string> {
    if Trim(password) == [] then Some("Password is required")
    else if !ValidatePassword(password) then Some("Password must be at least 8 characters")
    else None
  }

  function NameError(name: string): Option<string> {
    if Trim(name) == [] then Some("Name is required")
    else if !ValidateName(name) then Some("Name must be at least 2 characters")
    else None
  }

  function IdError(id: string): Option<string> {
    if Trim(id) == [] then Some("Professional ID is required")
    else if !ValidateID(id) then Some("Professional ID must be at least 3 characters")
    else None
  }

  function ConfirmError(password: string, confirm: string): Option<string> {
    if Trim(confirm) == [] then Some("Please confirm your password")
    else if password != confirm then Some("Passwords do not match")
    else None
  }

  /** The email field passes exactly when the address is accepted (an accepted address is
      never blank). */
  lemma EmailErrorMatchesValidator(email: string)
    ensures EmailError(email) == None <==> ValidateEmail(email)
  {
    if ValidateEmail(email) {
      ValidEmailShape(email);
      assert !IsSpace(email[0]);
      TrimEmptyIffBlank(email);
    }
  }

  /** Each of the other fields passes exactly when its validator accepts it. */
  lemma FieldErrorsMatchValidators(password: string, name: string, id: string, confirm: string)
    ensures PasswordError(password) == None <==> Trim(password) != [] && ValidatePassword(password)
    ensures NameError(name) == None <==> ValidateName(name)
    ensures IdError(id) == None <==> ValidateID(id)
    ensures ConfirmError(password, confirm) == None <==> Trim(confirm) != [] && confirm == password
  {
    LongTrimIsNotBlank(name, 2);
    LongTrimIsNotBlank(id, 3);
  }

  lemma LongTrimIsNotBlank(s: string, n: nat)
    ensures |Trim(s)| >= n > 0 ==> Trim(s) != []
  {
  }

  /** The name stored at login: the demo pair gets the demo name, anyone else "Dr. " and the
      part of the address before the first '@'. */
  function LoginName(email: string, password: string): string {
    if email == DemoEmail && password == DemoPassword then "Dr. Demo Therapist"
    else "Dr. " + BeforeFirst(email, '@')
  }

  /** The outcome of a login submit: the two field messages, and the record written when both
      are clear. */
  datatype LoginForm = LoginForm(emailError: Option<string>, passwordError: Option<string>)

  /** The login submit handler: both fields are checked (each sets its own message), and when
      both pass the user record is written. `registeredAt` is the current time as text. */
  method SubmitLogin(storage: Store.LocalStorage, email: string, password: string, registeredAt: string, written: bool)
    returns (isValid: bool, form: LoginForm)
    modifies storage
    ensures form == LoginForm(EmailError(email), PasswordError(password))
    ensures isValid <==> ValidateEmail(email) && Trim(password) != [] && |password| >= 8
    ensures isValid && written ==>
              storage.items == old(storage.items)[Store.UserDataKey :=
                Store.Json(Store.UserDataDoc(Some(Store.UserData(email, LoginName(email, password), None, Some(registeredAt), None, None, None))))]
    ensures !isValid || !written ==> storage.items == old(storage.items)
  {
    isValid := true;
    var emailError := EmailError(email);
    if emailError.Some? {
      isValid := false;
    }
    var passwordError := PasswordError(password);
    if passwordError.Some? {
      isValid := false;
    }
    EmailErrorMatchesValidator(email);
    FieldErrorsMatchValidators(password, "", "", "");
    form := LoginForm(emailError, passwordError);
    if isValid {
      var user := Store.UserData(email, LoginName(email, password), None, Some(registeredAt), None, None, None);
      storage.SaveUserData(user, written);
    }
  }

  /** Signing in with the demo pair is accepted and names the user "Dr. Demo Therapist". */
  lemma DemoLogin()
    ensures ValidateEmail(DemoEmail) && Trim(DemoPassword) != [] && |DemoPassword| >= 8
    ensures LoginName(DemoEmail, DemoPassword) == "Dr. Demo Therapist"
  {
    DemoEmailIsValid();
    assert !IsSpace(DemoPassword[0]);
    TrimEmptyIffBlank(DemoPassword);
  }

  /** Any other accepted sign-in is named "Dr. " and the non-empty local part of the address,
      which holds no '@'. */
  lemma OtherLoginName(email: string, password: string)
    requires ValidateEmail(email) && (email != DemoEmail || password != DemoPassword)
    ensures LoginName(email, password) == "Dr. " + BeforeFirst(email, '@')
    ensures |LoginName(email, password)| > 4 && '@' !in LoginName(email, password)[4..]
  {
    ValidEmailShape(email);
    assert LoginName(email, password)[4..] == BeforeFirst(email, '@');
  }

  datatype RegisterForm = RegisterForm(
    nameError: Option<string>,
    emailError: Option<string>,
    idError: Option<string>,
    passwordError: Option<string>,
    confirmError: Option<string>,
    termsAlert: bool)

  /** The register submit handler: every field is checked, the terms box must be ticked, and
      when all pass the entered name, email and ID are written. */
  method SubmitRegister(storage: Store.LocalStorage, name: string, email: string, id: string, password: string,
                        confirm: string, termsChecked: bool, registeredAt: string, written: bool)
    returns (isValid: bool, form: RegisterForm)
    modifies storage
    ensures form == RegisterForm(NameError(name), EmailError(email), IdError(id), PasswordError(password),
                                 ConfirmError(password, confirm), !termsChecked)
    ensures isValid <==>
              ValidateName(name) && ValidateEmail(email) && ValidateID(id)
              && Trim(password) != [] && ValidatePassword(password)
              && confirm == password && termsChecked
    ensures isValid && written ==>
              storage.items == old(storage.items)[Store.UserDataKey :=
                Store.Json(Store.UserDataDoc(Some(Store.UserData(email, name, Some(id), Some(registeredAt), None, None, None))))]
    ensures !isValid || !written ==> storage.items == old(storage.items)
  {
    isValid := true;
    var nameError := NameError(name);
    if nameError.Some? { isValid := false; }
    var emailError := EmailError(email);
    if emailError.Some? { isValid := false; }
    var idError := IdError(id);
    if idError.Some? { isValid := false; }
    var passwordError := PasswordError(password);
    if passwordError.Some? { isValid := false; }
    var confirmError := ConfirmError(password, confirm);
    if confirmError.Some? { isValid := false; }
    if !termsChecked { isValid := false; }
    EmailErrorMatchesValidator(email);
    FieldErrorsMatchValidators(password, name, id, confirm);
    form := RegisterForm(nameError, emailError, idError, passwordError, confirmError, !termsChecked);
    if isValid {
      storage.SaveUserData(Store.UserData(email, name, Some(id), Some(registeredAt), None, None, None), written);
    }
  }
}
