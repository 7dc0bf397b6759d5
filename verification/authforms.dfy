/** The register, login and forgot-password forms
    (src/screens/auth/RegisterScreen.tsx, LoginScreen.tsx and
    ForgotPasswordScreen.tsx): their validators, the e-mail pattern they
    share, and what a submission does. The auth calls' outcomes are inputs. */
module AuthForms {
  import opened Base

  // ---------------------------------------------------------------------------
  // The e-mail pattern `^[^\s@]+@[^\s@]+\.[^\s@]+$`

  /** A character the pattern's classes accept: neither white space nor '@'. */
  predicate Plain(c: char) {
    !IsSpace(c) && c != '@'
  }

  predicate PlainPart(p: string) {
    |p| > 0 && forall i :: 0 <= i < |p| ==> Plain(p[i])
  }

  /** The pattern read as a shape: three non-empty plain parts joined by '@' and '.'. */
  ghost predicate PatternMatch(s: string) {
    exists a: string, b: string, c: string :: PlainPart(a) && PlainPart(b) && PlainPart(c) && s == a + "@" + b + "." + c
  }

  predicate NoSpace(s: string) {
    forall i :: 0 <= i < |s| ==> !IsSpace(s[i])
  }

  /** Position k holds the only '@'. */
  predicate OnlyAt(s: string, k: int) {
    0 <= k < |s| && s[k] == '@' && forall i :: 0 <= i < |s| && i != k ==> s[i] != '@'
  }

  /** After position k there is a '.' that is neither the first nor the last character. */
  predicate DotInside(s: string, k: int) {
    exists j :: 0 <= k + 1 < j < |s| - 1 && s[j] == '.'
  }

  /** The e-mail test all three forms use: no white space, exactly one '@'
      with something before it, and a '.' inside what follows. */
  predicate ValidEmail(s: string) {
    NoSpace(s) && exists k :: 0 < k < |s| && OnlyAt(s, k) && DotInside(s, k)
  }

  /** The test accepts exactly the strings the pattern matches. */
  lemma EmailPattern(s: string)
    ensures ValidEmail(s) <==> PatternMatch(s)
  {
    if ValidEmail(s) {
      var k :| 0 < k < |s| && OnlyAt(s, k) && DotInside(s, k);
      var j :| 0 <= k + 1 < j < |s| - 1 && s[j] == '.';
      var a, b, c := s[..k], s[k + 1..j], s[j + 1..];
      assert s == a + "@" + b + "." + c;
      assert PlainPart(a) && PlainPart(b) && PlainPart(c);
    }
    if PatternMatch(s) {
      var a: string, b: string, c: string :| PlainPart(a) && PlainPart(b) && PlainPart(c) && s == a + "@" + b + "." + c;
      ShapeIsValid(a, b, c);
    }
  }

  lemma ShapeIsValid(a: string, b: string, c: string)
    requires PlainPart(a) && PlainPart(b) && PlainPart(c)
    ensures ValidEmail(a + "@" + b + "." + c)
  {
    var s := a + "@" + b + "." + c;
    var k, j := |a|, |a| + 1 + |b|;
    forall i | 0 <= i < |s| ensures !IsSpace(s[i]) && (i != k ==> s[i] != '@') {
      if i < k {
        assert s[i] == a[i];
      } else if k < i < j {
        assert s[i] == b[i - k - 1];
      } else if i > j {
        assert s[i] == c[i - j - 1];
      }
    }
    assert s[j] == '.';
    assert OnlyAt(s, k) && DotInside(s, k);
  }

  /** A few addresses the forms accept and refuse. */
  lemma EmailExamples()
    ensures ValidEmail("a@b.c")
    ensures !ValidEmail("a@b.") && !ValidEmail("@b.c") && !ValidEmail("a@.c")
  {
    ShapeIsValid("a", "b", "c");
    assert "a" + "@" + "b" + "." + "c" == "a@b.c";
    assert !DotInside("a@b.", 1);
    assert !DotInside("a@.c", 1);
    assert "@b.c"[1] != '@' && "@b.c"[2] != '@' && "@b.c"[3] != '@';
  }

  // ---------------------------------------------------------------------------
  // Field validators (`""` means no error)

  const EmailRequired := "E-posta adresi gereklidir"
  const EmailInvalid := "Geçerli bir e-posta adresi giriniz"
  const PasswordRequired := "Şifre gereklidir"
  const PasswordTooShort := "Şifre en az 6 karakter olmalıdır"
  const NameRequired := "Ad gereklidir"
  const NameTooShort := "Ad en az 2 karakter olmalıdır"
  const ConfirmRequired := "Şifre tekrarı gereklidir"
  const ConfirmMismatch := "Şifreler eşleşmiyor"

  /** `validateEmail`, the same in all three forms. */
  function EmailError(email: string): (r: string)
    ensures r == "" <==> ValidEmail(email)
    ensures email == "" ==> r == EmailRequired
    ensures email != "" && !ValidEmail(email) ==> r == EmailInvalid
  {
    if email == "" then EmailRequired
    else if !ValidEmail(email) then EmailInvalid
    else ""
  }

  /** `validatePassword`, the same in register and login. */
  function PasswordError(password: string): (r: string)
    ensures r == "" <==> |password| >= 6
    ensures password == "" ==> r == PasswordRequired
    ensures 0 < |password| < 6 ==> r == PasswordTooShort
  {
    if password == "" then PasswordRequired
    else if |password| < 6 then PasswordTooShort
    else ""
  }

  function NameError(name: string): (r: string)
    ensures r == "" <==> |name| >= 2
    ensures name == "" ==> r == NameRequired
    ensures 0 < |name| < 2 ==> r == NameTooShort
  {
    if name == "" then NameRequired
    else if |name| < 2 then NameTooShort
    else ""
  }

  /** `validateConfirmPassword`: present and exactly the password. */
  function ConfirmError(confirm: string, password: string): (r: string)
    ensures r == "" <==> confirm != "" && confirm == password
    ensures confirm == "" ==> r == ConfirmRequired
    ensures confirm != "" && confirm != password ==> r == ConfirmMismatch
  {
    if confirm == "" then ConfirmRequired
    else if confirm != password then ConfirmMismatch
    else ""
  }

  // ---------------------------------------------------------------------------
  // Register

  datatype RegisterForm = RegisterForm(
    name: string, email: string, password: string, confirm: string,
    nameError: string, emailError: string, passwordError: string, confirmError: string)

  datatype Registration = Registration(name: string, email: string, password: string)

  /** `handleRegister`: all four validators run, so every message shows at once. */
  function RegisterChecked(f: RegisterForm): (r: RegisterForm)
    ensures r.(nameError := f.nameError, emailError := f.emailError, passwordError := f.passwordError, confirmError := f.confirmError) == f
    ensures r.nameError == NameError(f.name) && r.emailError == EmailError(f.email)
    ensures r.passwordError == PasswordError(f.password) && r.confirmError == ConfirmError(f.confirm, f.password)
  {
    f.(nameError := NameError(f.name), emailError := EmailError(f.email),
       passwordError := PasswordError(f.password), confirmError := ConfirmError(f.confirm, f.password))
  }

  /** The call `register` gets, made only when all four checks pass. */
  function RegisterCall(f: RegisterForm): (r: Option<Registration>)
    ensures r.Some? <==> |f.name| >= 2 && ValidEmail(f.email) && |f.password| >= 6 && f.confirm == f.password
    ensures r.Some? ==> r.value == Registration(f.name, f.email, f.password)
  {
    var c := RegisterChecked(f);
    if c.nameError == "" && c.emailError == "" && c.passwordError == "" && c.confirmError == "" then
      Some(Registration(f.name, f.email, f.password))
    else None
  }

  /** A call is made exactly when no message is shown. */
  lemma RegisterCallIffNoErrors(f: RegisterForm)
    ensures var c := RegisterChecked(f);
      RegisterCall(f).Some? <==> c.nameError == "" && c.emailError == "" && c.passwordError == "" && c.confirmError == ""
  {
  }

  // ---------------------------------------------------------------------------
  // Login

  datatype LoginForm = LoginForm(email: string, password: string, emailError: string, passwordError: string)

  function LoginChecked(f: LoginForm): (r: LoginForm)
    ensures r.email == f.email && r.password == f.password
    ensures r.emailError == EmailError(f.email) && r.passwordError == PasswordError(f.password)
  {
    f.(emailError := EmailError(f.email), passwordError := PasswordError(f.password))
  }

  /** `handleLogin`: both checks run; the call is made iff both pass. */
  function LoginCall(f: LoginForm): (r: Option<(string, string)>)
    ensures r.Some? <==> ValidEmail(f.email) && |f.password| >= 6
    ensures r.Some? ==> r.value == (f.email, f.password)
  {
    var c := LoginChecked(f);
    if c.emailError == "" && c.passwordError == "" then Some((f.email, f.password)) else None
  }

  /** The form after a submission: a failed call is caught and only logged, so
      the form is the same whatever the call did. The call's outcome is a
      parameter only so that this can be stated; the result does not read it,
      and `LoginFailureIsCaught` holds by that construction. */
  function LoginSubmit(f: LoginForm, callFailed: bool): (r: LoginForm)
    ensures r.emailError == EmailError(f.email) && r.passwordError == PasswordError(f.password)
    ensures r.email == f.email && r.password == f.password
  {
    LoginChecked(f)
  }

  lemma LoginFailureIsCaught(f: LoginForm)
    ensures LoginSubmit(f, true) == LoginSubmit(f, false)
  {
  }

  // ---------------------------------------------------------------------------
  // Forgot password

  const ResetFailed := "Şifre sıfırlama işlemi başarısız oldu. Lütfen tekrar deneyin."
  const ResetError := "Bir hata oluştu. Lütfen tekrar deneyin."

  datatype ForgotForm = ForgotForm(email: string, emailError: string, success: string, failure: string)

  /** What `forgotPassword` did: answered with a flag and a message, or threw. */
  datatype ForgotOutcome = Answered(ok: bool, message: string) | Threw

  /** `handleForgotPassword`: both messages clear first; an invalid address
      sends nothing; the answer's message shows on success and the address clears. */
  function ForgotSubmit(f: ForgotForm, outcome: ForgotOutcome): (r: ForgotForm)
    ensures r.emailError == EmailError(f.email)
    ensures !ValidEmail(f.email) ==> r.success == "" && r.failure == "" && r.email == f.email
    ensures ValidEmail(f.email) && outcome.Answered? && outcome.ok ==>
      r.success == outcome.message && r.failure == "" && r.email == ""
    ensures ValidEmail(f.email) && outcome.Answered? && !outcome.ok ==>
      r.success == "" && r.failure == ResetFailed && r.email == f.email
    ensures ValidEmail(f.email) && outcome.Threw? ==> r.success == "" && r.failure == ResetError && r.email == f.email
  {
    var cleared := f.(success := "", failure := "", emailError := EmailError(f.email));
    if cleared.emailError != "" then cleared
    else
      match outcome
      case Answered(ok, message) =>
        if ok then cleared.(success := message, email := "") else cleared.(failure := ResetFailed)
      case Threw => cleared.(failure := ResetError)
  }

  /** Messages from an earlier submission never survive a new one with an invalid address. */
  lemma ForgotClearsOldMessages(f: ForgotForm, outcome: ForgotOutcome)
    requires f.success != "" && f.failure != ""
    requires !ValidEmail(f.email)
    ensures ForgotSubmit(f, outcome).success == "" && ForgotSubmit(f, outcome).failure == ""
  {
  }
}
