/**
 * Form validation and the authentication gates of
 * app/.../ui/viewmodel/AuthViewModel.kt. The three validators and the
 * error-message mapping are pure; the setters, `login`, `register`,
 * `clearError` and `clearSuccess` update the view-model's three state flows,
 * modelled as the fields of class AuthViewModel. What the authentication
 * back end answers is a parameter.
 */
module Auth {
  import opened Optional
  import opened Text
  import opened WhatsApp

  /** The signed-in user; User.kt is not part of this model, only the identity matters here. */
  datatype User = User(id: string)

  datatype AuthUiState = AuthUiState(
    isLoading: bool,
    currentUser: Option<User>,
    error: Option<string>,
    isSuccess: bool)

  datatype LoginFormState = LoginFormState(
    email: string,
    password: string,
    emailError: Option<string>,
    passwordError: Option<string>)

  datatype RegisterFormState = RegisterFormState(
    name: string,
    email: string,
    password: string,
    confirmPassword: string,
    phoneNumber: string,
    nameError: Option<string>,
    emailError: Option<string>,
    passwordError: Option<string>,
    confirmPasswordError: Option<string>,
    phoneError: Option<string>)

  const InitialAuthState := AuthUiState(false, None, None, false)
  const InitialLoginForm := LoginFormState("", "", None, None)
  const InitialRegisterForm := RegisterFormState("", "", "", "", "", None, None, None, None, None)

  // ---------------------------------------------------------------------
  // validateEmail: ^[A-Za-z0-9+_.-]+@[A-Za-z0-9.-]+\.[A-Z|a-z]{2,}$

  predicate IsLocalChar(c: char) {
    IsAsciiLetter(c) || IsDigit(c) || c == '+' || c == '_' || c == '.' || c == '-'
  }

  predicate IsDomainChar(c: char) {
    IsAsciiLetter(c) || IsDigit(c) || c == '.' || c == '-'
  }

  /** The class `[A-Z|a-z]`: inside brackets '|' is a literal, so it is admitted too. */
  predicate IsTldChar(c: char) {
    IsAsciiLetter(c) || c == '|'
  }

  /**
   * `s` splits as local part, '@' at `at`, domain, '.' at `dot`, top-level
   * domain: the strings of the email pattern, with their split points.
   */
  predicate EmailShape(s: string, at: int, dot: int) {
    && 0 < at && at + 1 < dot && dot + 2 < |s|
    && s[at] == '@' && s[dot] == '.'
    && (forall i :: 0 <= i < at ==> IsLocalChar(s[i]))
    && (forall i :: at < i < dot ==> IsDomainChar(s[i]))
    && (forall i :: dot < i < |s| ==> IsTldChar(s[i]))
  }

  /** The language of the email pattern: some split of `s` has the shape. */
  ghost predicate MatchesEmailRegex(s: string) {
    exists at, dot :: EmailShape(s, at, dot)
  }

  /**
   * The recogniser: no pattern character but '@' is '@', and no top-level
   * domain character is '.', so the only possible split is at the first '@'
   * and the last '.'.
   */
  predicate MatchesEmail(s: string) {
    match (IndexOf(s, '@'), LastIndexOf(s, '.'))
    case (Some(at), Some(dot)) => EmailShape(s, at, dot)
    case _ => false
  }

  lemma EmailRecogniserMatchesRegex(s: string)
    ensures MatchesEmail(s) <==> MatchesEmailRegex(s)
  {
    if MatchesEmailRegex(s) {
      var at, dot :| EmailShape(s, at, dot);
      assert forall i :: 0 <= i < at ==> s[..at][i] == s[i];
      assert '@' !in s[..at];
      IndexOfIs(s, '@', at);
      assert forall i :: dot < i < |s| ==> s[dot + 1..][i - dot - 1] == s[i];
      assert '.' !in s[dot + 1..];
      LastIndexOfIs(s, '.', dot);
    }
  }

  /** `validateEmail`. */
  function ValidateEmail(email: string): (r: Option<string>)
    ensures r == Some("Email harus diisi") <==> IsBlank(email)
    ensures r == Some("Format email tidak valid") <==> !IsBlank(email) && !MatchesEmailRegex(email)
    ensures r == None <==> !IsBlank(email) && MatchesEmailRegex(email)
  {
    EmailRecogniserMatchesRegex(email);
    if IsBlank(email) then Some("Email harus diisi")
    else if !MatchesEmail(email) then Some("Format email tidak valid")
    else None
  }

  /** The class `[A-Z|a-z]` lets "a@b.c|" through. */
  lemma EmailBarInTopLevelDomain(s: string)
    requires s == "a@b.c|"
    ensures ValidateEmail(s) == None
  {
    assert EmailShape(s, 1, 3);
    assert !IsWhitespace(s[0]);
  }

  /** A one-letter top-level domain is refused: "a@b.c". */
  lemma EmailShortTopLevelDomain(s: string)
    requires s == "a@b.c"
    ensures ValidateEmail(s) == Some("Format email tidak valid")
  {
    assert !IsWhitespace(s[0]);
    assert s[4..] == "c";
    LastIndexOfIs(s, '.', 3);
    EmailRecogniserMatchesRegex(s);
  }

  // ---------------------------------------------------------------------
  // validatePassword

  /** `validatePassword`: `length` counts UTF-16 code units. */
  function ValidatePassword(password: string): (r: Option<string>)
    ensures r == Some("Kata sandi harus diisi") <==> |password| == 0
    ensures r == Some("Kata sandi minimal 6 karakter") <==> 1 <= Utf16Length(password) < 6
    ensures r == None <==> Utf16Length(password) >= 6
  {
    if |password| == 0 then Some("Kata sandi harus diisi")
    else if Utf16Length(password) < 6 then Some("Kata sandi minimal 6 karakter")
    else None
  }

  /** Three emoji are six UTF-16 code units, so they make a long enough password. */
  lemma PasswordCountsUtf16Units(password: string)
    requires password == "\U{1F600}\U{1F600}\U{1F600}"
    ensures |password| == 3
    ensures ValidatePassword(password) == None
  {
    assert Utf16Length(password[2..]) == 2;
    assert password[1..][1..] == password[2..];
    assert Utf16Length(password[1..]) == 4;
  }

  // ---------------------------------------------------------------------
  // validatePhoneNumber: keep [0-9+], then ^(\+62|62|0)[0-9]{9,12}$

  /** `phone.replace(Regex("[^0-9+]"), "")`. */
  function KeepDigitsAndPlus(s: string): (r: string)
    ensures |r| <= |s|
    ensures forall i :: 0 <= i < |r| ==> IsDigit(r[i]) || r[i] == '+'
  {
    if s == [] then []
    else (if IsDigit(s[0]) || s[0] == '+' then [s[0]] else []) + KeepDigitsAndPlus(s[1..])
  }

  /** Cleaning a concatenation cleans each part. */
  lemma {:induction false} KeepDigitsAndPlusAppend(a: string, b: string)
    ensures KeepDigitsAndPlus(a + b) == KeepDigitsAndPlus(a) + KeepDigitsAndPlus(b)
  {
    if a == [] {
      assert a + b == b;
    } else {
      assert (a + b)[1..] == a[1..] + b;
      KeepDigitsAndPlusAppend(a[1..], b);
    }
  }

  /** Digits and '+' signs are all kept, in place. */
  lemma {:induction false} KeepDigitsAndPlusOfKept(s: string)
    requires forall i :: 0 <= i < |s| ==> IsDigit(s[i]) || s[i] == '+'
    ensures KeepDigitsAndPlus(s) == s
  {
    if s != [] {
      KeepDigitsAndPlusOfKept(s[1..]);
    }
  }

  /** Every other character is deleted. */
  lemma {:induction false} KeepDigitsAndPlusOfDropped(s: string)
    requires forall i :: 0 <= i < |s| ==> !IsDigit(s[i]) && s[i] != '+'
    ensures KeepDigitsAndPlus(s) == ""
  {
    if s != [] {
      KeepDigitsAndPlusOfDropped(s[1..]);
    }
  }

  /** Keeping the '+' signs as well loses no digit and adds none. */
  lemma {:induction false} KeepThenDigitsOnly(s: string)
    ensures DigitsOnly(KeepDigitsAndPlus(s)) == DigitsOnly(s)
  {
    if s != [] {
      KeepThenDigitsOnly(s[1..]);
      var head := if IsDigit(s[0]) || s[0] == '+' then [s[0]] else [];
      DigitsOnlyAppend(head, KeepDigitsAndPlus(s[1..]));
    }
  }

  /** Without a '+', keeping digits and '+' keeps the digits only. */
  lemma {:induction false} KeepWithoutPlus(s: string)
    requires '+' !in s
    ensures KeepDigitsAndPlus(s) == DigitsOnly(s)
  {
    if s != [] {
      assert '+' !in s[1..] by {
        assert forall i :: 0 <= i < |s| - 1 ==> s[1..][i] == s[i + 1];
      }
      KeepWithoutPlus(s[1..]);
    }
  }

  /** The digits after a prefix of the phone pattern: 9 to 12 of them. */
  predicate NationalDigits(s: string) {
    9 <= |s| <= 12 && AllDigits(s)
  }

  /** `^(\+62|62|0)[0-9]{9,12}$`, one disjunct per alternative. */
  predicate MatchesPhonePattern(s: string) {
    || (StartsWith(s, "+62") && NationalDigits(s[3..]))
    || (StartsWith(s, "62") && NationalDigits(s[2..]))
    || (StartsWith(s, "0") && NationalDigits(s[1..]))
  }

  /** `validatePhoneNumber`: the phone is optional, so blank input is no error. */
  function ValidatePhoneNumber(phone: string): (r: Option<string>)
    ensures IsBlank(phone) ==> r == None
    ensures !IsBlank(phone) ==>
              (r == Some("Nomor telepon terlalu pendek") <==> |KeepDigitsAndPlus(phone)| < 10)
    ensures !IsBlank(phone) ==>
              (r == None <==> MatchesPhonePattern(KeepDigitsAndPlus(phone)))
    ensures !IsBlank(phone) && |KeepDigitsAndPlus(phone)| >= 10 && !MatchesPhonePattern(KeepDigitsAndPlus(phone)) ==>
              r == Some("Format nomor telepon tidak valid")
  {
    if IsBlank(phone) then None
    else
      var clean := KeepDigitsAndPlus(phone);
      if |clean| < 10 then Some("Nomor telepon terlalu pendek")
      else if !MatchesPhonePattern(clean) then Some("Format nomor telepon tidak valid")
      else None
  }

  /** A digit string with a leading "0" or "62" is all digits after it. */
  lemma DigitsAfterPrefix(s: string, k: nat)
    requires k <= |s| && AllDigits(s)
    ensures AllDigits(s[k..])
  {
    assert forall i :: 0 <= i < |s| - k ==> s[k..][i] == s[i + k];
  }

  /** A phone the register form accepts is one WhatsApp links accept. */
  lemma AcceptedPhoneIsWhatsAppValid(phone: string)
    requires !IsBlank(phone) && ValidatePhoneNumber(phone) == None
    ensures IsValidIndonesianPhoneNumber(phone)
  {
    var clean := KeepDigitsAndPlus(phone);
    KeepThenDigitsOnly(phone);
    if StartsWith(clean, "+62") {
      var rest := clean[3..];
      assert clean == "+" + ("62" + rest);
      DigitsOnlyAppend("+", "62" + rest);
      DigitsOnlyOfNoDigits("+");
      DigitsOnlyOfDigits("62" + rest);
      assert DigitsOnly(phone) == "62" + rest;
    } else {
      assert AllDigits(clean) by {
        if StartsWith(clean, "62") {
          assert forall i :: 2 <= i < |clean| ==> clean[i] == clean[2..][i - 2];
        } else {
          assert forall i :: 1 <= i < |clean| ==> clean[i] == clean[1..][i - 1];
        }
      }
      DigitsOnlyOfDigits(clean);
    }
  }

  /** For input without '+', the register form accepts a phone exactly when WhatsApp links do. */
  lemma PhoneValidatorsAgreeWithoutPlus(phone: string)
    requires !IsBlank(phone) && '+' !in phone
    ensures ValidatePhoneNumber(phone) == None <==> IsValidIndonesianPhoneNumber(phone)
  {
    KeepWithoutPlus(phone);
    var clean := DigitsOnly(phone);
    if IsValidIndonesianPhoneNumber(phone) {
      ValidityCharacterised(phone);
      if StartsWith(clean, "0") {
        DigitsAfterPrefix(clean, 1);
      } else {
        DigitsAfterPrefix(clean, 2);
      }
    } else if ValidatePhoneNumber(phone) == None {
      AcceptedPhoneIsWhatsAppValid(phone);
    }
  }

  // ---------------------------------------------------------------------
  // getReadableError

  /** One `when` branch: any of `needles` in the message selects `message`. */
  datatype ErrorRule = ErrorRule(needles: seq<string>, message: string)

  /** The branches of `getReadableError`, in source order. */
  const ErrorRules: seq<ErrorRule> := [
    ErrorRule(["INVALID_LOGIN_CREDENTIALS", "ERROR_WRONG_PASSWORD", "wrong-password"],
              "Kata sandi salah. Silakan coba lagi."),
    ErrorRule(["ERROR_USER_NOT_FOUND", "user-not-found", "no user record"],
              "Akun tidak ditemukan. Silakan daftar terlebih dahulu."),
    ErrorRule(["ERROR_INVALID_EMAIL", "invalid-email", "badly formatted"],
              "Format email tidak valid."),
    ErrorRule(["ERROR_EMAIL_ALREADY_IN_USE", "email-already-in-use", "already in use"],
              "Email sudah terdaftar. Silakan login atau gunakan email lain."),
    ErrorRule(["ERROR_WEAK_PASSWORD", "weak-password"],
              "Kata sandi terlalu lemah. Minimal 6 karakter."),
    ErrorRule(["ERROR_TOO_MANY_REQUESTS", "too-many-requests"],
              "Terlalu banyak percobaan. Silakan coba lagi nanti."),
    ErrorRule(["network", "Network", "Unable to resolve host"],
              "Koneksi internet bermasalah. Periksa koneksi Anda."),
    ErrorRule(["timeout", "timed out"],
              "Waktu koneksi habis. Coba lagi."),
    ErrorRule(["User creation failed"],
              "Gagal membuat akun. Silakan coba lagi.")
  ]

  const LoginFailedMessage := "Login gagal. Periksa email dan kata sandi Anda."
  const GenericPrefix := "Terjadi kesalahan: "

  /** Some needle of the list occurs in `m` (case-sensitive, as `contains`). */
  predicate ContainsAny(m: string, needles: seq<string>) {
    needles != [] && (Contains(m, needles[0]) || ContainsAny(m, needles[1..]))
  }

  lemma {:induction false} ContainsAnyIff(m: string, needles: seq<string>)
    ensures ContainsAny(m, needles) <==> exists k :: 0 <= k < |needles| && Contains(m, needles[k])
  {
    if needles != [] {
      ContainsAnyIff(m, needles[1..]);
      assert forall k :: 1 <= k < |needles| ==> needles[k] == needles[1..][k - 1];
    }
  }

  predicate RuleMatches(m: string, rule: ErrorRule) {
    ContainsAny(m, rule.needles)
  }

  /** Index of the first rule matching `m`, counting from `from`. */
  function FirstMatchingRule(m: string, rules: seq<ErrorRule>, from: nat): (r: Option<nat>)
    requires from <= |rules|
    ensures r.Some? ==> from <= r.value < |rules| && RuleMatches(m, rules[r.value])
    ensures r.Some? ==> forall j :: from <= j < r.value ==> !RuleMatches(m, rules[j])
    ensures r.None? ==> forall j :: from <= j < |rules| ==> !RuleMatches(m, rules[j])
    decreases |rules| - from
  {
    if from == |rules| then None
    else if RuleMatches(m, rules[from]) then Some(from)
    else FirstMatchingRule(m, rules, from + 1)
  }

  /** `getReadableError`, given the exception's message (`null` is None). */
  function GetReadableError(errorMessage: Option<string>): (r: string)
    ensures (exists i :: 0 <= i < |ErrorRules| && r == ErrorRules[i].message)
            || r == LoginFailedMessage
            || (StartsWith(r, GenericPrefix) && Utf16Length(r[|GenericPrefix|..]) <= 100)
  {
    var m := errorMessage.GetOr("");
    match FirstMatchingRule(m, ErrorRules, 0)
    case Some(i) => ErrorRules[i].message
    case None =>
      if ContainsIgnoreCase(m, "login") then LoginFailedMessage
      else
        var t := Utf16Take(m, 100);
        assert (GenericPrefix + t)[|GenericPrefix|..] == t;
        GenericPrefix + t
  }

  /** The first rule (in source order) whose needles occur decides the message. */
  lemma ReadableErrorFirstMatch(m: string, i: nat)
    requires i < |ErrorRules| && RuleMatches(m, ErrorRules[i])
    requires forall j :: 0 <= j < i ==> !RuleMatches(m, ErrorRules[j])
    ensures GetReadableError(Some(m)) == ErrorRules[i].message
  {
  }

  /** With no rule matching, "login" in any letter case gives the login message, else the truncated text. */
  lemma ReadableErrorFallback(m: string)
    requires forall j :: 0 <= j < |ErrorRules| ==> !RuleMatches(m, ErrorRules[j])
    ensures ContainsIgnoreCase(m, "login") ==> GetReadableError(Some(m)) == LoginFailedMessage
    ensures !ContainsIgnoreCase(m, "login") ==> GetReadableError(Some(m)) == GenericPrefix + Utf16Take(m, 100)
  {
  }

  /** "wrong-password" anywhere in the message reports a wrong password, whatever else it says. */
  lemma ReadableErrorWrongPassword(before: string, after: string)
    ensures GetReadableError(Some(before + "wrong-password" + after)) == "Kata sandi salah. Silakan coba lagi."
  {
    var m := before + "wrong-password" + after;
    ContainsInfix(before, "wrong-password", after);
    ContainsAnyIff(m, ErrorRules[0].needles);
    assert ErrorRules[0].needles[2] == "wrong-password";
    ReadableErrorFirstMatch(m, 0);
  }

  /** An exception without a message gives "Terjadi kesalahan: " and nothing after it. */
  lemma ReadableErrorNullMessage()
    ensures GetReadableError(None) == GenericPrefix
  {
    forall j | 0 <= j < |ErrorRules|
      ensures !RuleMatches("", ErrorRules[j])
    {
      ContainsAnyIff("", ErrorRules[j].needles);
      forall k | 0 <= k < |ErrorRules[j].needles|
        ensures !Contains("", ErrorRules[j].needles[k])
      {
        assert |ErrorRules[j].needles[k]| > 0;
      }
    }
    assert !ContainsIgnoreCase("", "login");
  }

  // ---------------------------------------------------------------------
  // The gates of login() and register()

  /** What the authentication back end answered. */
  datatype AuthResponse = AuthSucceeded(user: User) | AuthFailed(message: Option<string>)

  /** The state after the back-end call of `login`/`register` (loading and error reset first). */
  function AfterAuthCall(st: AuthUiState, response: AuthResponse): (r: AuthUiState)
    ensures !r.isLoading
    ensures response.AuthSucceeded? ==>
              r.currentUser == Some(response.user) && r.isSuccess && r.error == None
    ensures response.AuthFailed? ==>
              r.currentUser == st.currentUser && r.isSuccess == st.isSuccess &&
              r.error == Some(GetReadableError(response.message))
  {
    var loading := st.(isLoading := true, error := None);
    match response
    case AuthSucceeded(user) => loading.(isLoading := false, currentUser := Some(user), isSuccess := true)
    case AuthFailed(message) => loading.(isLoading := false, error := Some(GetReadableError(message)))
  }

  /** The five field errors `register` computes. */
  datatype RegisterErrors = RegisterErrors(
    nameError: Option<string>,
    emailError: Option<string>,
    passwordError: Option<string>,
    confirmError: Option<string>,
    phoneError: Option<string>)

  function RegisterCheck(form: RegisterFormState): (r: RegisterErrors)
    ensures r.nameError.None? <==> !IsBlank(form.name)
    ensures r.confirmError.None? <==> form.confirmPassword == form.password
    ensures r.emailError == ValidateEmail(form.email)
    ensures r.passwordError == ValidatePassword(form.password)
    ensures r.phoneError.None? <==> IsBlank(form.phoneNumber) || ValidatePhoneNumber(form.phoneNumber).None?
    ensures r.nameError == if IsBlank(form.name) then Some("Nama harus diisi") else None
    ensures r.confirmError == if form.confirmPassword != form.password then Some("Kata sandi tidak cocok") else None
    ensures r.phoneError == if IsBlank(form.phoneNumber) then None else ValidatePhoneNumber(form.phoneNumber)
  {
    RegisterErrors(
      if IsBlank(form.name) then Some("Nama harus diisi") else None,
      ValidateEmail(form.email),
      ValidatePassword(form.password),
      if form.confirmPassword != form.password then Some("Kata sandi tidak cocok") else None,
      if !IsBlank(form.phoneNumber) then ValidatePhoneNumber(form.phoneNumber) else None)
  }

  predicate RegisterAccepted(form: RegisterFormState) {
    var e := RegisterCheck(form);
    e.nameError.None? && e.emailError.None? && e.passwordError.None? &&
    e.confirmError.None? && e.phoneError.None?
  }

  /** `register` reaches the back end exactly when every field is acceptable. */
  lemma RegisterGate(form: RegisterFormState)
    ensures RegisterAccepted(form) <==>
              && !IsBlank(form.name)
              && !IsBlank(form.email) && MatchesEmailRegex(form.email)
              && Utf16Length(form.password) >= 6
              && form.confirmPassword == form.password
              && (IsBlank(form.phoneNumber) || ValidatePhoneNumber(form.phoneNumber) == None)
  {
  }

  /** A registered phone number, when given, can be used for WhatsApp links. */
  lemma RegisteredPhoneIsWhatsAppValid(form: RegisterFormState)
    requires RegisterAccepted(form) && !IsBlank(form.phoneNumber)
    ensures IsValidIndonesianPhoneNumber(form.phoneNumber)
  {
    AcceptedPhoneIsWhatsAppValid(form.phoneNumber);
  }

  /** What `login` sends to the back end. */
  datatype Credentials = Credentials(email: string, password: string)

  /** What `register` sends to the back end. */
  datatype Registration = Registration(email: string, password: string, name: string, phoneNumber: string)

  class AuthViewModel {
    var authState: AuthUiState
    var loginForm: LoginFormState
    var registerForm: RegisterFormState

    /** The view-model before any user loading (observeAuthState/loadCurrentUser are left out). */
    constructor ()
      ensures authState == InitialAuthState
      ensures loginForm == InitialLoginForm && registerForm == InitialRegisterForm
    {
      authState := InitialAuthState;
      loginForm := InitialLoginForm;
      registerForm := InitialRegisterForm;
    }

    method SetLoginEmail(email: string)
      modifies this`loginForm
      ensures loginForm == old(loginForm).(email := email, emailError := ValidateEmail(email))
    {
      loginForm := loginForm.(email := email, emailError := ValidateEmail(email));
    }

    /** The login setter checks emptiness only, with its own English message. */
    method SetLoginPassword(password: string)
      modifies this`loginForm
      ensures loginForm == old(loginForm).(password := password,
                                           passwordError := if password == "" then Some("Password required") else None)
    {
      loginForm := loginForm.(password := password,
                              passwordError := if password == "" then Some("Password required") else None);
    }

    method SetRegisterName(name: string)
      modifies this`registerForm
      ensures registerForm == old(registerForm).(name := name,
                                                 nameError := if IsBlank(name) then Some("Name is required") else None)
    {
      registerForm := registerForm.(name := name,
                                    nameError := if IsBlank(name) then Some("Name is required") else None);
    }

    method SetRegisterEmail(email: string)
      modifies this`registerForm
      ensures registerForm == old(registerForm).(email := email, emailError := ValidateEmail(email))
    {
      registerForm := registerForm.(email := email, emailError := ValidateEmail(email));
    }

    /** The confirmation error is not recomputed here. */
    method SetRegisterPassword(password: string)
      modifies this`registerForm
      ensures registerForm == old(registerForm).(password := password, passwordError := ValidatePassword(password))
    {
      registerForm := registerForm.(password := password, passwordError := ValidatePassword(password));
    }

    /** The confirmation is compared with the password currently in the form. */
    method SetRegisterConfirmPassword(confirmPassword: string)
      modifies this`registerForm
      ensures registerForm.confirmPasswordError.Some? <==> confirmPassword != old(registerForm).password
      ensures registerForm == old(registerForm).(
                confirmPassword := confirmPassword,
                confirmPasswordError := if confirmPassword != old(registerForm).password
                                        then Some("Passwords do not match") else None)
    {
      var err := if confirmPassword != registerForm.password then Some("Passwords do not match") else None;
      registerForm := registerForm.(confirmPassword := confirmPassword, confirmPasswordError := err);
    }

    method SetRegisterPhone(phone: string)
      modifies this`registerForm
      ensures registerForm == old(registerForm).(phoneNumber := phone, phoneError := ValidatePhoneNumber(phone))
    {
      registerForm := registerForm.(phoneNumber := phone, phoneError := ValidatePhoneNumber(phone));
    }

    /**
     * `login`: with a field error the form shows both errors and nothing is
     * sent; otherwise `sent` holds the credentials and the back end's
     * `response` is applied to the auth state.
     */
    method Login(response: AuthResponse) returns (sent: Option<Credentials>)
      modifies this`loginForm, this`authState
      ensures var f := old(loginForm);
              sent.Some? <==> ValidateEmail(f.email) == None && ValidatePassword(f.password) == None
      ensures sent.Some? ==>
                sent.value == Credentials(old(loginForm).email, old(loginForm).password) &&
                loginForm == old(loginForm) &&
                authState == AfterAuthCall(old(authState), response)
      ensures sent.None? ==>
                authState == old(authState) &&
                loginForm == old(loginForm).(emailError := ValidateEmail(old(loginForm).email),
                                             passwordError := ValidatePassword(old(loginForm).password))
    {
      var form := loginForm;
      var emailError := ValidateEmail(form.email);
      var passwordError := ValidatePassword(form.password);
      if emailError.Some? || passwordError.Some? {
        loginForm := form.(emailError := emailError, passwordError := passwordError);
        return None;
      }
      authState := authState.(isLoading := true, error := None);
      sent := Some(Credentials(form.email, form.password));
      authState := AfterAuthCall(authState, response);
    }

    /**
     * `register`: with a field error the form shows all five errors and
     * nothing is sent; otherwise the registration goes out, a blank phone as "".
     */
    method Register(response: AuthResponse) returns (sent: Option<Registration>)
      modifies this`registerForm, this`authState
      ensures sent.Some? <==> RegisterAccepted(old(registerForm))
      ensures sent.Some? ==>
                var f := old(registerForm);
                sent.value == Registration(f.email, f.password, f.name,
                                           if IsBlank(f.phoneNumber) then "" else f.phoneNumber) &&
                registerForm == f &&
                authState == AfterAuthCall(old(authState), response)
      ensures sent.None? ==>
                var f := old(registerForm);
                var e := RegisterCheck(f);
                authState == old(authState) &&
                registerForm == f.(nameError := e.nameError, emailError := e.emailError,
                                   passwordError := e.passwordError,
                                   confirmPasswordError := e.confirmError, phoneError := e.phoneError)
    {
      var form := registerForm;
      var e := RegisterCheck(form);
      if !RegisterAccepted(form) {
        registerForm := form.(nameError := e.nameError, emailError := e.emailError,
                              passwordError := e.passwordError,
                              confirmPasswordError := e.confirmError, phoneError := e.phoneError);
        return None;
      }
      authState := authState.(isLoading := true, error := None);
      var phone := if IsBlank(form.phoneNumber) then "" else form.phoneNumber;
      sent := Some(Registration(form.email, form.password, form.name, phone));
      authState := AfterAuthCall(authState, response);
    }

    method ClearError()
      modifies this`authState
      ensures authState == old(authState).(error := None)
    {
      authState := authState.(error := None);
    }

    method ClearSuccess()
      modifies this`authState
      ensures authState == old(authState).(isSuccess := false)
    {
      authState := authState.(isSuccess := false);
    }
  }

  /**
   * Confirming "secret1" and then changing the password to "secret2" leaves
   * no confirmation error on the form, yet `register` refuses the mismatch.
   */
  method StaleConfirmationScenario(response: AuthResponse)
  {
    var vm := new AuthViewModel();
    vm.SetRegisterPassword("secret1");
    vm.SetRegisterConfirmPassword("secret1");
    assert vm.registerForm.confirmPasswordError == None;
    vm.SetRegisterPassword("secret2");
    assert vm.registerForm.confirmPasswordError == None;
    assert vm.registerForm.confirmPassword != vm.registerForm.password;
    var sent := vm.Register(response);
    assert sent == None;
    assert vm.registerForm.confirmPasswordError == Some("Kata sandi tidak cocok");
  }
}
