/**
 * `src/schemas/authSchema.js`: the login and registration schemas and
 * `validateLogin` / `validateRegister`. Zod's e-mail format check is the
 * parameter `isEmail`; a field the caller leaves out is `None`.
 */
module AuthSchema {
  import opened Wrappers
  import opened JsStrings
  import opened Zod

  const EmailRequired := "Email harus diisi"
  const EmailInvalid := "Email tidak valid"
  const EmailTooLong := "Email terlalu panjang"
  const PasswordRequired := "Password harus diisi"
  const PasswordTooShort := "Password minimal 6 karakter"
  const PasswordTooLong := "Password terlalu panjang"
  const PasswordWeak := "Password harus mengandung huruf besar atau angka"
  const NameRequired := "Nama harus diisi"
  const NameTooLong := "Nama maksimal 100 karakter"
  const ConfirmationRequired := "Konfirmasi password harus diisi"
  const Mismatch := "Password dan konfirmasi password tidak cocok"

  /** The text before the first line terminator: as far as `.*` reaches from the start. */
  function FirstLine(s: string): (r: string)
    ensures |r| <= |s| && r == s[..|r|]
    ensures NoneIn(r, IsLineTerminator)
    ensures |r| < |s| ==> IsLineTerminator(s[|r|])
  {
    if s == [] || IsLineTerminator(s[0]) then [] else [s[0]] + FirstLine(s[1..])
  }

  lemma {:induction false} SingleLine(s: string)
    requires NoneIn(s, IsLineTerminator)
    ensures FirstLine(s) == s
  {
    if s != [] {
      SingleLine(s[1..]);
    }
  }

  predicate IsUpperOrDigit(c: char)
  {
    IsUpper(c) || IsDigit(c)
  }

  /**
   * `/^(?=.*[a-z])(?=.*[A-Z]|.*\d)/`: both lookaheads start at the beginning
   * and `.` stops at a line terminator, so a lower-case letter and an
   * upper-case letter or digit must occur in the first line.
   */
  predicate PasswordRule(s: string)
  {
    !NoneIn(FirstLine(s), IsLower) && !NoneIn(FirstLine(s), IsUpperOrDigit)
  }

  /** For a password on one line the rule reads: some lower-case letter, and some upper-case letter or digit. */
  lemma PasswordRuleOneLine(s: string)
    requires NoneIn(s, IsLineTerminator)
    ensures PasswordRule(s) <==>
      (exists i | 0 <= i < |s| :: IsLower(s[i])) && (exists j | 0 <= j < |s| :: IsUpper(s[j]) || IsDigit(s[j]))
  {
    SingleLine(s);
  }

  /** The email steps: three checks, then `trim` and `toLowerCase`. */
  function EmailSteps(isEmail: string -> bool): seq<Step>
  {
    [MinLength(1, EmailRequired), Pattern(isEmail, EmailInvalid), MaxLength(255, EmailTooLong), TrimStep, LowerStep]
  }

  const LoginPasswordSteps := [MinLength(1, PasswordRequired), MinLength(6, PasswordTooShort)]
  const NameSteps := [MinLength(1, NameRequired), MaxLength(100, NameTooLong), TrimStep]
  const PasswordSteps := [MinLength(6, PasswordTooShort), MaxLength(255, PasswordTooLong), Pattern(PasswordRule, PasswordWeak)]
  const ConfirmationSteps := [MinLength(1, ConfirmationRequired)]

  /** The `email` field passes: present, 1 to 255 characters, and an email address. */
  predicate EmailAccepted(email: Option<string>, isEmail: string -> bool)
  {
    email.Some? && 1 <= |email.value| <= 255 && isEmail(email.value)
  }

  lemma {:induction false} EmailProperty(email: Option<string>, isEmail: string -> bool)
    ensures StringProperty("email", email, EmailSteps(isEmail)).issues == [] <==> EmailAccepted(email, isEmail)
    ensures email.Some? ==> StringProperty("email", email, EmailSteps(isEmail)).value == Some(Lower(Trim(email.value)))
  {
    if email.Some? {
      PropertyClean("email", email.value, EmailSteps(isEmail));
      EmailStepsClean(email.value, isEmail);
    }
  }

  lemma EmailStepsClean(s: string, isEmail: string -> bool)
    ensures Messages(s, EmailSteps(isEmail)) == [] <==> EmailAccepted(Some(s), isEmail)
    ensures Output(s, EmailSteps(isEmail)) == Lower(Trim(s))
  {
    MinPatternMaxTrimLower(s, 1, isEmail, 255, EmailRequired, EmailInvalid, EmailTooLong);
  }

  /** Lower-casing keeps a trimmed string trimmed. */
  lemma LowerTrimmed(t: string)
    requires t == [] || (!IsSpace(t[0]) && !IsSpace(t[|t| - 1]))
    ensures Trim(Lower(t)) == Lower(t)
  {
    var r := Lower(t);
    if r != [] {
      assert r[0] == LowerChar(t[0]) && r[|r| - 1] == LowerChar(t[|t| - 1]);
    }
    TrimKeeps(r);
  }

  /** A returned e-mail is trimmed, lower-case and at most 255 characters long. */
  lemma EmailNormalised(s: string)
    requires |s| <= 255
    ensures |Lower(Trim(s))| <= 255
    ensures NoneIn(Lower(Trim(s)), IsUpper)
    ensures Trim(Lower(Trim(s))) == Lower(Trim(s))
  {
    TrimShorter(s);
    LowerTrimmed(Trim(s));
  }

  /** The login `password` field passes: present and at least 6 characters. */
  predicate LoginPasswordAccepted(password: Option<string>)
  {
    password.Some? && |password.value| >= 6
  }

  lemma {:induction false} LoginPasswordProperty(password: Option<string>)
    ensures StringProperty("password", password, LoginPasswordSteps).issues == [] <==> LoginPasswordAccepted(password)
    ensures password.Some? ==> StringProperty("password", password, LoginPasswordSteps).value == password
  {
    if password.Some? {
      var s := password.value;
      PlainMessages(s, LoginPasswordSteps);
      assert (forall i :: 0 <= i < |LoginPasswordSteps| ==> !Fails(LoginPasswordSteps[i], s))
        <==> !Fails(LoginPasswordSteps[0], s) && !Fails(LoginPasswordSteps[1], s);
    }
  }

  datatype LoginInput = LoginInput(email: Option<string>, password: Option<string>)

  datatype Login = Login(email: string, password: string)

  /** The login form passes exactly when both of its fields do. */
  predicate LoginAccepted(input: LoginInput, isEmail: string -> bool)
  {
    EmailAccepted(input.email, isEmail) && LoginPasswordAccepted(input.password)
  }

  /** The issues the login schema reports: the email field's, then the password field's. */
  function LoginIssues(input: LoginInput, isEmail: string -> bool): seq<Issue>
  {
    StringProperty("email", input.email, EmailSteps(isEmail)).issues
    + StringProperty("password", input.password, LoginPasswordSteps).issues
  }

  /**
   * `validateLogin(data)`: success exactly when the e-mail is 1 to 255
   * characters long and well-formed and the password has at least six
   * characters; the e-mail comes back trimmed and lower-cased.
   */
  function ValidateLogin(input: LoginInput, isEmail: string -> bool): (r: Validation<Login>)
    ensures r.Valid? <==> LoginAccepted(input, isEmail)
    ensures r.Valid? ==> r.data == Login(Lower(Trim(input.email.value)), input.password.value)
    ensures r.Invalid? ==> |r.errors| > 0 && r.errors == FieldErrors(LoginIssues(input, isEmail))
  {
    EmailProperty(input.email, isEmail);
    LoginPasswordProperty(input.password);
    var issues := LoginIssues(input, isEmail);
    if issues == [] then Valid(Login(Lower(Trim(input.email.value)), input.password.value))
    else Invalid(FieldErrors(issues))
  }

  /** The password's only requirement at login is its length. */
  lemma LoginPasswordLength(email: string, password: string, isEmail: string -> bool)
    requires EmailAccepted(Some(email), isEmail)
    ensures ValidateLogin(LoginInput(Some(email), Some(password)), isEmail).Valid? <==> |password| >= 6
  {
  }

  datatype RegisterInput = RegisterInput(name: Option<string>, email: Option<string>, password: Option<string>, confirmation: Option<string>)

  datatype Registration = Registration(name: string, email: string, password: string, confirmation: string)

  /** The `name` field passes: present and 1 to 100 characters. */
  predicate NameAccepted(name: Option<string>)
  {
    name.Some? && 1 <= |name.value| <= 100
  }

  /** The registration `password` passes: present, 6 to 255 characters, and `PasswordRule`. */
  predicate PasswordAccepted(password: Option<string>)
  {
    password.Some? && 6 <= |password.value| <= 255 && PasswordRule(password.value)
  }

  /** The `password_confirmation` field passes: present and non-empty. */
  predicate ConfirmationAccepted(confirmation: Option<string>)
  {
    confirmation.Some? && confirmation.value != ""
  }

  /** The registration form passes exactly when its four fields do and the confirmation equals the password. */
  predicate RegisterAccepted(input: RegisterInput, isEmail: string -> bool)
  {
    NameAccepted(input.name) && EmailAccepted(input.email, isEmail)
    && PasswordAccepted(input.password) && ConfirmationAccepted(input.confirmation)
    && input.password == input.confirmation
  }

  lemma {:induction false} NameProperty(name: Option<string>)
    ensures StringProperty("name", name, NameSteps).issues == [] <==> NameAccepted(name)
    ensures name.Some? ==> StringProperty("name", name, NameSteps).value == Some(Trim(name.value))
  {
    if name.Some? {
      PropertyClean("name", name.value, NameSteps);
      NameStepsClean(name.value);
    }
  }

  lemma NameStepsClean(s: string)
    ensures Messages(s, NameSteps) == [] <==> NameAccepted(Some(s))
    ensures Output(s, NameSteps) == Trim(s)
  {
    MinMaxTrim(s, 1, 100, NameRequired, NameTooLong);
  }

  lemma {:induction false} PasswordProperty(password: Option<string>)
    ensures StringProperty("password", password, PasswordSteps).issues == [] <==> PasswordAccepted(password)
    ensures password.Some? ==> StringProperty("password", password, PasswordSteps).value == password
  {
    if password.Some? {
      var s := password.value;
      PlainMessages(s, PasswordSteps);
      assert (forall i :: 0 <= i < |PasswordSteps| ==> !Fails(PasswordSteps[i], s))
        <==> !Fails(PasswordSteps[0], s) && !Fails(PasswordSteps[1], s) && !Fails(PasswordSteps[2], s);
    }
  }

  lemma {:induction false} ConfirmationProperty(confirmation: Option<string>)
    ensures StringProperty("password_confirmation", confirmation, ConfirmationSteps).issues == []
      <==> ConfirmationAccepted(confirmation)
    ensures confirmation.Some? ==>
      StringProperty("password_confirmation", confirmation, ConfirmationSteps).value == confirmation
  {
    if confirmation.Some? {
      PlainMessages(confirmation.value, ConfirmationSteps);
    }
  }

  /**
   * The refinement runs unless a property is missing (a missing property
   * aborts the object); it runs even when other checks failed.
   */
  function RefineIssues(input: RegisterInput): (r: seq<Issue>)
  {
    if input.name.Some? && input.email.Some? && input.password.Some? && input.confirmation.Some?
       && input.password.value != input.confirmation.value
    then [Issue(["password_confirmation"], Mismatch)]
    else []
  }

  /** The issues the registration schema reports: field by field in declaration order, then the mismatch from the refinement. */
  function RegisterIssues(input: RegisterInput, isEmail: string -> bool): seq<Issue>
  {
    StringProperty("name", input.name, NameSteps).issues
    + StringProperty("email", input.email, EmailSteps(isEmail)).issues
    + StringProperty("password", input.password, PasswordSteps).issues
    + StringProperty("password_confirmation", input.confirmation, ConfirmationSteps).issues
    + RefineIssues(input)
  }

  /** No issue is raised exactly when the registration data is acceptable. */
  lemma RegisterIssuesEmpty(input: RegisterInput, isEmail: string -> bool)
    ensures RegisterIssues(input, isEmail) == [] <==> RegisterAccepted(input, isEmail)
  {
    NameProperty(input.name);
    EmailProperty(input.email, isEmail);
    PasswordProperty(input.password);
    ConfirmationProperty(input.confirmation);
  }

  /**
   * `validateRegister(data)`: success exactly when every property holds and
   * the two passwords are equal; the name comes back trimmed and the e-mail
   * trimmed and lower-cased.
   */
  function ValidateRegister(input: RegisterInput, isEmail: string -> bool): (r: Validation<Registration>)
    ensures r.Valid? <==> RegisterAccepted(input, isEmail)
    ensures r.Valid? ==> r.data == Registration(Trim(input.name.value), Lower(Trim(input.email.value)),
                                                input.password.value, input.confirmation.value)
    ensures r.Invalid? ==> |r.errors| > 0 && r.errors == FieldErrors(RegisterIssues(input, isEmail))
  {
    RegisterIssuesEmpty(input, isEmail);
    var issues := RegisterIssues(input, isEmail);
    if issues == [] then
      Valid(Registration(Trim(input.name.value), Lower(Trim(input.email.value)),
                         input.password.value, input.confirmation.value))
    else Invalid(FieldErrors(issues))
  }

  /**
   * Passwords that differ are reported under `password_confirmation`, as
   * the last error, even when every other property is fine.
   */
  lemma MismatchReported(input: RegisterInput, isEmail: string -> bool)
    requires input.name.Some? && input.email.Some? && input.password.Some? && input.confirmation.Some?
    requires input.password.value != input.confirmation.value
    ensures ValidateRegister(input, isEmail).Invalid?
    ensures var errors := ValidateRegister(input, isEmail).errors;
      errors[|errors| - 1] == FieldError("password_confirmation", Mismatch)
  {
    var issues := RegisterIssues(input, isEmail);
    assert issues[|issues| - 1] == Issue(["password_confirmation"], Mismatch);
  }
}
