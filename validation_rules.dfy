/**
 * The form validation rules: zod string schemas as lists of failed checks
 * (each failed check contributes its message, in declaration order), the
 * login and register object schemas as lists of issues tagged with the
 * field they belong to, and the validators that group those messages by
 * field.
 */
module ValidationRules {
  import opened Js

  const CedulaRequired := "El cedula es requerido"
  const CedulaTooLong := "El cedula no puede exceder 10 caracteres"
  const PasswordTooShort := "La contraseña debe tener al menos 8 caracteres"
  const PasswordTooLong := "La contraseña no puede exceder 128 caracteres"
  const PasswordTooWeak := "La contraseña debe contener al menos una minúscula, una mayúscula y un número"
  const FirstNameRequired := "El nombre es requerido"
  const FirstNameTooLong := "El nombre no puede exceder 50 caracteres"
  const FirstNameBadChars := "El nombre solo puede contener letras y espacios"
  const LastNameRequired := "El apellido es requerido"
  const LastNameTooLong := "El apellido no puede exceder 50 caracteres"
  const LastNameBadChars := "El apellido solo puede contener letras y espacios"
  const LoginPasswordRequired := "La contraseña es requerida"
  const ConfirmRequired := "Confirma tu contraseña"
  const PasswordsDiffer := "Las contraseñas no coinciden"

  /** One zod check: no issue when it holds, its message when it fails. */
  function Check(holds: bool, message: string): seq<string> {
    if holds then [] else [message]
  }

  // ----- cedula ---------------------------------------------------------

  function CedulaIssues(s: string): seq<string> {
    Check(|s| >= 1, CedulaRequired) + Check(|s| <= 10, CedulaTooLong)
  }

  predicate CedulaAcceptable(s: string) {
    1 <= |s| <= 10
  }

  // ----- password -------------------------------------------------------

  datatype CharClass = Lower | Upper | Digit

  predicate InClass(c: char, cls: CharClass) {
    match cls
    case Lower => 'a' <= c <= 'z'
    case Upper => 'A' <= c <= 'Z'
    case Digit => '0' <= c <= '9'
  }

  /** What the lookahead `(?=.*[class])` anchored at the start decides: some
      character of the class occurs with no line terminator before it (`.`
      does not match a line terminator). */
  ghost predicate Lookahead(s: string, cls: CharClass) {
    exists j :: 0 <= j < |s| && InClass(s[j], cls) && NoLineBreakBefore(s, j)
  }

  ghost predicate NoLineBreakBefore(s: string, j: int)
    requires 0 <= j <= |s|
  {
    forall k :: 0 <= k < j ==> !IsLineTerminator(s[k])
  }

  /** A left-to-right scan that stops at the first line terminator. */
  function FirstLineHas(s: string, cls: CharClass): bool {
    if s == [] || IsLineTerminator(s[0]) then false
    else InClass(s[0], cls) || FirstLineHas(s[1..], cls)
  }

  lemma {:induction false} FirstLineHasIsLookahead(s: string, cls: CharClass)
    ensures FirstLineHas(s, cls) <==> Lookahead(s, cls)
  {
    if s == [] {
    } else if IsLineTerminator(s[0]) {
      assert !InClass(s[0], cls);
      forall j | 0 < j <= |s| ensures !NoLineBreakBefore(s, j) {
        assert IsLineTerminator(s[0]);
      }
    } else if InClass(s[0], cls) {
      assert NoLineBreakBefore(s, 0);
    } else {
      FirstLineHasIsLookahead(s[1..], cls);
      if Lookahead(s[1..], cls) {
        var j :| 0 <= j < |s[1..]| && InClass(s[1..][j], cls) && NoLineBreakBefore(s[1..], j);
        assert NoLineBreakBefore(s, j + 1) by {
          forall k | 0 <= k < j + 1 ensures !IsLineTerminator(s[k]) {
            if k > 0 { assert s[k] == s[1..][k - 1]; }
          }
        }
      }
      if Lookahead(s, cls) {
        var j :| 0 <= j < |s| && InClass(s[j], cls) && NoLineBreakBefore(s, j);
        assert j > 0;
        assert NoLineBreakBefore(s[1..], j - 1) by {
          forall k | 0 <= k < j - 1 ensures !IsLineTerminator(s[1..][k]) {
            assert s[1..][k] == s[k + 1];
          }
        }
        assert InClass(s[1..][j - 1], cls);
      }
    }
  }

  /** `/^(?=.*[a-z])(?=.*[A-Z])(?=.*\d)/` */
  function StrengthPattern(s: string): bool {
    FirstLineHas(s, Lower) && FirstLineHas(s, Upper) && FirstLineHas(s, Digit)
  }

  function PasswordIssues(s: string): seq<string> {
    Check(|s| >= 8, PasswordTooShort)
    + Check(|s| <= 128, PasswordTooLong)
    + Check(StrengthPattern(s), PasswordTooWeak)
  }

  ghost predicate PasswordAcceptable(s: string) {
    8 <= |s| <= 128 && Lookahead(s, Lower) && Lookahead(s, Upper) && Lookahead(s, Digit)
  }

  // ----- first and last name ---------------------------------------------

  /** The class `[a-zA-ZáéíóúÁÉÍÓÚñÑ\s]`. */
  predicate IsNameChar(c: char) {
    ('a' <= c <= 'z') || ('A' <= c <= 'Z')
    || c == '\U{E1}' || c == '\U{E9}' || c == '\U{ED}' || c == '\U{F3}' || c == '\U{FA}'
    || c == '\U{C1}' || c == '\U{C9}' || c == '\U{CD}' || c == '\U{D3}' || c == '\U{DA}'
    || c == '\U{F1}' || c == '\U{D1}'
    || IsJsWhitespace(c)
  }

  /** `/^[a-zA-ZáéíóúÁÉÍÓÚñÑ\s]+$/` */
  predicate NamePattern(s: string) {
    |s| >= 1 && forall i :: 0 <= i < |s| ==> IsNameChar(s[i])
  }

  function NameIssues(s: string, required: string, tooLong: string, badChars: string): seq<string> {
    Check(|s| >= 1, required) + Check(|s| <= 50, tooLong) + Check(NamePattern(s), badChars)
  }

  predicate NameAcceptable(s: string) {
    1 <= |s| <= 50 && forall i :: 0 <= i < |s| ==> IsNameChar(s[i])
  }

  lemma NameIssuesCharacterised(s: string, required: string, tooLong: string, badChars: string)
    ensures NameIssues(s, required, tooLong, badChars) == [] <==> NameAcceptable(s)
    ensures s == "" ==> NameIssues(s, required, tooLong, badChars) == [required, badChars]
  {
  }

  // ----- single-field validators -----------------------------------------

  datatype FieldResult = FieldResult(isValid: bool, errors: seq<string>)

  /** validateCedula */
  function ValidateCedula(s: string): (r: FieldResult)
    ensures r.isValid <==> CedulaAcceptable(s)
    ensures r.isValid ==> r.errors == []
    ensures !r.isValid ==> |r.errors| == 1
    ensures |s| == 0 ==> r.errors == [CedulaRequired]
    ensures |s| > 10 ==> r.errors == [CedulaTooLong]
  {
    var issues := CedulaIssues(s);
    if issues == [] then FieldResult(true, []) else FieldResult(false, issues)
  }

  /** validatePassword */
  function ValidatePassword(s: string): (r: FieldResult)
    ensures r.isValid <==> (8 <= |s| <= 128 && StrengthPattern(s))
    ensures r.isValid ==> r.errors == []
    ensures !r.isValid ==> 1 <= |r.errors| <= 2
    ensures !r.isValid ==> (PasswordTooShort in r.errors <==> |s| < 8)
    ensures !r.isValid ==> (PasswordTooLong in r.errors <==> |s| > 128)
    ensures !r.isValid ==> (PasswordTooWeak in r.errors <==> !StrengthPattern(s))
  {
    var issues := PasswordIssues(s);
    if issues == [] then FieldResult(true, []) else FieldResult(false, issues)
  }

  lemma ValidatePasswordMeansAcceptable(s: string)
    ensures ValidatePassword(s).isValid <==> PasswordAcceptable(s)
  {
    FirstLineHasIsLookahead(s, Lower);
    FirstLineHasIsLookahead(s, Upper);
    FirstLineHasIsLookahead(s, Digit);
  }

  // ----- form schemas -----------------------------------------------------

  /** A zod issue reduced to the first element of its path and its message. */
  datatype Issue = Issue(field: string, message: string)

  function Tag(field: string, messages: seq<string>): (r: seq<Issue>)
    ensures |r| == |messages|
    ensures forall i :: 0 <= i < |r| ==> r[i] == Issue(field, messages[i])
  {
    if messages == [] then [] else Tag(field, messages[..|messages| - 1]) + [Issue(field, messages[|messages| - 1])]
  }

  datatype LoginForm = LoginForm(cedula: string, password: string)

  datatype RegisterForm = RegisterForm(
    cedula: string, password: string, confirmPassword: string,
    firstName: string, lastName: string, phone: string, address: string)

  /** The issues of `loginFormSchema`, fields in shape order. */
  function LoginFormIssues(d: LoginForm): seq<Issue> {
    Tag("cedula", CedulaIssues(d.cedula))
    + Tag("password", Check(|d.password| >= 1, LoginPasswordRequired))
  }

  /** The issues of `registerFormSchema`: the five fields in shape order,
      then the refinement, which still runs when only string checks failed. */
  function RegisterFormIssues(d: RegisterForm): seq<Issue> {
    Tag("cedula", CedulaIssues(d.cedula))
    + Tag("password", PasswordIssues(d.password))
    + Tag("confirmPassword", Check(|d.confirmPassword| >= 1, ConfirmRequired))
    + Tag("firstName", NameIssues(d.firstName, FirstNameRequired, FirstNameTooLong, FirstNameBadChars))
    + Tag("lastName", NameIssues(d.lastName, LastNameRequired, LastNameTooLong, LastNameBadChars))
    + Tag("confirmPassword", Check(d.password == d.confirmPassword, PasswordsDiffer))
  }

  ghost predicate RegisterAcceptable(d: RegisterForm) {
    && CedulaAcceptable(d.cedula)
    && PasswordAcceptable(d.password)
    && |d.confirmPassword| >= 1
    && NameAcceptable(d.firstName)
    && NameAcceptable(d.lastName)
    && d.password == d.confirmPassword
  }

  lemma LoginFormIssuesEmpty(d: LoginForm)
    ensures LoginFormIssues(d) == [] <==> CedulaAcceptable(d.cedula) && |d.password| >= 1
  {
  }

  lemma RegisterFormIssuesEmpty(d: RegisterForm)
    ensures RegisterFormIssues(d) == [] <==> RegisterAcceptable(d)
  {
    ValidatePasswordMeansAcceptable(d.password);
    NameIssuesCharacterised(d.firstName, FirstNameRequired, FirstNameTooLong, FirstNameBadChars);
    NameIssuesCharacterised(d.lastName, LastNameRequired, LastNameTooLong, LastNameBadChars);
  }

  /** Phone and address are not part of the schema. */
  lemma RegisterIgnoresContactFields(d: RegisterForm, phone: string, address: string)
    ensures RegisterFormIssues(d.(phone := phone, address := address)) == RegisterFormIssues(d)
  {
  }

  /** Password strength is not checked at login: any non-empty password passes. */
  lemma LoginAcceptsWeakPassword(cedula: string, password: string)
    requires CedulaAcceptable(cedula) && password != ""
    ensures LoginFormIssues(LoginForm(cedula, password)) == []
  {
  }

  /** With every field acceptable on its own, a mismatch is the only issue. */
  lemma MismatchIsOnlyIssue(d: RegisterForm)
    requires CedulaAcceptable(d.cedula) && PasswordAcceptable(d.password)
    requires |d.confirmPassword| >= 1
    requires NameAcceptable(d.firstName) && NameAcceptable(d.lastName)
    requires d.password != d.confirmPassword
    ensures RegisterFormIssues(d) == [Issue("confirmPassword", PasswordsDiffer)]
  {
    ValidatePasswordMeansAcceptable(d.password);
    NameIssuesCharacterised(d.firstName, FirstNameRequired, FirstNameTooLong, FirstNameBadChars);
    NameIssuesCharacterised(d.lastName, LastNameRequired, LastNameTooLong, LastNameBadChars);
  }

  // ----- grouping by field ------------------------------------------------

  /** The messages filed under `field`, in issue order. */
  function MessagesFor(issues: seq<Issue>, field: string): seq<string> {
    if issues == [] then []
    else
      var last := issues[|issues| - 1];
      MessagesFor(issues[..|issues| - 1], field) + (if last.field == field then [last.message] else [])
  }

  /** `errors` is the dictionary built by the `forEach` over `issues`. */
  ghost predicate GroupsIssues(errors: map<string, seq<string>>, issues: seq<Issue>) {
    && (forall f :: f in errors <==> MessagesFor(issues, f) != [])
    && (forall f :: f in errors ==> errors[f] == MessagesFor(issues, f))
  }

  /** The loop of validateLoginForm/validateRegisterForm: for each issue,
      create the field's list if missing, then push the message. */
  method GroupByField(issues: seq<Issue>) returns (errors: map<string, seq<string>>)
    ensures forall f :: f in errors <==> MessagesFor(issues, f) != []
    ensures forall f :: f in errors ==> errors[f] == MessagesFor(issues, f)
  {
    errors := map[];
    var i := 0;
    while i < |issues|
      invariant 0 <= i <= |issues|
      invariant forall f :: f in errors <==> MessagesFor(issues[..i], f) != []
      invariant forall f :: f in errors ==> errors[f] == MessagesFor(issues[..i], f)
    {
      var e := issues[i];
      assert issues[..i + 1][..i] == issues[..i];
      if e.field !in errors {
        errors := errors[e.field := []];
      }
      errors := errors[e.field := errors[e.field] + [e.message]];
      i := i + 1;
    }
    assert issues[..i] == issues;
  }

  lemma {:induction false} MessagesForAppend(a: seq<Issue>, b: seq<Issue>, f: string)
    ensures MessagesFor(a + b, f) == MessagesFor(a, f) + MessagesFor(b, f)
    decreases |b|
  {
    if b == [] {
      assert a + b == a;
    } else {
      var b' := b[..|b| - 1];
      assert (a + b)[..|a + b| - 1] == a + b';
      MessagesForAppend(a, b', f);
    }
  }

  lemma {:induction false} MessagesForTag(field: string, messages: seq<string>, f: string)
    ensures MessagesFor(Tag(field, messages), f) == if field == f then messages else []
    decreases |messages|
  {
    if messages != [] {
      var t := Tag(field, messages);
      assert t[..|t| - 1] == Tag(field, messages[..|messages| - 1]);
      MessagesForTag(field, messages[..|messages| - 1], f);
    }
  }

  /** A grouping of a single issue is the one-entry dictionary. */
  lemma GroupsSingleIssue(errors: map<string, seq<string>>, field: string, message: string)
    requires GroupsIssues(errors, [Issue(field, message)])
    ensures errors == map[field := [message]]
  {
    assert MessagesFor([Issue(field, message)], field) == [message];
    forall f | f != field ensures f !in errors {
      assert MessagesFor([Issue(field, message)], f) == [];
    }
  }

  datatype FormResult = FormResult(isValid: bool, errors: map<string, seq<string>>)

  /** validateLoginForm */
  method ValidateLoginForm(d: LoginForm) returns (r: FormResult)
    ensures r.isValid <==> CedulaAcceptable(d.cedula) && |d.password| >= 1
    ensures r.isValid ==> r.errors == map[]
    ensures !r.isValid ==> GroupsIssues(r.errors, LoginFormIssues(d))
    ensures !r.isValid ==> forall f :: f in r.errors ==> r.errors[f] != []
    ensures !r.isValid ==> r.errors.Keys <= {"cedula", "password"}
  {
    var issues := LoginFormIssues(d);
    LoginFormIssuesEmpty(d);
    if issues == [] {
      r := FormResult(true, map[]);
    } else {
      var errors := GroupByField(issues);
      forall f | f !in {"cedula", "password"} ensures f !in errors {
        MessagesForAppend(Tag("cedula", CedulaIssues(d.cedula)), Tag("password", Check(|d.password| >= 1, LoginPasswordRequired)), f);
        MessagesForTag("cedula", CedulaIssues(d.cedula), f);
        MessagesForTag("password", Check(|d.password| >= 1, LoginPasswordRequired), f);
      }
      r := FormResult(false, errors);
    }
  }

  /** validateRegisterForm */
  method ValidateRegisterForm(d: RegisterForm) returns (r: FormResult)
    ensures r.isValid <==> RegisterAcceptable(d)
    ensures r.isValid ==> r.errors == map[]
    ensures !r.isValid ==> GroupsIssues(r.errors, RegisterFormIssues(d))
    ensures !r.isValid ==> forall f :: f in r.errors ==> r.errors[f] != []
  {
    var issues := RegisterFormIssues(d);
    RegisterFormIssuesEmpty(d);
    if issues == [] {
      r := FormResult(true, map[]);
    } else {
      var errors := GroupByField(issues);
      r := FormResult(false, errors);
    }
  }

  /** The mismatch message alone, filed under confirmPassword. */
  lemma MismatchGrouped(d: RegisterForm, errors: map<string, seq<string>>)
    requires CedulaAcceptable(d.cedula) && PasswordAcceptable(d.password)
    requires |d.confirmPassword| >= 1
    requires NameAcceptable(d.firstName) && NameAcceptable(d.lastName)
    requires d.password != d.confirmPassword
    requires GroupsIssues(errors, RegisterFormIssues(d))
    ensures errors == map["confirmPassword" := [PasswordsDiffer]]
  {
    MismatchIsOnlyIssue(d);
    GroupsSingleIssue(errors, "confirmPassword", PasswordsDiffer);
  }
}
