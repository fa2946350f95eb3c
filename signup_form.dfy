/** The client-side checks of the sign-up page (src/containers/Signup.jsx):
    the form validator, which fills an error dictionary by successive
    overwrites, the email pattern it applies, and the component state that
    the change and submit handlers update. */
module SignupForm {
  import opened JsValue
  import opened Http
  import opened Browser
  import opened AuthActions

  // ===========================================================================
  // Whitespace, trim and the email pattern
  // ===========================================================================

  /** The characters JavaScript's `\s` matches and `String.prototype.trim`
      removes: the white space and line terminator characters of section
      12.2 and 12.3 of ECMA-262, that is tab, line feed, vertical tab, form
      feed, carriage return, space, no-break space, the Unicode space
      separators, the line and paragraph separators and the byte order mark. */
  predicate IsWhitespace(c: char) {
    var n := c as int;
    (9 <= n <= 13) || n == 0x20 || n == 0xA0 || n == 0x1680 || (0x2000 <= n <= 0x200A)
    || n == 0x2028 || n == 0x2029 || n == 0x202F || n == 0x205F || n == 0x3000 || n == 0xFEFF
  }

  /** Every character is white space (the empty string included). */
  predicate Blank(s: string) {
    forall k :: 0 <= k < |s| ==> IsWhitespace(s[k])
  }

  /** Leading white space removed. */
  function TrimStart(s: string): (r: string)
    ensures |r| <= |s| && r == s[|s| - |r|..]
    ensures Blank(s[..|s| - |r|])
    ensures r == [] || !IsWhitespace(r[0])
    decreases |s|
  {
    if s != [] && IsWhitespace(s[0]) then
      var r := TrimStart(s[1..]);
      assert s[1..][..|s| - 1 - |r|] == s[1..|s| - |r|];
      r
    else s
  }

  /** Trailing white space removed. */
  function TrimEnd(s: string): (r: string)
    ensures |r| <= |s| && r == s[..|r|]
    ensures Blank(s[|r|..])
    ensures r == [] || !IsWhitespace(r[|r| - 1])
    decreases |s|
  {
    if s != [] && IsWhitespace(s[|s| - 1]) then
      var r := TrimEnd(s[..|s| - 1]);
      assert s[..|s| - 1][|r|..] == s[|r|..|s| - 1];
      r
    else s
  }

  /** `s.trim()`. */
  function Trim(s: string): (t: string) {
    TrimEnd(TrimStart(s))
  }

  lemma BlankWhenTrimmedEmpty(s: string)
    requires Trim(s) == ""
    ensures Blank(s)
  {
    var t := TrimStart(s);
    assert t[0..] == t;
    assert t == [];
    assert s[..|s|] == s;
  }

  lemma SuffixOfBlankIsBlank(s: string, n: nat)
    requires Blank(s) && n <= |s|
    ensures Blank(s[n..])
  {
    forall k | 0 <= k < |s| - n
      ensures IsWhitespace(s[n..][k])
    {
      assert s[n..][k] == s[n + k];
    }
  }

  lemma TrimmedEmptyWhenBlank(s: string)
    requires Blank(s)
    ensures Trim(s) == ""
  {
    var t := TrimStart(s);
    SuffixOfBlankIsBlank(s, |s| - |t|);
    assert t == [];
  }

  /** `!s.trim()`: the trimmed string is empty exactly when the whole string
      is white space. */
  lemma TrimEmptyIffBlank(s: string)
    ensures Trim(s) == "" <==> Blank(s)
  {
    if Trim(s) == "" {
      BlankWhenTrimmedEmpty(s);
    }
    if Blank(s) {
      TrimmedEmptyWhenBlank(s);
    }
  }

  /** `!s.trim()`. */
  function TrimsToEmpty(s: string): (b: bool)
    ensures b <==> Blank(s)
  {
    TrimEmptyIffBlank(s);
    Trim(s) == ""
  }

  /** A character the pattern's `[^\s@]` class accepts. */
  predicate Plain(c: char) {
    !IsWhitespace(c) && c != '@'
  }

  predicate AllPlain(s: string) {
    forall k :: 0 <= k < |s| ==> Plain(s[k])
  }

  /** `s` splits at `i` and `j` into a non-empty local part, `@`, a non-empty
      run, `.`, and a non-empty run, none of the three parts holding white
      space or `@`. */
  predicate EmailSplit(s: string, i: int, j: int) {
    0 < i && i + 1 < j && j + 1 < |s| && s[i] == '@' && s[j] == '.'
    && AllPlain(s[..i]) && AllPlain(s[i + 1..j]) && AllPlain(s[j + 1..])
  }

  /** `/^[^\s@]+@[^\s@]+\.[^\s@]+$/.test(s)`. */
  predicate EmailPatternMatches(s: string) {
    exists i, j | 0 <= i < |s| && 0 <= j < |s| :: EmailSplit(s, i, j)
  }

  /** The pattern in plain terms: no white space, exactly one `@` and it is
      not the first character, and a `.` in the domain (after the `@`) that
      is neither the domain's first nor its last character. */
  lemma EmailPatternCharacterization(s: string)
    ensures EmailPatternMatches(s) <==>
      (forall k :: 0 <= k < |s| ==> !IsWhitespace(s[k]))
      && exists i :: 0 < i < |s| && s[i] == '@'
           && (forall k :: 0 <= k < |s| && k != i ==> s[k] != '@')
           && (exists j :: i + 1 < j < |s| - 1 && s[j] == '.')
  {
    if EmailPatternMatches(s) {
      var i, j :| 0 <= i < |s| && 0 <= j < |s| && EmailSplit(s, i, j);
      assert 0 < i && i + 1 < j && j + 1 < |s| && s[i] == '@' && s[j] == '.';
      forall k | 0 <= k < |s| && k != i
        ensures Plain(s[k]) || k == j
      {
        if k < i { assert s[k] == s[..i][k]; }
        else if k < j { assert s[k] == s[i + 1..j][k - i - 1]; }
        else if k > j { assert s[k] == s[j + 1..][k - j - 1]; }
      }
      assert s[j] != '@';
    }
    if (forall k :: 0 <= k < |s| ==> !IsWhitespace(s[k]))
      && exists i :: 0 < i < |s| && s[i] == '@'
           && (forall k :: 0 <= k < |s| && k != i ==> s[k] != '@')
           && (exists j :: i + 1 < j < |s| - 1 && s[j] == '.')
    {
      var i :| 0 < i < |s| && s[i] == '@'
           && (forall k :: 0 <= k < |s| && k != i ==> s[k] != '@')
           && (exists j :: i + 1 < j < |s| - 1 && s[j] == '.');
      var j :| i + 1 < j < |s| - 1 && s[j] == '.';
      assert AllPlain(s[..i]);
      assert AllPlain(s[i + 1..j]);
      assert AllPlain(s[j + 1..]);
      assert EmailSplit(s, i, j);
    }
  }

  // ===========================================================================
  // The validator
  // ===========================================================================

  const PasswordMismatch := "Passwords do not match"
  const PasswordTooShort := "Password must be at least 8 characters long"
  const FirstNameRequired := "First name is required"
  const LastNameRequired := "Last name is required"
  const EmailRequired := "Email is required"
  const PasswordRequired := "Password is required"
  const EmailInvalid := "Please enter a valid email address"

  /** The form's five inputs. */
  datatype Fields = Fields(firstName: string, lastName: string, email: string, password: string, rePassword: string)
  {
    /** `{ ...formData, [name]: value }` for the inputs the form has; a name
        no input carries adds a key that nothing reads. */
    function With(name: string, value: string): (f: Fields)
      ensures name == "first_name" ==> f == this.(firstName := value)
      ensures name == "last_name" ==> f == this.(lastName := value)
      ensures name == "email" ==> f == this.(email := value)
      ensures name == "password" ==> f == this.(password := value)
      ensures name == "re_password" ==> f == this.(rePassword := value)
      ensures name !in {"first_name", "last_name", "email", "password", "re_password"} ==> f == this
    {
      match name
      case "first_name" => this.(firstName := value)
      case "last_name" => this.(lastName := value)
      case "email" => this.(email := value)
      case "password" => this.(password := value)
      case "re_password" => this.(rePassword := value)
      case _ => this
    }
  }

  const EmptyFields := Fields("", "", "", "", "")

  /** The password error, by priority: length first, then mismatch. */
  function PasswordError(f: Fields): (e: Option<string>) {
    if |f.password| < 8 then Some(PasswordTooShort)
    else if f.password != f.rePassword then Some(PasswordMismatch)
    else None
  }

  /** The first blank field among first name, last name, email and password. */
  function RequiredError(f: Fields): (e: Option<string>) {
    if Blank(f.firstName) then Some(FirstNameRequired)
    else if Blank(f.lastName) then Some(LastNameRequired)
    else if Blank(f.email) then Some(EmailRequired)
    else if Blank(f.password) then Some(PasswordRequired)
    else None
  }

  /** `formData.email && !emailRegex.test(formData.email)`. */
  predicate EmailRejected(email: string) {
    email != "" && !EmailPatternMatches(email)
  }

  /** The general error, by priority: a malformed non-empty email, then the
      first blank field. */
  function GeneralError(f: Fields): (e: Option<string>) {
    if EmailRejected(f.email) then Some(EmailInvalid)
    else RequiredError(f)
  }

  /** The error dictionary, as a priority-based reference definition. */
  function ValidationErrors(f: Fields): (errors: map<string, string>) {
    var p := PasswordError(f);
    var g := GeneralError(f);
    var m: map<string, string> := if p.Some? then map["password" := p.value] else map[];
    if g.Some? then m["general" := g.value] else m
  }

  /** `validateForm()`: successive assignments into `errors`, later ones
      overwriting earlier ones. */
  method ValidateForm(f: Fields) returns (errors: map<string, string>)
    ensures errors == ValidationErrors(f)
  {
    errors := map[];
    if f.password != f.rePassword {
      errors := errors["password" := PasswordMismatch];
    }
    if |f.password| < 8 {
      errors := errors["password" := PasswordTooShort];
    }
    ghost var passwordPart := errors;
    assert passwordPart == if PasswordError(f).Some? then map["password" := PasswordError(f).value] else map[];
    if TrimsToEmpty(f.firstName) {
      errors := errors["general" := FirstNameRequired];
    } else if TrimsToEmpty(f.lastName) {
      errors := errors["general" := LastNameRequired];
    } else if TrimsToEmpty(f.email) {
      errors := errors["general" := EmailRequired];
    } else if TrimsToEmpty(f.password) {
      errors := errors["general" := PasswordRequired];
    }
    ghost var requiredPart := errors;
    assert requiredPart == if RequiredError(f).Some? then passwordPart["general" := RequiredError(f).value] else passwordPart;
    if EmailRejected(f.email) {
      errors := errors["general" := EmailInvalid];
      if RequiredError(f).Some? {
        OverwriteKey(passwordPart, "general", RequiredError(f).value, EmailInvalid);
      }
    }
    ghost var g := GeneralError(f);
    assert g.Some? ==> errors == passwordPart["general" := g.value];
    assert g.None? ==> errors == passwordPart;
  }

  /** A second write to a key replaces the first. */
  lemma OverwriteKey(m: map<string, string>, k: string, a: string, b: string)
    ensures m[k := a][k := b] == m[k := b]
  {
  }

  /** The form is accepted exactly when the passwords match, are at least 8
      characters long, no field is blank and the email matches the pattern. */
  lemma ValidIffAllChecksPass(f: Fields)
    ensures ValidationErrors(f) == map[] <==>
      f.password == f.rePassword && |f.password| >= 8
      && !Blank(f.firstName) && !Blank(f.lastName) && !Blank(f.email) && !Blank(f.password)
      && EmailPatternMatches(f.email)
  {
    if PasswordError(f).Some? || GeneralError(f).Some? {
      FailedCheckIsReported(f);
    }
    if EmailPatternMatches(f.email) {
      assert f.email != "";
    }
  }

  lemma FailedCheckIsReported(f: Fields)
    requires PasswordError(f).Some? || GeneralError(f).Some?
    ensures ValidationErrors(f) != map[]
  {
    if GeneralError(f).Some? {
      assert "general" in ValidationErrors(f);
    } else {
      assert "password" in ValidationErrors(f);
    }
  }

  /** The error dictionary only ever holds `password` and `general`, each
      with the message of the highest-priority failed check. */
  lemma ErrorKeysAndMessages(f: Fields)
    ensures ValidationErrors(f).Keys <= {"password", "general"}
    ensures "password" in ValidationErrors(f) <==> |f.password| < 8 || f.password != f.rePassword
    ensures |f.password| < 8 ==> ValidationErrors(f)["password"] == PasswordTooShort
    ensures |f.password| >= 8 && f.password != f.rePassword ==> ValidationErrors(f)["password"] == PasswordMismatch
    ensures f.email != "" && !EmailPatternMatches(f.email) ==> ValidationErrors(f)["general"] == EmailInvalid
  {
  }

  /** An all-space password of 8 or more characters passes the length and
      match checks but is reported as missing. */
  lemma SpacePasswordIsRequired(first: string, last: string, email: string, n: nat)
    requires n >= 8 && !Blank(first) && !Blank(last) && EmailPatternMatches(email)
    ensures var pw := seq(n, _ => ' ');
      ValidationErrors(Fields(first, last, email, pw, pw)) == map["general" := PasswordRequired]
  {
    var pw := seq(n, _ => ' ');
    assert !IsWhitespace(email[0]) by {
      var i, j :| 0 <= i < |email| && 0 <= j < |email| && EmailSplit(email, i, j);
      assert email[0] == email[..i][0];
    }
    assert Blank(pw);
  }

  /** The required-field message names the first blank field only. */
  lemma FirstBlankFieldIsNamed(f: Fields)
    requires f.email == "" || EmailPatternMatches(f.email)
    ensures Blank(f.firstName) ==> ValidationErrors(f)["general"] == FirstNameRequired
    ensures !Blank(f.firstName) && Blank(f.lastName) ==> ValidationErrors(f)["general"] == LastNameRequired
    ensures !Blank(f.firstName) && !Blank(f.lastName) && Blank(f.email)
      ==> ValidationErrors(f)["general"] == EmailRequired
  {
  }

  // ===========================================================================
  // The component state
  // ===========================================================================

  /** The part of the page's state the handlers change, and the store and
      network the signup action it dispatches acts on. */
  class Form {
    const env: Env
    var formData: Fields
    var formErrors: map<string, string>
    var isLoading: bool
    var accountCreated: bool

    constructor (env: Env)
      ensures this.env == env
      ensures formData == EmptyFields && formErrors == map["password" := "", "general" := ""]
      ensures !isLoading && !accountCreated
    {
      this.env := env;
      formData := EmptyFields;
      formErrors := map["password" := "", "general" := ""];
      isLoading := false;
      accountCreated := false;
    }

    /** `formErrors.general` is truthy. */
    predicate ShowsGeneralError()
      reads this
    {
      "general" in formErrors && formErrors["general"] != ""
    }

    /** `onChange`: store the new value of the named input, clear the
        password error when a password input changed, and clear the general
        error when one was shown. */
    method OnChange(name: string, value: string)
      modifies this
      ensures formData == old(formData).With(name, value)
      ensures name == "password" || name == "re_password" ==> "password" in formErrors && formErrors["password"] == ""
      ensures name != "password" && name != "re_password"
        ==> ("password" in formErrors <==> "password" in old(formErrors))
      ensures name != "password" && name != "re_password" && "password" in old(formErrors)
        ==> formErrors["password"] == old(formErrors)["password"]
      ensures old(ShowsGeneralError()) ==> "general" in formErrors && formErrors["general"] == ""
      ensures !old(ShowsGeneralError()) ==> ("general" in formErrors <==> "general" in old(formErrors))
      ensures forall k :: k in old(formErrors) && k != "password" && k != "general" ==> k in formErrors && formErrors[k] == old(formErrors)[k]
      ensures formErrors.Keys <= old(formErrors).Keys + {"password", "general"}
      ensures !ShowsGeneralError()
      ensures isLoading == old(isLoading) && accountCreated == old(accountCreated)
    {
      var shown := ShowsGeneralError();
      formData := formData.With(name, value);
      if name == "password" || name == "re_password" {
        formErrors := formErrors["password" := ""];
      }
      if shown {
        formErrors := formErrors["general" := ""];
      }
    }

    /** `onSubmit`: validate; on errors show them and stop, otherwise run the
        signup action with the five inputs and record whether it succeeded. */
    method OnSubmit()
      modifies this, env
      ensures formData == old(formData)
      ensures ValidationErrors(old(formData)) != map[] ==>
        formErrors == ValidationErrors(old(formData))
        && env.View() == old(env.View())
        && isLoading == old(isLoading) && accountCreated == old(accountCreated)
      ensures ValidationErrors(old(formData)) == map[] ==>
        var f := old(formData);
        var (w, c) := SignupSpec(old(env.View()), f.firstName, f.lastName, f.email, f.password, f.rePassword);
        env.View() == w
        && formErrors == map["password" := "", "general" := ""]
        && !isLoading
        && accountCreated == (old(accountCreated) || !c.Threw?)
    {
      formErrors := map["password" := "", "general" := ""];
      var errors := ValidateForm(formData);
      if errors != map[] {
        formErrors := errors;
        return;
      }
      isLoading := true;
      var f := formData;
      var c := Signup(env, f.firstName, f.lastName, f.email, f.password, f.rePassword);
      if !c.Threw? {
        accountCreated := true;
      }
      isLoading := false;
    }
  }

  /** The submit gate: a form whose validation fails never reaches the
      server, and the one that passes sends its five inputs to the users
      endpoint as the registration body. */
  lemma SubmitGate(w: World, f: Fields)
    ensures ValidationErrors(f) == map[] ==>
      var (w', _) := SignupSpec(w, f.firstName, f.lastName, f.email, f.password, f.rePassword);
      |w'.requests| == |w.requests| + 1
      && w'.requests[|w.requests|].endpoint == Users
      && w'.requests[|w.requests|].body
         == map["first_name" := Str(f.firstName), "last_name" := Str(f.lastName), "email" := Str(f.email),
                "password" := Str(f.password), "re_password" := Str(f.rePassword)]
      && f.password == f.rePassword && |f.password| >= 8
  {
    ValidIffAllChecksPass(f);
  }
}
