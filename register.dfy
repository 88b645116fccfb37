/** The registration form: its four fields, the validator that fills the
    error map field by field, and the submit guard that posts nothing for
    an invalid form. */
module Register {
  import opened JsText

  const NameRequired := "Full name is required"
  const NameTooShort := "Name must be at least 3 characters"
  const EmailRequired := "Email is required"
  const EmailInvalid := "Invalid email address"
  const PasswordRequired := "Password is required"
  const PasswordTooShort := "Password must be at least 6 characters"

  const MinNameLength: nat := 3
  const MinPasswordLength: nat := 6

  /** The keys of the error map. */
  const NameKey := "name"
  const EmailKey := "email"
  const PasswordKey := "password"

  lemma KeysDistinct()
    ensures NameKey != EmailKey && NameKey != PasswordKey && EmailKey != PasswordKey
  {
    assert NameKey[0] == 'n' && EmailKey[0] == 'e' && PasswordKey[0] == 'p';
  }

  datatype Field = NameField | EmailField | PasswordField | RoleField

  datatype FormData = FormData(name: string, email: string, password: string, role: string)

  const InitialForm := FormData("", "", "", "USER")

  /** One match of `\S+@\S+\.\S+` with its '@' at `at` and its '.' at
      `dot`: a non-space before the '@', a non-empty run of non-spaces up
      to the '.', and a non-space after it. */
  predicate EmailMatchAt(s: string, at: int, dot: int) {
    && 1 <= at && at + 1 < dot && dot + 1 < |s|
    && !IsSpace(s[at - 1]) && s[at] == '@' && s[dot] == '.' && !IsSpace(s[dot + 1])
    && forall k | at < k < dot :: !IsSpace(s[k])
  }

  /** `/\S+@\S+\.\S+/.test(s)`: the pattern is not anchored, so a match
      anywhere in the text is enough. */
  predicate EmailMatches(s: string) {
    exists at, dot | 0 <= at < dot < |s| :: EmailMatchAt(s, at, dot)
  }

  /** Text around a match does not undo it. */
  lemma EmailMatchesInside(p: string, s: string, q: string)
    requires EmailMatches(s)
    ensures EmailMatches(p + s + q)
  {
    var at, dot :| 0 <= at < dot < |s| && EmailMatchAt(s, at, dot);
    var t := p + s + q;
    assert forall k | 0 <= k < |s| :: t[|p| + k] == s[k];
    assert EmailMatchAt(t, |p| + at, |p| + dot);
  }

  /** Any match needs at least five characters: "a@b.c" is the shortest. */
  lemma EmailMatchLength(s: string)
    requires EmailMatches(s)
    ensures |s| >= 5 && '@' in s && '.' in s
  {
    var at, dot :| 0 <= at < dot < |s| && EmailMatchAt(s, at, dot);
    assert s[at] == '@' && s[dot] == '.';
  }

  lemma ShortestEmail()
    ensures EmailMatches("a@b.c")
    ensures !EmailMatches("a@b") && !EmailMatches("ab.c")
  {
    assert EmailMatchAt("a@b.c", 1, 3);
    if EmailMatches("ab.c") {
      EmailMatchLength("ab.c");
    }
    if EmailMatches("a@b") {
      EmailMatchLength("a@b");
    }
  }

  function NameError(name: string): Option<string>
  {
    if |Trim(name)| == 0 then Some(NameRequired)
    else if |Trim(name)| < MinNameLength then Some(NameTooShort)
    else None
  }

  function EmailError(email: string): Option<string>
  {
    if |email| == 0 then Some(EmailRequired)
    else if !EmailMatches(email) then Some(EmailInvalid)
    else None
  }

  function PasswordError(password: string): Option<string>
  {
    if |password| == 0 then Some(PasswordRequired)
    else if |password| < MinPasswordLength then Some(PasswordTooShort)
    else None
  }

  /** `m` with `key` bound to the message when there is one. */
  function WithError(m: map<string, string>, key: string, e: Option<string>): map<string, string> {
    if e.Some? then m[key := e.value] else m
  }

  /** The error map validateForm builds. */
  function FormErrors(f: FormData): map<string, string> {
    WithError(WithError(WithError(map[], NameKey, NameError(f.name)), EmailKey, EmailError(f.email)),
      PasswordKey, PasswordError(f.password))
  }

  /** Each field has at most one message: the name's when its trimmed text
      is empty or shorter than 3, the email's when it is empty or does not
      match, the password's when it is empty or shorter than 6. */
  lemma FormErrorsFields(f: FormData)
    ensures FormErrors(f).Keys <= {NameKey, EmailKey, PasswordKey}
    ensures NameKey in FormErrors(f) <==> |Trim(f.name)| < MinNameLength
    ensures NameKey in FormErrors(f) ==>
      FormErrors(f)[NameKey] == if |Trim(f.name)| == 0 then NameRequired else NameTooShort
    ensures EmailKey in FormErrors(f) <==> !EmailMatches(f.email)
    ensures EmailKey in FormErrors(f) ==>
      FormErrors(f)[EmailKey] == if |f.email| == 0 then EmailRequired else EmailInvalid
    ensures PasswordKey in FormErrors(f) <==> |f.password| < MinPasswordLength
    ensures PasswordKey in FormErrors(f) ==>
      FormErrors(f)[PasswordKey] == if |f.password| == 0 then PasswordRequired else PasswordTooShort
  {
    KeysDistinct();
    if |f.email| == 0 {
      assert !EmailMatches(f.email);
    }
  }

  /** The form is valid exactly when the trimmed name has three characters,
      the email matches the pattern and the password has six. */
  lemma FormValidIff(f: FormData)
    ensures FormErrors(f) == map[] <==>
      |Trim(f.name)| >= MinNameLength && EmailMatches(f.email) && |f.password| >= MinPasswordLength
  {
    var errors := FormErrors(f);
    FormErrorsFields(f);
    if |Trim(f.name)| >= MinNameLength && EmailMatches(f.email) && |f.password| >= MinPasswordLength {
      assert errors.Keys == {};
    } else if |Trim(f.name)| < MinNameLength {
      assert NameKey in errors;
    } else if !EmailMatches(f.email) {
      assert EmailKey in errors;
    } else {
      assert PasswordKey in errors;
    }
  }

  lemma InitialNameError() ensures NameError(InitialForm.name) == Some(NameRequired) { TrimEmpty(""); }
  lemma InitialEmailError() ensures EmailError(InitialForm.email) == Some(EmailRequired) { }
  lemma InitialPasswordError() ensures PasswordError(InitialForm.password) == Some(PasswordRequired) { }

  /** The freshly opened form is invalid on all three fields. */
  lemma InitialFormErrors()
    ensures FormErrors(InitialForm) == map[NameKey := NameRequired, EmailKey := EmailRequired, PasswordKey := PasswordRequired]
  {
    InitialNameError();
    InitialEmailError();
    InitialPasswordError();
  }

  /** The name rule of validateForm: adds at most the name's message. */
  method CheckName(m: map<string, string>, name: string) returns (r: map<string, string>)
    ensures r == WithError(m, NameKey, NameError(name))
  {
    r := m;
    var trimmed := Trim(name);
    if |trimmed| == 0 {
      r := r[NameKey := NameRequired];
    } else if |trimmed| < MinNameLength {
      r := r[NameKey := NameTooShort];
    }
  }

  /** The email rule of validateForm. */
  method CheckEmail(m: map<string, string>, email: string) returns (r: map<string, string>)
    ensures r == WithError(m, EmailKey, EmailError(email))
  {
    r := m;
    if |email| == 0 {
      r := r[EmailKey := EmailRequired];
    } else if !EmailMatches(email) {
      r := r[EmailKey := EmailInvalid];
    }
  }

  /** The password rule of validateForm. */
  method CheckPassword(m: map<string, string>, password: string) returns (r: map<string, string>)
    ensures r == WithError(m, PasswordKey, PasswordError(password))
  {
    r := m;
    if |password| == 0 {
      r := r[PasswordKey := PasswordRequired];
    } else if |password| < MinPasswordLength {
      r := r[PasswordKey := PasswordTooShort];
    }
  }

  /** `Object.keys(m).length === 0` exactly for the empty map. */
  lemma NoKeysIsEmpty(m: map<string, string>)
    ensures |m.Keys| == 0 <==> m == map[]
  {
    if |m.Keys| == 0 {
      assert m.Keys == {};
    }
  }

  /** The body of the registration request. */
  datatype RegisterRequest = RegisterRequest(form: FormData)

  class RegisterPage {
    var form: FormData
    var errors: map<string, string>

    constructor ()
      ensures form == InitialForm && errors == map[]
    {
      form := InitialForm;
      errors := map[];
    }

    /** handleChange: only the named field takes the new value. */
    method HandleChange(field: Field, value: string)
      modifies this
      ensures form == match field
        case NameField => old(form).(name := value)
        case EmailField => old(form).(email := value)
        case PasswordField => old(form).(password := value)
        case RoleField => old(form).(role := value)
      ensures errors == old(errors)
    {
      match field
      case NameField => form := form.(name := value);
      case EmailField => form := form.(email := value);
      case PasswordField => form := form.(password := value);
      case RoleField => form := form.(role := value);
    }

    /** validateForm: fills a fresh error map field by field, stores it and
        reports whether it is empty. */
    method ValidateForm() returns (valid: bool)
      modifies this
      ensures errors == FormErrors(form) && form == old(form)
      ensures valid <==> errors == map[]
    {
      var newErrors: map<string, string> := map[];
      newErrors := CheckName(newErrors, form.name);
      newErrors := CheckEmail(newErrors, form.email);
      newErrors := CheckPassword(newErrors, form.password);
      errors := newErrors;
      NoKeysIsEmpty(newErrors);
      valid := |newErrors.Keys| == 0;
    }

    /** handleSubmit: an invalid form stops before the request; a valid one
        posts the form as it is. */
    method HandleSubmit() returns (request: Option<RegisterRequest>)
      modifies this
      ensures form == old(form) && errors == FormErrors(form)
      ensures request.Some? <==> errors == map[]
      ensures request.Some? ==> request.value == RegisterRequest(form)
    {
      var valid := ValidateForm();
      if !valid {
        return None;
      }
      return Some(RegisterRequest(form));
    }
  }

  /** Filling the form with a three-letter name, a matching email and a
      six-character password and submitting posts exactly what was typed. */
  method FillAndSubmit(page: RegisterPage, name: string, email: string, password: string)
      returns (request: Option<RegisterRequest>)
    requires |Trim(name)| >= MinNameLength && EmailMatches(email) && |password| >= MinPasswordLength
    modifies page
    ensures request.Some? && request.value.form.name == name && request.value.form.email == email
    ensures request.value.form.password == password && page.errors == map[]
  {
    page.HandleChange(NameField, name);
    page.HandleChange(EmailField, email);
    page.HandleChange(PasswordField, password);
    FormValidIff(page.form);
    request := page.HandleSubmit();
  }
}
