/** The login form (`LoginScreen.jsx`): the redirect target read from the
    query string, the two field rules, the form-valid predicate, and the
    form state the change and submit handlers update. */
module LoginScreen {
  import opened Wrappers
  import opened Text
  import opened Json
  import opened FormRules
  import UserActions

  // ---------------------------------------------------------------------
  // The redirect target
  // ---------------------------------------------------------------------

  /** `location.search ? location.search.split("=")[1] : "/"`: `None` is
      `undefined`, when the query string holds no `=`. */
  function Redirect(search: string): Option<string> {
    if search == "" then Some("/")
    else
      var parts := Split(search, '=');
      if |parts| >= 2 then Some(parts[1]) else None
  }

  /** The target is the text between the first `=` and the next one (or
      the end). */
  lemma RedirectTarget(pre: string, target: string, tail: string)
    requires '=' !in pre && '=' !in target
    requires tail == "" || tail[0] == '='
    ensures Redirect(pre + "=" + target + tail) == Some(target)
  {
    var s := pre + "=" + target + tail;
    var parts: seq<string>;
    if tail == "" {
      parts := [pre, target];
      assert Join(parts, '=') == pre + "=" + target;
    } else {
      var q := Split(tail[1..], '=');
      parts := [pre, target] + q;
      assert parts[1..] == [target] + q;
      assert Join([target] + q, '=') == target + "=" + tail[1..];
      assert tail == "=" + tail[1..];
    }
    assert Join(parts, '=') == s;
    SplitUnique(parts, '=');
  }

  /** A query string without `=` gives `undefined`. */
  lemma RedirectMissing(search: string)
    requires search != "" && '=' !in search
    ensures Redirect(search) == None
  {
    SplitNoSep(search, '=');
  }

  // ---------------------------------------------------------------------
  // The field rules
  // ---------------------------------------------------------------------

  const BadEmail := "Invalid email format."
  const ShortPassword := "Password must be at least 6 characters."

  /** `validateField`'s error for `name`: `""` when there is none. */
  function FieldError(name: string, value: string): (r: string)
    ensures r != "" ==> r == BadEmail || r == ShortPassword
  {
    if name == "email" && !MatchesEmailPattern(value) then BadEmail
    else if name == "password" && Utf16Length(value) < 6 then ShortPassword
    else ""
  }

  /** An email must have the email shape; a password must be at least 6
      UTF-16 code units long, with no rule on its characters; any other
      field has no error. */
  lemma FieldErrorRules(name: string, value: string)
    ensures name == "email" ==> (FieldError(name, value) == "" <==> IsEmailShape(value))
    ensures name == "password" ==> (FieldError(name, value) == "" <==> Utf16Length(value) >= 6)
    ensures name != "email" && name != "password" ==> FieldError(name, value) == ""
  {
    EmailPatternShape(value);
  }

  // ---------------------------------------------------------------------
  // The form state
  // ---------------------------------------------------------------------

  datatype Form = Form(values: map<string, string>, errors: map<string, string>)

  /** Both fields empty and no error shown. */
  function InitialForm(): Form {
    Form(map["email" := "", "password" := ""], map["email" := "", "password" := ""])
  }

  /** `handleChange`: store the value and record its field's error. */
  function Change(f: Form, name: string, value: string): Form {
    Form(f.values[name := value], f.errors[name := FieldError(name, value)])
  }

  /** `isFormValid`: no error recorded and no value blank after `trim`. */
  predicate FormValid(f: Form) {
    (forall k | k in f.errors :: f.errors[k] == "") && forall k | k in f.values :: !AllSpace(f.values[k])
  }

  /** What the handlers keep true: both fields exist, and a field holding
      anything has the error its value deserves. */
  predicate Checked(f: Form) {
    "email" in f.values && "password" in f.values
    && forall k | k in f.values && f.values[k] != "" :: k in f.errors && f.errors[k] == FieldError(k, f.values[k])
  }

  lemma InitialChecked()
    ensures Checked(InitialForm())
  {
  }

  /** `validateField` writes the edited field's error and no other, and
      every change keeps the form checked. */
  lemma ChangeChecked(f: Form, name: string, value: string)
    requires Checked(f)
    ensures Checked(Change(f, name, value))
    ensures forall k | k != name && k in f.errors ::
              k in Change(f, name, value).errors && Change(f, name, value).errors[k] == f.errors[k]
  {
    var g := Change(f, name, value);
    forall k | k in g.values && g.values[k] != "" ensures k in g.errors && g.errors[k] == FieldError(k, g.values[k]) {
      if k != name {
        assert g.values[k] == f.values[k];
      }
    }
  }

  /** A valid checked form holds a well-shaped email and a password of at
      least 6 code units. */
  lemma ValidMeansAccepted(f: Form)
    requires Checked(f) && FormValid(f)
    ensures IsEmailShape(f.values["email"]) && Utf16Length(f.values["password"]) >= 6
  {
    var e, p := f.values["email"], f.values["password"];
    assert e != "" && p != "" by {
      assert !AllSpace(e) && !AllSpace(p);
    }
    FieldErrorRules("email", e);
    FieldErrorRules("password", p);
  }

  /** The server's error is shown only once the form has been submitted. */
  predicate ShowsServerError(error: Option<Json>, submitted: bool) {
    Truthy(error) && submitted
  }

  // ---------------------------------------------------------------------
  // The component's state, updated in place
  // ---------------------------------------------------------------------

  class LoginForm {
    var values: map<string, string>
    var errors: map<string, string>
    var submitted: bool

    function Snapshot(): Form
      reads this
    {
      Form(values, errors)
    }

    ghost predicate Valid()
      reads this
    {
      Checked(Snapshot())
    }

    constructor()
      ensures Snapshot() == InitialForm() && !submitted && Valid()
    {
      values := InitialForm().values;
      errors := InitialForm().errors;
      submitted := false;
      new;
      InitialChecked();
    }

    /** `handleChange` and the `validateField` it calls. */
    method HandleChange(name: string, value: string)
      requires Valid()
      modifies this
      ensures Snapshot() == Change(old(Snapshot()), name, value) && submitted == old(submitted) && Valid()
    {
      ChangeChecked(Snapshot(), name, value);
      values := values[name := value];
      errors := errors[name := FieldError(name, value)];
    }

    /** `submitHandler`: when the form is valid, mark it submitted and
        dispatch `login` with the two values; otherwise do nothing. */
    method Submit() returns (call: Option<UserActions.Call>)
      requires Valid()
      modifies this
      ensures values == old(values) && errors == old(errors)
      ensures call.Some? <==> FormValid(Snapshot())
      ensures submitted == (old(submitted) || call.Some?)
      ensures call.Some? ==> call.value == UserActions.Login(values["email"], values["password"])
      ensures call.Some? ==> IsEmailShape(values["email"]) && Utf16Length(values["password"]) >= 6
    {
      if FormValid(Snapshot()) {
        ValidMeansAccepted(Snapshot());
        submitted := true;
        call := Some(UserActions.Login(values["email"], values["password"]));
      } else {
        call := None;
      }
    }
  }
}
