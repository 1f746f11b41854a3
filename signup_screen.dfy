/** The signup form (`SignupScreen.jsx`): the per-field validation switch,
    the form-valid predicate that gates the signup dispatch, the Bootstrap
    validation class of each input, and the form state the change handler
    updates one key at a time. */
module SignupScreen {
  import opened Wrappers
  import opened Text
  import opened FormRules
  import UserActions

  /** A form value: an input's text, or the checkbox's `checked`. */
  datatype Input = Str(s: string) | Bool(b: bool)

  const Required := "This field is required."
  const BadEmail := "Invalid email format."
  const WeakPassword := "Password must be 8+ characters, include uppercase, lowercase, number & special character."
  const Mismatch := "Passwords do not match."
  const MustAccept := "You must accept the terms and conditions."

  /** The inputs the form renders. */
  const Fields: seq<string> := ["firstname", "lastname", "email", "password", "confirmpassword", "termsAccepted"]

  /** What the form's inputs send: the checkbox is `termsAccepted` and
      sends a boolean, every other input sends text. */
  predicate FromForm(name: string, value: Input) {
    value.Bool? <==> name == "termsAccepted"
  }

  /** `validateField`'s switch: the error for `name` given `value`, with
      `password` the password the form holds. `None` is `null`; every
      message is a non-empty string, so an error is truthy. */
  function FieldError(name: string, value: Input, password: Input): (r: Option<string>)
    requires FromForm(name, value)
    ensures r.Some? ==> r.value != ""
  {
    if name == "firstname" || name == "lastname" then
      if Trim(value.s) == "" then Some(Required) else None
    else if name == "email" then
      if !MatchesEmailPattern(value.s) then Some(BadEmail) else None
    else if name == "password" then
      if !MatchesPasswordPattern(value.s) then Some(WeakPassword) else None
    else if name == "confirmpassword" then
      if value != password then Some(Mismatch) else None
    else if name == "termsAccepted" then
      if !value.b then Some(MustAccept) else None
    else None
  }

  /** The rules field by field: a name is required to hold something other
      than whitespace, an email must have the email shape, a password must
      be strong, a confirmation must equal the password, the terms must be
      accepted, and any other name has no error. */
  lemma FieldErrorRules(name: string, value: Input, password: Input)
    requires FromForm(name, value)
    ensures var r := FieldError(name, value, password);
      ((name == "firstname" || name == "lastname") ==> (r.Some? <==> AllSpace(value.s)))
      && (name == "email" ==> (r.None? <==> IsEmailShape(value.s)))
      && (name == "password" ==> (r.None? <==> IsStrongPassword(value.s)))
      && (name == "confirmpassword" ==> (r.None? <==> value == password))
      && (name == "termsAccepted" ==> (r.None? <==> value.b))
      && (name !in Fields ==> r.None?)
  {
    if name == "email" {
      EmailPatternShape(value.s);
    } else if name == "password" {
      PasswordPatternRule(value.s);
    }
  }

  // ---------------------------------------------------------------------
  // The form state
  // ---------------------------------------------------------------------

  datatype Form = Form(values: map<string, Input>, errors: map<string, Option<string>>)

  /** Every rendered input has a value, and every value has its input's type. */
  predicate WellFormed(f: Form) {
    "firstname" in f.values && "lastname" in f.values && "email" in f.values && "password" in f.values
    && "confirmpassword" in f.values && "termsAccepted" in f.values
    && forall k | k in f.values :: FromForm(k, f.values[k])
  }

  /** The state the form starts in: every text empty, the box unticked and
      no field validated yet. */
  function InitialForm(): (f: Form)
    ensures WellFormed(f)
  {
    Form(map["firstname" := Str(""), "lastname" := Str(""), "email" := Str(""), "password" := Str(""),
             "confirmpassword" := Str(""), "termsAccepted" := Bool(false)],
         map[])
  }

  /** A value that `isFormValid` accepts: a ticked box, or text that is not
      all whitespace (`value.trim() !== ""`, see `FilledIsTrimmed`). */
  predicate Filled(v: Input) {
    match v
    case Bool(b) => b
    case Str(s) => !AllSpace(s)
  }

  lemma FilledIsTrimmed(s: string)
    ensures Filled(Str(s)) <==> Trim(s) != ""
  {
  }

  /** `isFormValid`: every recorded error is `null` and every value is filled. */
  predicate FormValid(f: Form) {
    (forall k | k in f.errors :: f.errors[k].None?) && forall k | k in f.values :: Filled(f.values[k])
  }

  /** `handleChange` as written: the value is stored, and only the edited
      field is validated, against the password of the render that handled
      the event. */
  function Change(f: Form, name: string, value: Input): (g: Form)
    requires WellFormed(f) && FromForm(name, value)
    ensures WellFormed(g)
  {
    Form(f.values[name := value], f.errors[name := FieldError(name, value, f.values["password"])])
  }

  /** `handleChange` as intended: editing the password also validates an
      already entered confirmation again, against the new password. */
  function ChangeRevalidating(f: Form, name: string, value: Input): (g: Form)
    requires WellFormed(f) && FromForm(name, value)
    ensures WellFormed(g)
  {
    var g := Change(f, name, value);
    if name == "password" && "confirmpassword" in g.errors then
      g.(errors := g.errors["confirmpassword" := FieldError("confirmpassword", g.values["confirmpassword"], value)])
    else g
  }

  /** `validateField` writes the edited field's error and no other. */
  lemma OnlyEditedError(f: Form, name: string, value: Input, other: string)
    requires WellFormed(f) && FromForm(name, value)
    requires other != name
    ensures var g := Change(f, name, value);
      (other in g.errors <==> other in f.errors)
      && (other in f.errors ==> g.errors[other] == f.errors[other])
      && (other in f.values ==> g.values[other] == f.values[other])
    ensures name in Change(f, name, value).errors
  {
  }

  /** The confirmation is accepted only against the password it shows:
      an untouched confirmation is still empty, and an accepted one equals
      the password. */
  predicate ConfirmChecked(f: Form)
    requires WellFormed(f)
  {
    ("confirmpassword" !in f.errors ==> f.values["confirmpassword"] == Str(""))
    && ("confirmpassword" in f.errors && f.errors["confirmpassword"].None? ==>
          f.values["confirmpassword"] == f.values["password"])
  }

  lemma InitialConfirmChecked()
    ensures ConfirmChecked(InitialForm())
  {
  }

  /** Every intended change keeps the confirmation checked. */
  lemma RevalidatingKeepsConfirm(f: Form, name: string, value: Input)
    requires WellFormed(f) && FromForm(name, value) && ConfirmChecked(f)
    ensures ConfirmChecked(ChangeRevalidating(f, name, value))
  {
    var g := ChangeRevalidating(f, name, value);
    if name == "confirmpassword" {
      FieldErrorRules(name, value, f.values["password"]);
      assert g.errors["confirmpassword"] == FieldError(name, value, f.values["password"]);
    } else if name == "password" {
      if "confirmpassword" in f.errors {
        FieldErrorRules("confirmpassword", f.values["confirmpassword"], value);
        assert g.errors["confirmpassword"] == FieldError("confirmpassword", f.values["confirmpassword"], value);
      }
    } else {
      assert g.values["confirmpassword"] == f.values["confirmpassword"];
      assert g.values["password"] == f.values["password"];
    }
  }

  /** With the intended change, a valid form always holds a confirmation
      equal to its password. */
  lemma ValidFormConfirmed(f: Form)
    requires WellFormed(f) && ConfirmChecked(f) && FormValid(f)
    ensures f.values["password"] == f.values["confirmpassword"]
  {
  }

  /** As written, a valid form whose password is then changed to another
      acceptable one stays valid, though the confirmation no longer
      matches. */
  lemma StaleConfirmation(f: Form, q: string)
    requires WellFormed(f) && FormValid(f)
    requires IsStrongPassword(q) && Str(q) != f.values["confirmpassword"]
    ensures var g := Change(f, "password", Str(q));
      FormValid(g) && g.values["password"] != g.values["confirmpassword"]
  {
    StrongIsFilled(q);
    FieldErrorRules("password", Str(q), f.values["password"]);
    ChangeKeepsValid(f, "password", Str(q));
  }

  /** An accepted, filled value keeps a valid form valid. */
  lemma ChangeKeepsValid(f: Form, name: string, value: Input)
    requires WellFormed(f) && FromForm(name, value) && FormValid(f)
    requires Filled(value) && FieldError(name, value, f.values["password"]).None?
    ensures FormValid(Change(f, name, value))
  {
    var err := FieldError(name, value, f.values["password"]);
    var g := Form(f.values[name := value], f.errors[name := err]);
    assert Change(f, name, value) == g;
    assert forall k | k in g.values :: Filled(g.values[k]) by {
      forall k | k in g.values ensures Filled(g.values[k]) {
        if k != name { assert g.values[k] == f.values[k]; }
      }
    }
    assert forall k | k in g.errors :: g.errors[k].None? by {
      forall k | k in g.errors ensures g.errors[k].None? {
        if k != name { assert g.errors[k] == f.errors[k]; }
      }
    }
  }

  lemma StrongIsFilled(q: string)
    requires IsStrongPassword(q)
    ensures Filled(Str(q))
  {
    assert PasswordChar(q[0]);
  }

  /** A form every field of which was filled in and accepted, with the
      passwords matching. */
  function Completed(): Form {
    var v := Str("Abcdef1!");
    Form(map["firstname" := Str("Ann"), "lastname" := Str("Lee"), "email" := Str("ann@example.com"),
             "password" := v, "confirmpassword" := v, "termsAccepted" := Bool(true)],
         map["firstname" := None, "lastname" := None, "email" := None, "password" := None,
             "confirmpassword" := None, "termsAccepted" := None])
  }

  /** The concrete case: after `Completed()`, typing `Bbcdef1!` into the
      password field leaves a form the submit button accepts, holding two
      different passwords. */
  lemma StaleConfirmationExample()
    ensures var g := Change(Completed(), "password", Str("Bbcdef1!"));
      FormValid(g) && g.values["password"] == Str("Bbcdef1!") && g.values["confirmpassword"] == Str("Abcdef1!")
  {
    CompletedValid();
    SecondPasswordStrong();
    StaleConfirmation(Completed(), "Bbcdef1!");
  }

  lemma CompletedValid()
    ensures WellFormed(Completed()) && FormValid(Completed())
    ensures Completed().values["confirmpassword"] == Str("Abcdef1!")
  {
    var f := Completed();
    StartsFilled("Ann");
    StartsFilled("Lee");
    StartsFilled("ann@example.com");
    StartsFilled("Abcdef1!");
    assert forall k | k in f.values :: Filled(f.values[k]);
  }

  lemma StartsFilled(s: string)
    requires |s| > 0 && ('A' <= s[0] <= 'Z' || 'a' <= s[0] <= 'z')
    ensures Filled(Str(s))
  {
  }

  lemma SecondPasswordStrong()
    ensures IsStrongPassword("Bbcdef1!")
  {
    var q := "Bbcdef1!";
    assert q == ['B', 'b', 'c', 'd', 'e', 'f', '1', '!'];
    forall i | 0 <= i < |q| ensures PasswordChar(q[i]) {
      if i == 0 { assert IsUpper(q[i]); }
      else if i < 6 { assert IsLower(q[i]); }
      else if i == 6 { assert IsDigit(q[i]); }
      else { assert IsSpecial(q[i]); }
    }
    assert InClass(Upper, q[0]) && InClass(Lower, q[1]) && InClass(Digit, q[6]) && InClass(Special, q[7]);
  }

  /** `getValidationClass(name)`: no class while the value is the empty
      string, then invalid or valid by the recorded error (a field never
      validated counts as valid). */
  function ValidationClass(f: Form, name: string): (r: string)
    ensures r == "" <==> name in f.values && f.values[name] == Str("")
    ensures r == "is-invalid" <==>
      !(name in f.values && f.values[name] == Str("")) && name in f.errors && f.errors[name].Some?
  {
    if name in f.values && f.values[name] == Str("") then ""
    else if name in f.errors && f.errors[name].Some? then "is-invalid"
    else "is-valid"
  }

  // ---------------------------------------------------------------------
  // The component's state, updated in place
  // ---------------------------------------------------------------------

  class SignupForm {
    var values: map<string, Input>
    var errors: map<string, Option<string>>

    function Snapshot(): Form
      reads this
    {
      Form(values, errors)
    }

    ghost predicate Valid()
      reads this
    {
      WellFormed(Snapshot()) && ConfirmChecked(Snapshot())
    }

    constructor()
      ensures Snapshot() == InitialForm() && Valid()
    {
      values := InitialForm().values;
      errors := map[];
      new;
      InitialConfirmChecked();
    }

    /** `validateField(name, value)`: records this field's error, checking a
        confirmation against the password held now. */
    method ValidateField(name: string, value: Input)
      requires FromForm(name, value) && "password" in values
      modifies this
      ensures values == old(values)
      ensures errors == old(errors)[name := FieldError(name, value, values["password"])]
    {
      var error := FieldError(name, value, values["password"]);
      errors := errors[name := error];
    }

    /** `handleChange` with the confirmation validated again after a
        password edit. The edited field is validated before the value is
        stored, as the handler sees the values of the render it runs in. */
    method HandleChange(name: string, value: Input)
      requires Valid() && FromForm(name, value)
      modifies this
      ensures Snapshot() == ChangeRevalidating(old(Snapshot()), name, value) && Valid()
    {
      ghost var f := Snapshot();
      ValidateField(name, value);
      values := values[name := value];
      if name == "password" && "confirmpassword" in errors {
        ValidateField("confirmpassword", values["confirmpassword"]);
      }
      RevalidatingKeepsConfirm(f, name, value);
    }

    /** `submitHandler`: the `signup` thunk with the four texts, dispatched
        only when the form is valid; a dispatched signup always carries a
        password its confirmation matched. */
    method Submit() returns (call: Option<UserActions.Call>)
      requires Valid()
      ensures call.Some? <==> FormValid(Snapshot())
      ensures call.Some? ==> call.value == UserActions.Signup(values["firstname"].s, values["lastname"].s,
                                                             values["email"].s, values["password"].s)
      ensures call.Some? ==> values["password"] == values["confirmpassword"]
    {
      if FormValid(Snapshot()) {
        ValidFormConfirmed(Snapshot());
        call := Some(UserActions.Signup(values["firstname"].s, values["lastname"].s, values["email"].s, values["password"].s));
      } else {
        call := None;
      }
    }
  }
}
