/**
 The field validation of the login form (src/pages/Authentication/Login.js).
 The form record maps a field name to its state. On every keystroke
 `handleInput` writes the new value and the touched mark into the field
 object in place, `formValidation` recomputes the field's validity and helper
 text by a rule chosen by the field's name, and the reducer merges the field
 back into the record; an effect then recomputes whether the submit button is
 disabled.
 */
module Login {
  import opened JsValues
  import opened EmailPattern

  /** The one regular expression the form carries, Login.js:18 (see `EmailPattern`). */
  datatype Pattern = EmailRegex

  /**
   One field of the form record. The e-mail field carries a `pattern` and no
   `minLength`, the password field the other way round.
   */
  datatype Field = Field(
    value: string,
    isValid: bool,
    helperText: string,
    touched: bool,
    fieldLabel: string,
    pattern: Option<Pattern>,
    minLength: Option<nat>)

  type FormRecord = map<string, Field>

  const INVALID_EMAIL := "Invalid email address"
  const INVALID_PASSWORD := "Password is required (min. length is 6)"

  /**
   The record the form starts with: the e-mail and password fields, each
   empty, untouched, not valid and without a helper text, so that no field
   shows an error; the record is well formed from the start.
   */
  function InitialForm(): (r: FormRecord)
    ensures r.Keys == {"email", "password"}
    ensures WellFormed(r)
    ensures forall id :: id in r ==>
      && r[id].value == ""
      && !r[id].isValid && !r[id].touched
      && r[id].helperText == "" && !ShowsError(r[id])
  {
    map[
      "email" := Field("", false, "", false, "Email Address", Some(EmailRegex), None),
      "password" := Field("", false, "", false, "Password", None, Some(6))
    ]
  }

  /**
   The reducer `(state, newState) => ({ ...state, ...newState })`: every key of
   either record, with the value of `newState` where both have one.
   */
  function Merge(state: FormRecord, newState: FormRecord): (r: FormRecord)
    ensures r.Keys == state.Keys + newState.Keys
    ensures forall k :: k in newState ==> r[k] == newState[k]
    ensures forall k :: k in state && k !in newState ==> r[k] == state[k]
  {
    state + newState
  }

  /**
   `!!value.match(pattern)`. With the e-mail pattern this is the recognizer of
   `EmailPattern`; `match(undefined)` matches the empty pattern, which every
   string contains.
   */
  function MatchesPattern(value: string, pattern: Option<Pattern>): bool {
    match pattern
    case Some(EmailRegex) => IsEmail(value)
    case None => true
  }

  /** `value.length >= minLength`; a comparison with `undefined` is false. */
  function LongEnough(value: string, minLength: Option<nat>): bool {
    match minLength
    case Some(n) => |value| >= n
    case None => false
  }

  /**
   `handleInput`'s in-place writes: the field now holds the new value and is
   marked touched; its validity, helper text, label and rule are untouched.
   */
  function Touch(f: Field, value: string): (r: Field)
    ensures r.value == value && r.touched
    ensures r.isValid == f.isValid && r.helperText == f.helperText
    ensures r.fieldLabel == f.fieldLabel && r.pattern == f.pattern && r.minLength == f.minLength
  {
    f.(value := value, touched := true)
  }

  /**
   `formValidation`'s in-place writes to the field being edited. The e-mail
   case reads `formInput.email`, which is that same field object; the
   password case likewise. Any other name leaves the field as it is. For the
   two named fields the helper text is empty exactly when the field is valid
   and is the rule's message otherwise; the e-mail field carrying the form's
   pattern is valid exactly when its whole value matches the expression, the
   password field carrying a minimum of 6 exactly when it has six characters.
   */
  function Validate(id: string, input: Field): (r: Field)
    ensures r.value == input.value && r.touched == input.touched && r.fieldLabel == input.fieldLabel
    ensures r.pattern == input.pattern && r.minLength == input.minLength
    ensures id == "email" || id == "password" ==>
      && (r.helperText == "" <==> r.isValid)
      && (!r.isValid ==> r.helperText == ErrorText(id))
    ensures id == "email" && input.pattern == Some(EmailRegex) ==> (r.isValid <==> MatchesEmailRegex(input.value))
    ensures id == "password" && input.minLength == Some(6) ==> (r.isValid <==> |input.value| >= 6)
    ensures id != "email" && id != "password" ==> r == input
  {
    IsEmailIffMatchesRegex(input.value);
    if id == "email" then
      var ok := MatchesPattern(input.value, input.pattern);
      input.(isValid := ok, helperText := if !ok then INVALID_EMAIL else "")
    else if id == "password" then
      var ok := LongEnough(input.value, input.minLength);
      input.(isValid := ok, helperText := if !ok then INVALID_PASSWORD else "")
    else
      input
  }

  /**
   The record after one keystroke `value` in field `id`: `None` when `id` is
   not a field of the record, since reading `.value` of `undefined` throws
   before anything changes.
   */
  function Edit(form: FormRecord, id: string, value: string): (r: Option<FormRecord>)
    ensures r.None? <==> id !in form
    ensures r.Some? ==> r.value.Keys == form.Keys
    ensures r.Some? ==> forall k :: k in form && k != id ==> r.value[k] == form[k]
    ensures r.Some? ==>
      && r.value[id].value == value
      && r.value[id].touched
      && r.value[id].fieldLabel == form[id].fieldLabel
      && r.value[id].pattern == form[id].pattern
      && r.value[id].minLength == form[id].minLength
  {
    if id !in form then None
    else
      var input := Validate(id, Touch(form[id], value));
      Some(Merge(form, form[id := input]))
  }

  /** `touched && !isValid`, the condition under which a field shows its error. */
  predicate ShowsError(f: Field) {
    f.touched && !f.isValid
  }

  /** The rule a field is checked by, read off its name. */
  predicate RuleHolds(id: string, value: string) {
    if id == "email" then IsEmail(value)
    else if id == "password" then |value| >= 6
    else true
  }

  function ErrorText(id: string): string {
    if id == "email" then INVALID_EMAIL else INVALID_PASSWORD
  }

  /**
   What the form keeps true: its two fields with their rule parameters and
   labels; every field that has been touched has the validity its rule gives;
   and a helper text is present exactly when the field shows an error.
   */
  ghost predicate WellFormed(form: FormRecord) {
    && form.Keys == {"email", "password"}
    && form["email"].pattern == Some(EmailRegex) && form["email"].minLength == None
    && form["email"].fieldLabel == "Email Address"
    && form["password"].pattern == None && form["password"].minLength == Some(6)
    && form["password"].fieldLabel == "Password"
    && forall id :: id in form ==>
         && (form[id].touched ==> form[id].isValid == RuleHolds(id, form[id].value))
         && form[id].helperText == (if ShowsError(form[id]) then ErrorText(id) else "")
  }

  // ---------------------------------------------------------------------------
  // Properties of one keystroke
  // ---------------------------------------------------------------------------

  /** The e-mail field is valid exactly when its whole value matches the expression. */
  lemma EmailValidity(form: FormRecord, value: string)
    requires "email" in form && form["email"].pattern == Some(EmailRegex)
    ensures Edit(form, "email", value).Some?
    ensures Edit(form, "email", value).value["email"].isValid <==> MatchesEmailRegex(value)
    ensures Edit(form, "email", value).value["email"].helperText == (if MatchesEmailRegex(value) then "" else INVALID_EMAIL)
  {
    IsEmailIffMatchesRegex(value);
  }

  /** The password field is valid exactly when its value has at least six characters. */
  lemma PasswordValidity(form: FormRecord, value: string)
    requires "password" in form && form["password"].minLength == Some(6)
    ensures Edit(form, "password", value).Some?
    ensures Edit(form, "password", value).value["password"].isValid <==> |value| >= 6
    ensures Edit(form, "password", value).value["password"].helperText == (if |value| >= 6 then "" else INVALID_PASSWORD)
  {
  }

  /** After validation the helper text is empty exactly when the field is valid, and otherwise is its rule's message. */
  lemma HelperTextIffInvalid(form: FormRecord, id: string, value: string)
    requires id in form && (id == "email" || id == "password")
    ensures Edit(form, id, value).Some?
    ensures Edit(form, id, value).value[id].helperText == "" <==> Edit(form, id, value).value[id].isValid
    ensures !Edit(form, id, value).value[id].isValid ==> Edit(form, id, value).value[id].helperText == ErrorText(id)
  {
  }

  /**
   A field with any other name still gets the value and the touched mark and
   is merged back, but keeps its validity and helper text.
   */
  lemma OtherFieldIsNotValidated(form: FormRecord, id: string, value: string)
    requires id in form && id != "email" && id != "password"
    ensures Edit(form, id, value) == Some(form[id := form[id].(value := value, touched := true)])
  {
    assert Merge(form, form[id := Touch(form[id], value)]) == form[id := Touch(form[id], value)];
  }

  /** One keystroke keeps the form well formed. */
  lemma EditKeepsWellFormed(form: FormRecord, id: string, value: string)
    requires WellFormed(form) && id in form
    ensures Edit(form, id, value).Some? && WellFormed(Edit(form, id, value).value)
  {
    var input := Validate(id, Touch(form[id], value));
    var r := Edit(form, id, value).value;
    assert r == form[id := input];
    assert input.isValid == RuleHolds(id, input.value) by {
      if id == "email" {
        IsEmailIffMatchesRegex(value);
      }
    }
  }

  /** In a well-formed form a field shows its error exactly when it has a helper text. */
  lemma ErrorShownIffHelperText(form: FormRecord, id: string)
    requires WellFormed(form) && id in form
    ensures ShowsError(form[id]) <==> form[id].helperText != ""
    ensures ShowsError(form[id]) ==> form[id].helperText == ErrorText(id)
  {
  }

  /** The documented e-mail inputs: `"a@b.co"` is valid, `"bad-email"` is not. */
  lemma EmailExamples()
    ensures Edit(InitialForm(), "email", "a@b.co").value["email"].isValid
    ensures Edit(InitialForm(), "email", "a@b.co").value["email"].helperText == ""
    ensures !Edit(InitialForm(), "email", "bad-email").value["email"].isValid
    ensures Edit(InitialForm(), "email", "bad-email").value["email"].helperText == "Invalid email address"
  {
    var form := InitialForm();
    AcceptsShortAddress();
    EmailValidity(form, "a@b.co");
    RejectsAddressWithoutAt();
    EmailValidity(form, "bad-email");
  }

  /** The documented password inputs: `"12345"` is too short, `"123456"` is long enough. */
  lemma PasswordExamples()
    ensures !Edit(InitialForm(), "password", "12345").value["password"].isValid
    ensures Edit(InitialForm(), "password", "12345").value["password"].helperText == "Password is required (min. length is 6)"
    ensures Edit(InitialForm(), "password", "123456").value["password"].isValid
    ensures Edit(InitialForm(), "password", "123456").value["password"].helperText == ""
  {
    var form := InitialForm();
    PasswordValidity(form, "12345");
    PasswordValidity(form, "123456");
  }

  // ---------------------------------------------------------------------------
  // The form component
  // ---------------------------------------------------------------------------

  class LoginForm {
    /** `checkDisableButton` from src/utility/utils, which is not part of this model. */
    const checkDisableButton: FormRecord -> bool

    var formInput: FormRecord
    var isDisabled: bool

    ghost predicate Valid()
      reads this
    {
      WellFormed(formInput)
    }

    /** The button starts disabled, before the effect has run for the first time. */
    constructor (checkDisableButton: FormRecord -> bool)
      ensures Valid()
      ensures formInput == InitialForm()
      ensures isDisabled
      ensures this.checkDisableButton == checkDisableButton
    {
      this.checkDisableButton := checkDisableButton;
      formInput := InitialForm();
      isDisabled := true;
    }

    /** The effect on `formInput`: recompute the button's state from the whole record. */
    method DisableButtonEffect()
      modifies this`isDisabled
      ensures isDisabled == checkDisableButton(formInput)
    {
      isDisabled := checkDisableButton(formInput);
    }

    /** `formValidation(formInput[id], id)`, followed by the effect its merge triggers. */
    method FormValidation(id: string)
      requires id in formInput
      modifies this`formInput, this`isDisabled
      ensures formInput == Merge(old(formInput), old(formInput)[id := Validate(id, old(formInput)[id])])
      ensures isDisabled == checkDisableButton(formInput)
    {
      ghost var validated := Validate(id, formInput[id]);
      var input := formInput[id];
      if id == "email" {
        var ok := MatchesPattern(formInput["email"].value, formInput["email"].pattern);
        input := input.(isValid := ok);
        input := input.(helperText := if !input.isValid then INVALID_EMAIL else "");
        assert input == validated;
      } else if id == "password" {
        var ok := LongEnough(input.value, formInput["password"].minLength);
        input := input.(isValid := ok);
        input := input.(helperText := if !input.isValid then INVALID_PASSWORD else "");
        assert input == validated;
      }
      assert input == validated;
      ghost var before := formInput;
      // the writes above land in the record's own field object
      formInput := formInput[id := input];
      // setFormInput({ ...formInput, [id]: input })
      formInput := Merge(formInput, formInput[id := input]);
      assert formInput == before[id := input];
      DisableButtonEffect();
    }

    /**
     `handleInput` for a keystroke that leaves `value` in field `id`. Returns
     false, with nothing changed, when `id` is not a field of the form.
     */
    method HandleInput(id: string, value: string) returns (ok: bool)
      requires Valid()
      modifies this`formInput, this`isDisabled
      ensures Valid()
      ensures ok <==> id in old(formInput)
      ensures ok ==> Edit(old(formInput), id, value) == Some(formInput)
      ensures ok ==> isDisabled == checkDisableButton(formInput)
      ensures !ok ==> formInput == old(formInput) && isDisabled == old(isDisabled)
    {
      if id !in formInput {
        return false;
      }
      ghost var before := formInput;
      formInput := formInput[id := Touch(formInput[id], value)];
      FormValidation(id);
      assert formInput == Merge(before, before[id := Validate(id, Touch(before[id], value))]);
      EditKeepsWellFormed(before, id, value);
      ok := true;
    }
  }

  /**
   Mounting the form: the component is created with the initial record and
   the button disabled, and after the first render the effect on `formInput`
   recomputes the button's state from that record.
   */
  method Mount(checkDisableButton: FormRecord -> bool) returns (f: LoginForm)
    ensures f.Valid()
    ensures f.formInput == InitialForm()
    ensures f.isDisabled == checkDisableButton(InitialForm())
    ensures f.checkDisableButton == checkDisableButton
  {
    f := new LoginForm(checkDisableButton);
    f.DisableButtonEffect();
  }
}
