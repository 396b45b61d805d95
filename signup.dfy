/** The signup screen of src/components/SignupUI.jsx: seven form fields, an
    error map, a submission message, and the submit flow that validates,
    calls `mockSignup`, and on success schedules a redirect to
    `/BrandInformation`. The `await` splits the submit in two steps:
    `HandleSubmit` up to the call, `SettleSignup` once the promise settles.
    The `setTimeout` callback is `FireRedirect`. */
module Signup {
  import opened Text
  import opened EmailShape
  import opened Forms

  datatype Form = Form(
    firstName: string,
    lastName: string,
    email: string,
    phone: string,
    password: string,
    confirmPassword: string,
    agreeTerms: bool)

  const InitialForm := Form("", "", "", "", "", "", false)

  /** The text inputs, each wired to `handleInputChange(key)`. */
  datatype Field = FirstNameInput | LastNameInput | EmailInput | PhoneInput | PasswordInput | ConfirmPasswordInput

  /** The error key each input clears. */
  function KeyOf(f: Field): Key {
    match f
    case FirstNameInput => FirstName
    case LastNameInput => LastName
    case EmailInput => Email
    case PhoneInput => Phone
    case PasswordInput => Password
    case ConfirmPasswordInput => ConfirmPassword
  }

  const FieldKeys: set<Key> := {FirstName, LastName, Email, Phone, Password, ConfirmPassword, AgreeTerms}

  function Get(form: Form, f: Field): string {
    match f
    case FirstNameInput => form.firstName
    case LastNameInput => form.lastName
    case EmailInput => form.email
    case PhoneInput => form.phone
    case PasswordInput => form.password
    case ConfirmPasswordInput => form.confirmPassword
  }

  /** `{ ...formData, [field]: value }` */
  function With(form: Form, f: Field, value: string): (r: Form)
    ensures Get(r, f) == value
    ensures forall g :: g != f ==> Get(r, g) == Get(form, g)
    ensures r.agreeTerms == form.agreeTerms
  {
    match f
    case FirstNameInput => form.(firstName := value)
    case LastNameInput => form.(lastName := value)
    case EmailInput => form.(email := value)
    case PhoneInput => form.(phone := value)
    case PasswordInput => form.(password := value)
    case ConfirmPasswordInput => form.(confirmPassword := value)
  }

  /** The phone rule of this screen: required, then exactly ten digits. */
  function PhoneRule(phone: string): (r: Option<Message>)
    ensures r.None? <==> IsTenDigits(phone)
    ensures phone == "" ==> r == Some(PhoneRequired)
    ensures phone != "" && !IsTenDigits(phone) ==> r == Some(PhoneNotTenDigits)
  {
    if phone == "" then Some(PhoneRequired)
    else if !IsTenDigits(phone) then Some(PhoneNotTenDigits)
    else None
  }

  function TermsRule(agreeTerms: bool): (r: Option<Message>)
    ensures r.None? <==> agreeTerms
    ensures r.Some? ==> r.value == TermsRequired
  {
    if !agreeTerms then Some(TermsRequired) else None
  }

  /** Every rule of the form passes. */
  ghost predicate Complete(form: Form) {
    && form.firstName != ""
    && form.lastName != ""
    && HasEmailShape(form.email)
    && IsTenDigits(form.phone)
    && LongEnough(form.password)
    && form.confirmPassword == form.password
    && form.agreeTerms
  }

  /** `validateForm`: one message per failing field, none for a passing one. */
  function Validate(form: Form): (errors: Errors)
    ensures errors.Keys <= FieldKeys
    ensures errors == map[] <==> Complete(form)
  {
    var e := Put(map[], FirstName, Required(form.firstName, FirstNameRequired));
    var e := Put(e, LastName, Required(form.lastName, LastNameRequired));
    var e := Put(e, Email, EmailRule(form.email));
    var e := Put(e, Phone, PhoneRule(form.phone));
    var e := Put(e, Password, PasswordRule(form.password));
    var e := Put(e, ConfirmPassword, ConfirmRule(form.password, form.confirmPassword));
    Put(e, AgreeTerms, TermsRule(form.agreeTerms))
  }

  /** Each key holds exactly its own field's rule result. */
  lemma ValidateByField(form: Form)
    ensures Lookup(Validate(form), FirstName) == Required(form.firstName, FirstNameRequired)
    ensures Lookup(Validate(form), LastName) == Required(form.lastName, LastNameRequired)
    ensures Lookup(Validate(form), Email) == EmailRule(form.email)
    ensures Lookup(Validate(form), Phone) == PhoneRule(form.phone)
    ensures Lookup(Validate(form), Password) == PasswordRule(form.password)
    ensures Lookup(Validate(form), ConfirmPassword) == ConfirmRule(form.password, form.confirmPassword)
    ensures Lookup(Validate(form), AgreeTerms) == TermsRule(form.agreeTerms)
  {
  }

  /** An empty first or last name gets exactly its required message. */
  lemma NamesRequired(form: Form)
    ensures form.firstName == "" <==> Lookup(Validate(form), FirstName) == Some(FirstNameRequired)
    ensures form.lastName == "" <==> Lookup(Validate(form), LastName) == Some(LastNameRequired)
  {
    ValidateByField(form);
  }

  /** A non-empty phone passes only as exactly ten ASCII digits. */
  lemma PhoneNeedsTenDigits(form: Form)
    requires form.phone != ""
    ensures Phone !in Validate(form) <==> |form.phone| == 10 && AllDigits(form.phone)
  {
    ValidateByField(form);
  }

  /** The mismatch message appears exactly when the confirmation is non-empty
      and differs from the password, whether the password is valid or not. */
  lemma MismatchOnlyWhenDifferent(form: Form)
    ensures Lookup(Validate(form), ConfirmPassword) == Some(PasswordsDoNotMatch)
            <==> form.confirmPassword != "" && form.confirmPassword != form.password
  {
    ValidateByField(form);
  }

  /** An unticked terms box always yields the terms error. */
  lemma TermsAlwaysRequired(form: Form)
    ensures !form.agreeTerms <==> AgreeTerms in Validate(form)
  {
    ValidateByField(form);
  }

  /** `mockSignup` resolves with success whatever it is given. */
  function MockSignup(form: Form): (o: Outcome)
    ensures FailureOf(o, "Signup failed").None?
  {
    Resolved(true, "Signup successful")
  }

  class SignupScreen {
    var form: Form
    var errors: Errors
    var message: string
    /** Responses of `mockSignup` calls still awaited, oldest first. */
    var inFlight: seq<Outcome>
    /** How many times `mockSignup` has been called. */
    var actionCalls: nat
    /** Redirect callbacks scheduled and not yet run. */
    var pendingRedirects: nat
    /** Every route navigated to, in order. */
    var navigations: seq<string>

    ghost predicate Valid()
      reads this
    {
      && errors.Keys <= FieldKeys + {General}
      && (General in errors ==> errors.Keys == {General})
      && |inFlight| <= actionCalls
      && forall r :: r in navigations ==> r == BrandInformationRoute
    }

    constructor ()
      ensures Valid()
      ensures form == InitialForm && errors == map[] && message == ""
      ensures inFlight == [] && actionCalls == 0 && pendingRedirects == 0 && navigations == []
    {
      form := InitialForm;
      errors := map[];
      message := "";
      inFlight := [];
      actionCalls := 0;
      pendingRedirects := 0;
      navigations := [];
    }

    /** `handleInputChange(field)`: store the value, blank that field's
        message if one is shown, and empty the submission message. */
    method HandleInputChange(field: Field, value: string)
      requires Valid()
      modifies this
      ensures Valid()
      ensures form == With(old(form), field, value)
      ensures errors == ClearIfSet(old(errors), KeyOf(field))
      ensures message == ""
      ensures inFlight == old(inFlight) && actionCalls == old(actionCalls)
      ensures pendingRedirects == old(pendingRedirects) && navigations == old(navigations)
    {
      form := With(form, field, value);
      errors := ClearIfSet(errors, KeyOf(field));
      message := "";
    }

    /** `handleCheckboxChange`: toggle the terms box and blank its message;
        the submission message is left as it is. */
    method HandleCheckboxChange()
      requires Valid()
      modifies this
      ensures Valid()
      ensures form == old(form).(agreeTerms := !old(form).agreeTerms)
      ensures errors == ClearIfSet(old(errors), AgreeTerms)
      ensures message == old(message)
      ensures inFlight == old(inFlight) && actionCalls == old(actionCalls)
      ensures pendingRedirects == old(pendingRedirects) && navigations == old(navigations)
    {
      form := form.(agreeTerms := !form.agreeTerms);
      errors := ClearIfSet(errors, AgreeTerms);
    }

    /** `handleSubmit` up to the `await`: the error map becomes the fresh
        validation result; a failing form stops there, a passing one calls
        `mockSignup` once. */
    method HandleSubmit()
      requires Valid()
      modifies this
      ensures Valid()
      ensures errors == Validate(form)
      ensures Validate(form) != map[] ==>
        && message == "Please fill all fields correctly."
        && inFlight == old(inFlight) && actionCalls == old(actionCalls)
      ensures Validate(form) == map[] ==>
        && message == old(message)
        && inFlight == old(inFlight) + [MockSignup(form)] && actionCalls == old(actionCalls) + 1
      ensures form == old(form)
      ensures pendingRedirects == old(pendingRedirects) && navigations == old(navigations)
    {
      var validationErrors := Validate(form);
      errors := validationErrors;
      if |validationErrors| > 0 {
        message := "Please fill all fields correctly.";
        return;
      }
      inFlight := inFlight + [MockSignup(form)];
      actionCalls := actionCalls + 1;
    }

    /** `handleSubmit` after the `await`: on success a message and one
        scheduled redirect; on failure the error map is replaced whole by
        the `general` message. */
    method SettleSignup()
      requires Valid() && inFlight != []
      modifies this
      ensures Valid()
      ensures inFlight == old(inFlight)[1..]
      ensures FailureOf(old(inFlight)[0], "Signup failed").None? ==>
        && message == "Account created successfully! Redirecting..."
        && pendingRedirects == old(pendingRedirects) + 1
        && errors == old(errors)
      ensures FailureOf(old(inFlight)[0], "Signup failed").Some? ==>
        var failure := FailureOf(old(inFlight)[0], "Signup failed").value;
        && errors == map[General := Reported(failure)]
        && message == "Signup failed: " + failure
        && pendingRedirects == old(pendingRedirects)
      ensures form == old(form) && actionCalls == old(actionCalls) && navigations == old(navigations)
    {
      var response := inFlight[0];
      inFlight := inFlight[1..];
      match FailureOf(response, "Signup failed")
      case None =>
        message := "Account created successfully! Redirecting...";
        pendingRedirects := pendingRedirects + 1;
      case Some(failure) =>
        errors := map[General := Reported(failure)];
        message := "Signup failed: " + failure;
    }

    /** The scheduled redirect: navigate to `/BrandInformation`, or, if the
        router throws, show the redirect error instead. */
    method FireRedirect(navigationThrows: bool)
      requires Valid() && pendingRedirects > 0
      modifies this
      ensures Valid()
      ensures pendingRedirects == old(pendingRedirects) - 1
      ensures !navigationThrows ==> navigations == old(navigations) + [BrandInformationRoute] && message == old(message)
      ensures navigationThrows ==>
        navigations == old(navigations) && message == "Error redirecting to brand information. Please try again."
      ensures form == old(form) && errors == old(errors)
      ensures inFlight == old(inFlight) && actionCalls == old(actionCalls)
    {
      pendingRedirects := pendingRedirects - 1;
      if navigationThrows {
        message := "Error redirecting to brand information. Please try again.";
      } else {
        navigations := navigations + [BrandInformationRoute];
      }
    }
  }

  /** A complete form, submitted with nothing else awaited, always reaches
      the success message and one scheduled redirect. */
  method SubmitComplete(screen: SignupScreen)
    requires screen.Valid() && screen.inFlight == [] && Complete(screen.form)
    modifies screen
    ensures screen.Valid()
    ensures screen.message == "Account created successfully! Redirecting..."
    ensures screen.errors == map[] && screen.actionCalls == old(screen.actionCalls) + 1
    ensures screen.pendingRedirects == old(screen.pendingRedirects) + 1
  {
    screen.HandleSubmit();
    screen.SettleSignup();
  }
}
