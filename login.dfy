/** The login screen of src/components/LoginUI.jsx: phone, email and password
    fields, a remember-me box, and the submit flow that validates, calls
    `mockLogin`, and on success schedules a redirect to `/BrandInformation`.
    `HandleSubmit` runs up to the `await`, `SettleLogin` after it, and
    `FireRedirect` is the `setTimeout` callback. */
module Login {
  import opened Text
  import opened EmailShape
  import opened Forms

  datatype Form = Form(phone: string, email: string, password: string, rememberMe: bool)

  const InitialForm := Form("", "", "", false)

  /** The text inputs, each wired to `handleInputChange(key)`. */
  datatype Field = PhoneInput | EmailInput | PasswordInput

  function KeyOf(f: Field): Key {
    match f
    case PhoneInput => Phone
    case EmailInput => Email
    case PasswordInput => Password
  }

  const FieldKeys: set<Key> := {Phone, Email, Password}

  /** `{ ...formData, [field]: value }` */
  function With(form: Form, f: Field, value: string): (r: Form)
    ensures f == PhoneInput ==> r == form.(phone := value)
    ensures f == EmailInput ==> r == form.(email := value)
    ensures f == PasswordInput ==> r == form.(password := value)
  {
    match f
    case PhoneInput => form.(phone := value)
    case EmailInput => form.(email := value)
    case PasswordInput => form.(password := value)
  }

  /** The phone rule of this screen: required, then exactly ten digits. */
  function PhoneRule(phone: string): (r: Option<Message>)
    ensures r.None? <==> IsTenDigits(phone)
    ensures phone == "" ==> r == Some(PhoneRequired)
    ensures phone != "" && !IsTenDigits(phone) ==> r == Some(PhoneMustBeTenDigits)
  {
    if phone == "" then Some(PhoneRequired)
    else if !IsTenDigits(phone) then Some(PhoneMustBeTenDigits)
    else None
  }

  /** Every rule of the form passes. */
  ghost predicate Complete(form: Form) {
    IsTenDigits(form.phone) && HasEmailShape(form.email) && LongEnough(form.password)
  }

  /** `validateForm`: one message per failing field, none for a passing one. */
  function Validate(form: Form): (errors: Errors)
    ensures errors.Keys <= FieldKeys
    ensures errors == map[] <==> Complete(form)
  {
    var e := Put(map[], Phone, PhoneRule(form.phone));
    var e := Put(e, Email, EmailRule(form.email));
    Put(e, Password, PasswordRule(form.password))
  }

  /** Each key holds exactly its own field's rule result. */
  lemma ValidateByField(form: Form)
    ensures Lookup(Validate(form), Phone) == PhoneRule(form.phone)
    ensures Lookup(Validate(form), Email) == EmailRule(form.email)
    ensures Lookup(Validate(form), Password) == PasswordRule(form.password)
  {
  }

  /** A non-empty password shorter than eight characters gets the length message. */
  lemma ShortPasswordRejected(form: Form)
    requires form.password != "" && |form.password| < 8
    ensures Lookup(Validate(form), Password) == Some(PasswordTooShort)
  {
    ValidateByField(form);
  }

  /** The one pair of credentials the mock accepts. */
  const DemoEmail := "john.doe@gmail.com"
  const DemoPassword := "password123"

  /** `mockLogin`: resolves for the demo credentials, rejects otherwise. */
  function MockLogin(form: Form): (o: Outcome)
    ensures FailureOf(o, "Login failed").None? <==> form.email == DemoEmail && form.password == DemoPassword
    ensures FailureOf(o, "Login failed").Some? ==> FailureOf(o, "Login failed").value == "Invalid email or password"
  {
    if form.email == DemoEmail && form.password == DemoPassword then Resolved(true, "Login successful")
    else Rejected("Invalid email or password")
  }

  /** The accepted credentials pass the screen's own email and password
      rules, so with a ten-digit phone the success branch is reachable. */
  lemma DemoCredentialsPass(phone: string)
    requires IsTenDigits(phone)
    ensures var form := Form(phone, DemoEmail, DemoPassword, false);
      Validate(form) == map[] && FailureOf(MockLogin(form), "Login failed").None?
  {
    DemoAddressHasShape();
  }

  class LoginScreen {
    var form: Form
    var errors: Errors
    var message: string
    /** Responses of `mockLogin` calls still awaited, oldest first. */
    var inFlight: seq<Outcome>
    /** How many times `mockLogin` has been called. */
    var actionCalls: nat
    /** Redirect callbacks scheduled and not yet run. */
    var pendingRedirects: nat
    /** Every route navigated to, in order. */
    var navigations: seq<string>

    ghost predicate Valid()
      reads this
    {
      && errors.Keys <= FieldKeys + {General}
      && (General in errors ==> errors.Keys == {General})
      && |inFlight| <= actionCalls
      && forall r :: r in navigations ==> r == BrandInformationRoute
    }

    constructor ()
      ensures Valid()
      ensures form == InitialForm && errors == map[] && message == ""
      ensures inFlight == [] && actionCalls == 0 && pendingRedirects == 0 && navigations == []
    {
      form := InitialForm;
      errors := map[];
      message := "";
      inFlight := [];
      actionCalls := 0;
      pendingRedirects := 0;
      navigations := [];
    }

    /** `handleInputChange(field)`: store the value, blank that field's
        message if one is shown, and empty the submission message. */
    method HandleInputChange(field: Field, value: string)
      requires Valid()
      modifies this
      ensures Valid()
      ensures form == With(old(form), field, value)
      ensures errors == ClearIfSet(old(errors), KeyOf(field))
      ensures message == ""
      ensures inFlight == old(inFlight) && actionCalls == old(actionCalls)
      ensures pendingRedirects == old(pendingRedirects) && navigations == old(navigations)
    {
      form := With(form, field, value);
      errors := ClearIfSet(errors, KeyOf(field));
      message := "";
    }

    /** `handleCheckboxChange`: toggle remember-me and nothing else. */
    method HandleCheckboxChange()
      requires Valid()
      modifies this
      ensures Valid()
      ensures form == old(form).(rememberMe := !old(form).rememberMe)
      ensures errors == old(errors) && message == old(message)
      ensures inFlight == old(inFlight) && actionCalls == old(actionCalls)
      ensures pendingRedirects == old(pendingRedirects) && navigations == old(navigations)
    {
      form := form.(rememberMe := !form.rememberMe);
    }

    /** `handleSubmit` up to the `await`: every submit replaces the error
        map with the fresh validation result; a failing form stops there
        without a submission message, a passing one calls `mockLogin` once. */
    method HandleSubmit()
      requires Valid()
      modifies this
      ensures Valid()
      ensures errors == Validate(form)
      ensures Validate(form) != map[] ==> inFlight == old(inFlight) && actionCalls == old(actionCalls)
      ensures Validate(form) == map[] ==>
        inFlight == old(inFlight) + [MockLogin(form)] && actionCalls == old(actionCalls) + 1
      ensures form == old(form) && message == old(message)
      ensures pendingRedirects == old(pendingRedirects) && navigations == old(navigations)
    {
      var validationErrors := Validate(form);
      errors := validationErrors;
      if |validationErrors| > 0 {
        return;
      }
      inFlight := inFlight + [MockLogin(form)];
      actionCalls := actionCalls + 1;
    }

    /** `handleSubmit` after the `await`: on success a message and one
        scheduled redirect; on failure the error map becomes exactly the
        `general` message, discarding any field messages. */
    method SettleLogin()
      requires Valid() && inFlight != []
      modifies this
      ensures Valid()
      ensures inFlight == old(inFlight)[1..]
      ensures FailureOf(old(inFlight)[0], "Login failed").None? ==>
        && message == "Login successful! Redirecting..."
        && pendingRedirects == old(pendingRedirects) + 1
        && errors == old(errors)
      ensures FailureOf(old(inFlight)[0], "Login failed").Some? ==>
        && errors == map[General := Reported(FailureOf(old(inFlight)[0], "Login failed").value)]
        && message == "Login failed. Please check your credentials and try again."
        && pendingRedirects == old(pendingRedirects)
      ensures form == old(form) && actionCalls == old(actionCalls) && navigations == old(navigations)
    {
      var response := inFlight[0];
      inFlight := inFlight[1..];
      match FailureOf(response, "Login failed")
      case None =>
        message := "Login successful! Redirecting...";
        pendingRedirects := pendingRedirects + 1;
      case Some(failure) =>
        errors := map[General := Reported(failure)];
        message := "Login failed. Please check your credentials and try again.";
    }

    /** The scheduled redirect: navigate to `/BrandInformation`, or, if the
        router throws, show the redirect error instead. */
    method FireRedirect(navigationThrows: bool)
      requires Valid() && pendingRedirects > 0
      modifies this
      ensures Valid()
      ensures pendingRedirects == old(pendingRedirects) - 1
      ensures !navigationThrows ==> navigations == old(navigations) + [BrandInformationRoute] && message == old(message)
      ensures navigationThrows ==>
        navigations == old(navigations) && message == "Error redirecting to brand information. Please try again."
      ensures form == old(form) && errors == old(errors)
      ensures inFlight == old(inFlight) && actionCalls == old(actionCalls)
    {
      pendingRedirects := pendingRedirects - 1;
      if navigationThrows {
        message := "Error redirecting to brand information. Please try again.";
      } else {
        navigations := navigations + [BrandInformationRoute];
      }
    }
  }

  /** Logging in with the demo credentials, nothing else awaited, reaches
      the success message and one scheduled redirect. */
  method LoginWithDemoCredentials(screen: LoginScreen)
    requires screen.Valid() && screen.inFlight == []
    requires IsTenDigits(screen.form.phone)
    requires screen.form.email == DemoEmail && screen.form.password == DemoPassword
    modifies screen
    ensures screen.Valid()
    ensures screen.message == "Login successful! Redirecting..."
    ensures screen.errors == map[] && screen.pendingRedirects == old(screen.pendingRedirects) + 1
  {
    DemoCredentialsPass(screen.form.phone);
    screen.HandleSubmit();
    screen.SettleLogin();
  }

  /** Logging in with any other credentials ends with exactly the `general`
      message and no redirect. */
  method LoginWithOtherCredentials(screen: LoginScreen)
    requires screen.Valid() && screen.inFlight == [] && Complete(screen.form)
    requires screen.form.email != DemoEmail || screen.form.password != DemoPassword
    modifies screen
    ensures screen.Valid()
    ensures screen.errors == map[General := Reported("Invalid email or password")]
    ensures screen.pendingRedirects == old(screen.pendingRedirects)
  {
    screen.HandleSubmit();
    screen.SettleLogin();
  }
}
