/** The reset-password screen of src/components/ResetUI.jsx: a new password
    and its confirmation, and the submit flow that validates, calls
    `mockResetPassword`, and on success schedules a redirect to `/`.
    `HandleSubmit` runs up to the `await`, `SettleReset` after it, and
    `FireRedirect` is the `setTimeout` callback. */
module Reset {
  import opened Text
  import opened Forms

  datatype Form = Form(password: string, confirmPassword: string)

  const InitialForm := Form("", "")

  /** The text inputs, each wired to `handleInputChange(key)`. */
  datatype Field = PasswordInput | ConfirmPasswordInput

  function KeyOf(f: Field): Key {
    match f
    case PasswordInput => Password
    case ConfirmPasswordInput => ConfirmPassword
  }

  const FieldKeys: set<Key> := {Password, ConfirmPassword}

  /** `{ ...formData, [field]: value }` */
  function With(form: Form, f: Field, value: string): (r: Form)
    ensures f == PasswordInput ==> r == form.(password := value)
    ensures f == ConfirmPasswordInput ==> r == form.(confirmPassword := value)
  {
    match f
    case PasswordInput => form.(password := value)
    case ConfirmPasswordInput => form.(confirmPassword := value)
  }

  /** Every rule of the form passes. */
  predicate Complete(form: Form) {
    LongEnough(form.password) && form.confirmPassword == form.password
  }

  /** `validateForm`: one message per failing field, none for a passing one. */
  function Validate(form: Form): (errors: Errors)
    ensures errors.Keys <= FieldKeys
    ensures errors == map[] <==> Complete(form)
  {
    var e := Put(map[], Password, PasswordRule(form.password));
    Put(e, ConfirmPassword, ConfirmRule(form.password, form.confirmPassword))
  }

  /** Each key holds exactly its own field's rule result. */
  lemma ValidateByField(form: Form)
    ensures Lookup(Validate(form), Password) == PasswordRule(form.password)
    ensures Lookup(Validate(form), ConfirmPassword) == ConfirmRule(form.password, form.confirmPassword)
  {
  }

  /** `mockResetPassword`: resolves when the password has at least eight characters. */
  function MockResetPassword(password: string): (o: Outcome)
    ensures FailureOf(o, "Failed to reset password").None? <==> LongEnough(password)
    ensures FailureOf(o, "Failed to reset password").Some? ==>
      FailureOf(o, "Failed to reset password").value == "Password reset failed"
  {
    if |password| >= 8 then Resolved(true, "Password reset") else Rejected("Password reset failed")
  }

  /** The mock asks no more than the validator: every form that passes
      `validateForm` is accepted. */
  lemma CompleteFormIsAccepted(form: Form)
    requires Validate(form) == map[]
    ensures FailureOf(MockResetPassword(form.password), "Failed to reset password").None?
  {
  }

  class ResetScreen {
    var form: Form
    var errors: Errors
    var message: string
    /** Responses of `mockResetPassword` calls still awaited, oldest first. */
    var inFlight: seq<Outcome>
    /** How many times `mockResetPassword` has been called. */
    var actionCalls: nat
    /** Redirect callbacks scheduled and not yet run. */
    var pendingRedirects: nat
    /** Every route navigated to, in order. */
    var navigations: seq<string>

    ghost predicate Valid()
      reads this
    {
      && errors.Keys <= FieldKeys + {General}
      && (General in errors ==> errors.Keys == {General})
      && |inFlight| <= actionCalls
      && forall r :: r in navigations ==> r == LoginRoute
    }

    constructor ()
      ensures Valid()
      ensures form == InitialForm && errors == map[] && message == ""
      ensures inFlight == [] && actionCalls == 0 && pendingRedirects == 0 && navigations == []
    {
      form := InitialForm;
      errors := map[];
      message := "";
      inFlight := [];
      actionCalls := 0;
      pendingRedirects := 0;
      navigations := [];
    }

    /** `handleInputChange(field)`: store the value, blank that field's
        message if one is shown, and empty the submission message. */
    method HandleInputChange(field: Field, value: string)
      requires Valid()
      modifies this
      ensures Valid()
      ensures form == With(old(form), field, value)
      ensures errors == ClearIfSet(old(errors), KeyOf(field))
      ensures message == ""
      ensures inFlight == old(inFlight) && actionCalls == old(actionCalls)
      ensures pendingRedirects == old(pendingRedirects) && navigations == old(navigations)
    {
      form := With(form, field, value);
      errors := ClearIfSet(errors, KeyOf(field));
      message := "";
    }

    /** `handleSubmit` up to the `await`: a failing form sets the errors and
        a message and stops; a passing one leaves the errors as they are
        and calls `mockResetPassword` once with the password. */
    method HandleSubmit()
      requires Valid()
      modifies this
      ensures Valid()
      ensures Validate(form) != map[] ==>
        && errors == Validate(form)
        && message == "Please enter valid password details."
        && inFlight == old(inFlight) && actionCalls == old(actionCalls)
      ensures Validate(form) == map[] ==>
        && errors == old(errors) && message == old(message)
        && inFlight == old(inFlight) + [MockResetPassword(form.password)]
        && actionCalls == old(actionCalls) + 1
      ensures form == old(form)
      ensures pendingRedirects == old(pendingRedirects) && navigations == old(navigations)
    {
      var validationErrors := Validate(form);
      if |validationErrors| > 0 {
        errors := validationErrors;
        message := "Please enter valid password details.";
        return;
      }
      inFlight := inFlight + [MockResetPassword(form.password)];
      actionCalls := actionCalls + 1;
    }

    /** `handleSubmit` after the `await`: on success a message and one
        scheduled redirect; on failure the `general` message alone. */
    method SettleReset()
      requires Valid() && inFlight != []
      modifies this
      ensures Valid()
      ensures inFlight == old(inFlight)[1..]
      ensures FailureOf(old(inFlight)[0], "Failed to reset password").None? ==>
        && message == "Password reset successfully! Redirecting to login..."
        && pendingRedirects == old(pendingRedirects) + 1
        && errors == old(errors)
      ensures FailureOf(old(inFlight)[0], "Failed to reset password").Some? ==>
        && errors == map[General := Reported(FailureOf(old(inFlight)[0], "Failed to reset password").value)]
        && message == "Password reset failed. Please try again."
        && pendingRedirects == old(pendingRedirects)
      ensures form == old(form) && actionCalls == old(actionCalls) && navigations == old(navigations)
    {
      var response := inFlight[0];
      inFlight := inFlight[1..];
      match FailureOf(response, "Failed to reset password")
      case None =>
        message := "Password reset successfully! Redirecting to login...";
        pendingRedirects := pendingRedirects + 1;
      case Some(failure) =>
        errors := map[General := Reported(failure)];
        message := "Password reset failed. Please try again.";
    }

    /** The scheduled redirect: navigate to `/`, or, if the router throws,
        show the redirect error instead. */
    method FireRedirect(navigationThrows: bool)
      requires Valid() && pendingRedirects > 0
      modifies this
      ensures Valid()
      ensures pendingRedirects == old(pendingRedirects) - 1
      ensures !navigationThrows ==> navigations == old(navigations) + [LoginRoute] && message == old(message)
      ensures navigationThrows ==> navigations == old(navigations) && message == "Error redirecting. Please try again."
      ensures form == old(form) && errors == old(errors)
      ensures inFlight == old(inFlight) && actionCalls == old(actionCalls)
    {
      pendingRedirects := pendingRedirects - 1;
      if navigationThrows {
        message := "Error redirecting. Please try again.";
      } else {
        navigations := navigations + [LoginRoute];
      }
    }
  }

  /** A form that passes validation, submitted with nothing else awaited,
      always reaches the success message and one scheduled redirect. */
  method SubmitComplete(screen: ResetScreen)
    requires screen.Valid() && screen.inFlight == [] && Complete(screen.form)
    modifies screen
    ensures screen.Valid()
    ensures screen.message == "Password reset successfully! Redirecting to login..."
    ensures screen.errors == old(screen.errors)
    ensures screen.pendingRedirects == old(screen.pendingRedirects) + 1
  {
    screen.HandleSubmit();
    screen.SettleReset();
  }
}
