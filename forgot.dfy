/** The forgot-password screen of src/components/ForgotUI.jsx: one email
    field and the submit flow that validates, calls `mockForgotPassword`,
    and on success schedules a redirect to `/verify`, falling back to a
    second redirect to `/` when that navigation throws. `HandleSubmit` runs
    up to the `await`, `SettleForgot` after it; the two `setTimeout`
    callbacks are `FireVerifyRedirect` and `FireLoginRedirect`. */
module Forgot {
  import opened EmailShape
  import opened Forms

  datatype Form = Form(email: string)

  const InitialForm := Form("")

  const FieldKeys: set<Key> := {Email}

  /** `validateForm`: the email rule alone. */
  function Validate(form: Form): (errors: Errors)
    ensures errors.Keys <= FieldKeys
    ensures errors == map[] <==> HasEmailShape(form.email)
    ensures Lookup(errors, Email) == EmailRule(form.email)
  {
    Put(map[], Email, EmailRule(form.email))
  }

  const DemoEmail := "john.doe@gmail.com"

  /** `mockForgotPassword`: resolves for the demo address, rejects otherwise. */
  function MockForgotPassword(email: string): (o: Outcome)
    ensures FailureOf(o, "Failed to send reset link").None? <==> email == DemoEmail
    ensures FailureOf(o, "Failed to send reset link").Some? ==>
      FailureOf(o, "Failed to send reset link").value == "Email not found"
  {
    if email == DemoEmail then Resolved(true, "Reset link sent") else Rejected("Email not found")
  }

  /** The address the mock accepts passes the screen's own validation. */
  lemma DemoEmailPasses()
    ensures Validate(Form(DemoEmail)) == map[]
    ensures FailureOf(MockForgotPassword(DemoEmail), "Failed to send reset link").None?
  {
    DemoAddressHasShape();
  }

  class ForgotScreen {
    var form: Form
    var errors: Errors
    var message: string
    /** Responses of `mockForgotPassword` calls still awaited, oldest first. */
    var inFlight: seq<Outcome>
    /** How many times `mockForgotPassword` has been called. */
    var actionCalls: nat
    /** Scheduled redirects to `/verify` not yet run. */
    var pendingVerifyRedirects: nat
    /** Scheduled fallback redirects to `/` not yet run. */
    var pendingLoginRedirects: nat
    /** Every route navigated to, in order. */
    var navigations: seq<string>

    ghost predicate Valid()
      reads this
    {
      && errors.Keys <= FieldKeys + {General}
      && (General in errors ==> errors.Keys == {General})
      && |inFlight| <= actionCalls
      && forall r :: r in navigations ==> r == VerifyRoute || r == LoginRoute
    }

    constructor ()
      ensures Valid()
      ensures form == InitialForm && errors == map[] && message == ""
      ensures inFlight == [] && actionCalls == 0 && navigations == []
      ensures pendingVerifyRedirects == 0 && pendingLoginRedirects == 0
    {
      form := InitialForm;
      errors := map[];
      message := "";
      inFlight := [];
      actionCalls := 0;
      pendingVerifyRedirects := 0;
      pendingLoginRedirects := 0;
      navigations := [];
    }

    /** `handleInputChange('email')`: store the value, blank the email
        message if one is shown, and empty the submission message. */
    method HandleInputChange(value: string)
      requires Valid()
      modifies this
      ensures Valid()
      ensures form == Form(value)
      ensures errors == ClearIfSet(old(errors), Email)
      ensures message == ""
      ensures inFlight == old(inFlight) && actionCalls == old(actionCalls) && navigations == old(navigations)
      ensures pendingVerifyRedirects == old(pendingVerifyRedirects) && pendingLoginRedirects == old(pendingLoginRedirects)
    {
      form := form.(email := value);
      errors := ClearIfSet(errors, Email);
      message := "";
    }

    /** `handleSubmit` up to the `await`: the error map becomes the fresh
        validation result; a failing form stops there, a passing one calls
        `mockForgotPassword` once with the email. */
    method HandleSubmit()
      requires Valid()
      modifies this
      ensures Valid()
      ensures errors == Validate(form)
      ensures Validate(form) != map[] ==> inFlight == old(inFlight) && actionCalls == old(actionCalls)
      ensures Validate(form) == map[] ==>
        inFlight == old(inFlight) + [MockForgotPassword(form.email)] && actionCalls == old(actionCalls) + 1
      ensures form == old(form) && message == old(message) && navigations == old(navigations)
      ensures pendingVerifyRedirects == old(pendingVerifyRedirects) && pendingLoginRedirects == old(pendingLoginRedirects)
    {
      var validationErrors := Validate(form);
      errors := validationErrors;
      if |validationErrors| > 0 {
        return;
      }
      inFlight := inFlight + [MockForgotPassword(form.email)];
      actionCalls := actionCalls + 1;
    }

    /** `handleSubmit` after the `await`: on success a message and one
        scheduled redirect to `/verify`; on failure the `general` message
        alone, repeated in the submission message. */
    method SettleForgot()
      requires Valid() && inFlight != []
      modifies this
      ensures Valid()
      ensures inFlight == old(inFlight)[1..]
      ensures FailureOf(old(inFlight)[0], "Failed to send reset link").None? ==>
        && message == "Reset link sent! Redirecting to verification page..."
        && pendingVerifyRedirects == old(pendingVerifyRedirects) + 1
        && errors == old(errors)
      ensures FailureOf(old(inFlight)[0], "Failed to send reset link").Some? ==>
        var failure := FailureOf(old(inFlight)[0], "Failed to send reset link").value;
        && errors == map[General := Reported(failure)]
        && message == "Failed to send reset link: " + failure
        && pendingVerifyRedirects == old(pendingVerifyRedirects)
      ensures form == old(form) && actionCalls == old(actionCalls) && navigations == old(navigations)
      ensures pendingLoginRedirects == old(pendingLoginRedirects)
    {
      var response := inFlight[0];
      inFlight := inFlight[1..];
      match FailureOf(response, "Failed to send reset link")
      case None =>
        message := "Reset link sent! Redirecting to verification page...";
        pendingVerifyRedirects := pendingVerifyRedirects + 1;
      case Some(failure) =>
        errors := map[General := Reported(failure)];
        message := "Failed to send reset link: " + failure;
    }

    /** The first redirect: navigate to `/verify`; if the router throws,
        say so and schedule the fallback redirect to `/`. */
    method FireVerifyRedirect(navigationThrows: bool)
      requires Valid() && pendingVerifyRedirects > 0
      modifies this
      ensures Valid()
      ensures pendingVerifyRedirects == old(pendingVerifyRedirects) - 1
      ensures !navigationThrows ==>
        && navigations == old(navigations) + [VerifyRoute]
        && message == old(message) && pendingLoginRedirects == old(pendingLoginRedirects)
      ensures navigationThrows ==>
        && navigations == old(navigations)
        && message == "Error redirecting to verification page. Redirecting to login..."
        && pendingLoginRedirects == old(pendingLoginRedirects) + 1
      ensures form == old(form) && errors == old(errors)
      ensures inFlight == old(inFlight) && actionCalls == old(actionCalls)
    {
      pendingVerifyRedirects := pendingVerifyRedirects - 1;
      if navigationThrows {
        message := "Error redirecting to verification page. Redirecting to login...";
        pendingLoginRedirects := pendingLoginRedirects + 1;
      } else {
        navigations := navigations + [VerifyRoute];
      }
    }

    /** The fallback redirect: navigate to `/`. */
    method FireLoginRedirect()
      requires Valid() && pendingLoginRedirects > 0
      modifies this
      ensures Valid()
      ensures pendingLoginRedirects == old(pendingLoginRedirects) - 1
      ensures navigations == old(navigations) + [LoginRoute]
      ensures form == old(form) && errors == old(errors) && message == old(message)
      ensures inFlight == old(inFlight) && actionCalls == old(actionCalls)
      ensures pendingVerifyRedirects == old(pendingVerifyRedirects)
    {
      pendingLoginRedirects := pendingLoginRedirects - 1;
      navigations := navigations + [LoginRoute];
    }
  }

  /** A successful request whose first navigation throws still ends on `/`. */
  method RecoverFromFailedRedirect(screen: ForgotScreen)
    requires screen.Valid() && screen.inFlight == [] && screen.form.email == DemoEmail
    requires screen.pendingVerifyRedirects == 0 && screen.pendingLoginRedirects == 0
    modifies screen
    ensures screen.Valid()
    ensures screen.navigations == old(screen.navigations) + [LoginRoute]
    ensures screen.pendingVerifyRedirects == 0 && screen.pendingLoginRedirects == 0
  {
    DemoEmailPasses();
    screen.HandleSubmit();
    screen.SettleForgot();
    screen.FireVerifyRedirect(true);
    screen.FireLoginRedirect();
  }
}
