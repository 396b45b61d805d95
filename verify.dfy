/** The verification-code screen of src/components/VerifyUI.jsx: one code
    field stored upper-cased, an ordered three-step validation, and the
    submit flow that calls `mockVerifyCode` and on success schedules a
    redirect to `/reset`. `HandleSubmit` runs up to the `await`,
    `SettleVerify` after it, and `FireRedirect` is the `setTimeout` callback. */
module Verify {
  import opened Text
  import opened Forms

  datatype Form = Form(code: string)

  const InitialForm := Form("")

  /** The ordered checks of `validateForm`: required, then at least six
      characters, then only digits and upper-case letters. */
  function CodeRule(code: string): (r: Option<Message>)
    ensures r.None? <==> IsCode(code)
    ensures code == "" ==> r == Some(CodeRequired)
    ensures code != "" && |code| < 6 ==> r == Some(CodeTooShort)
    ensures |code| >= 6 && !IsCode(code) ==> r == Some(CodeNotAlphanumeric)
  {
    if code == "" then Some(CodeRequired)
    else if |code| < 6 then Some(CodeTooShort)
    else if !IsCode(code) then Some(CodeNotAlphanumeric)
    else None
  }

  /** `validateForm`: at most the one key `code`. */
  function Validate(form: Form): (errors: Errors)
    ensures errors.Keys <= {Code}
    ensures errors == map[] <==> |form.code| >= 6 && forall i :: 0 <= i < |form.code| ==> IsCodeChar(form.code[i])
    ensures Lookup(errors, Code) == CodeRule(form.code)
  {
    Put(map[], Code, CodeRule(form.code))
  }

  /** Input typed in lower case passes once the handler upper-cases it. */
  lemma {:induction false} UpperCasedInputPasses(typed: string)
    requires |typed| >= 6
    requires forall i :: 0 <= i < |typed| ==> IsCodeChar(UpperChar(typed[i]))
    ensures Validate(Form(ToUpper(typed))) == map[]
  {
    forall i | 0 <= i < |typed|
      ensures IsCodeChar(ToUpper(typed)[i])
    {
      ToUpperAt(typed, i);
    }
  }

  const DemoCode := "123456"

  /** `mockVerifyCode`: resolves for the demo code, rejects otherwise. */
  function MockVerifyCode(code: string): (o: Outcome)
    ensures FailureOf(o, "Invalid verification code").None? <==> code == DemoCode
    ensures FailureOf(o, "Invalid verification code").Some? ==>
      FailureOf(o, "Invalid verification code").value == "Invalid or expired code"
  {
    if code == DemoCode then Resolved(true, "Code verified") else Rejected("Invalid or expired code")
  }

  /** The code the mock accepts passes the screen's own validation and is
      left as it is by the upper-casing handler. */
  lemma DemoCodePasses()
    ensures Validate(Form(DemoCode)) == map[]
    ensures ToUpper(DemoCode) == DemoCode
  {
    ToUpperKeepsCode(DemoCode);
  }

  /** The stored code holds no lower-case letter. */
  ghost predicate UpperCased(code: string) {
    forall i :: 0 <= i < |code| ==> !IsLower(code[i])
  }

  class VerifyScreen {
    var form: Form
    var errors: Errors
    var message: string
    /** Responses of `mockVerifyCode` calls still awaited, oldest first. */
    var inFlight: seq<Outcome>
    /** How many times `mockVerifyCode` has been called. */
    var actionCalls: nat
    /** Redirect callbacks scheduled and not yet run. */
    var pendingRedirects: nat
    /** Every route navigated to, in order. */
    var navigations: seq<string>

    ghost predicate Valid()
      reads this
    {
      && UpperCased(form.code)
      && errors.Keys <= {Code}
      && |inFlight| <= actionCalls
      && forall r :: r in navigations ==> r == ResetRoute
    }

    constructor ()
      ensures Valid()
      ensures form == InitialForm && errors == map[] && message == ""
      ensures inFlight == [] && actionCalls == 0 && pendingRedirects == 0 && navigations == []
    {
      form := InitialForm;
      errors := map[];
      message := "";
      inFlight := [];
      actionCalls := 0;
      pendingRedirects := 0;
      navigations := [];
    }

    /** `handleInputChange`: store the upper-cased input, blank the code
        message if one is shown, and empty the submission message. */
    method HandleInputChange(typed: string)
      requires Valid()
      modifies this
      ensures Valid()
      ensures form == Form(ToUpper(typed))
      ensures errors == ClearIfSet(old(errors), Code)
      ensures message == ""
      ensures inFlight == old(inFlight) && actionCalls == old(actionCalls)
      ensures pendingRedirects == old(pendingRedirects) && navigations == old(navigations)
    {
      ToUpperHasNoLower(typed);
      form := form.(code := ToUpper(typed));
      errors := ClearIfSet(errors, Code);
      message := "";
    }

    /** `handleSubmit` up to the `await`: a failing code sets the errors and
        a message and stops; a passing one leaves the errors as they are
        and calls `mockVerifyCode` once. */
    method HandleSubmit()
      requires Valid()
      modifies this
      ensures Valid()
      ensures Validate(form) != map[] ==>
        && errors == Validate(form)
        && message == "Please enter a valid verification code."
        && inFlight == old(inFlight) && actionCalls == old(actionCalls)
      ensures Validate(form) == map[] ==>
        && errors == old(errors) && message == old(message)
        && inFlight == old(inFlight) + [MockVerifyCode(form.code)]
        && actionCalls == old(actionCalls) + 1
      ensures form == old(form)
      ensures pendingRedirects == old(pendingRedirects) && navigations == old(navigations)
    {
      var validationErrors := Validate(form);
      if |validationErrors| > 0 {
        errors := validationErrors;
        message := "Please enter a valid verification code.";
        return;
      }
      inFlight := inFlight + [MockVerifyCode(form.code)];
      actionCalls := actionCalls + 1;
    }

    /** `handleSubmit` after the `await`: on success a message and one
        scheduled redirect; on failure the message goes under `code`, not
        under `general`. */
    method SettleVerify()
      requires Valid() && inFlight != []
      modifies this
      ensures Valid()
      ensures inFlight == old(inFlight)[1..]
      ensures FailureOf(old(inFlight)[0], "Invalid verification code").None? ==>
        && message == "Code verified successfully! Redirecting..."
        && pendingRedirects == old(pendingRedirects) + 1
        && errors == old(errors)
      ensures FailureOf(old(inFlight)[0], "Invalid verification code").Some? ==>
        && errors == map[Code := Reported(FailureOf(old(inFlight)[0], "Invalid verification code").value)]
        && message == "Verification failed. Please check the code and try again."
        && pendingRedirects == old(pendingRedirects)
      ensures form == old(form) && actionCalls == old(actionCalls) && navigations == old(navigations)
    {
      var response := inFlight[0];
      inFlight := inFlight[1..];
      match FailureOf(response, "Invalid verification code")
      case None =>
        message := "Code verified successfully! Redirecting...";
        pendingRedirects := pendingRedirects + 1;
      case Some(failure) =>
        errors := map[Code := Reported(failure)];
        message := "Verification failed. Please check the code and try again.";
    }

    /** The scheduled redirect: navigate to `/reset`, or, if the router
        throws, show the redirect error instead. */
    method FireRedirect(navigationThrows: bool)
      requires Valid() && pendingRedirects > 0
      modifies this
      ensures Valid()
      ensures pendingRedirects == old(pendingRedirects) - 1
      ensures !navigationThrows ==> navigations == old(navigations) + [ResetRoute] && message == old(message)
      ensures navigationThrows ==> navigations == old(navigations) && message == "Error redirecting. Please try again."
      ensures form == old(form) && errors == old(errors)
      ensures inFlight == old(inFlight) && actionCalls == old(actionCalls)
    {
      pendingRedirects := pendingRedirects - 1;
      if navigationThrows {
        message := "Error redirecting. Please try again.";
      } else {
        navigations := navigations + [ResetRoute];
      }
    }
  }

  /** Typing the demo code and submitting, nothing else awaited, reaches the
      success message and one scheduled redirect. */
  method EnterDemoCode(screen: VerifyScreen)
    requires screen.Valid() && screen.inFlight == []
    modifies screen
    ensures screen.Valid()
    ensures screen.form.code == DemoCode
    ensures screen.message == "Code verified successfully! Redirecting..."
    ensures screen.pendingRedirects == old(screen.pendingRedirects) + 1
  {
    DemoCodePasses();
    screen.HandleInputChange(DemoCode);
    screen.HandleSubmit();
    screen.SettleVerify();
  }
}
