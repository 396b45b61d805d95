/** The signup screen of NEOMARCHE/src/components/auth/SignupUI.jsx: eight
    separate field states, an error map whose entries the field handlers
    null out, an `isLoading` flag that disables the submit button, a
    success message, and its own copy of the slide carousel.
    `validateEmail`, `validateCountryCode`, `validatePhone` and
    `validatePassword` come from a module that is not part of this model,
    so they are a parameter of the screen. */
module NeoSignup {
  import opened Text
  import Forms
  import Carousel

  /** The imported format validators, left uninterpreted. */
  datatype Validators = Validators(
    email: string -> bool,
    countryCode: string -> bool,
    phone: string -> bool,
    password: string -> bool)

  /** The keys of this screen's `errors` object. */
  datatype SignupKey =
    | FirstNameKey | LastNameKey | SignupEmailKey | SignupCountryCodeKey | SignupPhoneKey
    | SignupPasswordKey | ConfirmPasswordKey | AgreeTermsKey | SignupGeneralKey

  const FieldKeys: set<SignupKey> := {FirstNameKey, LastNameKey, SignupEmailKey, SignupCountryCodeKey,
                                      SignupPhoneKey, SignupPasswordKey, ConfirmPasswordKey, AgreeTermsKey}

  datatype Message =
    | FirstNameRequired | LastNameRequired
    | EmailRequired | EmailInvalid
    | CountryCodeRequired | CountryCodeInvalid
    | PhoneRequired | PhoneInvalid
    | PasswordRequired | PasswordTooShort
    | ConfirmRequired | PasswordsDoNotMatch
    | TermsRequired

  function TextOf(m: Message): string {
    match m
    case FirstNameRequired => "First name is required"
    case LastNameRequired => "Last name is required"
    case EmailRequired => "Email is required"
    case EmailInvalid => "Please enter a valid email address"
    case CountryCodeRequired => "Country code is required"
    case CountryCodeInvalid => "Invalid country code"
    case PhoneRequired => "Phone number is required"
    case PhoneInvalid => "Invalid phone number"
    case PasswordRequired => "Password is required"
    case PasswordTooShort => "Password must be at least 8 characters"
    case ConfirmRequired => "Confirm password is required"
    case PasswordsDoNotMatch => "Passwords do not match"
    case TermsRequired => "You must agree to the terms"
  }

  /** An entry of `errors`: `null` after a field handler ran, else a message. */
  type Errors = map<SignupKey, Forms.Option<Message>>

  datatype Form = Form(
    firstName: string,
    lastName: string,
    signupEmail: string,
    signupCountryCode: string,
    signupPhone: string,
    signupPassword: string,
    confirmPassword: string,
    agreeTerms: bool)

  const EmptyForm := Form("", "", "", "", "", "", "", false)

  /** A required field with one format check: the check runs only on a
      non-empty value. */
  function Checked(value: string, valid: bool, missing: Message, invalid: Message): (r: Forms.Option<Message>)
    ensures r.None? <==> value != "" && valid
    ensures value == "" ==> r == Forms.Some(missing)
    ensures value != "" && !valid ==> r == Forms.Some(invalid)
  {
    if value == "" then Forms.Some(missing)
    else if !valid then Forms.Some(invalid)
    else Forms.None
  }

  function ConfirmRule(password: string, confirm: string): (r: Forms.Option<Message>)
    ensures r.None? <==> confirm != "" && confirm == password
    ensures r == Forms.Some(PasswordsDoNotMatch) <==> confirm != "" && confirm != password
  {
    Checked(confirm, confirm == password, ConfirmRequired, PasswordsDoNotMatch)
  }

  /** `newErrors[key] = message` when the rule fails; the key is absent otherwise. */
  function Put(errors: Errors, key: SignupKey, rule: Forms.Option<Message>): (r: Errors)
    ensures r == map[] <==> errors == map[] && rule.None?
  {
    match rule
    case None => errors
    case Some(message) =>
      assert key in errors[key := Forms.Some(message)];
      errors[key := Forms.Some(message)]
  }

  function Lookup(errors: Errors, key: SignupKey): Forms.Option<Message> {
    if key in errors then errors[key] else Forms.None
  }

  /** Every check of `handleSignup` passes. */
  ghost predicate Complete(form: Form, v: Validators) {
    && form.firstName != ""
    && form.lastName != ""
    && form.signupEmail != "" && v.email(form.signupEmail)
    && form.signupCountryCode != "" && v.countryCode(form.signupCountryCode)
    && form.signupPhone != "" && v.phone(form.signupPhone)
    && form.signupPassword != "" && v.password(form.signupPassword)
    && form.confirmPassword == form.signupPassword
    && form.agreeTerms
  }

  /** The error object `handleSignup` builds. */
  function Validate(form: Form, v: Validators): (errors: Errors)
    ensures errors.Keys <= FieldKeys
    ensures errors == map[] <==> Complete(form, v)
  {
    var e := Put(map[], FirstNameKey, if form.firstName == "" then Forms.Some(FirstNameRequired) else Forms.None);
    var e := Put(e, LastNameKey, if form.lastName == "" then Forms.Some(LastNameRequired) else Forms.None);
    var e := Put(e, SignupEmailKey, Checked(form.signupEmail, v.email(form.signupEmail), EmailRequired, EmailInvalid));
    var e := Put(e, SignupCountryCodeKey,
                 Checked(form.signupCountryCode, v.countryCode(form.signupCountryCode), CountryCodeRequired, CountryCodeInvalid));
    var e := Put(e, SignupPhoneKey, Checked(form.signupPhone, v.phone(form.signupPhone), PhoneRequired, PhoneInvalid));
    var e := Put(e, SignupPasswordKey,
                 Checked(form.signupPassword, v.password(form.signupPassword), PasswordRequired, PasswordTooShort));
    var e := Put(e, ConfirmPasswordKey, ConfirmRule(form.signupPassword, form.confirmPassword));
    Put(e, AgreeTermsKey, if !form.agreeTerms then Forms.Some(TermsRequired) else Forms.None)
  }

  /** Each key holds exactly its own field's check. */
  lemma ValidateByField(form: Form, v: Validators)
    ensures Lookup(Validate(form, v), FirstNameKey) == (if form.firstName == "" then Forms.Some(FirstNameRequired) else Forms.None)
    ensures Lookup(Validate(form, v), LastNameKey) == (if form.lastName == "" then Forms.Some(LastNameRequired) else Forms.None)
    ensures Lookup(Validate(form, v), SignupEmailKey)
            == Checked(form.signupEmail, v.email(form.signupEmail), EmailRequired, EmailInvalid)
    ensures Lookup(Validate(form, v), SignupCountryCodeKey)
            == Checked(form.signupCountryCode, v.countryCode(form.signupCountryCode), CountryCodeRequired, CountryCodeInvalid)
    ensures Lookup(Validate(form, v), SignupPhoneKey)
            == Checked(form.signupPhone, v.phone(form.signupPhone), PhoneRequired, PhoneInvalid)
    ensures Lookup(Validate(form, v), SignupPasswordKey)
            == Checked(form.signupPassword, v.password(form.signupPassword), PasswordRequired, PasswordTooShort)
    ensures Lookup(Validate(form, v), ConfirmPasswordKey) == ConfirmRule(form.signupPassword, form.confirmPassword)
    ensures Lookup(Validate(form, v), AgreeTermsKey) == (if !form.agreeTerms then Forms.Some(TermsRequired) else Forms.None)
    ensures SignupGeneralKey !in Validate(form, v)
  {
    ValidateNames(form, v);
    ValidateContact(form, v);
    ValidateSecrets(form, v);
  }

  lemma ValidateNames(form: Form, v: Validators)
    ensures Lookup(Validate(form, v), FirstNameKey) == (if form.firstName == "" then Forms.Some(FirstNameRequired) else Forms.None)
    ensures Lookup(Validate(form, v), LastNameKey) == (if form.lastName == "" then Forms.Some(LastNameRequired) else Forms.None)
  {
  }

  lemma ValidateContact(form: Form, v: Validators)
    ensures Lookup(Validate(form, v), SignupEmailKey)
            == Checked(form.signupEmail, v.email(form.signupEmail), EmailRequired, EmailInvalid)
    ensures Lookup(Validate(form, v), SignupCountryCodeKey)
            == Checked(form.signupCountryCode, v.countryCode(form.signupCountryCode), CountryCodeRequired, CountryCodeInvalid)
    ensures Lookup(Validate(form, v), SignupPhoneKey)
            == Checked(form.signupPhone, v.phone(form.signupPhone), PhoneRequired, PhoneInvalid)
  {
  }

  lemma ValidateSecrets(form: Form, v: Validators)
    ensures Lookup(Validate(form, v), SignupPasswordKey)
            == Checked(form.signupPassword, v.password(form.signupPassword), PasswordRequired, PasswordTooShort)
    ensures Lookup(Validate(form, v), ConfirmPasswordKey) == ConfirmRule(form.signupPassword, form.confirmPassword)
    ensures Lookup(Validate(form, v), AgreeTermsKey) == (if !form.agreeTerms then Forms.Some(TermsRequired) else Forms.None)
    ensures SignupGeneralKey !in Validate(form, v)
  {
  }

  /** Every entry `handleSignup` writes holds a message, never `null`. */
  lemma ValidateHoldsMessages(form: Form, v: Validators)
    ensures forall k :: k in Validate(form, v) ==> Validate(form, v)[k].Some?
  {
  }

  /** The mismatch message appears exactly when the confirmation is
      non-empty and differs from the password, whatever the validators say
      about the password. */
  lemma MismatchOnlyWhenDifferent(form: Form, v: Validators)
    ensures Lookup(Validate(form, v), ConfirmPasswordKey) == Forms.Some(PasswordsDoNotMatch)
            <==> form.confirmPassword != "" && form.confirmPassword != form.signupPassword
  {
  }

  /** The required check comes first: the imported validators are only
      consulted on non-empty values, so two sets of validators that agree on
      the form's non-empty values give the same error object. */
  lemma ValidatorsSeeOnlyNonEmpty(form: Form, v: Validators, w: Validators)
    requires form.signupEmail != "" ==> v.email(form.signupEmail) == w.email(form.signupEmail)
    requires form.signupCountryCode != "" ==> v.countryCode(form.signupCountryCode) == w.countryCode(form.signupCountryCode)
    requires form.signupPhone != "" ==> v.phone(form.signupPhone) == w.phone(form.signupPhone)
    requires form.signupPassword != "" ==> v.password(form.signupPassword) == w.password(form.signupPassword)
    ensures Validate(form, v) == Validate(form, w)
  {
  }

  /** `{ ...prev, [key]: null, signupGeneral: null }` */
  function Cleared(errors: Errors, key: SignupKey): (r: Errors)
    ensures r.Keys == errors.Keys + {key, SignupGeneralKey}
    ensures r[key] == Forms.None && r[SignupGeneralKey] == Forms.None
    ensures forall k :: k in errors && k != key && k != SignupGeneralKey ==> r[k] == errors[k]
  {
    errors[key := Forms.None][SignupGeneralKey := Forms.None]
  }

  /** The country-code input keeps only digit strings of at most four characters. */
  predicate AcceptsCountryCode(value: string) {
    (AllDigits(value) || value == "") && |value| <= 4
  }

  /** The phone input keeps only digit strings of at most fifteen characters. */
  predicate AcceptsPhone(value: string) {
    (AllDigits(value) || value == "") && |value| <= 15
  }

  /** Both filters let the field be emptied and refuse any non-digit. */
  lemma FiltersAcceptEmptyRejectNonDigits(value: string, i: int)
    requires 0 <= i < |value| && !IsDigit(value[i])
    ensures AcceptsCountryCode("") && AcceptsPhone("")
    ensures !AcceptsCountryCode(value) && !AcceptsPhone(value)
  {
  }

  /** The text inputs whose handler takes the value as typed. */
  datatype TextInput = FirstNameInput | LastNameInput | EmailInput | PasswordInput | ConfirmPasswordInput

  function KeyOf(input: TextInput): SignupKey {
    match input
    case FirstNameInput => FirstNameKey
    case LastNameInput => LastNameKey
    case EmailInput => SignupEmailKey
    case PasswordInput => SignupPasswordKey
    case ConfirmPasswordInput => ConfirmPasswordKey
  }

  const LoginRoute := "/login"

  class SignupScreen {
    const validators: Validators
    var firstName: string
    var lastName: string
    var signupEmail: string
    var signupCountryCode: string
    var signupPhone: string
    var signupPassword: string
    var confirmPassword: string
    var agreeTerms: bool
    var errors: Errors
    var isLoading: bool
    var successMessage: string
    var activeSlide: int
    /** Submissions whose one-second wait has not yet finished. */
    var signupsAwaited: nat
    /** Redirect callbacks scheduled and not yet run. */
    var pendingRedirects: nat
    /** Every route navigated to, in order. */
    var navigations: seq<string>

    function CurrentForm(): Form
      reads this
    {
      Form(firstName, lastName, signupEmail, signupCountryCode, signupPhone, signupPassword, confirmPassword, agreeTerms)
    }

    ghost predicate Valid()
      reads this
    {
      && AcceptsCountryCode(signupCountryCode)
      && AcceptsPhone(signupPhone)
      && Carousel.IsSlide(activeSlide)
      && (isLoading <==> signupsAwaited > 0)
      && signupsAwaited <= 1
      && (isLoading ==> forall k :: k in errors ==> errors[k].None?)
      && forall r :: r in navigations ==> r == LoginRoute
    }

    constructor (validators: Validators)
      ensures Valid()
      ensures this.validators == validators
      ensures CurrentForm() == EmptyForm && errors == map[]
      ensures !isLoading && successMessage == "" && activeSlide == 0
      ensures signupsAwaited == 0 && pendingRedirects == 0 && navigations == []
    {
      this.validators := validators;
      firstName := "";
      lastName := "";
      signupEmail := "";
      signupCountryCode := "";
      signupPhone := "";
      signupPassword := "";
      confirmPassword := "";
      agreeTerms := false;
      errors := map[];
      isLoading := false;
      successMessage := "";
      activeSlide := 0;
      signupsAwaited := 0;
      pendingRedirects := 0;
      navigations := [];
    }

    /** The mount effect: every field, the errors and the success message
        back to their initial values. */
    method MountReset()
      requires Valid()
      modifies this
      ensures Valid()
      ensures CurrentForm() == EmptyForm && errors == map[] && successMessage == ""
      ensures isLoading == old(isLoading) && activeSlide == old(activeSlide)
      ensures signupsAwaited == old(signupsAwaited) && pendingRedirects == old(pendingRedirects)
      ensures navigations == old(navigations)
    {
      firstName := "";
      lastName := "";
      signupEmail := "";
      signupCountryCode := "";
      signupPhone := "";
      signupPassword := "";
      confirmPassword := "";
      agreeTerms := false;
      errors := map[];
      successMessage := "";
    }

    /** The `onChange` of a free text input: store the value and null that
        field's error and the general one. */
    method ChangeText(input: TextInput, value: string)
      requires Valid()
      modifies this
      ensures Valid()
      ensures input == FirstNameInput ==> CurrentForm() == old(CurrentForm()).(firstName := value)
      ensures input == LastNameInput ==> CurrentForm() == old(CurrentForm()).(lastName := value)
      ensures input == EmailInput ==> CurrentForm() == old(CurrentForm()).(signupEmail := value)
      ensures input == PasswordInput ==> CurrentForm() == old(CurrentForm()).(signupPassword := value)
      ensures input == ConfirmPasswordInput ==> CurrentForm() == old(CurrentForm()).(confirmPassword := value)
      ensures errors == Cleared(old(errors), KeyOf(input))
      ensures isLoading == old(isLoading) && successMessage == old(successMessage) && activeSlide == old(activeSlide)
      ensures signupsAwaited == old(signupsAwaited) && pendingRedirects == old(pendingRedirects)
      ensures navigations == old(navigations)
    {
      match input {
        case FirstNameInput => firstName := value;
        case LastNameInput => lastName := value;
        case EmailInput => signupEmail := value;
        case PasswordInput => signupPassword := value;
        case ConfirmPasswordInput => confirmPassword := value;
      }
      errors := Cleared(errors, KeyOf(input));
    }

    /** The country-code `onChange`: a rejected value changes nothing. */
    method ChangeCountryCode(value: string)
      requires Valid()
      modifies this
      ensures Valid()
      ensures AcceptsCountryCode(value) ==>
        CurrentForm() == old(CurrentForm()).(signupCountryCode := value) && errors == Cleared(old(errors), SignupCountryCodeKey)
      ensures !AcceptsCountryCode(value) ==> CurrentForm() == old(CurrentForm()) && errors == old(errors)
      ensures isLoading == old(isLoading) && successMessage == old(successMessage) && activeSlide == old(activeSlide)
      ensures signupsAwaited == old(signupsAwaited) && pendingRedirects == old(pendingRedirects)
      ensures navigations == old(navigations)
    {
      if AcceptsCountryCode(value) {
        signupCountryCode := value;
        errors := Cleared(errors, SignupCountryCodeKey);
      }
    }

    /** The phone `onChange`: a rejected value changes nothing. */
    method ChangePhone(value: string)
      requires Valid()
      modifies this
      ensures Valid()
      ensures AcceptsPhone(value) ==>
        CurrentForm() == old(CurrentForm()).(signupPhone := value) && errors == Cleared(old(errors), SignupPhoneKey)
      ensures !AcceptsPhone(value) ==> CurrentForm() == old(CurrentForm()) && errors == old(errors)
      ensures isLoading == old(isLoading) && successMessage == old(successMessage) && activeSlide == old(activeSlide)
      ensures signupsAwaited == old(signupsAwaited) && pendingRedirects == old(pendingRedirects)
      ensures navigations == old(navigations)
    {
      if AcceptsPhone(value) {
        signupPhone := value;
        errors := Cleared(errors, SignupPhoneKey);
      }
    }

    /** The terms checkbox `onChange`. */
    method ChangeTerms(checked: bool)
      requires Valid()
      modifies this
      ensures Valid()
      ensures CurrentForm() == old(CurrentForm()).(agreeTerms := checked)
      ensures errors == Cleared(old(errors), AgreeTermsKey)
      ensures isLoading == old(isLoading) && successMessage == old(successMessage) && activeSlide == old(activeSlide)
      ensures signupsAwaited == old(signupsAwaited) && pendingRedirects == old(pendingRedirects)
      ensures navigations == old(navigations)
    {
      agreeTerms := checked;
      errors := Cleared(errors, AgreeTermsKey);
    }

    /** `handleSignup` up to its `await`: the error object becomes the
        fresh validation result, and only a passing form starts loading.
        The button is disabled while loading, so it runs only when idle. */
    method HandleSignup()
      requires Valid() && !isLoading
      modifies this
      ensures Valid()
      ensures errors == Validate(CurrentForm(), validators)
      ensures isLoading <==> Complete(CurrentForm(), validators)
      ensures signupsAwaited == (if isLoading then 1 else 0)
      ensures CurrentForm() == old(CurrentForm()) && successMessage == old(successMessage) && activeSlide == old(activeSlide)
      ensures pendingRedirects == old(pendingRedirects) && navigations == old(navigations)
    {
      var newErrors := Validate(CurrentForm(), validators);
      errors := newErrors;
      if |newErrors| == 0 {
        isLoading := true;
        signupsAwaited := 1;
      }
    }

    /** A click on "Create account": ignored while the button is disabled. */
    method ClickCreateAccount()
      requires Valid()
      modifies this
      ensures Valid()
      ensures old(isLoading) ==> errors == old(errors) && isLoading && signupsAwaited == old(signupsAwaited)
      ensures !old(isLoading) ==> errors == Validate(CurrentForm(), validators) && (isLoading <==> Complete(CurrentForm(), validators))
      ensures CurrentForm() == old(CurrentForm()) && successMessage == old(successMessage) && activeSlide == old(activeSlide)
      ensures pendingRedirects == old(pendingRedirects) && navigations == old(navigations)
    {
      if !isLoading {
        HandleSignup();
      }
    }

    /** `handleSignup` after its `await`: the mock response is always a
        success, so the message is set, one redirect is scheduled, and the
        `finally` clears the loading flag. */
    method FinishSignup()
      requires Valid() && signupsAwaited > 0
      modifies this
      ensures Valid()
      ensures successMessage == "Signup successful! Redirecting to login..."
      ensures pendingRedirects == old(pendingRedirects) + 1
      ensures !isLoading && signupsAwaited == 0
      ensures CurrentForm() == old(CurrentForm()) && errors == old(errors) && activeSlide == old(activeSlide)
      ensures navigations == old(navigations)
    {
      successMessage := "Signup successful! Redirecting to login...";
      pendingRedirects := pendingRedirects + 1;
      isLoading := false;
      signupsAwaited := 0;
    }

    /** The scheduled redirect: empty the success message and go to `/login`. */
    method FireRedirect()
      requires Valid() && pendingRedirects > 0
      modifies this
      ensures Valid()
      ensures successMessage == ""
      ensures navigations == old(navigations) + [LoginRoute]
      ensures pendingRedirects == old(pendingRedirects) - 1
      ensures CurrentForm() == old(CurrentForm()) && errors == old(errors) && activeSlide == old(activeSlide)
      ensures isLoading == old(isLoading) && signupsAwaited == old(signupsAwaited)
    {
      successMessage := "";
      pendingRedirects := pendingRedirects - 1;
      navigations := navigations + [LoginRoute];
    }

    /** The "Login" link under the form. */
    method ClickLogin()
      requires Valid()
      modifies this
      ensures Valid()
      ensures navigations == old(navigations) + [LoginRoute]
      ensures CurrentForm() == old(CurrentForm()) && errors == old(errors) && successMessage == old(successMessage)
      ensures isLoading == old(isLoading) && signupsAwaited == old(signupsAwaited)
      ensures activeSlide == old(activeSlide) && pendingRedirects == old(pendingRedirects)
    {
      navigations := navigations + [LoginRoute];
    }

    /** The interval tick of this screen's carousel. */
    method NextSlide()
      requires Valid()
      modifies this
      ensures Valid()
      ensures activeSlide == Carousel.Next(old(activeSlide))
      ensures CurrentForm() == old(CurrentForm()) && errors == old(errors) && successMessage == old(successMessage)
      ensures isLoading == old(isLoading) && signupsAwaited == old(signupsAwaited)
      ensures pendingRedirects == old(pendingRedirects) && navigations == old(navigations)
    {
      activeSlide := Carousel.Next(activeSlide);
    }

    /** A dot click: `setActiveSlide(index)`. */
    method SelectSlide(index: int)
      requires Valid() && Carousel.IsSlide(index)
      modifies this
      ensures Valid()
      ensures activeSlide == index
      ensures CurrentForm() == old(CurrentForm()) && errors == old(errors) && successMessage == old(successMessage)
      ensures isLoading == old(isLoading) && signupsAwaited == old(signupsAwaited)
      ensures pendingRedirects == old(pendingRedirects) && navigations == old(navigations)
    {
      activeSlide := index;
    }
  }

  /** A complete form submitted from an idle screen always ends with the
      success message, the loading flag cleared, and one redirect to
      `/login` scheduled. */
  method SubmitComplete(screen: SignupScreen)
    requires screen.Valid() && !screen.isLoading && Complete(screen.CurrentForm(), screen.validators)
    modifies screen
    ensures screen.Valid()
    ensures screen.errors == map[] && !screen.isLoading
    ensures screen.successMessage == "Signup successful! Redirecting to login..."
    ensures screen.pendingRedirects == old(screen.pendingRedirects) + 1
  {
    screen.ClickCreateAccount();
    screen.FinishSignup();
  }
}
