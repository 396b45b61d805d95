/** What every authentication screen shares: the field rules that appear with
    the same messages on several screens, the error map's update on input,
    and how a screen reads the settled promise of its mock back-end. */
module Forms {
  import opened Text
  import opened EmailShape

  datatype Option<T> = None | Some(value: T)

  /** The property names the screens use in their error objects. */
  datatype Key =
    | FirstName | LastName | Email | Phone | Password | ConfirmPassword
    | AgreeTerms | Code | General

  /** The JavaScript property name of each key. */
  function Name(k: Key): string {
    match k
    case FirstName => "firstName"
    case LastName => "lastName"
    case Email => "email"
    case Phone => "phone"
    case Password => "password"
    case ConfirmPassword => "confirmPassword"
    case AgreeTerms => "agreeTerms"
    case Code => "code"
    case General => "general"
  }

  /** The messages the validators and handlers put in an error map. */
  datatype Message =
    | Blank                  // the '' a handler leaves when it clears a message
    | FirstNameRequired | LastNameRequired
    | EmailRequired | InvalidEmail
    | PhoneRequired | PhoneNotTenDigits | PhoneMustBeTenDigits
    | PasswordRequired | PasswordTooShort
    | ConfirmRequired | PasswordsDoNotMatch
    | TermsRequired
    | CodeRequired | CodeTooShort | CodeNotAlphanumeric
    | Reported(text: string) // the message of a failed back-end call

  /** The exact text the screen shows for each message. */
  function TextOf(m: Message): string {
    match m
    case Blank => ""
    case FirstNameRequired => "First name is required"
    case LastNameRequired => "Last name is required"
    case EmailRequired => "Email is required"
    case InvalidEmail => "Invalid email format"
    case PhoneRequired => "Phone number is required"
    case PhoneNotTenDigits => "Invalid phone number (10 digits required)"
    case PhoneMustBeTenDigits => "Phone number must be 10 digits"
    case PasswordRequired => "Password is required"
    case PasswordTooShort => "Password must be at least 8 characters"
    case ConfirmRequired => "Confirm password is required"
    case PasswordsDoNotMatch => "Passwords do not match"
    case TermsRequired => "You must agree to the Terms and Privacy Policies"
    case CodeRequired => "Verification code is required"
    case CodeTooShort => "Code must be at least 6 characters"
    case CodeNotAlphanumeric => "Code must be alphanumeric"
    case Reported(text) => text
  }

  /** A message JavaScript treats as truthy, that is, one with some text. */
  predicate Shown(m: Message) {
    !m.Blank? && !(m.Reported? && m.text == "")
  }

  /** An error map: a JavaScript object from property to message. A key
      whose message was cleared stays in the map with the blank message. */
  type Errors = map<Key, Message>

  /** `if (!value) newErrors[key] = message`: the bare required check. */
  function Required(value: string, missing: Message): (r: Option<Message>)
    ensures r.None? <==> value != ""
    ensures r.Some? ==> r.value == missing
  {
    if value == "" then Some(missing) else None
  }

  /** The email rule of the signup, login and forgot-password screens:
      required first, then the unanchored shape test on a non-empty value. */
  function EmailRule(email: string): (r: Option<Message>)
    ensures r.None? <==> HasEmailShape(email)
    ensures email == "" ==> r == Some(EmailRequired)
    ensures email != "" && !HasEmailShape(email) ==> r == Some(InvalidEmail)
  {
    if email == "" then Some(EmailRequired)
    else if !Matches(email) then Some(InvalidEmail)
    else None
  }

  /** The password rule of the signup, login and reset screens. */
  function PasswordRule(password: string): (r: Option<Message>)
    ensures r.None? <==> LongEnough(password)
    ensures password == "" ==> r == Some(PasswordRequired)
    ensures password != "" && !LongEnough(password) ==> r == Some(PasswordTooShort)
  {
    if password == "" then Some(PasswordRequired)
    else if |password| < MinPasswordLength then Some(PasswordTooShort)
    else None
  }

  /** The confirmation rule of the signup and reset screens. It compares with
      the password as typed, whether or not the password itself is valid. */
  function ConfirmRule(password: string, confirm: string): (r: Option<Message>)
    ensures r.None? <==> confirm != "" && confirm == password
    ensures r == Some(PasswordsDoNotMatch) <==> confirm != "" && confirm != password
    ensures confirm == "" ==> r == Some(ConfirmRequired)
  {
    if confirm == "" then Some(ConfirmRequired)
    else if password != confirm then Some(PasswordsDoNotMatch)
    else None
  }

  /** The message an error map holds for `key`, if any. */
  function Lookup(errors: Errors, key: Key): Option<Message> {
    if key in errors then Some(errors[key]) else None
  }

  /** Records a failed rule's message under `key`; a passing rule adds nothing. */
  function Put(errors: Errors, key: Key, rule: Option<Message>): (r: Errors)
    ensures r == map[] <==> errors == map[] && rule.None?
  {
    match rule
    case None => errors
    case Some(message) =>
      assert key in errors[key := message];
      errors[key := message]
  }

  /** `if (errors[field]) setErrors({ ...errors, [field]: '' })`: a set
      message is blanked, the key is kept, and no other key changes. */
  function ClearIfSet(errors: Errors, key: Key): (r: Errors)
    ensures r.Keys == errors.Keys
    ensures key in r ==> !Shown(r[key])
    ensures key in errors && !Shown(errors[key]) ==> r[key] == errors[key]
    ensures forall k :: k in errors && k != key ==> r[k] == errors[k]
  {
    if key in errors && Shown(errors[key]) then errors[key := Blank] else errors
  }

  /** How a mock back-end's promise settles: it resolves with
      `{ success, message }` or rejects with an error carrying a message. */
  datatype Outcome = Resolved(success: bool, message: string) | Rejected(message: string)

  /** The `try` block around the call: `if (!response.success) throw new
      Error(response.message || fallback)`, and the `catch` that reads
      `error.message`. None on success, else the caught message. */
  function FailureOf(o: Outcome, fallback: string): (r: Option<string>)
    ensures r.None? <==> o.Resolved? && o.success
    ensures r.Some? && o.message != "" ==> r.value == o.message
  {
    match o
    case Resolved(success, message) =>
      if success then None else Some(if message == "" then fallback else message)
    case Rejected(message) => Some(message)
  }

  /** A rejection and a resolution with `success: false` are handled alike. */
  lemma RejectedLikeUnsuccessful(message: string, fallback: string)
    requires message != ""
    ensures FailureOf(Rejected(message), fallback) == FailureOf(Resolved(false, message), fallback)
  {
  }

  /** The routes the screens navigate to. */
  const BrandInformationRoute := "/BrandInformation"
  const LoginRoute := "/"
  const VerifyRoute := "/verify"
  const ResetRoute := "/reset"
}
