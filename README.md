# Authentication screens: form validation and submission

This project models the client-side logic of the authentication screens of
the Neomarche storefront. It covers six screens:

- signup, login, reset password, forgot password and verify code, under
  `src/components/`;
- a second signup screen under `NEOMARCHE/src/components/auth/`.

It also models the three-slide promotional carousel of
`NEOMARCHE/src/components/auth/AuthLayout.jsx`.

For each screen the model has:

- **the form record** and **`validateForm`**, as a total function from the form
  to an error map with at most one message per field;
- **the input handlers**, which store one field and clear its message;
- **the submit flow**: validate, return early on failure, otherwise call the
  mock back-end once, then show a success message and schedule one
  navigation, or put a single error key in place of the whole map;
- **the mock back-end**, which is an equality or length test.

A screen is a class. Its fields are the React state: form, errors and
submission message. It also has three kinds of bookkeeping field:

- `inFlight` holds the answers of mock calls not yet awaited.
- `pendingRedirects` counts the scheduled `setTimeout` callbacks.
- `navigations` logs every route navigated to.

The submit flow is split at its `await`. `HandleSubmit` runs up to the call,
and `Settle…` runs once the promise has settled. Each timer callback is a
`Fire…Redirect` method. Where the source wraps `navigate` in a `try`, whether
the router throws is that method's `navigationThrows` parameter.

The email test `/\S+@\S+\.\S+/.test(email)` is not anchored. It asks whether
some substring has the shape `x@y.z`. `EmailShape.HasEmailShape` states that
meaning with indices. `EmailShape.Matches` decides it with a one-pass scanner,
and `EmailShape.ScanCorrect` proves the two agree.

Module layout:

| module | file | models |
|---|---|---|
| `Text` | text.dfy | `\s`, `\d`, length and code checks, `toUpperCase` |
| `EmailShape` | email_shape.dfy | the email regular expression |
| `Forms` | forms.dfy | rules and messages shared by several screens; how a settled promise is read |
| `Signup` | signup.dfy | src/components/SignupUI.jsx |
| `Login` | login.dfy | src/components/LoginUI.jsx |
| `Reset` | reset.dfy | src/components/ResetUI.jsx |
| `Forgot` | forgot.dfy | src/components/ForgotUI.jsx |
| `Verify` | verify.dfy | src/components/VerifyUI.jsx |
| `NeoSignup` | neo_signup.dfy | NEOMARCHE/src/components/auth/SignupUI.jsx |
| `Carousel` | carousel.dfy | NEOMARCHE/src/components/auth/AuthLayout.jsx |

Messages are datatype constructors. `Forms.TextOf` and `NeoSignup.TextOf` give
each constructor's exact text.

The phone rule really differs between screens:

- the login and first signup screens require exactly ten digits;
- the NEOMARCHE signup input accepts up to fifteen digits.

Each screen is modelled with its own rule.

Two behaviours of the error map are worth stating:

- **Clearing a field's message keeps the key.** A handler sets the cleared key
  to `''` in the `src/components` screens (modelled as `Blank`) and to `null`
  in the NEOMARCHE screen (modelled as `None`).
- **On a valid submit, the reset and verify screens leave the errors
  untouched**, so blanked entries survive. The other screens replace the map
  with the (empty) validation result.

## Model

| member | source | states |
|---|---|---|
| Text.UpperChar | src/components/VerifyUI.jsx:13 | an upper-cased character is never a lower-case letter; `a`..`z` become `A`..`Z`; every other character is left as it is |
| Text.ToUpper | src/components/VerifyUI.jsx:13 | upper-casing keeps the length of the input |
| Text.ToUpperAt | src/components/VerifyUI.jsx:13 | upper-casing works position by position |
| Text.ToUpperHasNoLower | src/components/VerifyUI.jsx:13-14 | the stored code never holds a lower-case letter |
| Text.ToUpperFixesUpper | src/components/VerifyUI.jsx:13 | a string without lower-case letters is left unchanged |
| Text.ToUpperIdempotent | src/components/VerifyUI.jsx:11-14 | applying the handler's upper-casing again to the stored code changes nothing |
| Text.ToUpperKeepsCode | src/components/VerifyUI.jsx:13-29 | a code that passes `^[0-9A-Z]{6,}$` is left unchanged by upper-casing |
| EmailShape.Matches | src/components/SignupUI.jsx:57 | the test is true exactly when some substring is a non-space run, `@`, a non-space run, `.`, a non-space run |
| EmailShape.ScanCorrect | src/components/SignupUI.jsx:57 | the one-pass scanner accepts exactly the strings with such a substring |
| EmailShape.ScanDescribes | src/components/SignupUI.jsx:57 | after every prefix, the scanner state describes exactly how far the prefix's last non-space run has got through the pattern, and whether a match was already seen |
| EmailShape.DemoAddressHasShape | src/components/LoginUI.jsx:113 | `john.doe@gmail.com` passes the email test |
| EmailShape.UnanchoredMatch | src/components/LoginUI.jsx:49 | text around an address still passes, since the pattern is not anchored |
| EmailShape.SpaceBreaksShape | src/components/LoginUI.jsx:49 | white space between the `@` part and the `.` part makes the test fail |
| Forms.Required | src/components/SignupUI.jsx:54-55 | a required-only field fails exactly when empty, and then with its own required message |
| Forms.EmailRule | src/components/SignupUI.jsx:56-57 | email fails exactly when it has no match of the pattern: `Email is required` when empty, `Invalid email format` otherwise, never both |
| Forms.PasswordRule | src/components/SignupUI.jsx:60-61 | password passes exactly at eight characters or more: required message when empty, length message when shorter |
| Forms.ConfirmRule | src/components/SignupUI.jsx:62-63 | confirmation passes exactly when non-empty and equal to the password; `Passwords do not match` exactly when non-empty and different, whatever the password is |
| Forms.Put | src/components/SignupUI.jsx:53-66 | the built error object is empty exactly when it started empty and the rule passed |
| Forms.ClearIfSet | src/components/SignupUI.jsx:26-28 | `if (errors[field])` blanks that field's message only when one is shown; the key set and every other key stay as they were |
| Forms.FailureOf | src/components/SignupUI.jsx:94-115 | the `catch` runs exactly when the promise rejects or resolves with `success: false`, and carries the response's non-empty message |
| Forms.RejectedLikeUnsuccessful | src/components/LoginUI.jsx:79-98 | a rejection and a `success: false` resolution with the same non-empty message are handled the same way |
| Signup.With | src/components/SignupUI.jsx:23-25 | storing an input changes only the named field |
| Signup.PhoneRule | src/components/SignupUI.jsx:58-59 | phone passes exactly as ten ASCII digits: required message when empty, `Invalid phone number (10 digits required)` otherwise |
| Signup.TermsRule | src/components/SignupUI.jsx:64 | the terms rule fails exactly when the box is unticked, and then with `You must agree to the Terms and Privacy Policies` |
| Signup.Validate | src/components/SignupUI.jsx:51-67 | only the seven field keys appear, and the map is empty exactly when every rule passes |
| Signup.ValidateByField | src/components/SignupUI.jsx:51-67 | each key holds exactly its own field's rule result, one message at most |
| Signup.NamesRequired | src/components/SignupUI.jsx:54-55 | an empty first or last name gets exactly its required message, and only then |
| Signup.PhoneNeedsTenDigits | src/components/SignupUI.jsx:58-59 | a non-empty phone passes exactly when it is ten ASCII digits |
| Signup.MismatchOnlyWhenDifferent | src/components/SignupUI.jsx:62-63 | the mismatch message appears exactly when the confirmation is non-empty and differs from the password |
| Signup.TermsAlwaysRequired | src/components/SignupUI.jsx:64 | the terms key is present exactly when the box is unticked |
| Signup.MockSignup | src/components/SignupUI.jsx:125-132 | the mock always resolves with success |
| Signup.SignupScreen.constructor | src/components/SignupUI.jsx:7-21 | all fields empty, box unticked, no errors, no message |
| Signup.SignupScreen.HandleInputChange | src/components/SignupUI.jsx:23-30 | only the named field changes; its message is blanked if shown; the submission message is emptied |
| Signup.SignupScreen.HandleCheckboxChange | src/components/SignupUI.jsx:32-39 | the terms box toggles and its message is blanked if shown; nothing else changes |
| Signup.SignupScreen.HandleSubmit | src/components/SignupUI.jsx:69-94 | errors become the fresh validation result; a failing form gets `Please fill all fields correctly.` and no call; a passing one calls the mock once |
| Signup.SignupScreen.SettleSignup | src/components/SignupUI.jsx:94-116 | success sets the message and schedules one redirect; failure replaces the whole map by `{general: message}` and sets `Signup failed: ` plus the message |
| Signup.SignupScreen.FireRedirect | src/components/SignupUI.jsx:102-111 | the only route is `/BrandInformation`; a throwing router leaves the redirect error message |
| Signup.SubmitComplete | src/components/SignupUI.jsx:69-111 | a complete form always reaches the success message with empty errors and one scheduled redirect |
| Login.With | src/components/LoginUI.jsx:19-21 | storing an input changes only the named field |
| Login.PhoneRule | src/components/LoginUI.jsx:42-46 | phone passes exactly as ten ASCII digits: required message when empty, `Phone number must be 10 digits` otherwise |
| Login.Validate | src/components/LoginUI.jsx:39-59 | only phone, email and password keys appear; empty exactly when all three rules pass |
| Login.ValidateByField | src/components/LoginUI.jsx:39-59 | each key holds exactly its own field's rule result |
| Login.ShortPasswordRejected | src/components/LoginUI.jsx:52-56 | a non-empty password under eight characters gets `Password must be at least 8 characters` |
| Login.MockLogin | src/components/LoginUI.jsx:109-119 | the mock succeeds exactly for `john.doe@gmail.com` with `password123`, and otherwise fails with `Invalid email or password` |
| Login.DemoCredentialsPass | src/components/LoginUI.jsx:49-113 | the accepted credentials pass the screen's own validation, so the success branch is reachable |
| Login.LoginScreen.constructor | src/components/LoginUI.jsx:7-14 | all fields empty, no errors, no message |
| Login.LoginScreen.HandleInputChange | src/components/LoginUI.jsx:19-26 | only the named field changes; its message is blanked if shown; the submission message is emptied |
| Login.LoginScreen.HandleCheckboxChange | src/components/LoginUI.jsx:28-32 | only `rememberMe` toggles; errors and message stay |
| Login.LoginScreen.HandleSubmit | src/components/LoginUI.jsx:61-79 | every submit replaces the errors by the fresh validation result; a non-empty result returns before the mock is called |
| Login.LoginScreen.SettleLogin | src/components/LoginUI.jsx:79-99 | success sets the message and schedules one redirect; failure makes the map exactly `{general: message}` with the login-failed message |
| Login.LoginScreen.FireRedirect | src/components/LoginUI.jsx:86-95 | the only route is `/BrandInformation`; a throwing router leaves the redirect error message |
| Login.LoginWithDemoCredentials | src/components/LoginUI.jsx:61-95 | the demo credentials with a valid phone reach the success message and one redirect |
| Login.LoginWithOtherCredentials | src/components/LoginUI.jsx:61-99 | any other valid form ends with exactly `{general: 'Invalid email or password'}` and no redirect |
| Reset.With | src/components/ResetUI.jsx:16-18 | storing an input changes only the named field |
| Reset.Validate | src/components/ResetUI.jsx:35-50 | only password and confirmation keys appear; empty exactly when the password has eight characters and the confirmation equals it |
| Reset.ValidateByField | src/components/ResetUI.jsx:38-47 | each key holds exactly its own field's rule result |
| Reset.MockResetPassword | src/components/ResetUI.jsx:88-97 | the mock succeeds exactly when the password has eight characters or more, else fails with `Password reset failed` |
| Reset.CompleteFormIsAccepted | src/components/ResetUI.jsx:40-96 | every form that passes validation is accepted by the mock |
| Reset.ResetScreen.constructor | src/components/ResetUI.jsx:6-11 | both fields empty, no errors, no message |
| Reset.ResetScreen.HandleInputChange | src/components/ResetUI.jsx:16-23 | only the named field changes; its message is blanked if shown; the submission message is emptied |
| Reset.ResetScreen.HandleSubmit | src/components/ResetUI.jsx:52-65 | an invalid form sets the errors and `Please enter valid password details.` without a call; a valid one leaves the errors untouched and calls the mock once |
| Reset.ResetScreen.SettleReset | src/components/ResetUI.jsx:65-85 | success schedules one redirect; failure sets `{general: message}` and `Password reset failed. Please try again.` |
| Reset.ResetScreen.FireRedirect | src/components/ResetUI.jsx:72-80 | the only route is `/`; a throwing router leaves `Error redirecting. Please try again.` |
| Reset.SubmitComplete | src/components/ResetUI.jsx:52-80 | every valid form reaches the success message and one scheduled redirect |
| Forgot.Validate | src/components/ForgotUI.jsx:24-34 | at most the key `email`; empty exactly when the email has a match of the pattern; the key holds the email rule's message |
| Forgot.MockForgotPassword | src/components/ForgotUI.jsx:89-100 | the mock succeeds exactly for `john.doe@gmail.com`, else fails with `Email not found` |
| Forgot.DemoEmailPasses | src/components/ForgotUI.jsx:29-93 | the accepted address passes the screen's validation and the mock |
| Forgot.ForgotScreen.constructor | src/components/ForgotUI.jsx:7-11 | empty email, no errors, no message |
| Forgot.ForgotScreen.HandleInputChange | src/components/ForgotUI.jsx:15-22 | the email is stored; its message is blanked if shown; the submission message is emptied |
| Forgot.ForgotScreen.HandleSubmit | src/components/ForgotUI.jsx:36-54 | errors become the fresh validation result; a non-empty result returns before the mock is called |
| Forgot.ForgotScreen.SettleForgot | src/components/ForgotUI.jsx:54-86 | success sets the message and schedules the `/verify` redirect; failure sets `{general: message}` and `Failed to send reset link: ` plus the message |
| Forgot.ForgotScreen.FireVerifyRedirect | src/components/ForgotUI.jsx:62-75 | navigates to `/verify`, or on a throw sets the fallback message and schedules one redirect to `/` |
| Forgot.ForgotScreen.FireLoginRedirect | src/components/ForgotUI.jsx:70-73 | the fallback navigates to `/` |
| Forgot.RecoverFromFailedRedirect | src/components/ForgotUI.jsx:36-75 | a successful request whose first navigation throws still ends on `/` |
| Verify.CodeRule | src/components/VerifyUI.jsx:24-30 | the checks run in order: required, then at least six characters, then only `[0-9A-Z]`; passes exactly on `^[0-9A-Z]{6,}$` |
| Verify.Validate | src/components/VerifyUI.jsx:21-33 | at most the key `code`; empty exactly when the code has six or more characters, all in `[0-9A-Z]` |
| Verify.UpperCasedInputPasses | src/components/VerifyUI.jsx:13-28 | typed input that is alphanumeric once upper-cased passes validation after the handler stores it |
| Verify.MockVerifyCode | src/components/VerifyUI.jsx:71-81 | the mock succeeds exactly for `123456`, else fails with `Invalid or expired code` |
| Verify.DemoCodePasses | src/components/VerifyUI.jsx:13-74 | `123456` passes validation and is unchanged by upper-casing |
| Verify.VerifyScreen.constructor | src/components/VerifyUI.jsx:6-8 | empty code, no errors, no message |
| Verify.VerifyScreen.HandleInputChange | src/components/VerifyUI.jsx:11-19 | the upper-cased input is stored, so the code never holds a lower-case letter; its message is blanked if shown; the submission message is emptied |
| Verify.VerifyScreen.HandleSubmit | src/components/VerifyUI.jsx:35-48 | an invalid code sets the errors and `Please enter a valid verification code.` without a call; a valid one leaves the errors untouched and calls the mock once |
| Verify.VerifyScreen.SettleVerify | src/components/VerifyUI.jsx:48-68 | success schedules one redirect; failure puts the message under `code`, not `general` |
| Verify.VerifyScreen.FireRedirect | src/components/VerifyUI.jsx:55-63 | the only route is `/reset`; a throwing router leaves `Error redirecting. Please try again.` |
| Verify.EnterDemoCode | src/components/VerifyUI.jsx:11-58 | typing and submitting `123456` reaches the success message and one redirect |
| NeoSignup.Checked | NEOMARCHE/src/components/auth/SignupUI.jsx:63-70 | the required check comes first and the validator decides only a non-empty value; one message at most |
| NeoSignup.ConfirmRule | NEOMARCHE/src/components/auth/SignupUI.jsx:71-72 | `Passwords do not match` exactly when the confirmation is non-empty and differs |
| NeoSignup.Put | NEOMARCHE/src/components/auth/SignupUI.jsx:60-73 | the built error object is empty exactly when it started empty and the rule passed |
| NeoSignup.Validate | NEOMARCHE/src/components/auth/SignupUI.jsx:59-75 | only the eight field keys appear, and the object is empty exactly when every check passes |
| NeoSignup.ValidateByField | NEOMARCHE/src/components/auth/SignupUI.jsx:61-73 | each key holds exactly its own field's check: the required message for an empty value, else the format message when the validator refuses it, and nothing when it passes |
| NeoSignup.ValidateHoldsMessages | NEOMARCHE/src/components/auth/SignupUI.jsx:60-73 | every entry written by validation holds a message, never `null` |
| NeoSignup.MismatchOnlyWhenDifferent | NEOMARCHE/src/components/auth/SignupUI.jsx:71-72 | the mismatch message appears exactly when the confirmation is non-empty and differs from the password |
| NeoSignup.ValidatorsSeeOnlyNonEmpty | NEOMARCHE/src/components/auth/SignupUI.jsx:63-70 | the imported validators are consulted only on non-empty values |
| NeoSignup.Cleared | NEOMARCHE/src/components/auth/SignupUI.jsx:139-142 | a handler nulls exactly its field's key and `signupGeneral`, and leaves the other keys intact |
| NeoSignup.FiltersAcceptEmptyRejectNonDigits | NEOMARCHE/src/components/auth/SignupUI.jsx:206-235 | both digit filters accept the empty value and refuse any value holding a non-digit |
| NeoSignup.SignupScreen.constructor | NEOMARCHE/src/components/auth/SignupUI.jsx:7-34 | every field empty, not loading, no message, slide 0 |
| NeoSignup.SignupScreen.MountReset | NEOMARCHE/src/components/auth/SignupUI.jsx:45-57 | every field goes back to `''` or `false`, the errors to `{}`, the success message to `''` |
| NeoSignup.SignupScreen.ChangeText | NEOMARCHE/src/components/auth/SignupUI.jsx:139-142 | only the named field changes, and its key and `signupGeneral` are nulled |
| NeoSignup.SignupScreen.ChangeCountryCode | NEOMARCHE/src/components/auth/SignupUI.jsx:206-212 | a digit string of at most four characters is stored and clears its errors; anything else changes nothing |
| NeoSignup.SignupScreen.ChangePhone | NEOMARCHE/src/components/auth/SignupUI.jsx:229-235 | a digit string of at most fifteen characters is stored and clears its errors; anything else changes nothing |
| NeoSignup.SignupScreen.ChangeTerms | NEOMARCHE/src/components/auth/SignupUI.jsx:285-288 | the box takes the checked value, and its key and `signupGeneral` are nulled |
| NeoSignup.SignupScreen.HandleSignup | NEOMARCHE/src/components/auth/SignupUI.jsx:59-77 | errors become the fresh result, and loading starts exactly when validation passes |
| NeoSignup.SignupScreen.ClickCreateAccount | NEOMARCHE/src/components/auth/SignupUI.jsx:303-304 | a click while loading is ignored; otherwise it runs the signup handler |
| NeoSignup.SignupScreen.FinishSignup | NEOMARCHE/src/components/auth/SignupUI.jsx:78-93 | the always-successful response sets the success message, schedules one redirect, and loading ends |
| NeoSignup.SignupScreen.FireRedirect | NEOMARCHE/src/components/auth/SignupUI.jsx:85-88 | the success message is emptied and the route is `/login` |
| NeoSignup.SignupScreen.ClickLogin | NEOMARCHE/src/components/auth/SignupUI.jsx:311-317 | the login link navigates to `/login` |
| NeoSignup.SignupScreen.NextSlide | NEOMARCHE/src/components/auth/SignupUI.jsx:10 | the slide advances as the carousel's `nextSlide` and stays in range |
| NeoSignup.SignupScreen.SelectSlide | NEOMARCHE/src/components/auth/SignupUI.jsx:343-348 | a dot click sets the slide to its index |
| NeoSignup.SubmitComplete | NEOMARCHE/src/components/auth/SignupUI.jsx:59-93 | a complete form from an idle screen always reaches the success message, with loading ended and one redirect scheduled |
| Carousel.Next | NEOMARCHE/src/components/auth/AuthLayout.jsx:14 | on the three slides, `nextSlide` is the step `(s + 1) mod 3` and stays in range |
| Carousel.Prev | NEOMARCHE/src/components/auth/AuthLayout.jsx:15 | on the three slides, `prevSlide` is the step `(s + 2) mod 3` and stays in range |
| Carousel.NextPrevInverse | NEOMARCHE/src/components/auth/AuthLayout.jsx:14-15 | for s in {0,1,2}, `prev(next(s)) == s` and `next(prev(s)) == s` |
| Carousel.ThreeStepsCycle | NEOMARCHE/src/components/auth/AuthLayout.jsx:14 | three consecutive `nextSlide` steps return to the start |
| Carousel.AdvanceIsModular | NEOMARCHE/src/components/auth/AuthLayout.jsx:14-20 | after `n` interval ticks the slide is `(s + n) mod 3` |
| Carousel.AuthLayout.constructor | NEOMARCHE/src/components/auth/AuthLayout.jsx:12 | the carousel starts on slide 0 |
| Carousel.AuthLayout.NextSlide | NEOMARCHE/src/components/auth/AuthLayout.jsx:14 | the slide becomes `nextSlide` of the old slide and stays in {0,1,2} |
| Carousel.AuthLayout.PrevSlide | NEOMARCHE/src/components/auth/AuthLayout.jsx:15 | the slide becomes `prevSlide` of the old slide and stays in {0,1,2} |
| Carousel.AuthLayout.SelectSlide | NEOMARCHE/src/components/auth/AuthLayout.jsx:76-81 | a dot click sets the slide to its index |

## Left out

- Timers: the 500, 1000 and 2000 ms delays and the five-second `setInterval` carry no time in the model. A scheduled callback is a pending counter, and a fired one is a method call. Clearing the interval on unmount is not modelled.
- Async interleaving: React's batching of state updates and the stale-closure spreads `{...formData}` and `{...errors}` are not modelled. Each handler reads the state as it is when the method runs.
- Side effects with no state: `console.log`, `scrollIntoView`, `focus`, `useRef` and `handleEnterKey`'s focus chaining are not modelled.
- `togglePasswordVisibility` and the NEOMARCHE show-password flags are not modelled; they only change how an input is displayed.
- Rendering: JSX, styling, and the message colour chosen by `includes('error') || includes('failed')`. None of these decide anything.
- Route tables in `src/App.jsx` and `NEOMARCHE/src/App.jsx`. A navigation is the route string it is given.
- `validateEmail`, `validatePhone`, `validateCountryCode` and `validatePassword` live in `NEOMARCHE/src/utils/AuthUtils`, which is not part of this model. They are uninterpreted functions passed in as `NeoSignup.Validators`.
- The `catch` of the NEOMARCHE `handleSignup`: its `mockResponse` is the constant `{ success: true }`, so the branch can never run and is not modelled.
- Forgot.ForgotScreen.FireLoginRedirect: the fallback `navigate('/')` is not inside a `try`, so a throw there would escape the timer callback. The model assumes it does not throw and always navigates.
- NeoSignup.SignupScreen.FireRedirect: `navigate('/login')` is not inside a `try` either. The model assumes it does not throw; in the source a throw would leave the success message emptied and no navigation made.
- Text.UpperChar: `toUpperCase` is modelled on ASCII letters only. Non-ASCII letters, and characters that upper-case into several characters, are left as they are.
- Text.LongEnough: JavaScript's `length` counts UTF-16 code units, while the model counts Unicode scalar values. The two differ only for characters outside the Basic Multilingual Plane.
