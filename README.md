# Session invalidation and business onboarding — a Dafny model

This project models the client-side session rules of an admin dashboard's
front end, together with the logo and submit checks of its
business-onboarding screen:

- **Response-error callback** (`ResponseErrorCallback`). When the HTTP client
  reports an error response with status 401, 419 or 440, the callback clears
  the auth store in three steps. The token becomes `''`. The user becomes a
  zero identity. The signed-in flag becomes false. Any other status, or an
  error without a response, leaves the store alone. The store is a class
  `AuthStore` whose setters assign its fields. The pure function `Invalidate`
  specifies the callback, and lemmas cover idempotence and a run of several
  failing responses.
- **Default authentication context** (`AuthContext`). This is the state the
  application starts in: not authenticated, holding the zero identity with an
  empty authority list. It also has placeholder operations that return a
  blank result or do nothing.
- **Business onboarding** (`BusinessOnboarding`). `BeforeUpload` runs four
  checks in order: a file is selected, no file was chosen before, the type is
  JPEG or PNG, and the size is under 500000 bytes. It returns the first
  failing check's message. `FirstFailure` is a reference reading of such a
  chain. The class `OnboardingForm` holds the screen's state (`logoBase64`,
  `logoFileName`, `message`, `isSubmitting`). Its methods choose a logo and
  submit the form.
- Shared records (`AuthTypes`) and JavaScript's `Array.prototype.includes`
  (`JsArray.Includes`).

Two points where the code is modelled as written:

- The user record written on invalidation has no `authority` field. The
  context's default user has `authority: []`. `User.authority` is therefore an
  `Option`, and `ResetUser` states that the record agrees with `DefaultUser`
  on the other six fields and differs from it. The context's default user
  has `authority: []` (src/auth/AuthContext.ts:49); the record written on
  invalidation has no `authority` field
  (src/services/axios/AxiosResponseIntrceptorErrorCallback.ts:12-19). The two
  therefore differ, and the model keeps that difference.
- The placeholder result has status `''`. That is outside the
  `'success' | 'failed'` union the response type declares, so
  `AuthResponse.status` is a string.

## Model

| member | source | states |
|---|---|---|
| JsArray.Includes | src/services/axios/AxiosResponseIntrceptorErrorCallback.ts:10 | the search answers true exactly when the value occurs in the list |
| ResponseErrorCallback.IsUnauthorized | src/services/axios/AxiosResponseIntrceptorErrorCallback.ts:4-10 | a status counts as unauthorized iff it is 401, 419 or 440 |
| ResponseErrorCallback.IsUnauthorizedError | src/services/axios/AxiosResponseIntrceptorErrorCallback.ts:7-10 | an error triggers invalidation iff it has a response and that response's status is 401, 419 or 440; an error with no response never does |
| ResponseErrorCallback.ResetUser | src/services/axios/AxiosResponseIntrceptorErrorCallback.ts:12-19 | the record written has id 0, empty email, name, createdAt and role, and is_verified false; it has no authority; it matches the context's default user on those six fields and still differs from it |
| ResponseErrorCallback.Invalidate | src/services/axios/AxiosResponseIntrceptorErrorCallback.ts:10-21 | on an unauthorized error the token is '', the user is the reset record and signed-in is false; on any other error the session is unchanged; a signed-out session with no identity stays that way |
| ResponseErrorCallback.AuthStore.SetToken | src/services/axios/AxiosResponseIntrceptorErrorCallback.ts:11 | only the token changes, to the given value |
| ResponseErrorCallback.AuthStore.SetUser | src/services/axios/AxiosResponseIntrceptorErrorCallback.ts:12-19 | only the user changes, to the given record |
| ResponseErrorCallback.AuthStore.SetSessionSignedIn | src/services/axios/AxiosResponseIntrceptorErrorCallback.ts:20 | only the signed-in flag changes, to the given value |
| ResponseErrorCallback.AuthStore.ResponseErrorCallback | src/services/axios/AxiosResponseIntrceptorErrorCallback.ts:6-22 | the store afterwards is Invalidate of the store before; for 401/419/440 token '', reset user and signed-in false; otherwise no field changes |
| ResponseErrorCallback.InvalidateIdempotent | src/services/axios/AxiosResponseIntrceptorErrorCallback.ts:10-20 | handling the same error twice gives the same session as handling it once |
| ResponseErrorCallback.HandleErrorsOutcome | src/services/axios/AxiosResponseIntrceptorErrorCallback.ts:10-21 | after a run of failing responses, the session is the cleared session if any response was unauthorized, and untouched if none was, whatever the order |
| ResponseErrorCallback.HandleErrorsCleared | src/services/axios/AxiosResponseIntrceptorErrorCallback.ts:11-20 | once cleared, further failing responses leave the session cleared |
| ResponseErrorCallback.HandleErrorsIdempotent | src/services/axios/AxiosResponseIntrceptorErrorCallback.ts:10-21 | replaying a run of failing responses on its own result changes nothing |
| AuthContext.DefaultUser | src/auth/AuthContext.ts:42-50 | the initial user is the zero identity with an empty authority list |
| AuthContext.DefaultAuth | src/auth/AuthContext.ts:40-50 | the initial context is not authenticated and holds the zero identity with authority [] |
| AuthContext.DefaultFunctionPlaceHolder | src/auth/AuthContext.ts:23-29 | the placeholder result has status '' and message '', a status outside 'success' / 'failed' |
| AuthContext.DefaultSignIn | src/auth/AuthContext.ts:51 | default sign-in returns the placeholder result whatever the credentials |
| AuthContext.DefaultSignUp | src/auth/AuthContext.ts:52 | default sign-up returns the placeholder result whatever the credentials |
| AuthContext.DefaultSaveBusinessDetails | src/auth/AuthContext.ts:53 | default saveBusinessDetails returns the placeholder result whatever the details |
| AuthContext.DefaultSignOut | src/auth/AuthContext.ts:54 | default sign-out leaves any state as it was |
| AuthContext.DefaultOAuthSignIn | src/auth/AuthContext.ts:31-38 | the callback is invoked exactly once, on a payload whose onSignIn and redirect change nothing, and the result is what that one invocation gives |
| BusinessOnboarding.FirstFailure | src/views/onboarding/BusinessOnboarding/BusinessOnboarding.tsx:23-42 | a chain of early returns accepts iff every check holds; otherwise it reports the message of a failing check that every earlier check passed |
| BusinessOnboarding.BeforeUpload | src/views/onboarding/BusinessOnboarding/BusinessOnboarding.tsx:21-53 | a missing or empty selection gets 'Please select a file'; an existing file gets the limit message whatever the new file's type or size; a file of 500000 bytes or more is refused; it accepts iff there is a selection, no earlier file, type image/jpeg or image/png and size below 500000 |
| BusinessOnboarding.BeforeUploadFollowsGuards | src/views/onboarding/BusinessOnboarding/BusinessOnboarding.tsx:23-42 | the checks run in the order selection, count, type, size, and only the first failure's message is returned |
| BusinessOnboarding.OnboardingForm.constructor | src/views/onboarding/BusinessOnboarding/BusinessOnboarding.tsx:69-72 | the form starts not submitting, with empty message, logo and file name |
| BusinessOnboarding.OnboardingForm.HandleFileSelect | src/views/onboarding/BusinessOnboarding/BusinessOnboarding.tsx:76-79 | logo and file name become the given values; message and submitting flag are untouched |
| BusinessOnboarding.OnboardingForm.ChooseLogo | src/views/onboarding/BusinessOnboarding/BusinessOnboarding.tsx:44-52 | the verdict is BeforeUpload's; only an accepted file sets the logo and file name (to the encoded data and the first file's name); a refusal changes nothing |
| BusinessOnboarding.OnboardingForm.OnSubmit | src/views/onboarding/BusinessOnboarding/BusinessOnboarding.tsx:123-148 | with an empty logo or file name, the message becomes 'Please upload a business logo' and save is not called; otherwise save receives name, email, phone and address from the form with the stored logo and file name; a 'failed' result's message is shown, any other result leaves the message alone, and submitting ends false; the logo fields never change |

## Left out

- Rendering, layout, the alert and button components and the theme mode of the onboarding screen are not modelled.
- The form schema's email, length and phone-number checks rely on outside libraries and are not modelled. `OnSubmit` models the submit handler as the form library calls it, after those checks have passed.
- OnboardingForm.ChooseLogo: the file reader encodes the file asynchronously, and `handleFileSelect` runs when the encoding finishes. The model takes the encoded data as a parameter and applies it at once on acceptance.
- OnboardingForm.OnSubmit: the debug logging in the missing-logo branch is left out. The awaited save call is a parameter. A save that rejects leaves `isSubmitting` true because the code never reaches `setSubmitting(false)`; the model states this.
- The auth store's own code and its token persistence strategy are not part of this model. Its setters are plain field assignments, and its initial state is whatever the constructor is given.
- The delay before the placeholder result resolves, and the promises around all default operations, are not modelled. The defaults are modelled as plain functions.
- The HTTP client itself is not modelled, including attaching the token to requests. The React context and hook machinery is not modelled either.
- The route-authority check, sign-in, sign-up, sign-out and the OAuth provider's real operations are not part of this model. Their code is not among the modelled files.
- The application, endpoint and route configuration tables are static data and are not modelled. The help-center view choice is presentation only and is not modelled.
- `User.id` is a JavaScript number; the model uses an unbounded integer.
