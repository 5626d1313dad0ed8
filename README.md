# Passwordless email-code authentication: the client flow

This project models the client side of an email-code ("passwordless") sign-in and
sign-up flow against a hosted identity gateway. The gateway never takes part in
the model. Each answer it can give is an input of the handler that awaits it:

- a next step code with a signed-in flag (`Step`);
- a thrown error with its message (`Thrown`);
- for the session provider, a principal or "not authenticated", and a sign-out
  that returns or rejects.

Every handler is a decision table from those answers to a new form state.

Modules, one per component plus two shared ones:

| module | file | models |
|---|---|---|
| `Gateway` | `gateway.dfy` | the answers, the requests the client sends (a log of `Call`s), the step codes, JavaScript's `message \|\| fallback` |
| `Text` | `text.dfy` | `toLowerCase`, `includes`, case-insensitive regular expressions for a literal phrase, and `/User .* does not exist\|UserNotFoundException/i` |
| `PasswordlessSignIn` | `sign_in.dfy` | the sign-in form: email submit with its one factor-selection follow-up, code confirmation, resend, the two resets, the email field's error clear, error classification |
| `PasswordlessSignUp` | `sign_up.dfy` | the sign-up form: email submit, code confirmation, the completion screen, the back reset |
| `AuthProvider` | `auth_provider.dfy` | the session provider over `user`/`loading`: `loadUser` (also `refresh`), the hub's `signedIn`/`signedOut` events, `signOut` |
| `PasswordlessAuth` | `auth_gate.dfy` | the two-flag gate between the forms, and the choice of what to render |

Each component is a class whose fields are its state hooks, and each handler is a
method. Each method's `ensures` ties the new state to a pure function `After…` of
the old state and the gateway's answers. The properties are proved about those
functions. A few fields record what is not React state:

- how often each callback fired (`signInSuccessCalls`, `switchToSignUpCalls`);
- how often the sign-up completion timer was scheduled (`scheduledCompletions`);
- every gateway request made (`gatewayCalls`).

The five form handlers that call the gateway return, as a ghost value, the
state at the moment the request goes out (`Pending`). These are `HandleSignIn`,
`HandleConfirmSignIn` and `Resend` on the sign-in form, and `HandleSignUp` and
`HandleConfirmSignUp` on the sign-up form. The ghost value shows that loading
is set and the error cleared before the request is issued.

The provider differs, because it has no error field:

- Its `SignOut` returns the state while sign-out is out (`SignOutPending`).
  There the request is logged and the user is still present.
- Its `LoadUser` returns nothing, because `loadUser` changes no state before its
  query.

Points where the code differs from what one might expect:

- The factor-selection follow-up is not recursive. A second `CONTINUE_…` step
  after selecting the email factor ends in "Unexpected step after factor
  selection: …".
- `signOut` drops the user only once the gateway call has returned. A rejected
  sign-out leaves the user in place.
- Code confirmation on the sign-in form fires the success callback for every
  answer that does not throw, whatever step the answer carries.
- On the sign-up form, a returned step other than `CONFIRM_SIGN_UP` leaves the
  error empty, not unchanged, because the handler cleared it before the call.
- A failed code confirmation on the sign-in form is not classified. The thrown
  message, or "Failed to confirm sign in", is shown as it is. A not-found or
  unavailable-challenge message is therefore not replaced by the privacy text
  or the sign-up prompt. Only the email submit classifies its errors.
  `PasswordlessSignIn.ConfirmShowsMessageAsIs` states this.
- An unlisted step code after the email submit is not shown bare. It follows
  the prefix "Unexpected sign-in step: ", or "Unexpected step after factor
  selection: " after the follow-up, or "Unexpected sign-in step while
  resending: " on resend.

The user-not-found pattern needs a space on each side of the gap.
`Text.SingleSpaceMessageNotRecognised` states that `"User does not exist."` is not
recognised. `PasswordlessSignIn.SingleSpaceMessageShownAsIs` states that sign-in
then shows the gateway's own text for it.

Case folding is ASCII only. For the phrases searched for here, that agrees with
JavaScript:

- A regular expression with the `i` flag and without `u` never folds a
  non-ASCII character onto an ASCII one.
- `toLowerCase` maps a non-ASCII character to an ASCII letter only for
  U+212A (to `k`) and U+0130 (to `i` plus a combining dot).
- The phrase has no `k`. Each `i` in it is followed by another letter of the
  phrase, never by a combining dot.

## Model

| member | source | states |
|---|---|---|
| `Gateway.MessageOr` | src/features/auth/components/PasswordlessSignIn.tsx:130 | a thrown message wins over the default, an empty one falls back to it, and a non-empty default makes the result non-empty |
| `Text.Lower` | src/features/auth/components/PasswordlessSignIn.tsx:67 | same length, each character lower-cased |
| `Text.Includes` | src/features/auth/components/PasswordlessSignIn.tsx:68 | true exactly when the needle occurs at some position |
| `Text.IncludesIgnoringCase` | src/features/auth/components/PasswordlessSignIn.tsx:101 | true exactly when the needle occurs at some position up to letter case |
| `Text.LowerThenIncludes` | src/features/auth/components/PasswordlessSignIn.tsx:67-68 | for a lower-case needle, lower-casing the message and then searching is the case-insensitive search |
| `Text.MatchesUserNotFound` | src/features/auth/components/PasswordlessSignIn.tsx:99 | true exactly when "User " is followed, after a gap without line breaks, by " does not exist", or "UserNotFoundException" occurs, all up to letter case |
| `Text.NamedUserRecognised` | src/features/auth/components/PasswordlessSignIn.tsx:99 | a message naming the user between the two phrases is recognised |
| `Text.SingleSpaceMessageNotRecognised` | src/features/auth/components/PasswordlessSignIn.tsx:99 | "User does not exist." is not recognised: the gap sits between two required spaces |
| `PasswordlessSignIn.ScreenOf` | src/features/auth/components/PasswordlessSignIn.tsx:136 | code entry exactly while awaiting confirmation |
| `PasswordlessSignIn.ClassifySignInError` | src/features/auth/components/PasswordlessSignIn.tsx:96-105 | in order: not-found becomes the "If an account exists…" text, else the unavailable challenge becomes the sign-up prompt, else the message as it is; never empty when the message is not |
| `PasswordlessSignIn.SingleSpaceMessageShownAsIs` | src/features/auth/components/PasswordlessSignIn.tsx:96-105 | "User does not exist." escapes both patterns, so sign-in shows it as it is |
| `PasswordlessSignIn.ChallengeOr` | src/features/auth/components/PasswordlessSignIn.tsx:229-233 | the sign-up prompt exactly when the message mentions the unavailable challenge in any case, else the fallback |
| `PasswordlessSignIn.LowerCaseChallengeOr` | src/features/auth/components/PasswordlessSignIn.tsx:67-72 | the lower-case-then-includes test chooses exactly as the case-insensitive one |
| `PasswordlessSignIn.Pending` | src/features/auth/components/PasswordlessSignIn.tsx:24-25 | while a request is out: loading, no error, the request logged, every other field kept |
| `PasswordlessSignIn.AfterSignIn` | src/features/auth/components/PasswordlessSignIn.tsx:17-109 | empty email: only the error "Email is required", no request; otherwise loading ends false, the requests are `USER_AUTH`/`EMAIL_OTP` sign-in and, after a factor-selection step, one `EMAIL_OTP` follow-up; success fires once exactly when the step is `DONE` with the signed-in flag or the follow-up is `DONE`; the error is empty exactly when sign-in completes or the code is requested; the code request sets awaiting; `CONFIRM_SIGN_UP` and `RESET_PASSWORD` force awaiting false with their messages; unlisted steps and unexpected follow-ups give "Unexpected … step: <step>"; a thrown follow-up forces awaiting false with one of two sign-up messages; a thrown request gives the classified message |
| `PasswordlessSignIn.AfterConfirm` | src/features/auth/components/PasswordlessSignIn.tsx:111-134 | empty code: only the error "Confirmation code is required"; otherwise loading ends false, the code is sent as the challenge response, any returned answer fires success with no error, and a throw shows its message or "Failed to confirm sign in" without firing success |
| `PasswordlessSignIn.ConfirmShowsMessageAsIs` | src/features/auth/components/PasswordlessSignIn.tsx:128-130 | a thrown confirmation shows its message unclassified: an unavailable-challenge or not-found message stays as it is, not the sign-up prompt or the privacy text |
| `PasswordlessSignIn.AfterResend` | src/features/auth/components/PasswordlessSignIn.tsx:194-236 | awaiting never changes; empty email changes nothing; success fires exactly on a direct `DONE` with the signed-in flag; the error is empty exactly when the code is requested or that `DONE` arrives; a factor-selection follow-up other than the code request, `DONE` included, gives "Could not resend code…"; thrown answers give the prompt or the resend failures |
| `PasswordlessSignIn.AfterBack` | src/features/auth/components/PasswordlessSignIn.tsx:275-279 | awaiting false, code and error empty, email and everything else kept, email entry shown |
| `PasswordlessSignIn.AfterSignUpHere` | src/features/auth/components/PasswordlessSignIn.tsx:356-357 | one firing of the switch callback, nothing reset, nothing else changes |
| `PasswordlessSignIn.AfterSignUpInstead` | src/features/auth/components/PasswordlessSignIn.tsx:253-258 | the same reset as Back, plus one firing of the switch callback |
| `PasswordlessSignIn.AfterEmailEdit` | src/features/auth/components/PasswordlessSignIn.tsx:311-314 | the new email, any error cleared, nothing else changes |
| `PasswordlessSignIn.AfterCodeEdit` | src/features/auth/components/PasswordlessSignIn.tsx:152 | the new code, nothing else changes |
| `PasswordlessSignIn.SignInForm.constructor` | src/features/auth/components/PasswordlessSignIn.tsx:11-15 | empty fields, not awaiting, not loading, no error |
| `PasswordlessSignIn.SignInForm.HandleSignIn` | src/features/auth/components/PasswordlessSignIn.tsx:17-109 | the new state is `AfterSignIn` of the old one; the state when the request goes out is `Pending` |
| `PasswordlessSignIn.SignInForm.HandleConfirmSignIn` | src/features/auth/components/PasswordlessSignIn.tsx:111-134 | the new state is `AfterConfirm` of the old one; the state when the request goes out is `Pending` |
| `PasswordlessSignIn.SignInForm.Resend` | src/features/auth/components/PasswordlessSignIn.tsx:194-236 | the new state is `AfterResend` of the old one; the state when the request goes out is `Pending` |
| `PasswordlessSignIn.SignInForm.BackToEmailEntry` | src/features/auth/components/PasswordlessSignIn.tsx:275-279 | the new state is `AfterBack` of the old one |
| `PasswordlessSignIn.SignInForm.SignUpInstead` | src/features/auth/components/PasswordlessSignIn.tsx:253-258 | the new state is `AfterSignUpInstead` of the old one |
| `PasswordlessSignIn.SignInForm.SignUpHere` | src/features/auth/components/PasswordlessSignIn.tsx:356-357 | the new state is `AfterSignUpHere` of the old one |
| `PasswordlessSignIn.SignInForm.EditEmail` | src/features/auth/components/PasswordlessSignIn.tsx:311-314 | the new state is `AfterEmailEdit` of the old one |
| `PasswordlessSignIn.SignInForm.EditCode` | src/features/auth/components/PasswordlessSignIn.tsx:152 | the new state is `AfterCodeEdit` of the old one |
| `PasswordlessSignUp.ScreenOf` | src/features/auth/components/PasswordlessSignUp.tsx:69-79 | completion over code entry over email entry |
| `PasswordlessSignUp.SignUpRequest` | src/features/auth/components/PasswordlessSignUp.tsx:28-32 | the email as username and only attribute, with the fixed password `Dummypassword123!` |
| `PasswordlessSignUp.Pending` | src/features/auth/components/PasswordlessSignUp.tsx:24-25 | while a request is out: loading, no error, the request logged, every other field kept |
| `PasswordlessSignUp.AfterSignUp` | src/features/auth/components/PasswordlessSignUp.tsx:17-42 | empty email: only the error, no request; otherwise the sign-up request is logged and loading ends false; only `CONFIRM_SIGN_UP` sets awaiting, any other step keeps it with no error; a throw shows its message or "Failed to sign up"; completion is never touched |
| `PasswordlessSignUp.AfterConfirm` | src/features/auth/components/PasswordlessSignUp.tsx:44-67 | empty code: only the error, no request; otherwise loading ends false; success sets complete and schedules the completion callback once; a throw shows its message or "Failed to confirm sign up" and leaves completion and the schedule alone |
| `PasswordlessSignUp.AfterBack` | src/features/auth/components/PasswordlessSignUp.tsx:134-138 | awaiting false, code and error empty, email and everything else kept |
| `PasswordlessSignUp.AfterEmailEdit` | src/features/auth/components/PasswordlessSignUp.tsx:170 | the new email; the error is not cleared |
| `PasswordlessSignUp.AfterCodeEdit` | src/features/auth/components/PasswordlessSignUp.tsx:93 | the new code, nothing else changes |
| `PasswordlessSignUp.CompletionIsFinal` | src/features/auth/components/PasswordlessSignUp.tsx:69-77 | once complete, every handler leaves the completion screen up |
| `PasswordlessSignUp.HappyPath` | src/features/auth/components/PasswordlessSignUp.tsx:17-67 | email, `CONFIRM_SIGN_UP`, code and a successful confirmation reach the completion screen with the callback scheduled exactly once and exactly the two requests made |
| `PasswordlessSignUp.SignUpForm.constructor` | src/features/auth/components/PasswordlessSignUp.tsx:10-15 | empty fields, nothing awaiting or complete, not loading, no error |
| `PasswordlessSignUp.SignUpForm.HandleSignUp` | src/features/auth/components/PasswordlessSignUp.tsx:17-42 | the new state is `AfterSignUp` of the old one; the state when the request goes out is `Pending` |
| `PasswordlessSignUp.SignUpForm.HandleConfirmSignUp` | src/features/auth/components/PasswordlessSignUp.tsx:44-67 | the new state is `AfterConfirm` of the old one; the state when the request goes out is `Pending` |
| `PasswordlessSignUp.SignUpForm.BackToEmailEntry` | src/features/auth/components/PasswordlessSignUp.tsx:134-138 | the new state is `AfterBack` of the old one |
| `PasswordlessSignUp.SignUpForm.EditEmail` | src/features/auth/components/PasswordlessSignUp.tsx:170 | the new state is `AfterEmailEdit` of the old one |
| `PasswordlessSignUp.SignUpForm.EditCode` | src/features/auth/components/PasswordlessSignUp.tsx:93 | the new state is `AfterCodeEdit` of the old one |
| `AuthProvider.AfterLoadUser` | src/features/auth/providers/AuthProvider.tsx:24-33 | the principal on success, none on failure, loading false either way, one query logged |
| `AuthProvider.AfterHubEvent` | src/features/auth/providers/AuthProvider.tsx:37-46 | `signedIn` is `loadUser`; `signedOut` drops the user and touches nothing else; any other event changes nothing |
| `AuthProvider.SignOutPending` | src/features/auth/providers/AuthProvider.tsx:55 | while sign-out is out, the user is still there |
| `AuthProvider.AfterSignOut` | src/features/auth/providers/AuthProvider.tsx:54-57 | the sign-out request logged, loading kept; the user dropped if it returns, kept if it rejects |
| `AuthProvider.ApplyKeepsLoaded` | src/features/auth/providers/AuthProvider.tsx:31 | no input makes a loaded provider load again |
| `AuthProvider.RunKeepsLoaded` | src/features/auth/providers/AuthProvider.tsx:22-57 | once loading is false it stays false over any inputs |
| `AuthProvider.LoadingUntilFirstLoad` | src/features/auth/providers/AuthProvider.tsx:22-46 | from a loading provider, loading has ended exactly when some input completed a query (a refresh or a `signedIn` event) |
| `AuthProvider.SignedInTwice` | src/features/auth/providers/AuthProvider.tsx:39-41 | a second `signedIn` with the same answer changes nothing but the request log |
| `AuthProvider.SignedOutAfterSignOut` | src/features/auth/providers/AuthProvider.tsx:42-44 | after a returned sign-out, the `signedOut` event changes nothing |
| `AuthProvider.RejectedSignOutKeepsUser` | src/features/auth/providers/AuthProvider.tsx:54-57 | a rejected sign-out leaves the session as it was while pending, user included |
| `AuthProvider.AuthSession.constructor` | src/features/auth/providers/AuthProvider.tsx:21-22 | no user, loading |
| `AuthProvider.AuthSession.LoadUser` | src/features/auth/providers/AuthProvider.tsx:24-33 | the new state is `AfterLoadUser` of the old one |
| `AuthProvider.AuthSession.OnHubEvent` | src/features/auth/providers/AuthProvider.tsx:37-46 | the new state is `AfterHubEvent` of the old one |
| `AuthProvider.AuthSession.SignOut` | src/features/auth/providers/AuthProvider.tsx:54-57 | the new state is `AfterSignOut` of the old one; while the call is out the state is `SignOutPending` |
| `PasswordlessAuth.SelectView` | src/features/auth/components/PasswordlessAuth.tsx:26-102 | each view exactly under its branch condition: loading, then a user, then sign-in, then sign-up, else welcome |
| `PasswordlessAuth.AfterSwitchToSignUp` | src/features/auth/components/PasswordlessAuth.tsx:47-50 | only the sign-up form selected |
| `PasswordlessAuth.AfterSignUpComplete` | src/features/auth/components/PasswordlessAuth.tsx:16-19 | only the sign-in form selected |
| `PasswordlessAuth.AfterSignInHere` | src/features/auth/components/PasswordlessAuth.tsx:62-65 | only the sign-in form selected |
| `PasswordlessAuth.AfterSignInSuccess` | src/features/auth/components/PasswordlessAuth.tsx:21-24 | the gate does not change |
| `PasswordlessAuth.AfterWelcomeSignIn` | src/features/auth/components/PasswordlessAuth.tsx:87 | the sign-in form selected, the sign-up flag kept |
| `PasswordlessAuth.FireKeepsExactlyOne` | src/features/auth/components/PasswordlessAuth.tsx:16-65 | every callback keeps exactly one form selected |
| `PasswordlessAuth.WelcomeUnreachable` | src/features/auth/components/PasswordlessAuth.tsx:82-102 | from a gate with exactly one form selected, after any callbacks exactly one still is, and the welcome screen is never chosen |
| `PasswordlessAuth.InitialShowsSignIn` | src/features/auth/components/PasswordlessAuth.tsx:12-13 | the initial gate has exactly one form selected and shows sign-in once the session has loaded without a user |
| `PasswordlessAuth.BackToSignIn` | src/features/auth/components/PasswordlessAuth.tsx:16-19 | sign-up completion and "Sign in here" both return to the initial gate and the sign-in form |
| `PasswordlessAuth.WelcomeLeadsToSignIn` | src/features/auth/components/PasswordlessAuth.tsx:82-100 | from the welcome screen, its button leads to the sign-in form with exactly one form selected |
| `PasswordlessAuth.SignInThenSignedInEvent` | src/features/auth/components/PasswordlessAuth.tsx:21-41 | a direct `DONE` fires sign-in success once and leaves the gate alone, and the following `signedIn` event brings the principal so the children render |
| `PasswordlessAuth.EmailCodeThenSignedInEvent` | src/features/auth/components/PasswordlessAuth.tsx:21-41 | the code-request step shows code entry without firing success, the confirmed code fires success once with no error after exactly the two requests, and the following `signedIn` event brings the principal so the children render |
| `PasswordlessAuth.AuthGate.constructor` | src/features/auth/components/PasswordlessAuth.tsx:12-13 | sign-in selected, sign-up not |
| `PasswordlessAuth.AuthGate.SwitchToSignUp` | src/features/auth/components/PasswordlessAuth.tsx:47-50 | the new state is `AfterSwitchToSignUp` of the old one |
| `PasswordlessAuth.AuthGate.HandleSignUpComplete` | src/features/auth/components/PasswordlessAuth.tsx:16-19 | the new state is `AfterSignUpComplete` of the old one |
| `PasswordlessAuth.AuthGate.SignInHere` | src/features/auth/components/PasswordlessAuth.tsx:62-65 | the new state is `AfterSignInHere` of the old one |
| `PasswordlessAuth.AuthGate.HandleSignInSuccess` | src/features/auth/components/PasswordlessAuth.tsx:21-24 | the state does not change |
| `PasswordlessAuth.AuthGate.WelcomeSignIn` | src/features/auth/components/PasswordlessAuth.tsx:87 | the new state is `AfterWelcomeSignIn` of the old one |

## Left out

- Calls into the identity SDK (`signIn`, `confirmSignIn`, `signUp`, `confirmSignUp`, `getCurrentUser`, `signOut`, the hub). Their results are parameters, and the requests made are logged.
- Asynchrony. Each handler runs from start to end with its answers given. Interleavings are not modelled: a hub event arriving while a request is out, a form submitted twice, or a timer firing after the form unmounts.
- Timers. The 2000 ms completion timer is modelled only as a count of schedulings. The 50 ms wait in the gate's sign-in success callback does nothing to state and is left out.
- The buttons' `disabled` state while loading. Handlers are modelled as callable in every state.
- Layout, styling, `console` output and `preventDefault`.
- Thrown values that are not error objects. A `null` error reaches `err.message` in the code-confirmation and sign-up handlers and throws again there. The model treats a missing message as empty, so it falls back to the default text.
- The message of a rejected sign-out propagates to the caller of `signOut`. The model keeps only the fact that the user stays.
- Text.Lower: folds ASCII letters only. Used as a general `toLowerCase` it is weaker, but it is exact for the phrases searched for here (see above).
- A form's state across a switch of the gate. When the gate hides a form, React unmounts it, so a form shown again starts from its initial state. The model keeps the gate and the two form records separate and does not join them. The end-to-end lemmas start each form from its `Initial`.
- React context mechanics: `useAuth` throwing outside a provider, `useMemo`, the effect subscription and its cleanup, StrictMode double invocation.
- The application shell, the backend configuration and the entry point are not part of this model.
