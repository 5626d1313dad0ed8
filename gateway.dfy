/**
 * The hosted identity gateway, seen from the client: the answers it can give,
 * the requests the client sends it, and the step codes it uses. The gateway is
 * never called in this model; every answer is a parameter of the handler that
 * awaits it.
 */
module Gateway {

  datatype Option<+T> = None | Some(value: T)

  /** What a sign-in, confirm-sign-in, sign-up or confirm-sign-up call produces:
      a result carrying its next step code and signed-in flag, or a thrown error.
      An empty message stands for an error whose `message` is missing or empty. */
  datatype Answer = Step(code: string, isSignedIn: bool) | Thrown(message: string)

  /** The authenticated principal held by the session store. */
  datatype Principal = Principal(username: string, loginId: string)

  /** What the current-principal query produces. */
  datatype Lookup = Found(principal: Principal) | NotAuthenticated(message: string)

  /** What the sign-out call produces: it returns, or it rejects. */
  datatype Ack = Returned | Rejected(message: string)

  /** A request sent to the gateway, with the arguments the client passes. */
  datatype Call =
    | SignInCall(username: string, authFlowType: string, preferredChallenge: string)
    | ConfirmSignInCall(challengeResponse: string)
    | SignUpCall(username: string, password: string, emailAttribute: string)
    | ConfirmSignUpCall(username: string, confirmationCode: string)
    | GetCurrentUserCall
    | SignOutCall

  // Step codes
  const ConfirmWithEmailCode := "CONFIRM_SIGN_IN_WITH_EMAIL_CODE"
  const FirstFactorSelection := "CONTINUE_SIGN_IN_WITH_FIRST_FACTOR_SELECTION"
  const MfaSelection := "CONTINUE_SIGN_IN_WITH_MFA_SELECTION"
  const ConfirmSignUp := "CONFIRM_SIGN_UP"
  const ResetPassword := "RESET_PASSWORD"
  const Done := "DONE"

  // Fixed request arguments
  const UserAuthFlow := "USER_AUTH"
  const EmailOtp := "EMAIL_OTP"

  /** True for the two step codes that ask the client to pick a factor. */
  predicate IsFactorSelection(code: string) {
    code == FirstFactorSelection || code == MfaSelection
  }

  /** JavaScript's `message || fallback`: an empty message falls back. */
  function MessageOr(message: string, fallback: string): (r: string)
    ensures message != "" ==> r == message
    ensures message == "" ==> r == fallback
    ensures fallback != "" ==> r != ""
  {
    if message != "" then message else fallback
  }
}
