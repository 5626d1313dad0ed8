/**
 * The passwordless sign-in form: email entry, code entry, resend, and the
 * resets between them. The form's state hooks are the fields of `SignInForm`;
 * the functions `After...` give the state each handler leaves behind, as a
 * function of the state it started from and of the gateway's answers.
 */
module PasswordlessSignIn {
  import opened Gateway
  import opened Text

  const EmailRequired := "Email is required"
  const CodeRequired := "Confirmation code is required"
  const AccountMaybeExists := "If an account exists for this email, a code was sent."
  const SignUpFirst := "Email code sign-in isn't available for this address. Please sign up first."
  const ContinueFailed := "Unable to continue with email code. Please sign up first."
  const ConfirmEmailFirst := "Please confirm your email first, then sign in."
  const ResetRequired := "Password reset required. Please reset or sign up."
  const SendFailed := "Failed to send verification code"
  const ConfirmFailed := "Failed to confirm sign in"
  const UnexpectedStep := "Unexpected sign-in step: "
  const UnexpectedAfterSelection := "Unexpected step after factor selection: "
  const ResendNeedsSignUp := "Could not resend code. Please sign up first."
  const ResendContinueFailed := "Unable to resend code. Please sign up first."
  const ResendFailed := "Unable to resend code."
  const UnexpectedWhileResending := "Unexpected sign-in step while resending: "
  const ChallengeUnavailable := "selected challenge is not available"

  /** The form's state hooks, with the number of times each callback prop was
      invoked and the gateway requests issued so far. */
  datatype SignInState = SignInState(
    email: string,
    code: string,
    awaiting: bool,
    loading: bool,
    error: string,
    successCalls: nat,
    switchCalls: nat,
    calls: seq<Call>)

  const Initial := SignInState("", "", false, false, "", 0, 0, [])

  datatype Screen = EmailEntry | CodeEntry

  /** The form shows code entry exactly while it awaits confirmation. */
  function ScreenOf(s: SignInState): (v: Screen)
    ensures v == CodeEntry <==> s.awaiting
  {
    if s.awaiting then CodeEntry else EmailEntry
  }

  predicate HasStep(a: Answer, code: string) {
    a.Step? && a.code == code
  }

  /** The request that starts (or restarts) a passwordless sign-in. */
  function StartRequest(email: string): Call {
    SignInCall(email, UserAuthFlow, EmailOtp)
  }

  /** The message mentions the unavailable-challenge phrase, in any letter case. */
  ghost predicate MentionsUnavailableChallenge(m: string) {
    exists i :: OccursIgnoringCaseAt(m, ChallengeUnavailable, i)
  }

  /** The error shown when the sign-in request throws, given the thrown
      message or its default: a not-found message is replaced by one that does
      not reveal whether the account exists, the unavailable-challenge message
      by the sign-up prompt, and any other message is shown as it is. */
  function ClassifySignInError(message: string): (r: string)
    ensures message != "" ==> r != ""
    ensures IsUserNotFoundMessage(message) ==> r == AccountMaybeExists
    ensures !IsUserNotFoundMessage(message) && MentionsUnavailableChallenge(message) ==> r == SignUpFirst
    ensures !IsUserNotFoundMessage(message) && !MentionsUnavailableChallenge(message) ==> r == message
  {
    if MatchesUserNotFound(message) then AccountMaybeExists
    else ChallengeOr(message, message)
  }

  /** The phrase is already in lower case, so lower-casing the message and
      then searching for it is the case-insensitive search. */
  lemma ChallengePhraseIsLowerCase()
    ensures NoUpperCase(ChallengeUnavailable)
  {
  }

  /** `/selected challenge is not available/i.test(message) ? SignUpFirst : fallback`. */
  function ChallengeOr(message: string, fallback: string): (r: string)
    ensures MentionsUnavailableChallenge(message) ==> r == SignUpFirst
    ensures !MentionsUnavailableChallenge(message) ==> r == fallback
  {
    if IncludesIgnoringCase(message, ChallengeUnavailable) then SignUpFirst else fallback
  }

  /** `message.toLowerCase().includes('selected challenge is not available') ? SignUpFirst : fallback`:
      the same choice as `ChallengeOr`. */
  function LowerCaseChallengeOr(message: string, fallback: string): (r: string)
    ensures MentionsUnavailableChallenge(message) ==> r == SignUpFirst
    ensures !MentionsUnavailableChallenge(message) ==> r == fallback
  {
    ChallengePhraseIsLowerCase();
    LowerThenIncludes(message, ChallengeUnavailable);
    if Includes(Lower(message), ChallengeUnavailable) then SignUpFirst else fallback
  }

  /** A not-found message with a single space after "User" escapes the
      pattern, so sign-in shows the gateway's own text for it. */
  lemma SingleSpaceMessageShownAsIs()
    ensures ClassifySignInError("User does not exist.") == "User does not exist."
  {
    var m := "User does not exist.";
    SingleSpaceMessageNotRecognised();
    assert !IncludesIgnoringCase(m, ChallengeUnavailable);
  }

  /** The state while a request is in flight: loading, error cleared, the
      request issued, nothing else touched. */
  function Pending(s: SignInState, c: Call): (r: SignInState)
    ensures r.loading && r.error == ""
    ensures r.calls == s.calls + [c]
    ensures r.email == s.email && r.code == s.code && r.awaiting == s.awaiting
    ensures r.successCalls == s.successCalls && r.switchCalls == s.switchCalls
  {
    s.(loading := true, error := "", calls := s.calls + [c])
  }

  /** The answer to the sign-in request asks for a factor to be selected. */
  predicate AsksForFactor(a: Answer) {
    a.Step? && IsFactorSelection(a.code)
  }

  /** Sign-in completes: `DONE` with the signed-in flag, or `DONE` after the
      factor-selection follow-up. */
  predicate SignInCompletes(first: Answer, follow: Answer) {
    || (HasStep(first, Done) && first.isSignedIn)
    || (AsksForFactor(first) && HasStep(follow, Done))
  }

  /** The gateway asks for the emailed code, directly or after factor selection. */
  predicate CodeRequested(first: Answer, follow: Answer) {
    || HasStep(first, ConfirmWithEmailCode)
    || (AsksForFactor(first) && HasStep(follow, ConfirmWithEmailCode))
  }

  /** A step code the sign-in request's table has no row for. */
  predicate UnlistedSignInStep(a: Answer) {
    && a.Step?
    && a.code != ConfirmWithEmailCode && !IsFactorSelection(a.code)
    && a.code != ConfirmSignUp && a.code != ResetPassword
    && !(a.code == Done && a.isSignedIn)
  }

  /** The follow-up after factor selection, from the pending state. */
  function FactorSelected(p: SignInState, follow: Answer): SignInState {
    match follow
    case Step(contStep, _) =>
      if contStep == ConfirmWithEmailCode then p.(awaiting := true)
      else if contStep == Done then p.(successCalls := p.successCalls + 1)
      else p.(error := UnexpectedAfterSelection + contStep)
    case Thrown(message) =>
      p.(error := LowerCaseChallengeOr(message, ContinueFailed), awaiting := false)
  }

  /** The step table of the sign-in request, from the pending state. */
  function SignInAnswered(p: SignInState, first: Answer, follow: Answer): SignInState {
    match first
    case Thrown(message) => p.(error := ClassifySignInError(MessageOr(message, SendFailed)))
    case Step(step, isSignedIn) =>
      if step == ConfirmWithEmailCode then p.(awaiting := true)
      else if IsFactorSelection(step) then
        FactorSelected(p.(calls := p.calls + [ConfirmSignInCall(EmailOtp)]), follow)
      else if step == ConfirmSignUp then p.(error := ConfirmEmailFirst, awaiting := false)
      else if step == ResetPassword then p.(error := ResetRequired, awaiting := false)
      else if step == Done && isSignedIn then p.(successCalls := p.successCalls + 1)
      else p.(error := UnexpectedStep + step)
  }

  /** Submitting the email: the state after the sign-in request, and the
      factor-selection follow-up when the gateway asks for one, have been
      answered with `first` and `follow`. */
  function AfterSignIn(s: SignInState, first: Answer, follow: Answer): (r: SignInState)
    // validation: nothing but the error changes, and no request is issued
    ensures s.email == "" ==> r == s.(error := EmailRequired)
    // every answer ends loading and keeps the inputs
    ensures s.email != "" ==>
      && !r.loading && r.email == s.email && r.code == s.code && r.switchCalls == s.switchCalls
      && r.calls == s.calls + [StartRequest(s.email)]
                   + (if AsksForFactor(first) then [ConfirmSignInCall(EmailOtp)] else [])
    // the success callback fires once, exactly when sign-in completes
    ensures s.email != "" ==>
      && r.successCalls == (if SignInCompletes(first, follow) then s.successCalls + 1 else s.successCalls)
    // no answer leaves the form silently where it was
    ensures s.email != "" ==>
      (r.error == "" <==> SignInCompletes(first, follow) || CodeRequested(first, follow))
    // the step table
    ensures s.email != "" && CodeRequested(first, follow) ==> r.awaiting
    ensures s.email != "" && SignInCompletes(first, follow) ==> r.awaiting == s.awaiting
    ensures s.email != "" && AsksForFactor(first) && follow.Step?
            && follow.code != ConfirmWithEmailCode && follow.code != Done ==>
              r.awaiting == s.awaiting && r.error == UnexpectedAfterSelection + follow.code
    ensures s.email != "" && AsksForFactor(first) && follow.Thrown? ==>
              !r.awaiting && r.error == LowerCaseChallengeOr(follow.message, ContinueFailed)
    ensures s.email != "" && HasStep(first, ConfirmSignUp) ==> !r.awaiting && r.error == ConfirmEmailFirst
    ensures s.email != "" && HasStep(first, ResetPassword) ==> !r.awaiting && r.error == ResetRequired
    ensures s.email != "" && UnlistedSignInStep(first) ==>
              r.awaiting == s.awaiting && r.error == UnexpectedStep + first.code
    ensures s.email != "" && first.Thrown? ==>
              r.awaiting == s.awaiting && r.error == ClassifySignInError(MessageOr(first.message, SendFailed))
  {
    if s.email == "" then s.(error := EmailRequired)
    else SignInAnswered(Pending(s, StartRequest(s.email)), first, follow).(loading := false)
  }

  /** Submitting the code: the confirmation request has been answered with `answer`.
      Any answer that does not throw counts as signed in. */
  function AfterConfirm(s: SignInState, answer: Answer): (r: SignInState)
    ensures s.code == "" ==> r == s.(error := CodeRequired)
    ensures s.code != "" ==>
      && !r.loading && r.email == s.email && r.code == s.code && r.awaiting == s.awaiting
      && r.switchCalls == s.switchCalls && r.calls == s.calls + [ConfirmSignInCall(s.code)]
    ensures s.code != "" && answer.Step? ==> r.successCalls == s.successCalls + 1 && r.error == ""
    ensures s.code != "" && answer.Thrown? ==>
      r.successCalls == s.successCalls && r.error == MessageOr(answer.message, ConfirmFailed) && r.error != ""
  {
    if s.code == "" then s.(error := CodeRequired)
    else
      var p := Pending(s, ConfirmSignInCall(s.code));
      match answer
      case Step(_, _) => p.(successCalls := p.successCalls + 1, loading := false)
      case Thrown(message) => p.(error := MessageOr(message, ConfirmFailed), loading := false)
  }

  /** Code confirmation does not classify a thrown message: an unavailable
      challenge or a not-found message is shown as it is, not replaced by the
      sign-up prompt or the "If an account exists" text. */
  lemma ConfirmShowsMessageAsIs(s: SignInState, m: string)
    requires s.code != "" && m != ""
    ensures AfterConfirm(s, Thrown(m)).error == m
    ensures AfterConfirm(s, Thrown(ChallengeUnavailable)).error == ChallengeUnavailable != SignUpFirst
    ensures AfterConfirm(s, Thrown(UserNotFoundName)).error == UserNotFoundName != AccountMaybeExists
  {
  }

  /** A step code the resend table has no row for. */
  predicate UnlistedResendStep(a: Answer) {
    && a.Step?
    && a.code != ConfirmWithEmailCode && !IsFactorSelection(a.code)
    && !(a.code == Done && a.isSignedIn)
  }

  /** The resend table, from the pending state. */
  function ResendAnswered(p: SignInState, first: Answer, follow: Answer): SignInState {
    match first
    case Thrown(message) => p.(error := ChallengeOr(message, ResendFailed))
    case Step(step, isSignedIn) =>
      if step == ConfirmWithEmailCode then p
      else if IsFactorSelection(step) then
        var q := p.(calls := p.calls + [ConfirmSignInCall(EmailOtp)]);
        match follow
        case Step(contStep, _) =>
          if contStep != ConfirmWithEmailCode then q.(error := ResendNeedsSignUp) else q
        case Thrown(message) => q.(error := LowerCaseChallengeOr(message, ResendContinueFailed))
      else if step == Done && isSignedIn then p.(successCalls := p.successCalls + 1)
      else p.(error := UnexpectedWhileResending + step)
  }

  /** Pressing "Resend Code": the repeated sign-in request, and its follow-up,
      have been answered with `first` and `follow`. */
  function AfterResend(s: SignInState, first: Answer, follow: Answer): (r: SignInState)
    // the form stays on the screen it is on
    ensures r.awaiting == s.awaiting
    // without an email nothing happens at all
    ensures s.email == "" ==> r == s
    ensures s.email != "" ==>
      && !r.loading && r.email == s.email && r.code == s.code && r.switchCalls == s.switchCalls
      && r.calls == s.calls + [StartRequest(s.email)]
                   + (if AsksForFactor(first) then [ConfirmSignInCall(EmailOtp)] else [])
    // a completed factor selection does not sign in here; only a direct `DONE` does
    ensures s.email != "" ==>
      r.successCalls == (if HasStep(first, Done) && first.isSignedIn then s.successCalls + 1 else s.successCalls)
    ensures s.email != "" ==>
      (r.error == "" <==> CodeRequested(first, follow) || (HasStep(first, Done) && first.isSignedIn))
    ensures s.email != "" && AsksForFactor(first) && follow.Step? && follow.code != ConfirmWithEmailCode ==>
      r.error == ResendNeedsSignUp
    ensures s.email != "" && AsksForFactor(first) && follow.Thrown? ==>
      r.error == LowerCaseChallengeOr(follow.message, ResendContinueFailed)
    ensures s.email != "" && UnlistedResendStep(first) ==> r.error == UnexpectedWhileResending + first.code
    ensures s.email != "" && first.Thrown? ==> r.error == ChallengeOr(first.message, ResendFailed)
  {
    if s.email == "" then s
    else ResendAnswered(Pending(s, StartRequest(s.email)), first, follow).(loading := false)
  }

  /** "Back to Email Entry": leave code entry, keep the email. */
  function AfterBack(s: SignInState): (r: SignInState)
    ensures !r.awaiting && r.code == "" && r.error == ""
    ensures r.email == s.email && r.loading == s.loading && r.calls == s.calls
    ensures r.successCalls == s.successCalls && r.switchCalls == s.switchCalls
    ensures ScreenOf(r) == EmailEntry
  {
    s.(awaiting := false, code := "", error := "")
  }

  /** "Sign Up Instead": the same reset as "Back", and the switch callback fires. */
  function AfterSignUpInstead(s: SignInState): (r: SignInState)
    ensures r.switchCalls == s.switchCalls + 1
    ensures r == AfterBack(s).(switchCalls := s.switchCalls + 1)
  {
    s.(awaiting := false, code := "", error := "", switchCalls := s.switchCalls + 1)
  }

  /** "Sign up here" on the email screen: the switch callback fires, and
      unlike "Sign Up Instead" nothing is reset. */
  function AfterSignUpHere(s: SignInState): (r: SignInState)
    ensures r.switchCalls == s.switchCalls + 1
    ensures r.(switchCalls := s.switchCalls) == s
  {
    s.(switchCalls := s.switchCalls + 1)
  }

  /** Typing in the email field replaces the email and clears any error. */
  function AfterEmailEdit(s: SignInState, value: string): (r: SignInState)
    ensures r.email == value && r.error == ""
    ensures r.(email := s.email, error := s.error) == s
  {
    s.(email := value, error := "")
  }

  /** Typing in the code field replaces the code. */
  function AfterCodeEdit(s: SignInState, value: string): (r: SignInState)
    ensures r.code == value && r.(code := s.code) == s
  {
    s.(code := value)
  }

  /** The sign-in component, its state hooks as fields. */
  class SignInForm {
    var email: string
    var confirmationCode: string
    var isAwaitingConfirmation: bool
    var loading: bool
    var error: string
    var signInSuccessCalls: nat
    var switchToSignUpCalls: nat
    var gatewayCalls: seq<Call>

    function State(): SignInState
      reads this
    {
      SignInState(email, confirmationCode, isAwaitingConfirmation, loading, error,
                  signInSuccessCalls, switchToSignUpCalls, gatewayCalls)
    }

    constructor ()
      ensures State() == Initial
    {
      email, confirmationCode, isAwaitingConfirmation, loading, error := "", "", false, false, "";
      signInSuccessCalls, switchToSignUpCalls, gatewayCalls := 0, 0, [];
    }

    /** `handleSignIn`. `inFlight` is the state while the first request is outstanding. */
    method HandleSignIn(first: Answer, follow: Answer) returns (ghost inFlight: Option<SignInState>)
      modifies this
      ensures State() == AfterSignIn(old(State()), first, follow)
      ensures inFlight == if old(email) == "" then None
                          else Some(Pending(old(State()), StartRequest(old(email))))
    {
      if email == "" {
        error := EmailRequired;
        inFlight := None;
        return;
      }
      loading := true;
      error := "";
      gatewayCalls := gatewayCalls + [StartRequest(email)];
      inFlight := Some(State());
      match first {
        case Thrown(message) =>
          error := ClassifySignInError(MessageOr(message, SendFailed));
        case Step(step, isSignedIn) =>
          if step == ConfirmWithEmailCode {
            isAwaitingConfirmation := true;
          } else if IsFactorSelection(step) {
            gatewayCalls := gatewayCalls + [ConfirmSignInCall(EmailOtp)];
            match follow {
              case Step(contStep, _) =>
                if contStep == ConfirmWithEmailCode {
                  isAwaitingConfirmation := true;
                } else if contStep == Done {
                  signInSuccessCalls := signInSuccessCalls + 1;
                } else {
                  error := UnexpectedAfterSelection + contStep;
                }
              case Thrown(message) =>
                error := LowerCaseChallengeOr(message, ContinueFailed);
                isAwaitingConfirmation := false;
            }
          } else if step == ConfirmSignUp {
            error := ConfirmEmailFirst;
            isAwaitingConfirmation := false;
          } else if step == ResetPassword {
            error := ResetRequired;
            isAwaitingConfirmation := false;
          } else if step == Done && isSignedIn {
            signInSuccessCalls := signInSuccessCalls + 1;
          } else {
            error := UnexpectedStep + step;
          }
      }
      loading := false;
    }

    /** `handleConfirmSignIn`. */
    method HandleConfirmSignIn(answer: Answer) returns (ghost inFlight: Option<SignInState>)
      modifies this
      ensures State() == AfterConfirm(old(State()), answer)
      ensures inFlight == if old(confirmationCode) == "" then None
                          else Some(Pending(old(State()), ConfirmSignInCall(old(confirmationCode))))
    {
      if confirmationCode == "" {
        error := CodeRequired;
        inFlight := None;
        return;
      }
      loading := true;
      error := "";
      gatewayCalls := gatewayCalls + [ConfirmSignInCall(confirmationCode)];
      inFlight := Some(State());
      match answer {
        case Step(_, _) =>
          signInSuccessCalls := signInSuccessCalls + 1;
        case Thrown(message) =>
          error := MessageOr(message, ConfirmFailed);
      }
      loading := false;
    }

    /** The "Resend Code" click handler. */
    method Resend(first: Answer, follow: Answer) returns (ghost inFlight: Option<SignInState>)
      modifies this
      ensures State() == AfterResend(old(State()), first, follow)
      ensures inFlight == if old(email) == "" then None
                          else Some(Pending(old(State()), StartRequest(old(email))))
    {
      if email == "" {
        inFlight := None;
        return;
      }
      loading := true;
      error := "";
      gatewayCalls := gatewayCalls + [StartRequest(email)];
      inFlight := Some(State());
      match first {
        case Thrown(message) =>
          error := ChallengeOr(message, ResendFailed);
        case Step(step, isSignedIn) =>
          if step == ConfirmWithEmailCode {
          } else if IsFactorSelection(step) {
            gatewayCalls := gatewayCalls + [ConfirmSignInCall(EmailOtp)];
            match follow {
              case Step(contStep, _) =>
                if contStep != ConfirmWithEmailCode {
                  error := ResendNeedsSignUp;
                }
              case Thrown(message) =>
                error := LowerCaseChallengeOr(message, ResendContinueFailed);
            }
          } else if step == Done && isSignedIn {
            signInSuccessCalls := signInSuccessCalls + 1;
          } else {
            error := UnexpectedWhileResending + step;
          }
      }
      loading := false;
    }

    /** The "Back to Email Entry" click handler. */
    method BackToEmailEntry()
      modifies this
      ensures State() == AfterBack(old(State()))
    {
      isAwaitingConfirmation := false;
      confirmationCode := "";
      error := "";
    }

    /** The "Sign Up Instead" click handler. */
    method SignUpInstead()
      modifies this
      ensures State() == AfterSignUpInstead(old(State()))
    {
      isAwaitingConfirmation := false;
      confirmationCode := "";
      error := "";
      switchToSignUpCalls := switchToSignUpCalls + 1;
    }

    /** The "Sign up here" click handler. */
    method SignUpHere()
      modifies this
      ensures State() == AfterSignUpHere(old(State()))
    {
      switchToSignUpCalls := switchToSignUpCalls + 1;
    }

    /** The email field's change handler. */
    method EditEmail(value: string)
      modifies this
      ensures State() == AfterEmailEdit(old(State()), value)
    {
      email := value;
      if error != "" {
        error := "";
      }
    }

    /** The code field's change handler. */
    method EditCode(value: string)
      modifies this
      ensures State() == AfterCodeEdit(old(State()), value)
    {
      confirmationCode := value;
    }
  }
}
