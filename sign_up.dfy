/**
 * The passwordless sign-up form: email entry, code entry, a completion screen,
 * and the reset back to email entry. The form's state hooks are the fields of
 * `SignUpForm`; the functions `After...` give the state each handler leaves.
 * The two-second timer that calls the completion callback is kept only as the
 * number of times it was scheduled.
 */
module PasswordlessSignUp {
  import opened Gateway

  const EmailRequired := "Email is required"
  const CodeRequired := "Confirmation code is required"
  const SignUpFailed := "Failed to sign up"
  const ConfirmFailed := "Failed to confirm sign up"

  /** The gateway insists on a password; sign-in never uses it. */
  const PlaceholderPassword := "Dummypassword123!"

  /** The form's state hooks, with the number of completion timers scheduled
      and the gateway requests issued so far. */
  datatype SignUpState = SignUpState(
    email: string,
    code: string,
    awaiting: bool,
    complete: bool,
    loading: bool,
    error: string,
    scheduledCompletions: nat,
    calls: seq<Call>)

  const Initial := SignUpState("", "", false, false, false, "", 0, [])

  datatype Screen = Completed | CodeEntry | EmailEntry

  /** Completion wins over code entry, which wins over email entry. */
  function ScreenOf(s: SignUpState): (v: Screen)
    ensures v == Completed <==> s.complete
    ensures v == CodeEntry <==> !s.complete && s.awaiting
    ensures v == EmailEntry <==> !s.complete && !s.awaiting
  {
    if s.complete then Completed
    else if s.awaiting then CodeEntry
    else EmailEntry
  }

  /** The account-creation request for an email: the placeholder password,
      and the email as the only user attribute. */
  function SignUpRequest(email: string): (c: Call)
    ensures c.SignUpCall? && c.username == email && c.emailAttribute == email
    ensures c.password == "Dummypassword123!"
  {
    SignUpCall(email, PlaceholderPassword, email)
  }

  /** The state while a request is in flight: loading, error cleared, the
      request issued, nothing else touched. */
  function Pending(s: SignUpState, c: Call): (r: SignUpState)
    ensures r.loading && r.error == "" && r.calls == s.calls + [c]
    ensures r.(loading := s.loading, error := s.error, calls := s.calls) == s
  {
    s.(loading := true, error := "", calls := s.calls + [c])
  }

  /** Submitting the email: the sign-up request has been answered with `answer`. */
  function AfterSignUp(s: SignUpState, answer: Answer): (r: SignUpState)
    // validation: nothing but the error changes, and no request is issued
    ensures s.email == "" ==> r == s.(error := EmailRequired)
    ensures s.email != "" ==>
      && !r.loading && r.email == s.email && r.code == s.code
      && r.complete == s.complete && r.scheduledCompletions == s.scheduledCompletions
      && r.calls == s.calls + [SignUpRequest(s.email)]
    // only the confirmation step moves on to code entry
    ensures s.email != "" && answer.Step? ==>
      r.error == "" && r.awaiting == (s.awaiting || answer.code == ConfirmSignUp)
    ensures s.email != "" && answer.Thrown? ==>
      r.awaiting == s.awaiting && r.error == MessageOr(answer.message, SignUpFailed) && r.error != ""
  {
    if s.email == "" then s.(error := EmailRequired)
    else
      var p := Pending(s, SignUpRequest(s.email));
      match answer
      case Step(step, _) =>
        (if step == ConfirmSignUp then p.(awaiting := true) else p).(loading := false)
      case Thrown(message) =>
        p.(error := MessageOr(message, SignUpFailed), loading := false)
  }

  /** Submitting the code: the confirmation request has been answered with `answer`. */
  function AfterConfirm(s: SignUpState, answer: Answer): (r: SignUpState)
    ensures s.code == "" ==> r == s.(error := CodeRequired)
    ensures s.code != "" ==>
      && !r.loading && r.email == s.email && r.code == s.code && r.awaiting == s.awaiting
      && r.calls == s.calls + [ConfirmSignUpCall(s.email, s.code)]
    // success: complete, and the completion callback scheduled once more
    ensures s.code != "" && answer.Step? ==>
      r.complete && r.error == "" && r.scheduledCompletions == s.scheduledCompletions + 1
    // failure: the error shown, completion untouched
    ensures s.code != "" && answer.Thrown? ==>
      && r.complete == s.complete && r.scheduledCompletions == s.scheduledCompletions
      && r.error == MessageOr(answer.message, ConfirmFailed) && r.error != ""
  {
    if s.code == "" then s.(error := CodeRequired)
    else
      var p := Pending(s, ConfirmSignUpCall(s.email, s.code));
      match answer
      case Step(_, _) =>
        p.(complete := true, scheduledCompletions := p.scheduledCompletions + 1, loading := false)
      case Thrown(message) =>
        p.(error := MessageOr(message, ConfirmFailed), loading := false)
  }

  /** "Back to Email Entry": leave code entry, keep the email. */
  function AfterBack(s: SignUpState): (r: SignUpState)
    ensures !r.awaiting && r.code == "" && r.error == ""
    ensures r.(awaiting := s.awaiting, code := s.code, error := s.error) == s
  {
    s.(awaiting := false, code := "", error := "")
  }

  /** Typing in the email field replaces the email; unlike sign-in, the error stays. */
  function AfterEmailEdit(s: SignUpState, value: string): (r: SignUpState)
    ensures r.email == value && r.(email := s.email) == s
  {
    s.(email := value)
  }

  /** Typing in the code field replaces the code. */
  function AfterCodeEdit(s: SignUpState, value: string): (r: SignUpState)
    ensures r.code == value && r.(code := s.code) == s
  {
    s.(code := value)
  }

  /** A complete form stays complete, and its completion screen stays up,
      whatever handler runs next. */
  lemma CompletionIsFinal(s: SignUpState, answer: Answer, value: string)
    requires s.complete
    ensures ScreenOf(AfterSignUp(s, answer)) == Completed
    ensures ScreenOf(AfterConfirm(s, answer)) == Completed
    ensures ScreenOf(AfterBack(s)) == Completed
    ensures ScreenOf(AfterEmailEdit(s, value)) == Completed
    ensures ScreenOf(AfterCodeEdit(s, value)) == Completed
  {
  }

  /** From the initial form, typing the email, a confirmation step, typing
      the code and a successful confirmation reach the completion screen with
      the completion callback scheduled exactly once. */
  lemma HappyPath(email: string, code: string, signUpStep: Answer, confirm: Answer)
    requires email != "" && code != ""
    requires signUpStep.Step? && signUpStep.code == ConfirmSignUp && confirm.Step?
    ensures var s1 := AfterEmailEdit(Initial, email);
            var s2 := AfterSignUp(s1, signUpStep);
            var s3 := AfterCodeEdit(s2, code);
            var s4 := AfterConfirm(s3, confirm);
            && ScreenOf(s2) == CodeEntry
            && ScreenOf(s4) == Completed
            && s4.scheduledCompletions == 1
            && s4.calls == [SignUpCall(email, PlaceholderPassword, email), ConfirmSignUpCall(email, code)]
  {
  }

  /** The sign-up component, its state hooks as fields. */
  class SignUpForm {
    var email: string
    var confirmationCode: string
    var isAwaitingConfirmation: bool
    var isSignUpComplete: bool
    var loading: bool
    var error: string
    var scheduledCompletions: nat
    var gatewayCalls: seq<Call>

    function State(): SignUpState
      reads this
    {
      SignUpState(email, confirmationCode, isAwaitingConfirmation, isSignUpComplete, loading, error,
                  scheduledCompletions, gatewayCalls)
    }

    constructor ()
      ensures State() == Initial
    {
      email, confirmationCode, isAwaitingConfirmation, isSignUpComplete := "", "", false, false;
      loading, error, scheduledCompletions, gatewayCalls := false, "", 0, [];
    }

    /** `handleSignUp`. `inFlight` is the state while the request is outstanding. */
    method HandleSignUp(answer: Answer) returns (ghost inFlight: Option<SignUpState>)
      modifies this
      ensures State() == AfterSignUp(old(State()), answer)
      ensures inFlight == if old(email) == "" then None
                          else Some(Pending(old(State()), SignUpRequest(old(email))))
    {
      if email == "" {
        error := EmailRequired;
        inFlight := None;
        return;
      }
      loading := true;
      error := "";
      gatewayCalls := gatewayCalls + [SignUpCall(email, PlaceholderPassword, email)];
      inFlight := Some(State());
      match answer {
        case Step(step, _) =>
          if step == ConfirmSignUp {
            isAwaitingConfirmation := true;
          }
        case Thrown(message) =>
          error := MessageOr(message, SignUpFailed);
      }
      loading := false;
    }

    /** `handleConfirmSignUp`. */
    method HandleConfirmSignUp(answer: Answer) returns (ghost inFlight: Option<SignUpState>)
      modifies this
      ensures State() == AfterConfirm(old(State()), answer)
      ensures inFlight == if old(confirmationCode) == "" then None
                          else Some(Pending(old(State()), ConfirmSignUpCall(old(email), old(confirmationCode))))
    {
      if confirmationCode == "" {
        error := CodeRequired;
        inFlight := None;
        return;
      }
      loading := true;
      error := "";
      gatewayCalls := gatewayCalls + [ConfirmSignUpCall(email, confirmationCode)];
      inFlight := Some(State());
      match answer {
        case Step(_, _) =>
          isSignUpComplete := true;
          scheduledCompletions := scheduledCompletions + 1;
        case Thrown(message) =>
          error := MessageOr(message, ConfirmFailed);
      }
      loading := false;
    }

    /** The "Back to Email Entry" click handler. */
    method BackToEmailEntry()
      modifies this
      ensures State() == AfterBack(old(State()))
    {
      isAwaitingConfirmation := false;
      confirmationCode := "";
      error := "";
    }

    /** The email field's change handler. */
    method EditEmail(value: string)
      modifies this
      ensures State() == AfterEmailEdit(old(State()), value)
    {
      email := value;
    }

    /** The code field's change handler. */
    method EditCode(value: string)
      modifies this
      ensures State() == AfterCodeEdit(old(State()), value)
    {
      confirmationCode := value;
    }
  }
}
