/**
 * The auth gate: two flags choosing between the sign-in and sign-up forms,
 * and the choice of what to render from the session and those flags.
 */
module PasswordlessAuth {
  import opened Gateway
  import AuthProvider
  import PasswordlessSignIn

  /** The gate's two state hooks. */
  datatype Gate = Gate(showSignIn: bool, showSignUp: bool)

  const Initial := Gate(true, false)

  /** Exactly one of the two forms is selected. */
  predicate ExactlyOne(g: Gate) {
    g.showSignIn != g.showSignUp
  }

  /** What the gate renders. */
  datatype View = Loading | Children | SignInView | SignUpView | Welcome

  /** The branch order: loading, then a present user, then sign-in, then sign-up. */
  function SelectView(loading: bool, user: Option<Principal>, g: Gate): (v: View)
    ensures v == Loading <==> loading
    ensures v == Children <==> !loading && user.Some?
    ensures v == SignInView <==> !loading && user.None? && g.showSignIn
    ensures v == SignUpView <==> !loading && user.None? && !g.showSignIn && g.showSignUp
    ensures v == Welcome <==> !loading && user.None? && !g.showSignIn && !g.showSignUp
  {
    if loading then Loading
    else if user.Some? then Children
    else if g.showSignIn then SignInView
    else if g.showSignUp then SignUpView
    else Welcome
  }

  /** The sign-in form's "switch to sign-up" callback. */
  function AfterSwitchToSignUp(g: Gate): (r: Gate)
    ensures ExactlyOne(r) && r.showSignUp
  {
    Gate(false, true)
  }

  /** `handleSignUpComplete`. */
  function AfterSignUpComplete(g: Gate): (r: Gate)
    ensures ExactlyOne(r) && r.showSignIn
  {
    Gate(true, false)
  }

  /** The "Sign in here" button under the sign-up form. */
  function AfterSignInHere(g: Gate): (r: Gate)
    ensures ExactlyOne(r) && r.showSignIn
  {
    Gate(true, false)
  }

  /** `handleSignInSuccess`: only waits; the provider's hub listener brings the user. */
  function AfterSignInSuccess(g: Gate): (r: Gate)
    ensures r == g
  {
    g
  }

  /** The welcome screen's "Sign In" button. */
  function AfterWelcomeSignIn(g: Gate): (r: Gate)
    ensures r.showSignIn && r.showSignUp == g.showSignUp
  {
    g.(showSignIn := true)
  }

  /** A callback the gate hands to the forms. */
  datatype Callback = SwitchToSignUp | SignUpComplete | SignInHere | SignInSuccess

  function Fire(g: Gate, c: Callback): Gate {
    match c
    case SwitchToSignUp => AfterSwitchToSignUp(g)
    case SignUpComplete => AfterSignUpComplete(g)
    case SignInHere => AfterSignInHere(g)
    case SignInSuccess => AfterSignInSuccess(g)
  }

  /** The gate after the callbacks, in order. */
  function Run(g: Gate, cs: seq<Callback>): Gate
    decreases |cs|
  {
    if cs == [] then g else Run(Fire(g, cs[0]), cs[1..])
  }

  /** Every callback keeps exactly one form selected. */
  lemma FireKeepsExactlyOne(g: Gate, c: Callback)
    requires ExactlyOne(g)
    ensures ExactlyOne(Fire(g, c))
  {
  }

  /** From the initial gate, exactly one form stays selected whatever callbacks
      fire, so the welcome screen is never rendered. */
  lemma {:induction false} WelcomeUnreachable(g: Gate, cs: seq<Callback>, loading: bool, user: Option<Principal>)
    requires ExactlyOne(g)
    ensures ExactlyOne(Run(g, cs))
    ensures SelectView(loading, user, Run(g, cs)) != Welcome
    decreases |cs|
  {
    if cs != [] {
      FireKeepsExactlyOne(g, cs[0]);
      WelcomeUnreachable(Fire(g, cs[0]), cs[1..], loading, user);
    }
  }

  lemma InitialShowsSignIn()
    ensures ExactlyOne(Initial)
    ensures SelectView(false, None, Initial) == SignInView
  {
  }

  /** Sign-up completion and "Sign in here" land on the sign-in form, from any gate. */
  lemma BackToSignIn(g: Gate)
    ensures SelectView(false, None, AfterSignUpComplete(g)) == SignInView
    ensures SelectView(false, None, AfterSignInHere(g)) == SignInView
    ensures AfterSignUpComplete(g) == AfterSignInHere(g) == Initial
  {
  }

  /** The welcome button, were the welcome screen shown, leads to the sign-in form. */
  lemma WelcomeLeadsToSignIn(g: Gate)
    requires SelectView(false, None, g) == Welcome
    ensures ExactlyOne(AfterWelcomeSignIn(g))
    ensures SelectView(false, None, AfterWelcomeSignIn(g)) == SignInView
  {
  }

  /** Signing in end to end: the email gets straight to `DONE`, the form fires
      its success callback once, the gate does not move, and the `signedIn`
      event the gateway announces brings the principal, so the children render. */
  lemma SignInThenSignedInEvent(email: string, session: AuthProvider.SessionState, g: Gate,
                                p: Principal, follow: Answer)
    requires email != ""
    ensures var form := PasswordlessSignIn.AfterEmailEdit(PasswordlessSignIn.Initial, email);
            var done := PasswordlessSignIn.AfterSignIn(form, Step(Done, true), follow);
            var after := AuthProvider.AfterHubEvent(session, AuthProvider.SignedInEvent, Found(p));
            && done.successCalls == 1 && done.error == ""
            && SelectView(after.loading, after.user, AfterSignInSuccess(g)) == Children
  {
  }

  /** Signing in by email code end to end: the email gets the code-request
      step, the form shows code entry, the code is confirmed, the form fires its
      success callback once, and the `signedIn` event brings the principal, so
      the children render. */
  lemma EmailCodeThenSignedInEvent(email: string, code: string, requested: Answer, follow: Answer,
                                   confirmed: Answer, session: AuthProvider.SessionState, g: Gate,
                                   p: Principal)
    requires email != "" && code != ""
    requires requested.Step? && requested.code == ConfirmWithEmailCode && confirmed.Step?
    ensures var s1 := PasswordlessSignIn.AfterEmailEdit(PasswordlessSignIn.Initial, email);
            var s2 := PasswordlessSignIn.AfterSignIn(s1, requested, follow);
            var s3 := PasswordlessSignIn.AfterCodeEdit(s2, code);
            var s4 := PasswordlessSignIn.AfterConfirm(s3, confirmed);
            var after := AuthProvider.AfterHubEvent(session, AuthProvider.SignedInEvent, Found(p));
            && PasswordlessSignIn.ScreenOf(s2) == PasswordlessSignIn.CodeEntry && s2.successCalls == 0
            && s4.successCalls == 1 && s4.error == ""
            && s4.calls == [PasswordlessSignIn.StartRequest(email), ConfirmSignInCall(code)]
            && SelectView(after.loading, after.user, AfterSignInSuccess(g)) == Children
  {
  }

  /** The gate component, its state hooks as fields. */
  class AuthGate {
    var showSignIn: bool
    var showSignUp: bool

    function State(): Gate
      reads this
    {
      Gate(showSignIn, showSignUp)
    }

    constructor ()
      ensures State() == Initial
    {
      showSignIn, showSignUp := true, false;
    }

    method SwitchToSignUp()
      modifies this
      ensures State() == AfterSwitchToSignUp(old(State()))
    {
      showSignIn := false;
      showSignUp := true;
    }

    method HandleSignUpComplete()
      modifies this
      ensures State() == AfterSignUpComplete(old(State()))
    {
      showSignUp := false;
      showSignIn := true;
    }

    method SignInHere()
      modifies this
      ensures State() == AfterSignInHere(old(State()))
    {
      showSignUp := false;
      showSignIn := true;
    }

    method HandleSignInSuccess()
      modifies this
      ensures State() == AfterSignInSuccess(old(State()))
    {
    }

    method WelcomeSignIn()
      modifies this
      ensures State() == AfterWelcomeSignIn(old(State()))
    {
      showSignIn := true;
    }
  }
}
