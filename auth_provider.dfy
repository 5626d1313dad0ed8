/**
 * The session provider: the current principal (or none) and a loading flag,
 * driven by the result of the current-principal query, the `signedIn` and
 * `signedOut` events of the auth hub, and sign-out. `refresh` is the same
 * operation as `loadUser`.
 */
module AuthProvider {
  import opened Gateway

  const SignedInEvent := "signedIn"
  const SignedOutEvent := "signedOut"

  /** The provider's two state hooks, with the gateway requests issued so far. */
  datatype SessionState = SessionState(user: Option<Principal>, loading: bool, calls: seq<Call>)

  const Initial := SessionState(None, true, [])

  /** `loadUser`: query the current principal; keep it on success, none on
      failure; loading ends in both cases. */
  function AfterLoadUser(s: SessionState, lookup: Lookup): (r: SessionState)
    ensures !r.loading && r.calls == s.calls + [GetCurrentUserCall]
    ensures lookup.Found? ==> r.user == Some(lookup.principal)
    ensures lookup.NotAuthenticated? ==> r.user == None
  {
    var user := match lookup
      case Found(p) => Some(p)
      case NotAuthenticated(_) => None;
    SessionState(user, false, s.calls + [GetCurrentUserCall])
  }

  /** The hub listener. `lookup` answers the query a `signedIn` event starts. */
  function AfterHubEvent(s: SessionState, event: string, lookup: Lookup): (r: SessionState)
    ensures event == SignedInEvent ==> r == AfterLoadUser(s, lookup)
    // a sign-out from elsewhere drops the user and touches nothing else
    ensures event == SignedOutEvent ==> r == s.(user := None)
    ensures event != SignedInEvent && event != SignedOutEvent ==> r == s
  {
    if event == SignedInEvent then AfterLoadUser(s, lookup)
    else if event == SignedOutEvent then s.(user := None)
    else s
  }

  /** The state while the sign-out request is outstanding: the user is still there. */
  function SignOutPending(s: SessionState): (r: SessionState)
    ensures r.user == s.user && r.loading == s.loading && r.calls == s.calls + [SignOutCall]
  {
    s.(calls := s.calls + [SignOutCall])
  }

  /** The context's `signOut`: the user is dropped once the gateway returns;
      when the gateway rejects, the rejection propagates and the user stays. */
  function AfterSignOut(s: SessionState, ack: Ack): (r: SessionState)
    ensures r.calls == s.calls + [SignOutCall] && r.loading == s.loading
    ensures ack.Returned? ==> r.user == None
    ensures ack.Rejected? ==> r.user == s.user
  {
    var p := SignOutPending(s);
    if ack.Returned? then p.(user := None) else p
  }

  /** One thing that can happen to the provider. */
  datatype Input =
    | Refresh(lookup: Lookup)
    | HubEvent(event: string, lookup: Lookup)
    | SignOut(ack: Ack)

  function Apply(s: SessionState, input: Input): SessionState {
    match input
    case Refresh(lookup) => AfterLoadUser(s, lookup)
    case HubEvent(event, lookup) => AfterHubEvent(s, event, lookup)
    case SignOut(ack) => AfterSignOut(s, ack)
  }

  /** The state after the inputs, in order. */
  function Run(s: SessionState, inputs: seq<Input>): SessionState
    decreases |inputs|
  {
    if inputs == [] then s else Run(Apply(s, inputs[0]), inputs[1..])
  }

  /** An input that completes a principal query. */
  predicate Loads(input: Input) {
    input.Refresh? || (input.HubEvent? && input.event == SignedInEvent)
  }

  /** No input sets loading: once it is false it stays false. */
  lemma ApplyKeepsLoaded(s: SessionState, input: Input)
    requires !s.loading
    ensures !Apply(s, input).loading
  {
  }

  lemma {:induction false} RunKeepsLoaded(s: SessionState, inputs: seq<Input>)
    requires !s.loading
    ensures !Run(s, inputs).loading
    decreases |inputs|
  {
    if inputs != [] {
      ApplyKeepsLoaded(s, inputs[0]);
      RunKeepsLoaded(Apply(s, inputs[0]), inputs[1..]);
    }
  }

  /** The provider is loading until, and only until, a query completes;
      a sign-out or a `signedOut` event alone never ends loading. */
  lemma {:induction false} LoadingUntilFirstLoad(s: SessionState, inputs: seq<Input>)
    requires s.loading
    ensures !Run(s, inputs).loading <==> exists i :: 0 <= i < |inputs| && Loads(inputs[i])
    decreases |inputs|
  {
    if inputs != [] {
      var next := Apply(s, inputs[0]);
      if Loads(inputs[0]) {
        RunKeepsLoaded(next, inputs[1..]);
      } else {
        assert next.loading;
        LoadingUntilFirstLoad(next, inputs[1..]);
        assert forall i :: 0 <= i < |inputs[1..]| ==> inputs[1..][i] == inputs[i + 1];
        if i :| 0 <= i < |inputs| && Loads(inputs[i]) {
          assert Loads(inputs[1..][i - 1]);
        }
      }
    }
  }

  /** A second `signedIn` event answered the same way changes nothing but
      the request log. */
  lemma SignedInTwice(s: SessionState, lookup: Lookup)
    ensures var once := AfterHubEvent(s, SignedInEvent, lookup);
            var twice := AfterHubEvent(once, SignedInEvent, lookup);
            twice == once.(calls := once.calls + [GetCurrentUserCall])
  {
  }

  /** After sign-out has returned, the `signedOut` event the hub then
      announces changes nothing. */
  lemma SignedOutAfterSignOut(s: SessionState, lookup: Lookup)
    ensures var out := AfterSignOut(s, Returned);
            AfterHubEvent(out, SignedOutEvent, lookup) == out
  {
  }

  /** Sign-out that is rejected leaves the session as the pending state shows it. */
  lemma RejectedSignOutKeepsUser(s: SessionState, message: string)
    ensures AfterSignOut(s, Rejected(message)) == SignOutPending(s)
    ensures AfterSignOut(s, Rejected(message)).user == s.user
  {
  }

  /** The provider component, its state hooks as fields. */
  class AuthSession {
    var user: Option<Principal>
    var loading: bool
    var gatewayCalls: seq<Call>

    function State(): SessionState
      reads this
    {
      SessionState(user, loading, gatewayCalls)
    }

    constructor ()
      ensures State() == Initial
    {
      user, loading, gatewayCalls := None, true, [];
    }

    /** `loadUser`, also exposed as `refresh`. */
    method LoadUser(lookup: Lookup)
      modifies this
      ensures State() == AfterLoadUser(old(State()), lookup)
    {
      gatewayCalls := gatewayCalls + [GetCurrentUserCall];
      match lookup {
        case Found(p) =>
          user := Some(p);
        case NotAuthenticated(_) =>
          user := None;
      }
      loading := false;
    }

    /** The hub listener's switch on the event name. */
    method OnHubEvent(event: string, lookup: Lookup)
      modifies this
      ensures State() == AfterHubEvent(old(State()), event, lookup)
    {
      if event == SignedInEvent {
        LoadUser(lookup);
      } else if event == SignedOutEvent {
        user := None;
      }
    }

    /** The context's `signOut`; `inFlight` is the state while the request
        is outstanding. */
    method SignOut(ack: Ack) returns (ghost inFlight: SessionState)
      modifies this
      ensures State() == AfterSignOut(old(State()), ack)
      ensures inFlight == SignOutPending(old(State()))
    {
      gatewayCalls := gatewayCalls + [SignOutCall];
      inFlight := State();
      if ack.Returned? {
        user := None;
      }
    }
  }
}
