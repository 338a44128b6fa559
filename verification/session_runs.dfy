/** Sequences of store operations and guarded navigations, and the facts
    that hold across them: the session invariant survives any run, a run
    ending in logout is signed out, and a redirected visit is resumed by the
    login that follows it. */
module SessionRuns {
  import opened AuthTypes
  import opened AuthStore
  import opened Router

  /** One user-visible event, with the outcomes of the calls it may make. */
  datatype Action =
    | DoLogin(redirect: Option<string>, response: Outcome<WebResponseDto>)
    | DoSignup(response: Outcome<WebResponseDto>)
    | DoLogout(ack: Outcome<()>)
    | DoCheckAuth(me: Outcome<WebResponseDto>, refresh: Outcome<()>, retry: Outcome<WebResponseDto>)
    | DoRefreshToken(ack: Outcome<()>)
    | Navigate(to: Location, me: Outcome<WebResponseDto>, refresh: Outcome<()>, retry: Outcome<WebResponseDto>)

  /** The session after one action. */
  function Apply(s: Session, a: Action): (s': Session)
    ensures Inv(s) ==> Inv(s')
  {
    match a
    case DoLogin(redirect, response) => Login(s, redirect, response).state
    case DoSignup(response) => Signup(s, response).state
    case DoLogout(ack) => Logout(s, ack).state
    case DoCheckAuth(me, refresh, retry) => CheckAuth(s, me, refresh, retry).state
    case DoRefreshToken(ack) => RefreshToken(s, ack).state
    case Navigate(to, me, refresh, retry) => BeforeEach(s, to, me, refresh, retry).state
  }

  /** The session after the actions in order, one at a time. */
  function Run(s: Session, actions: seq<Action>): Session
    decreases |actions|
  {
    if actions == [] then s else Run(Apply(s, actions[0]), actions[1..])
  }

  /** From any state satisfying the invariant (a fresh store or one
      rehydrated from storage), every run keeps it. */
  lemma {:induction false} RunPreservesInv(s: Session, actions: seq<Action>)
    requires Inv(s)
    ensures Inv(Run(s, actions))
    decreases |actions|
  {
    if actions != [] {
      RunPreservesInv(Apply(s, actions[0]), actions[1..]);
    }
  }

  /** Running two segments back to back is running their concatenation. */
  lemma {:induction false} RunAppend(s: Session, first: seq<Action>, second: seq<Action>)
    ensures Run(s, first + second) == Run(Run(s, first), second)
    decreases |first|
  {
    if first != [] {
      assert (first + second)[1..] == first[1..] + second;
      RunAppend(Apply(s, first[0]), first[1..], second);
    } else {
      assert first + second == second;
    }
  }

  /** Whatever happened before, a run that ends with logout ends signed out
      and idle. */
  lemma EndsSignedOutAfterLogout(s: Session, actions: seq<Action>, ack: Outcome<()>)
    ensures var s' := Run(s, actions + [DoLogout(ack)]);
      s'.user == None && !s'.isAuthenticated && !s'.isLoading
  {
    RunAppend(s, actions, [DoLogout(ack)]);
  }

  /** When the guard sends a signed-out visit to login, the login that
      succeeds on that page navigates back to the page first asked for. */
  lemma RedirectedLoginResumes(s: Session, to: Location, me: Outcome<WebResponseDto>, refresh: Outcome<()>,
                               retry: Outcome<WebResponseDto>, dto: WebResponseDto)
    requires to.fullPath != ""
    requires BeforeEach(s, to, me, refresh, retry).verdict.Redirect?
    requires BeforeEach(s, to, me, refresh, retry).verdict.name == LoginName
    ensures var g := BeforeEach(s, to, me, refresh, retry);
      var r := Login(g.state, g.verdict.redirect, Ok(dto));
      && r.push == Some(to.fullPath)
      && r.state.isAuthenticated
      && r.state.user == Some(dto)
  {
  }

  /** A fresh store satisfies the invariant, so every run from it keeps it. */
  lemma RunFromInitialKeepsInv(actions: seq<Action>)
    ensures Inv(Initial)
    ensures Inv(Run(Initial, actions))
  {
    RunPreservesInv(Initial, actions);
  }

  /** Each route the store pushes is guarded again by `beforeEach`; that run
      never calls the backend or changes the session, so leaving the pushed
      navigation out of `Run` loses nothing. After a successful login or
      signup the session is authenticated, and after logout the target is
      the guest route `/login`. */
  lemma PushedRoutesNeedNoCheck(s: Session, redirect: Option<string>, dto: WebResponseDto, ack: Outcome<()>,
                                fullPath: string, me: Outcome<WebResponseDto>, refresh: Outcome<()>,
                                retry: Outcome<WebResponseDto>)
    ensures var r := Login(s, redirect, Ok(dto));
      var g := BeforeEach(r.state, Resolve(r.push.value, fullPath), me, refresh, retry);
      g.calls == [] && g.state == r.state
    ensures var r := Signup(s, Ok(dto));
      var g := BeforeEach(r.state, Resolve(r.push.value, fullPath), me, refresh, retry);
      g.calls == [] && g.state == r.state && g.verdict == Proceed
    ensures var r := Logout(s, ack);
      var g := BeforeEach(r.state, Resolve(r.push.value, fullPath), me, refresh, retry);
      g.calls == [] && g.state == r.state && g.verdict == Proceed
  {
  }
}
