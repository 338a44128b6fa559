/** The client-side session store: four fields of state and five operations.
    Each operation is an atomic transition: it takes the current session and
    the outcome of every backend call it may make, and yields the new session,
    what it returned or threw, the route it pushed, and the calls it made. */
module AuthStore {
  import opened AuthTypes
  import Api = AuthApi

  /** The store's state: `user`, `isAuthenticated`, `isLoading`, `error`. */
  datatype Session = Session(
    user: Option<WebResponseDto>,
    isAuthenticated: bool,
    isLoading: bool,
    error: Option<string>)

  /** The state the store starts from before anything is rehydrated. */
  const Initial := Session(None, false, false, None)

  /** The session invariant: the flag is set exactly when a user is held. */
  predicate Inv(s: Session)
  {
    s.isAuthenticated <==> s.user.Some?
  }

  /** A thrown value: login and signup throw the normalized message string,
      checkAuth and refreshToken rethrow the backend's rejection as it came. */
  datatype Thrown = Message(text: string) | Rejection(error: ApiError)

  /** How an operation settled from the caller's point of view. */
  datatype Completion<+T> = Returned(value: T) | Threw(thrown: Thrown)

  /** Everything one operation produces. `push` is the path handed to
      `router.push`, if any; `calls` lists the backend calls in order. */
  datatype Step<+T> = Step(state: Session, result: Completion<T>, push: Option<string>, calls: seq<Api.Call>)

  const LoginFallback: string := "로그인 중 오류가 발생했습니다."
  const SignupFallback: string := "회원가입 중 오류가 발생했습니다."
  const RootPath: string := "/"
  const LoginPath: string := "/login"

  /** The message shown for a failed call: the server's message if truthy,
      else the transport's message if truthy, else `fallback`. */
  function ErrorMessage(e: ApiError, fallback: string): (m: string)
    ensures Truthy(e.serverMessage) ==> m == e.serverMessage.value
    ensures !Truthy(e.serverMessage) && Truthy(e.transportMessage) ==> m == e.transportMessage.value
    ensures !Truthy(e.serverMessage) && !Truthy(e.transportMessage) ==> m == fallback
    ensures fallback != "" ==> m != ""
  {
    Or(Or(e.serverMessage, e.transportMessage), Some(fallback)).value
  }

  /** Where a successful login goes: the current route's `redirect` query
      value if truthy, else the root. */
  function RedirectPath(redirect: Option<string>): (p: string)
    ensures p != ""
    ensures Truthy(redirect) ==> p == redirect.value
    ensures !Truthy(redirect) ==> p == RootPath
  {
    Or(redirect, Some(RootPath)).value
  }

  /** The sign-in script shared by login and signup: one call, then either
      a signed-in session and a navigation, or a recorded and thrown message. */
  function Authenticate(s: Session, call: Api.Call, fallback: string, destination: string,
                        response: Outcome<WebResponseDto>): Step<WebResponseDto>
  {
    var entered := s.(isLoading := true, error := None);
    match response
    case Ok(dto) =>
      var signedIn := entered.(user := Some(dto), isAuthenticated := true);
      Step(signedIn.(isLoading := false), Returned(dto), Some(destination), [call])
    case Err(e) =>
      var message := ErrorMessage(e, fallback);
      var failed := entered.(error := Some(message));
      Step(failed.(isLoading := false), Threw(Message(message)), None, [call])
  }

  /** `login`: `redirect` is the current route's `query.redirect` when the
      response arrives. */
  function Login(s: Session, redirect: Option<string>, response: Outcome<WebResponseDto>): (r: Step<WebResponseDto>)
    ensures r.calls == [Api.Login]
    ensures !r.state.isLoading
    ensures Inv(s) ==> Inv(r.state)
    ensures response.Ok? ==>
      && r.state.user == Some(response.value)
      && r.state.isAuthenticated
      && r.state.error == None
      && r.result == Returned(response.value)
      && r.push == Some(RedirectPath(redirect))
    ensures response.Err? ==>
      && r.state.error == Some(ErrorMessage(response.error, LoginFallback))
      && r.result == Threw(Message(ErrorMessage(response.error, LoginFallback)))
      && r.state.user == s.user
      && r.state.isAuthenticated == s.isAuthenticated
      && r.push == None
    ensures r.result.Threw? ==> r.result.thrown.Message? && r.result.thrown.text != ""
  {
    Authenticate(s, Api.Login, LoginFallback, RedirectPath(redirect), response)
  }

  /** `signup`: like login, but a success always goes to the root. */
  function Signup(s: Session, response: Outcome<WebResponseDto>): (r: Step<WebResponseDto>)
    ensures r.calls == [Api.Signup]
    ensures !r.state.isLoading
    ensures Inv(s) ==> Inv(r.state)
    ensures response.Ok? ==>
      && r.state.user == Some(response.value)
      && r.state.isAuthenticated
      && r.state.error == None
      && r.result == Returned(response.value)
      && r.push == Some(RootPath)
    ensures response.Err? ==>
      && r.state.error == Some(ErrorMessage(response.error, SignupFallback))
      && r.result == Threw(Message(ErrorMessage(response.error, SignupFallback)))
      && r.state.user == s.user
      && r.state.isAuthenticated == s.isAuthenticated
      && r.push == None
    ensures r.result.Threw? ==> r.result.thrown.Message? && r.result.thrown.text != ""
  {
    Authenticate(s, Api.Signup, SignupFallback, RootPath, response)
  }

  /** `logout`: a failed call is only logged; the local session is cleared
      and the login page pushed whatever the backend said. */
  function Logout(s: Session, response: Outcome<()>): (r: Step<()>)
    ensures r.calls == [Api.Logout]
    ensures r.result == Returned(())
    ensures r.state.user == None && !r.state.isAuthenticated && !r.state.isLoading
    ensures Inv(r.state)
    ensures r.state.error == s.error
    ensures r.push == Some(LoginPath)
  {
    var entered := s.(isLoading := true);
    // a rejection is caught and logged, so both outcomes reach the same cleanup
    var cleared := entered.(user := None, isAuthenticated := false, isLoading := false);
    Step(cleared, Returned(()), Some(LoginPath), [Api.Logout])
  }

  /** `refreshToken`: on success nothing changes; on failure the session is
      cleared and the rejection rethrown. It never touches `isLoading`. */
  function RefreshToken(s: Session, response: Outcome<()>): (r: Step<bool>)
    ensures r.calls == [Api.RefreshToken]
    ensures r.push == None
    ensures r.state.isLoading == s.isLoading && r.state.error == s.error
    ensures Inv(s) ==> Inv(r.state)
    ensures response.Ok? ==> r.state == s && r.result == Returned(true)
    ensures response.Err? ==>
      && r.state.user == None
      && !r.state.isAuthenticated
      && r.result == Threw(Rejection(response.error))
  {
    match response
    case Ok(_) => Step(s, Returned(true), None, [Api.RefreshToken])
    case Err(e) => Step(s.(user := None, isAuthenticated := false), Threw(Rejection(e)), None, [Api.RefreshToken])
  }

  /** `checkAuth`: ask `/user/me`; if that fails, refresh once and ask again.
      `me` and `retry` are the outcomes of the first and second `/user/me`
      call, `refresh` that of the refresh call; an outcome for a call that
      is never made has no effect. */
  function CheckAuth(s: Session, me: Outcome<WebResponseDto>, refresh: Outcome<()>,
                     retry: Outcome<WebResponseDto>): (r: Step<WebResponseDto>)
    ensures !r.state.isLoading && r.state.error == s.error && r.push == None
    ensures Inv(r.state)
    ensures Api.Occurrences(r.calls, Api.CheckAuth) <= 2
    ensures Api.Occurrences(r.calls, Api.RefreshToken) <= 1
    ensures Api.Occurrences(r.calls, Api.RefreshToken) == 1 <==> me.Err?
    ensures Api.Occurrences(r.calls, Api.CheckAuth) == 2 <==> me.Err? && refresh.Ok?
    ensures |r.calls| == Api.Occurrences(r.calls, Api.CheckAuth) + Api.Occurrences(r.calls, Api.RefreshToken)
    ensures 1 <= |r.calls| <= 3 && r.calls[0] == Api.CheckAuth
    ensures |r.calls| == 3 ==> r.calls[1] == Api.RefreshToken
    ensures r.result.Returned? <==> me.Ok? || (refresh.Ok? && retry.Ok?)
    ensures r.result.Returned? ==>
      && r.state.isAuthenticated
      && r.state.user == Some(r.result.value)
      && r.result.value == (if me.Ok? then me.value else retry.value)
    ensures r.result.Threw? ==>
      && r.state.user == None
      && !r.state.isAuthenticated
      && r.result.thrown == Rejection(if refresh.Err? then refresh.error else retry.error)
  {
    var entered := s.(isLoading := true);
    var settled :=
      match me
      case Ok(dto) =>
        Step(entered.(user := Some(dto), isAuthenticated := true), Returned(dto), None, [Api.CheckAuth])
      case Err(_) =>
        var refreshed := RefreshToken(entered, refresh);
        var tried := [Api.CheckAuth] + refreshed.calls;
        match refreshed.result
        case Threw(t) =>
          Step(refreshed.state.(user := None, isAuthenticated := false), Threw(t), None, tried)
        case Returned(_) =>
          match retry
          case Ok(dto) =>
            Step(refreshed.state.(user := Some(dto), isAuthenticated := true), Returned(dto), None,
                 tried + [Api.CheckAuth])
          case Err(e) =>
            Step(refreshed.state.(user := None, isAuthenticated := false), Threw(Rejection(e)), None,
                 tried + [Api.CheckAuth]);
    settled.(state := settled.state.(isLoading := false))
  }

  /** An outcome for a call `checkAuth` does not make cannot change what it
      does: after a successful first check neither the refresh nor the retry
      matters, and after a failed refresh the retry does not. */
  lemma CheckAuthIgnoresUnmadeCalls(s: Session, me: Outcome<WebResponseDto>, refresh: Outcome<()>,
                                    retry: Outcome<WebResponseDto>, refresh': Outcome<()>,
                                    retry': Outcome<WebResponseDto>)
    ensures me.Ok? ==> CheckAuth(s, me, refresh, retry) == CheckAuth(s, me, refresh', retry')
    ensures me.Err? && refresh.Err? ==> CheckAuth(s, me, refresh, retry) == CheckAuth(s, me, refresh, retry')
  {
  }

  /** The outcome of the logout call is invisible to the caller. */
  lemma LogoutIgnoresOutcome(s: Session, ack: Outcome<()>, ack': Outcome<()>)
    ensures Logout(s, ack) == Logout(s, ack')
  {
  }

  /** `checkAuth` only ever sends `GET /user/me` and `POST /auth/web/refresh`. */
  lemma CheckAuthEndpoints(s: Session, me: Outcome<WebResponseDto>, refresh: Outcome<()>,
                           retry: Outcome<WebResponseDto>)
    ensures forall c :: c in CheckAuth(s, me, refresh, retry).calls ==>
      (c.Method() == Api.Get && c.Path() == "/user/me")
      || (c.Method() == Api.Post && c.Path() == "/auth/web/refresh")
  {
  }
}
