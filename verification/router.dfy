/** The route table and the `beforeEach` navigation guard that reads the
    session store before every navigation. */
module Router {
  import opened AuthTypes
  import opened AuthStore
  import Api = AuthApi

  /** A route's `meta`; a flag the record does not set reads as false. */
  datatype Meta = Meta(requiresAuth: bool, guest: bool)

  datatype RouteRecord = RouteRecord(path: string, name: string, meta: Meta)

  const HomeName: string := "home"
  const LoginName: string := "login"
  const SignupName: string := "signup"

  /** The three routes, in declaration order. */
  const Routes: seq<RouteRecord> := [
    RouteRecord("/", HomeName, Meta(true, false)),
    RouteRecord("/login", LoginName, Meta(false, true)),
    RouteRecord("/signup", SignupName, Meta(false, true))
  ]

  /** How a route is looked up: by the path navigated to, or by the name a
      redirect gives. */
  datatype Key = ByPath(path: string) | ByName(name: string)

  predicate Matches(record: RouteRecord, key: Key)
  {
    match key
    case ByPath(path) => record.path == path
    case ByName(name) => record.name == name
  }

  /** The first record of `routes` that `key` matches, if any. */
  function Find(routes: seq<RouteRecord>, key: Key): (r: Option<RouteRecord>)
    ensures r.Some? ==> r.value in routes && Matches(r.value, key)
    ensures r.Some? ==> exists i :: 0 <= i < |routes| && routes[i] == r.value
                                  && forall j :: 0 <= j < i ==> !Matches(routes[j], key)
    ensures r.None? ==> forall i :: 0 <= i < |routes| ==> !Matches(routes[i], key)
  {
    if routes == [] then None
    else if Matches(routes[0], key) then Some(routes[0])
    else Find(routes[1..], key)
  }

  /** The `meta` a navigation to `path` carries; an unmatched path has none. */
  function MetaOf(path: string): (m: Meta)
    ensures path == "/login" || path == "/signup" ==> m.guest && !m.requiresAuth
    ensures path == "/" ==> m.requiresAuth && !m.guest
    ensures path != "/" && path != "/login" && path != "/signup" ==> m == Meta(false, false)
  {
    assert Routes[0].path == "/" && Routes[1].path == "/login" && Routes[2].path == "/signup";
    match Find(Routes, ByPath(path))
    case Some(record) => record.meta
    case None => Meta(false, false)
  }

  /** The target of a navigation: its path, its full path (with query and
      hash) and the meta of the route it matched. */
  datatype Location = Location(path: string, fullPath: string, meta: Meta)

  /** The location the router resolves for `path`, reached as `fullPath`. */
  function Resolve(path: string, fullPath: string): Location
  {
    Location(path, fullPath, MetaOf(path))
  }

  /** What the guard hands to `next`: no argument, or a named route with an
      optional `redirect` query value. */
  datatype Verdict = Proceed | Redirect(name: string, redirect: Option<string>)

  datatype GuardStep = GuardStep(state: Session, verdict: Verdict, calls: seq<Api.Call>)

  /** The `beforeEach` guard for a navigation to `to` from session `s`;
      `me`, `refresh` and `retry` are the outcomes of the calls `checkAuth`
      may make. */
  function BeforeEach(s: Session, to: Location, me: Outcome<WebResponseDto>, refresh: Outcome<()>,
                      retry: Outcome<WebResponseDto>): (g: GuardStep)
    ensures Inv(s) ==> Inv(g.state)
    ensures g.calls != [] <==> !s.isAuthenticated && !to.meta.guest
    ensures g.calls == [] ==> g.state == s
    ensures !s.isAuthenticated && !to.meta.guest ==>
      var checked := CheckAuth(s, me, refresh, retry);
      && g.state == checked.state
      && g.calls == checked.calls
      && (g.verdict == Proceed <==> checked.result.Returned?)
      && (g.verdict != Proceed ==> g.verdict == Redirect(LoginName, Some(to.fullPath)))
    ensures s.isAuthenticated && to.meta.guest ==> g.verdict == Redirect(HomeName, None)
    ensures s.isAuthenticated != to.meta.guest ==> g.verdict == Proceed && g.state == s
  {
    if !s.isAuthenticated && !to.meta.guest then
      var checked := CheckAuth(s, me, refresh, retry);
      match checked.result
      case Returned(_) => GuardStep(checked.state, Proceed, checked.calls)
      case Threw(_) => GuardStep(checked.state, Redirect(LoginName, Some(to.fullPath)), checked.calls)
    else if s.isAuthenticated && to.meta.guest then
      GuardStep(s, Redirect(HomeName, None), [])
    else
      GuardStep(s, Proceed, [])
  }

  /** The verdict is fixed by the session the guard leaves behind and the
      target's guest flag: signed in, guests are sent home and the rest pass;
      signed out, guests pass and the rest go to login carrying the target. */
  lemma VerdictMatchesSession(s: Session, to: Location, me: Outcome<WebResponseDto>, refresh: Outcome<()>,
                              retry: Outcome<WebResponseDto>)
    ensures var g := BeforeEach(s, to, me, refresh, retry);
      g.verdict == (if g.state.isAuthenticated then
                      (if to.meta.guest then Redirect(HomeName, None) else Proceed)
                    else
                      (if to.meta.guest then Proceed else Redirect(LoginName, Some(to.fullPath))))
  {
  }

  /** The guard reads only `guest`: `requiresAuth` has no effect. */
  lemma IgnoresRequiresAuth(s: Session, path: string, fullPath: string, guest: bool,
                            me: Outcome<WebResponseDto>, refresh: Outcome<()>, retry: Outcome<WebResponseDto>)
    ensures BeforeEach(s, Location(path, fullPath, Meta(true, guest)), me, refresh, retry)
         == BeforeEach(s, Location(path, fullPath, Meta(false, guest)), me, refresh, retry)
  {
  }

  /** Navigating to the login or signup page never calls the backend and
      never changes the session. */
  lemma GuestRoutesNeverCheck(s: Session, path: string, fullPath: string, me: Outcome<WebResponseDto>,
                              refresh: Outcome<()>, retry: Outcome<WebResponseDto>)
    requires path == "/login" || path == "/signup"
    ensures var g := BeforeEach(s, Resolve(path, fullPath), me, refresh, retry);
      g.calls == [] && g.state == s
  {
  }

  /** A page outside the route table is not a guest page, so the guard
      treats a visit to it exactly like a visit to home, signed in or not. */
  lemma UnknownRoutesAreGuarded(s: Session, path: string, fullPath: string, me: Outcome<WebResponseDto>,
                                refresh: Outcome<()>, retry: Outcome<WebResponseDto>)
    requires path != "/" && path != "/login" && path != "/signup"
    ensures BeforeEach(s, Resolve(path, fullPath), me, refresh, retry)
         == BeforeEach(s, Resolve("/", fullPath), me, refresh, retry)
  {
  }

  /** The location a named redirect resolves to, reached as `fullPath`. */
  function ResolveName(name: string, fullPath: string): Option<Location>
  {
    match Find(Routes, ByName(name))
    case Some(record) => Some(Location(record.path, fullPath, record.meta))
    case None => None
  }

  /** A redirect never leads to another redirect: the guard's run on the
      route it redirects to passes without a backend call. */
  lemma NoRedirectLoop(s: Session, to: Location, me: Outcome<WebResponseDto>, refresh: Outcome<()>,
                       retry: Outcome<WebResponseDto>, fullPath: string,
                       me': Outcome<WebResponseDto>, refresh': Outcome<()>, retry': Outcome<WebResponseDto>)
    requires BeforeEach(s, to, me, refresh, retry).verdict.Redirect?
    ensures var g := BeforeEach(s, to, me, refresh, retry);
      && ResolveName(g.verdict.name, fullPath).Some?
      && var next := BeforeEach(g.state, ResolveName(g.verdict.name, fullPath).value, me', refresh', retry');
      && next.verdict == Proceed
      && next.calls == []
  {
    assert Routes[0].name == HomeName && Routes[1].name == LoginName;
  }
}
