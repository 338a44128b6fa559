/** The backend endpoints the auth API wrapper exposes. The store's operations
    record which of them they call, in order, as their call trace. */
module AuthApi {

  datatype HttpMethod = Get | Post

  /** One entry per function of the auth API wrapper. */
  datatype Call = Signup | Login | RefreshToken | Logout | ChangePassword | CheckAuth
  {
    function Method(): HttpMethod
    {
      if CheckAuth? then Get else Post
    }

    /** The request path, relative to the client's `/api` base URL. */
    function Path(): string
    {
      match this
      case Signup => "/auth/web/signup"
      case Login => "/auth/web/login"
      case RefreshToken => "/auth/web/refresh"
      case Logout => "/auth/web/logout"
      case ChangePassword => "/auth/web/password"
      case CheckAuth => "/user/me"
    }
  }

  /** How many times `c` occurs in the trace `calls`. */
  function Occurrences(calls: seq<Call>, c: Call): nat
  {
    multiset(calls)[c]
  }
}
