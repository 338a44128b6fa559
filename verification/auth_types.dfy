/** The values that cross the boundary between the front end and its backend:
    the user summary the auth endpoints return, the shape of a failed call as
    the session store reads it, and the settled outcome of one call. */
module AuthTypes {

  /** An optional value; `None` stands for JavaScript's `null` / `undefined`. */
  datatype Option<+T> = None | Some(value: T)

  /** The user summary returned by login, signup and `/user/me`. */
  datatype WebResponseDto = WebResponseDto(
    email: string,
    role: string,
    maskedName: string,
    authenticated: bool)

  /** A rejected call, reduced to the two fields the store looks at:
      `serverMessage` is `response.data.message` (the backend's own text) and
      `transportMessage` is the error's `message` (the HTTP library's text). */
  datatype ApiError = ApiError(serverMessage: Option<string>, transportMessage: Option<string>)

  /** How one backend call settled: resolved with a payload or rejected. */
  datatype Outcome<+T> = Ok(value: T) | Err(error: ApiError)

  /** JavaScript truthiness of an optional string: present and non-empty. */
  predicate Truthy(v: Option<string>)
  {
    v.Some? && v.value != ""
  }

  /** JavaScript's `a || b` on optional strings: `a` when it is truthy, else `b`. */
  function Or(a: Option<string>, b: Option<string>): (r: Option<string>)
    ensures Truthy(r) <==> Truthy(a) || Truthy(b)
    ensures !Truthy(a) ==> r == b
    ensures Truthy(a) ==> r == a
  {
    if Truthy(a) then a else b
  }
}
