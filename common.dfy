/** Values shared by the session manager, the request layer and the pages:
    optional values, results, the session record, the outcome of one HTTP
    call, and JavaScript's truthiness of an optional string. */
module Common {

  datatype Option<+T> = None | Some(value: T)

  /** A call that either returns a value or throws an error value. */
  datatype Result<+T, +E> = Success(value: T) | Failure(error: E)

  /** The session record returned by the auth endpoints and persisted under
      the "user" key. A token the server did not send and an empty token
      are both falsy in the source's checks, so both are the empty string. */
  datatype Session = Session(username: string, email: string, token: string)

  /** The error of a failed request: `err.response?.data?.message`, when the
      server sent one. */
  datatype ApiError = ApiError(serverMessage: Option<string>)

  /** What one HTTP call produced: the response data, or an error. */
  datatype ApiOutcome<+T> = Ok(data: T) | Failed(err: ApiError)

  /** The storage key under which the session is persisted. */
  const UserKey := "user"

  /** `localStorage.getItem('user')`, parsed. */
  function StoredUser(storage: map<string, Session>): (r: Option<Session>)
    ensures r.Some? <==> UserKey in storage
    ensures r.Some? ==> r.value == storage[UserKey]
  {
    if UserKey in storage then Some(storage[UserKey]) else None
  }

  /** `user && user.token`: a session is present and its token is non-empty. */
  predicate HasToken(user: Option<Session>)
    ensures HasToken(user) ==> user.Some? && |user.value.token| > 0
    ensures user.Some? && |user.value.token| > 0 ==> HasToken(user)
  {
    user.Some? && user.value.token != ""
  }

  /** Truthiness of a string that may be null. */
  predicate Truthy(s: Option<string>)
  {
    s.Some? && s.value != ""
  }

  /** `s || fallback` for a string that may be null. */
  function OrElse(s: Option<string>, fallback: string): (r: string)
    ensures Truthy(s) ==> r == s.value
    ensures !Truthy(s) ==> r == fallback
    ensures fallback != "" ==> r != ""
  {
    if Truthy(s) then s.value else fallback
  }

  /** The message a form shows, `formError || error`, or None when the
      error block is not rendered at all. */
  function ShownError(formError: string, error: Option<string>): (r: Option<string>)
    ensures r.Some? <==> formError != "" || Truthy(error)
    ensures r.Some? ==> r.value != ""
    ensures formError != "" ==> r == Some(formError)
    ensures formError == "" && r.Some? ==> Some(r.value) == error
  {
    if formError != "" then Some(formError)
    else if Truthy(error) then error
    else None
  }
}
