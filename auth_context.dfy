/** The session manager (`AuthProvider`): the in-memory `user`, `loading` and
    `error`, the persisted storage, and the shared client whose default
    Authorization header follows `user`. Each network call is an input
    outcome; handlers run to completion one after another. */
module AuthContext {
  import opened Common
  import opened ApiConfig

  const RegisterFallback := "Registration failed"
  const LoginFallback := "Login failed"

  /** The body of a POST to one of the auth endpoints. */
  datatype AuthRequest =
    | RegisterRequest(username: string, email: string, password: string)
    | LoginRequest(email: string, password: string)

  /** The Authorization default agrees with the session: `Bearer <token>`
      when the session has a token, absent otherwise. */
  ghost predicate HeaderInSync(headers: map<string, string>, user: Option<Session>)
  {
    && (AuthorizationHeader in headers <==> HasToken(user))
    && (HasToken(user) ==> headers[AuthorizationHeader] == Bearer(user.value.token))
  }

  /** The header effect's result: sets or deletes the Authorization default. */
  function WithAuthHeader(headers: map<string, string>, user: Option<Session>): (r: map<string, string>)
    ensures HeaderInSync(r, user)
    ensures OtherHeadersKept(headers, r)
  {
    if user.Some? && user.value.token != "" then
      headers[AuthorizationHeader := Bearer(user.value.token)]
    else
      headers - {AuthorizationHeader}
  }

  /** The message `register` stores and throws on failure. */
  function RegisterErrorMessage(err: ApiError): (r: string)
    ensures r != ""
    ensures Truthy(err.serverMessage) ==> r == err.serverMessage.value
    ensures !Truthy(err.serverMessage) ==> r == RegisterFallback
  {
    OrElse(err.serverMessage, RegisterFallback)
  }

  /** The message `login` stores on failure. */
  function LoginErrorMessage(err: ApiError): (r: string)
    ensures r != ""
    ensures Truthy(err.serverMessage) ==> r == err.serverMessage.value
    ensures !Truthy(err.serverMessage) ==> r == LoginFallback
  {
    OrElse(err.serverMessage, LoginFallback)
  }

  /** When the in-memory session is the persisted one and the default header
      follows it, a request gets the same Authorization from the interceptor
      (which reads storage) as from the defaults (which follow `user`). */
  lemma InterceptorAgreesWithDefaults(storage: map<string, Session>, user: Option<Session>,
                                      defaults: map<string, string>, headers: map<string, string>)
    requires user == StoredUser(storage)
    requires HeaderInSync(defaults, user)
    ensures HasToken(user) ==>
      AuthorizedHeaders(headers, storage)[AuthorizationHeader] == defaults[AuthorizationHeader]
    ensures !HasToken(user) ==>
      AuthorizationHeader !in defaults && AuthorizedHeaders(headers, storage) == headers
  {
  }

  class AuthProvider {
    var user: Option<Session>
    var loading: bool
    var error: Option<string>
    /** `localStorage`, as parsed sessions by key. */
    var storage: map<string, Session>
    /** The shared client whose `defaults.headers.common` the header effect edits. */
    const api: ApiClient

    /** The header effect has run for the current `user`. */
    ghost predicate Valid()
      reads this, api
    {
      HeaderInSync(api.commonHeaders, user)
    }

    /** The in-memory session is the persisted one. */
    ghost predicate Persisted()
      reads this
    {
      user == StoredUser(storage)
    }

    /** The first render: `user` null, `loading` true, `error` null; the
        client has no Authorization default yet. */
    constructor (storage: map<string, Session>, api: ApiClient)
      requires AuthorizationHeader !in api.commonHeaders
      ensures user == None && loading && error == None
      ensures this.storage == storage && this.api == api
      ensures Valid()
    {
      user := None;
      loading := true;
      error := None;
      this.storage := storage;
      this.api := api;
    }

    /** The header effect (`useEffect(..., [user])`). */
    method SyncAuthHeader()
      modifies api
      ensures api.commonHeaders == WithAuthHeader(old(api.commonHeaders), user)
      ensures Valid()
    {
      if user.Some? && user.value.token != "" {
        api.commonHeaders := api.commonHeaders[AuthorizationHeader := Bearer(user.value.token)];
      } else {
        api.commonHeaders := api.commonHeaders - {AuthorizationHeader};
      }
    }

    /** The mount effects, in declaration order: the storage effect queues the
        stored session and clears `loading`; the header effect runs for the
        initial null user, and again once the stored session is in place. */
    method Init()
      requires user == None
      modifies this, api
      ensures user == StoredUser(storage) && !loading
      ensures storage == old(storage) && error == old(error)
      ensures Valid() && Persisted()
      ensures api.commonHeaders == WithAuthHeader(old(api.commonHeaders), user)
    {
      var stored := StoredUser(storage);
      SyncAuthHeader();
      if stored.Some? {
        user := stored;
      }
      loading := false;
      if stored.Some? {
        SyncAuthHeader();
      }
    }

    /** `clearError`: only `error` changes. */
    method ClearError()
      modifies this`error
      ensures error == None
    {
      error := None;
    }

    /** `register(username, email, password)`, with `response` the outcome of
        the POST it sends. On success the response becomes the session, in
        memory and in storage; on failure neither changes and the thrown
        message is the one stored in `error`. */
    method Register(username: string, email: string, password: string, response: ApiOutcome<Session>)
      returns (request: AuthRequest, result: Result<Session, string>)
      requires Valid()
      modifies this, api
      ensures Valid() && !loading
      ensures request == RegisterRequest(username, email, password)
      ensures response.Ok? ==>
        && user == Some(response.data)
        && storage == old(storage)[UserKey := response.data]
        && error == None
        && result == Success(response.data)
        && api.commonHeaders == WithAuthHeader(old(api.commonHeaders), user)
      ensures response.Failed? ==>
        && user == old(user)
        && storage == old(storage)
        && error == Some(RegisterErrorMessage(response.err))
        && result == Failure(RegisterErrorMessage(response.err))
        && api.commonHeaders == old(api.commonHeaders)
      ensures old(Persisted()) || response.Ok? ==> Persisted()
    {
      loading := true;
      ClearError();
      request := RegisterRequest(username, email, password);
      match response
      case Ok(data) =>
        user := Some(data);
        storage := storage[UserKey := data];
        loading := false;
        SyncAuthHeader();
        result := Success(data);
      case Failed(err) =>
        loading := false;
        var message := RegisterErrorMessage(err);
        error := Some(message);
        result := Failure(message);
    }

    /** `login(email, password)`: as `register`, except that `error` is not
        cleared before the request (so a success leaves it as it was) and a
        failure rethrows the request's own error. */
    method Login(email: string, password: string, response: ApiOutcome<Session>)
      returns (request: AuthRequest, result: Result<Session, ApiError>)
      requires Valid()
      modifies this, api
      ensures Valid() && !loading
      ensures request == LoginRequest(email, password)
      ensures response.Ok? ==>
        && user == Some(response.data)
        && storage == old(storage)[UserKey := response.data]
        && error == old(error)
        && result == Success(response.data)
        && api.commonHeaders == WithAuthHeader(old(api.commonHeaders), user)
      ensures response.Failed? ==>
        && user == old(user)
        && storage == old(storage)
        && error == Some(LoginErrorMessage(response.err))
        && result == Failure(response.err)
        && api.commonHeaders == old(api.commonHeaders)
      ensures old(Persisted()) || response.Ok? ==> Persisted()
    {
      loading := true;
      request := LoginRequest(email, password);
      match response
      case Ok(data) =>
        user := Some(data);
        storage := storage[UserKey := data];
        loading := false;
        SyncAuthHeader();
        result := Success(data);
      case Failed(err) =>
        loading := false;
        error := Some(LoginErrorMessage(err));
        result := Failure(err);
    }

    /** `logout`: drops the persisted and the in-memory session, so the header
        effect removes the Authorization default; `error` and `loading` stay. */
    method Logout()
      requires Valid()
      modifies this, api
      ensures user == None && storage == old(storage) - {UserKey}
      ensures error == old(error) && loading == old(loading)
      ensures Valid() && Persisted()
      ensures AuthorizationHeader !in api.commonHeaders
      ensures OtherHeadersKept(old(api.commonHeaders), api.commonHeaders)
    {
      var hadUser := user.Some?;
      storage := storage - {UserKey};
      user := None;
      if hadUser {
        SyncAuthHeader();
      }
    }
  }
}
