/** The shared request layer: the client instance whose default headers the
    session manager edits, the request interceptor that attaches the stored
    session's bearer token to every outgoing request, and the response
    interceptors, which pass results and errors through unchanged. */
module ApiConfig {
  import opened Common

  const BaseURL := "https://samihbassam-tutam9-backend.railway.app"
  const AuthorizationHeader := "Authorization"
  const BearerPrefix := "Bearer "

  /** The credential header value for a token. */
  function Bearer(token: string): (r: string)
    ensures |r| == |BearerPrefix| + |token|
    ensures r[..|BearerPrefix|] == BearerPrefix
    ensures r[|BearerPrefix|..] == token
  {
    BearerPrefix + token
  }

  /** Two sessions send the same credential exactly when their tokens agree. */
  lemma BearerInjective(t1: string, t2: string)
    ensures Bearer(t1) == Bearer(t2) <==> t1 == t2
  {
    if Bearer(t1) == Bearer(t2) {
      assert t1 == Bearer(t1)[|BearerPrefix|..];
    }
  }

  /** Every header other than Authorization is the same in both maps. */
  ghost predicate OtherHeadersKept(before: map<string, string>, after: map<string, string>)
  {
    forall k :: k != AuthorizationHeader ==>
      (k in after <==> k in before) && (k in after ==> after[k] == before[k])
  }

  /** The instance created by `axios.create`: a fixed base URL, JSON content
      type, no credentials, and the mutable `defaults.headers.common`. */
  class ApiClient {
    const baseURL: string
    const contentType: string
    const withCredentials: bool
    var commonHeaders: map<string, string>

    constructor ()
      ensures baseURL == BaseURL && contentType == "application/json" && !withCredentials
      ensures AuthorizationHeader !in commonHeaders
    {
      baseURL := BaseURL;
      contentType := "application/json";
      withCredentials := false;
      commonHeaders := map[];
    }
  }

  /** The config object one request carries through the interceptors. */
  class RequestConfig {
    const url: string
    var headers: map<string, string>

    constructor (url: string, headers: map<string, string>)
      ensures this.url == url && this.headers == headers
    {
      this.url := url;
      this.headers := headers;
    }
  }

  /** The headers of a request after the interceptor has seen them: the
      stored session's bearer token when it has one, otherwise untouched. */
  function AuthorizedHeaders(headers: map<string, string>, storage: map<string, Session>): (r: map<string, string>)
    ensures HasToken(StoredUser(storage)) ==>
      AuthorizationHeader in r && r[AuthorizationHeader] == Bearer(storage[UserKey].token)
    ensures !HasToken(StoredUser(storage)) ==> r == headers
    ensures OtherHeadersKept(headers, r)
  {
    var stored := StoredUser(storage);
    if stored.Some? && stored.value.token != "" then
      headers[AuthorizationHeader := Bearer(stored.value.token)]
    else
      headers
  }

  /** The request interceptor: reads the session from storage on every
      request (not from in-memory state) and writes the Authorization header
      in place on the config it is given, which it returns. */
  method InterceptRequest(storage: map<string, Session>, config: RequestConfig) returns (r: RequestConfig)
    modifies config
    ensures r == config
    ensures config.headers == AuthorizedHeaders(old(config.headers), storage)
  {
    var stored := StoredUser(storage);
    if stored.Some? {
      if stored.value.token != "" {
        config.headers := config.headers[AuthorizationHeader := Bearer(stored.value.token)];
      }
    }
    r := config;
  }

  /** A promise once it has settled. */
  datatype Settled<+T, +E> = Fulfilled(value: T) | Rejected(reason: E)

  /** The request-error handler re-rejects with the same error. */
  function OnRequestError<T, E>(error: E): (r: Settled<T, E>)
    ensures r.Rejected? && r.reason == error
  {
    Rejected(error)
  }

  /** The response interceptor pair applied to a settled response: successes
      and failures both come out exactly as they went in (the failure branch
      only logs). */
  function InterceptResponse<T, E>(s: Settled<T, E>): (r: Settled<T, E>)
    ensures r == s
  {
    match s
    case Fulfilled(response) => Fulfilled(response)
    case Rejected(error) => Rejected(error)
  }
}
