/** Sequences of handler calls across the session manager, the request layer
    and the pages, showing what callers can rely on from the contracts alone. */
module Scenarios {
  import opened Common
  import opened ApiConfig
  import opened AuthContext
  import opened TodoList
  import opened Register

  /** The Authorization header a request carries, if any. */
  function AuthorizationOf(headers: map<string, string>): Option<string>
  {
    if AuthorizationHeader in headers then Some(headers[AuthorizationHeader]) else None
  }

  /** From an empty storage: registering "alice" with a matching six-letter
      password makes her the session, the next request carries her token,
      and an empty task list shows the "add your first task" prompt. */
  method RegisterThenLoadEmpty(token: string)
    returns (user: Option<Session>, authorization: Option<string>, view: View)
    requires token != ""
    ensures user == Some(Session("alice", "a@x.com", token))
    ensures authorization == Some(Bearer(token))
    ensures view == FirstTaskPrompt
  {
    var api := new ApiClient();
    var auth := new AuthProvider(map[], api);
    auth.Init();
    var page := new RegisterPage();
    var reply := Session("alice", "a@x.com", token);
    var request, navigateTo := page.HandleSubmit("alice", "a@x.com", "secret1", "secret1", auth, Ok(reply));
    user := auth.user;

    var config := new RequestConfig("/api/todos", map[]);
    config := InterceptRequest(auth.storage, config);
    authorization := AuthorizationOf(config.headers);

    var list := new TodoListPage();
    var requested := list.FetchTodos(auth.user, Ok([]));
    view := ViewOf(list.loading, list.error, list.todos);
  }

  /** A stored session with a token is restored on mount and attached to
      requests; after logout neither the defaults nor a new request carry
      an Authorization header. */
  method RestoreThenLogout(stored: Session)
    returns (before: Option<string>, afterDefaults: Option<string>, afterRequest: Option<string>)
    requires stored.token != ""
    ensures before == Some(Bearer(stored.token))
    ensures afterDefaults == None && afterRequest == None
  {
    var api := new ApiClient();
    var auth := new AuthProvider(map[UserKey := stored], api);
    auth.Init();
    var first := new RequestConfig("/api/todos", map[]);
    first := InterceptRequest(auth.storage, first);
    before := AuthorizationOf(first.headers);

    auth.Logout();
    afterDefaults := AuthorizationOf(api.commonHeaders);
    var second := new RequestConfig("/api/todos", map[]);
    second := InterceptRequest(auth.storage, second);
    afterRequest := AuthorizationOf(second.headers);
  }
}
