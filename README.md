# To-do client: session manager, request layer and task pages

A Dafny model of the logic under the view markup of a small React task
client. Users register or log in, and the session is kept in memory and in
browser storage. The request layer attaches the session's bearer token to
every call. Pages list, add, complete and delete tasks against a REST backend.

What is modelled, one module per source file:

- `Common` holds the values the other modules share. These are the session
  record, the outcome of an HTTP call (response data, or an error with the
  server's optional message) and JavaScript truthiness of an optional string.
  It also holds the `formError || error` choice that both auth pages render.
- `ApiConfig` (`src/services/apiConfig.js`) holds the client instance and
  its `defaults.headers.common`. It has the request interceptor, which reads
  the session from storage on each request and writes `Authorization: Bearer
  <token>` into the config in place. The response interceptors pass values
  and errors through unchanged.
- `AuthContext` (`src/context/AuthContext.jsx`) is the `AuthProvider` class.
  Its fields are `user`, `loading`, `error`, the storage map and the shared
  client. Its methods are the mount effects, the header effect, `register`,
  `login`, `logout` and `clearError`. Its object invariant `Valid()` says the
  client's Authorization default is `Bearer <user.token>` when the user has a
  token, and is absent otherwise.
- `TodoItem` (`src/components/TodoItem.jsx`) covers the past-due test, the
  border colour, red due-date styling, the date lines and the button
  callbacks.
- `TodoList` (`src/pages/TodoList.jsx`) has the filter and map that delete
  and toggle are built from, the completed count and the view selection. It
  also has the page class with the fetch, delete and toggle handlers.
- `Register`, `Login` and `AddTodo` (`src/pages/*.jsx`) each have a pure
  validation function. Each also has a page class whose `HandleSubmit` moves
  `formError`/`error` and `isSubmitting` as the source does. `Register` and
  `Login` call into an `AuthProvider`.
- `Scenarios` chains the methods above into end-to-end sequences: register
  then load an empty list, and restore a session then log out.

Each network call is an input: `Ok(data)` or `Failed(ApiError(serverMessage))`.
Handlers run one after another, each to completion. State updates take
effect at once. The header effect runs wherever React would re-run it, which
is after a change of `user`. Navigation is returned as the path the page
navigates to. Times are integers and "now" is a parameter.

Behaviour of the code worth knowing:

- Creating a task rejects a title whose `trim()` is empty, not only the empty
  string. The title is still sent untrimmed.
- A successful toggle flips the stored `completed` of every entry with the
  id. It does not set the entry to the negation of the argument. The two
  agree when the click comes from that row
  (`TodoList.PatchBodyMatchesLocalUpdate`).
- A failed register or login does not change the session. It does change
  `loading` and `error`. Without a server message the stored error is
  'Registration failed' or 'Login failed'.
- On a failed login the page stores the context `error` captured before the
  attempt (or 'Login failed'), not the server's message for this attempt.
  Because `formError` wins over `error`, that stale value is what is shown
  (`Login.FailedLoginShowsCapturedError`).
- A fetch that succeeds after a failed one does not clear `error`, so the
  error view stays.

## Model

| member | source | states |
|---|---|---|
| Common.HasToken | src/context/AuthContext.jsx:24 | `user && user.token`: a session is present with a non-empty token, in both directions |
| Common.StoredUser | src/context/AuthContext.jsx:15-18 | the stored session is present exactly when the "user" key is, and is that entry |
| Common.OrElse | src/context/AuthContext.jsx:49 | `s \|\| fallback`: the string when truthy, else the fallback; never empty when the fallback is not |
| Common.ShownError | src/pages/Register.jsx:67-73 | the error block shows iff `formError` or `error` is truthy; `formError` wins; a shown message is non-empty |
| ApiConfig.Bearer | src/services/apiConfig.js:23 | the header value is the "Bearer " prefix followed by exactly the token |
| ApiConfig.BearerInjective | src/services/apiConfig.js:23 | two credentials are equal iff the tokens are |
| ApiConfig.ApiClient.constructor | src/services/apiConfig.js:4-14 | fixed base URL, JSON content type, no credentials, and no Authorization default yet |
| ApiConfig.AuthorizedHeaders | src/services/apiConfig.js:19-26 | with a stored token, Authorization is `Bearer <token>`; without a stored user or token the headers are unchanged; other headers never change |
| ApiConfig.InterceptRequest | src/services/apiConfig.js:17-27 | writes the headers of the given config in place, from storage, and returns that same config |
| ApiConfig.OnRequestError | src/services/apiConfig.js:28-30 | a request error is re-rejected with the same value |
| ApiConfig.InterceptResponse | src/services/apiConfig.js:34-47 | responses and response errors come out exactly as they went in |
| AuthContext.WithAuthHeader | src/context/AuthContext.jsx:23-29 | after the header effect the Authorization default matches the user's token, or is absent; other defaults untouched |
| AuthContext.RegisterErrorMessage | src/context/AuthContext.jsx:49 | the server message when truthy, else 'Registration failed'; never empty |
| AuthContext.LoginErrorMessage | src/context/AuthContext.jsx:71 | the server message when truthy, else 'Login failed'; never empty |
| AuthContext.InterceptorAgreesWithDefaults | src/services/apiConfig.js:19-24 | when memory and storage hold the same session, the interceptor and the defaults give the same Authorization, or none |
| AuthContext.AuthProvider.constructor | src/context/AuthContext.jsx:9-11 | initially `user` null, `loading` true, `error` null |
| AuthContext.AuthProvider.SyncAuthHeader | src/context/AuthContext.jsx:23-29 | sets or deletes the Authorization default so that `Valid()` holds |
| AuthContext.AuthProvider.Init | src/context/AuthContext.jsx:14-20 | after mount `user` is the stored session if any, `loading` is false, the header follows it |
| AuthContext.AuthProvider.ClearError | src/context/AuthContext.jsx:83-85 | `error` becomes null and nothing else changes |
| AuthContext.AuthProvider.Register | src/context/AuthContext.jsx:32-54 | clears `error` first; success sets `user` and storage to the response; failure leaves both and the header, stores and throws the same message; `loading` ends false |
| AuthContext.AuthProvider.Login | src/context/AuthContext.jsx:57-74 | as register, but `error` is not cleared (a success keeps it) and a failure rethrows the request's own error |
| AuthContext.AuthProvider.Logout | src/context/AuthContext.jsx:77-80 | removes the storage key and the user, keeps `error`, and the Authorization default is gone |
| TodoItem.IsPastDue | src/components/TodoItem.jsx:19-22 | past due only with a due date, and then iff the due date is before now |
| TodoItem.DueIsRed | src/components/TodoItem.jsx:79-80 | the due date is red iff the task is past due and not completed |
| TodoItem.BorderColor | src/components/TodoItem.jsx:32 | completed gives '#93c5fd' even when past due; else past due gives '#f87171'; else '#bfdbfe' |
| TodoItem.RedBorderIffRedDueDate | src/components/TodoItem.jsx:79-80 | the border is red exactly when the due date is styled red (past due and not completed) |
| TodoItem.PastDueMonotone | src/components/TodoItem.jsx:19-22 | past due iff a due date exists and is before now; never without a due date; stays past due later |
| TodoItem.FormatDate | src/components/TodoItem.jsx:6-16 | null exactly for an absent date, else the formatter's text |
| TodoItem.RenderItem | src/components/TodoItem.jsx:24-83 | the created/due lines render only when the formatted value is truthy; the due line is red iff past due and open |
| TodoItem.OnClick | src/components/TodoItem.jsx:47-65 | the toggle button passes `(todo._id, todo.completed)`, the delete button `todo._id` |
| TodoList.Without | src/pages/TodoList.jsx:36 | the result keeps exactly the entries whose id differs |
| TodoList.WithoutAppend | src/pages/TodoList.jsx:36 | the filter distributes over concatenation, so the kept entries stay in their original order |
| TodoList.WithoutAbsent | src/pages/TodoList.jsx:36 | deleting an id no entry has changes nothing |
| TodoList.WithoutIdempotent | src/pages/TodoList.jsx:36 | deleting the same id twice equals deleting it once |
| TodoList.WithoutKeepsUniqueIds | src/pages/TodoList.jsx:36 | deleting keeps ids unique |
| TodoList.Flip | src/pages/TodoList.jsx:46 | only `completed` changes, and it is negated |
| TodoList.Toggled | src/pages/TodoList.jsx:45-47 | the toggle keeps the list length (its entries are given by ToggledAt) |
| TodoList.ToggledAt | src/pages/TodoList.jsx:45-47 | position by position, entries with the id are flipped and all others are untouched |
| TodoList.ToggledFields | src/pages/TodoList.jsx:45-47 | a toggle changes no field but `completed`, and that field only where the id matches |
| TodoList.ToggleTwice | src/pages/TodoList.jsx:45-47 | two successful toggles of one id restore the list |
| TodoList.ToggledKeepsUniqueIds | src/pages/TodoList.jsx:45-47 | toggling keeps ids unique |
| TodoList.PatchBodyMatchesLocalUpdate | src/pages/TodoList.jsx:44-46 | for a click on a row, the PATCH body `!completed` equals the row's new local value |
| TodoList.CompletedCount | src/pages/TodoList.jsx:126 | at most the list length; zero iff none is completed; the length iff all are |
| TodoList.CompletedCountAppend | src/pages/TodoList.jsx:126 | the count of a concatenation is the sum of the counts, and one entry counts 1 iff completed, which fixes the count of every list |
| TodoList.ViewOf | src/pages/TodoList.jsx:53-126 | spinner iff loading; else error iff an error; else the "add first task" prompt iff empty; else the list with its summary, "X of N" where X is the completed count and N the length |
| TodoList.TodoListPage.constructor | src/pages/TodoList.jsx:10-12 | empty list, loading, no error |
| TodoList.TodoListPage.FetchTodos | src/pages/TodoList.jsx:15-31 | fetches only with a user; success replaces the list and clears `loading`; failure sets 'Failed to fetch todos', clears `loading`, keeps the list |
| TodoList.TodoListPage.HandleDelete | src/pages/TodoList.jsx:33-40 | on success the list is the filter; on failure it is unchanged |
| TodoList.TodoListPage.HandleToggleComplete | src/pages/TodoList.jsx:42-51 | the PATCH body is `!completed`; on success the list is the toggle; on failure it is unchanged |
| TodoList.TodoListPage.Dispatch | src/pages/TodoList.jsx:109-116 | a row's click reaches the handler it names, with the same outcome rules |
| Register.Validate | src/pages/Register.jsx:22-35 | each message iff its check is the first to fail; no message (register is called) iff all filled, equal and at least 6 long |
| Register.WhitespaceFieldsAccepted | src/pages/Register.jsx:22 | whitespace-only fields pass the emptiness check |
| Register.FailureMessage | src/pages/Register.jsx:47 | the thrown message when non-empty, else 'Registration failed. Please try again.' |
| Register.PageFallbackUnreachable | src/pages/Register.jsx:47 | the page shows what the session manager threw; its own fallback appears only if the server sent that exact text |
| Register.RegisterPage.constructor | src/pages/Register.jsx:12-13 | no form error, not submitting |
| Register.RegisterPage.Shown | src/pages/Register.jsx:67-73 | `formError` when non-empty, else the context error when truthy, else nothing |
| Register.RegisterPage.HandleSubmit | src/pages/Register.jsx:18-52 | a failed check sets its message with no request; otherwise submits, clears the error, registers; success navigates to "/"; failure shows the thrown message and ends submitting; the default headers change only as the header effect sets Authorization, and not at all on failure |
| Login.Validate | src/pages/Login.jsx:20-23 | passes iff both fields are non-empty, else 'Please fill in all fields' |
| Login.LoginPage.constructor | src/pages/Login.jsx:10-11 | no form error, not submitting |
| Login.LoginPage.HandleSubmit | src/pages/Login.jsx:16-34 | login is called iff both fields are filled; success navigates to "/"; failure stores the pre-call error or 'Login failed' and ends submitting; the default headers change only as the header effect sets Authorization, and not at all on failure |
| Login.FailedLoginShowsCapturedError | src/pages/Login.jsx:49-55 | after a failed login the page shows the captured error (or 'Login failed'), never the new context error |
| AddTodo.TrimSpaceCharacters | src/pages/AddTodo.jsx:19 | the whitespace `trim()` removes includes space, tab, newline and carriage return, excludes every printable ASCII character, and lies at or below U+FEFF |
| AddTodo.TrimStart | src/pages/AddTodo.jsx:19 | drops exactly the leading whitespace |
| AddTodo.TrimEnd | src/pages/AddTodo.jsx:19 | drops exactly the trailing whitespace |
| AddTodo.Trim | src/pages/AddTodo.jsx:19 | the trim neither starts nor ends with whitespace |
| AddTodo.TrimEmptyIffBlank | src/pages/AddTodo.jsx:19 | the trim is empty iff every character is whitespace |
| AddTodo.TrimIsSlice | src/pages/AddTodo.jsx:19 | the trim is the slice of the title starting after the leading whitespace, and everything before and after it is whitespace |
| AddTodo.Validate | src/pages/AddTodo.jsx:19-22 | 'Task title cannot be empty' iff the title is blank |
| AddTodo.Payload | src/pages/AddTodo.jsx:26-31 | the payload title is the untrimmed title; `dueDate` is null iff the input is empty, else the input |
| AddTodo.PaddedTitleSentUntrimmed | src/pages/AddTodo.jsx:28 | a padded title passes and is sent with its padding |
| AddTodo.AddTodoPage.constructor | src/pages/AddTodo.jsx:11-12 | no error, not submitting |
| AddTodo.AddTodoPage.HandleSubmit | src/pages/AddTodo.jsx:16-38 | a blank title sets the error with no POST; otherwise exactly one POST with the payload; success navigates to "/"; failure sets 'Failed to add task. Please try again.' and ends submitting |
| Scenarios.RegisterThenLoadEmpty | src/pages/Register.jsx:37-45 | registering "alice" makes her the session; the next request carries her token; an empty list shows the first-task prompt |
| Scenarios.RestoreThenLogout | src/context/AuthContext.jsx:77-80 | a stored session's token is attached to requests; after logout neither the defaults nor a request carry Authorization |

## Left out

- Transport and scheduling: axios, the backend and async/await are not modelled. Each call is an input outcome and handlers run in sequence. Interleavings of concurrent handlers are not modelled, nor closures that read state left stale by another handler.
- Serialisation: `localStorage` and `JSON.parse`/`JSON.stringify` are not modelled. Storage is a map of parsed sessions, so corrupt stored JSON (where the mount effect would throw) is not represented.
- Session tokens: a token the server omits and an empty token are both the empty string, because the source only tests their truthiness.
- Dates: `Date` parsing and `Intl.DateTimeFormat` are foreign calls. Times are integers and the formatter is a parameter. An invalid date string, which would compare false and make the formatter throw, is not represented.
- The progress-bar width is floating-point division and is not modelled. Neither is the retry button's `window.location.reload()`.
- Logging: every `console.error` call is left out.
- Markup and animation are left out. So are the heading with the username, the Navbar and the Sidebar.
- Routing is left out, including `ProtectedRoute`. Navigation is returned as a path.
- The `disabled={isSubmitting}` buttons are not modelled: a handler can be called while submitting.
- The data of successful POST, PATCH and DELETE responses is ignored, as the source ignores it.
- Register.Validate: `|password|` counts Unicode scalar values, while JavaScript's `length` counts UTF-16 code units. A password with characters outside the Basic Multilingual Plane is measured shorter here than in the source.
