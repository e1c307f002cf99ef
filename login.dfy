/** The login page: a non-empty check on both fields, then a call to the
    session manager's `login`. On failure the page stores the context `error`
    as it was when the handler started (the value its closure captured before
    `clearError` and `login` ran), or "Login failed" if that was empty. */
module Login {
  import opened Common
  import opened AuthContext

  const FillAllFields := "Please fill in all fields"
  const PageFallback := "Login failed"

  /** The only check: both fields non-empty (untrimmed). */
  function Validate(email: string, password: string): (r: Option<string>)
    ensures r.None? <==> email != "" && password != ""
    ensures r.Some? ==> r.value == FillAllFields
  {
    if email == "" || password == "" then Some(FillAllFields) else None
  }

  class LoginPage {
    var formError: string
    var isSubmitting: bool

    constructor ()
      ensures formError == "" && !isSubmitting
    {
      formError := "";
      isSubmitting := false;
    }

    /** `handleSubmit` with the two field values and the outcome of the login
        request. */
    method HandleSubmit(email: string, password: string, auth: AuthProvider, response: ApiOutcome<Session>)
      returns (request: Option<AuthRequest>, navigateTo: Option<string>)
      requires auth.Valid()
      modifies this, auth, auth.api
      ensures auth.Valid()
      ensures Validate(email, password).Some? ==>
        && formError == FillAllFields && isSubmitting == old(isSubmitting)
        && request == None && navigateTo == None
        && unchanged(auth) && unchanged(auth.api)
      ensures Validate(email, password).None? ==>
        && request == Some(LoginRequest(email, password))
        && !auth.loading
        && (response.Ok? ==>
              && navigateTo == Some("/") && isSubmitting && formError == old(formError)
              && auth.user == Some(response.data) && auth.error == None
              && auth.storage == old(auth.storage)[UserKey := response.data]
              && auth.api.commonHeaders == WithAuthHeader(old(auth.api.commonHeaders), auth.user))
        && (response.Failed? ==>
              && navigateTo == None && !isSubmitting
              && formError == OrElse(old(auth.error), PageFallback)
              && auth.error == Some(LoginErrorMessage(response.err))
              && auth.user == old(auth.user) && auth.storage == old(auth.storage)
              && auth.api.commonHeaders == old(auth.api.commonHeaders))
    {
      var invalid := Validate(email, password);
      if invalid.Some? {
        formError := invalid.value;
        return None, None;
      }
      var captured := auth.error;
      isSubmitting := true;
      auth.ClearError();
      var sent, result := auth.Login(email, password, response);
      request := Some(sent);
      match result
      case Success(_) =>
        navigateTo := Some("/");
      case Failure(_) =>
        formError := OrElse(captured, PageFallback);
        isSubmitting := false;
        navigateTo := None;
    }
  }

  /** After a failed login the page shows its own message, which depends only
      on the error from before the attempt: on a first failure it is "Login
      failed" whatever the server said. */
  lemma FailedLoginShowsCapturedError(captured: Option<string>, err: ApiError)
    ensures ShownError(OrElse(captured, PageFallback), Some(LoginErrorMessage(err)))
      == Some(OrElse(captured, PageFallback))
    ensures captured == None ==>
      ShownError(OrElse(captured, PageFallback), Some(LoginErrorMessage(err))) == Some(PageFallback)
  {
  }
}
