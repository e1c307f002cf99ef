/** The registration page: an ordered chain of three checks on the four
    fields, then a call to the session manager's `register`, with the page's
    own `formError` and `isSubmitting` around it. */
module Register {
  import opened Common
  import opened AuthContext

  const FillAllFields := "Please fill in all fields"
  const PasswordsDiffer := "Passwords do not match"
  const PasswordTooShort := "Password must be at least 6 characters long"
  const PageFallback := "Registration failed. Please try again."
  const MinPasswordLength := 6

  /** The validation chain: the message of the first check that fails, or
      None when `register` is to be called. Emptiness is tested on the raw
      strings, so whitespace counts as content. */
  function Validate(username: string, email: string, password: string, confirmPassword: string): (r: Option<string>)
    ensures r == Some(FillAllFields) <==>
      username == "" || email == "" || password == "" || confirmPassword == ""
    ensures r == Some(PasswordsDiffer) <==>
      username != "" && email != "" && password != "" && confirmPassword != "" && password != confirmPassword
    ensures r == Some(PasswordTooShort) <==>
      username != "" && email != "" && password != "" && confirmPassword != ""
      && password == confirmPassword && |password| < MinPasswordLength
    ensures r == None <==>
      username != "" && email != "" && password != "" && password == confirmPassword
      && |password| >= MinPasswordLength
  {
    if username == "" || email == "" || password == "" || confirmPassword == "" then Some(FillAllFields)
    else if password != confirmPassword then Some(PasswordsDiffer)
    else if |password| < MinPasswordLength then Some(PasswordTooShort)
    else None
  }

  /** Fields made only of spaces pass the emptiness check. */
  lemma WhitespaceFieldsAccepted()
    ensures Validate(" ", " ", "      ", "      ") == None
    ensures Validate(" ", " ", " ", " ") == Some(PasswordTooShort)
  {
  }

  /** The message the page stores from the thrown error:
      `err.message || 'Registration failed. Please try again.'`. */
  function FailureMessage(thrown: string): (r: string)
    ensures thrown != "" ==> r == thrown
    ensures thrown == "" ==> r == PageFallback
  {
    if thrown != "" then thrown else PageFallback
  }

  /** The session manager always throws a non-empty message, so the page's
      own fallback is never chosen: the page shows the server's message or,
      without one, the session manager's shorter fallback. */
  lemma PageFallbackUnreachable(err: ApiError)
    ensures FailureMessage(RegisterErrorMessage(err)) == RegisterErrorMessage(err)
    ensures !Truthy(err.serverMessage) ==> FailureMessage(RegisterErrorMessage(err)) == RegisterFallback
    ensures FailureMessage(RegisterErrorMessage(err)) == PageFallback ==> err.serverMessage == Some(PageFallback)
  {
  }

  class RegisterPage {
    var formError: string
    var isSubmitting: bool

    constructor ()
      ensures formError == "" && !isSubmitting
    {
      formError := "";
      isSubmitting := false;
    }

    /** The message block: `formError || error`. */
    function Shown(auth: AuthProvider): (r: Option<string>)
      reads this, auth
      ensures formError != "" ==> r == Some(formError)
      ensures formError == "" && Truthy(auth.error) ==> r == auth.error
      ensures r.None? <==> formError == "" && !Truthy(auth.error)
    {
      ShownError(formError, auth.error)
    }

    /** `handleSubmit` with the four field values and the outcome of the
        register request. A failed check sets its message and sends nothing;
        otherwise the page marks itself submitting, clears the context error
        and calls `register`, then navigates to "/" on success or shows the
        thrown message and leaves the submitting state on failure. */
    method HandleSubmit(username: string, email: string, password: string, confirmPassword: string,
                        auth: AuthProvider, response: ApiOutcome<Session>)
      returns (request: Option<AuthRequest>, navigateTo: Option<string>)
      requires auth.Valid()
      modifies this, auth, auth.api
      ensures auth.Valid()
      ensures Validate(username, email, password, confirmPassword).Some? ==>
        && formError == Validate(username, email, password, confirmPassword).value
        && isSubmitting == old(isSubmitting)
        && request == None && navigateTo == None
        && unchanged(auth) && unchanged(auth.api)
      ensures Validate(username, email, password, confirmPassword).None? ==>
        && request == Some(RegisterRequest(username, email, password))
        && !auth.loading
        && (response.Ok? ==>
              && navigateTo == Some("/") && isSubmitting && formError == old(formError)
              && auth.user == Some(response.data) && auth.error == None
              && auth.storage == old(auth.storage)[UserKey := response.data]
              && auth.api.commonHeaders == WithAuthHeader(old(auth.api.commonHeaders), auth.user))
        && (response.Failed? ==>
              && navigateTo == None && !isSubmitting
              && formError == RegisterErrorMessage(response.err)
              && auth.error == Some(formError)
              && auth.user == old(auth.user) && auth.storage == old(auth.storage)
              && auth.api.commonHeaders == old(auth.api.commonHeaders))
    {
      var invalid := Validate(username, email, password, confirmPassword);
      if invalid.Some? {
        formError := invalid.value;
        return None, None;
      }
      isSubmitting := true;
      auth.ClearError();
      var sent, result := auth.Register(username, email, password, response);
      request := Some(sent);
      match result
      case Success(_) =>
        navigateTo := Some("/");
      case Failure(thrown) =>
        formError := FailureMessage(thrown);
        isSubmitting := false;
        navigateTo := None;
    }
  }
}
