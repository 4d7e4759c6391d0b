/** The login form handler (`LoginForm.onSubmit`): sends the credentials, copies the
    returned identity into the session store on success, and otherwise shows the most
    specific error message the server gave. */
module LoginForm {
  import opened JsValues
  import opened Identity
  import AuthSession

  /** The body of a successful `POST /api/auth/login`. */
  datatype LoginBody = LoginBody(message: string, user: User)

  /** The body of a rejected login, when the server sent one: a message, and possibly a
      list of validation errors (their messages, in order). */
  datatype LoginErrorBody = LoginErrorBody(message: Option<string>, errors: Option<seq<string>>)

  /** The body the form posts. */
  datatype Credentials = Credentials(email: string, password: string)

  const DashboardPath: string := "/dashboard"

  /** `error.response?.data?.errors?.[0]?.message`. */
  function FirstError(body: Option<LoginErrorBody>): (e: Option<string>)
    ensures e.Some? <==> body.Some? && body.value.errors.Some? && body.value.errors.value != []
    ensures e.Some? ==> e.value == body.value.errors.value[0]
  {
    if body.Some? && body.value.errors.Some? && |body.value.errors.value| > 0
    then Some(body.value.errors.value[0])
    else None
  }

  /** `error.response?.data?.message`. */
  function ServerMessage(body: Option<LoginErrorBody>): (m: Option<string>)
    ensures body.None? ==> m.None?
    ensures body.Some? ==> m == body.value.message
  {
    if body.Some? then body.value.message else None
  }

  /** `errors[0].message || message || "Login failed"`: the first validation error wins,
      then the server's message, then the generic text; the result is never empty. */
  function ErrorMessage(body: Option<LoginErrorBody>): (m: string)
    ensures m != ""
    ensures Truthy(FirstError(body)) ==> m == FirstError(body).value
    ensures !Truthy(FirstError(body)) && Truthy(ServerMessage(body)) ==> m == ServerMessage(body).value
    ensures !Truthy(FirstError(body)) && !Truthy(ServerMessage(body)) ==> m == "Login failed"
  {
    OrElse(FirstError(body), OrElse(ServerMessage(body), "Login failed"))
  }

  /** A rejection without a response (network failure, timeout) and one whose validation
      list is empty and message blank both fall back to the generic text. */
  lemma ErrorMessageFallbacks(message: Option<string>)
    requires !Truthy(message)
    ensures ErrorMessage(None) == "Login failed"
    ensures ErrorMessage(Some(LoginErrorBody(message, Some([])))) == "Login failed"
    ensures ErrorMessage(Some(LoginErrorBody(Some("Invalid credentials"), Some([""])))) == "Invalid credentials"
  {
  }

  class LoginFormState {
    var loading: bool
    var error: string

    constructor ()
      ensures !loading && error == ""
    {
      loading := false;
      error := "";
    }

    /** `onSubmit` up to its `await`: `loading` is raised, the previous error is cleared,
        and a missing field is sent as the empty string. */
    method BeginSubmit(email: Option<string>, password: Option<string>) returns (request: Credentials)
      modifies this
      ensures loading && error == ""
      ensures request == Credentials(OrElse(email, ""), OrElse(password, ""))
    {
      loading := true;
      error := "";
      request := Credentials(OrElse(email, ""), OrElse(password, ""));
    }

    /** `onSubmit` after its `await`: on success the store's identity becomes exactly the
        returned id, email, name and role, and the page loads the dashboard; on failure the
        store is untouched and the chosen message is shown. `loading` ends false. */
    method SettleSubmit(store: AuthSession.SessionStore, outcome: Outcome<LoginBody, Option<LoginErrorBody>>)
      returns (nav: Nav, toast: Toast)
      modifies this, store`user
      ensures !loading
      ensures store.loading == old(store.loading)
      ensures outcome.Ok? ==>
        && store.user == Some(User(outcome.value.user.id, outcome.value.user.email,
                                   outcome.value.user.name, outcome.value.user.role))
        && error == old(error)
        && nav == Load(DashboardPath)
        && toast == Success(OrElse(Some(outcome.value.message), "Successfully logged in!"))
      ensures outcome.Err? ==>
        && store.user == old(store.user)
        && error == ErrorMessage(outcome.error)
        && nav == Stay
        && toast == Failure(error)
    {
      match outcome {
        case Ok(body) =>
          var u := body.user;
          store.SetUser(User(u.id, u.email, u.name, u.role));
          toast := Success(OrElse(Some(body.message), "Successfully logged in!"));
          nav := Load(DashboardPath);
        case Err(rejection) =>
          error := ErrorMessage(rejection);
          toast := Failure(error);
          nav := Stay;
      }
      loading := false;
    }
  }
}
