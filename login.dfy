/**
 * The login screen: the username/password form, and the submit handler that
 * posts it, hands the token from the server to the session store and lets the
 * role decoded from it pick the landing page; every failure becomes the
 * inline error message.
 */
module LoginScreen {
  import opened Base
  import opened Routing
  import opened Session

  /** The server's answer to `POST /login`. */
  datatype LoginReply =
    | Answered(token: Option<string>)
    | Refused(error: Option<string>, statusText: string)
    | NoResponse

  /** What the `catch` block sees: an HTTP error with a response, or anything else. */
  datatype Failure = HttpFailure(error: Option<string>, statusText: string) | Unexpected

  /**
   * The inline message: a response's `error` field (or, when falsy, its status
   * text) behind a leading space; without a response, a fixed sentence.
   */
  function FailureMessage(f: Failure): (m: string)
    ensures (|m| > 0 && m[0] == ' ') <==> f.HttpFailure?
    ensures f.HttpFailure? ==> m[1..] == if Truthy(f.error) then f.error.value else f.statusText
    ensures f.Unexpected? ==> m == "An unexpected error occurred."
  {
    match f
    case HttpFailure(error, statusText) =>
      var message := if Truthy(error) then error.value else statusText;
      " " + message
    case Unexpected => "An unexpected error occurred."
  }

  /** The fields of the login form. */
  const LoginKeys: set<string> := {"username", "password"}

  class LoginForm {
    var form: Form
    var error: string

    constructor ()
      ensures form.Keys == LoginKeys && form["username"] == "" && form["password"] == ""
      ensures error == ""
    {
      form := map["username" := "", "password" := ""];
      error := "";
    }

    /** The two inputs: each writes its own field and keeps the other. */
    method HandleChange(name: string, value: string)
      requires name in LoginKeys
      modifies this`form
      ensures form == old(form)[name := value]
      ensures forall k :: k in old(form) && k != name ==> k in form && form[k] == old(form)[k]
    {
      form := form[name := value];
    }

    /**
     * `handleSubmit`: `POST /login` with the form as body; `reply` is the
     * server's answer to it.
     */
    method HandleSubmit(auth: AuthStore, reply: LoginReply) returns (request: Request, route: Option<string>)
      modifies this`error, auth
      ensures request == Request(Post, "/login", AsBody(form))
      ensures route.Some? <==> reply.Answered? && Truthy(reply.token) && auth.decode(reply.token.value).Some?
      ensures route.Some? ==>
        auth.stored == reply.token
        && auth.user == Some(UserOf(auth.decode(reply.token.value).value))
        && route.value == LoginRoute(auth.user.value.role)
        && error == old(error)
      ensures reply.Answered? && !Truthy(reply.token) ==>
        auth.stored == old(auth.stored) && auth.user == old(auth.user) && error == old(error)
      ensures reply.Answered? && Truthy(reply.token) && auth.decode(reply.token.value).None? ==>
        auth.stored == reply.token && auth.user == old(auth.user) && error == FailureMessage(Unexpected)
      ensures reply.Refused? ==>
        auth.stored == old(auth.stored) && auth.user == old(auth.user)
        && error == FailureMessage(HttpFailure(reply.error, reply.statusText))
      ensures reply.NoResponse? ==>
        auth.stored == old(auth.stored) && auth.user == old(auth.user) && error == FailureMessage(Unexpected)
    {
      request := Request(Post, "/login", AsBody(form));
      route := None;
      match reply {
        case Answered(token) =>
          if Truthy(token) {
            var threw := auth.Login(token.value);
            if threw {
              error := FailureMessage(Unexpected);
              return;
            }
            var decoded := auth.decode(token.value);
            route := Some(LoginRoute(decoded.value.role));
          }
        case Refused(e, statusText) =>
          error := FailureMessage(HttpFailure(e, statusText));
        case NoResponse =>
          error := FailureMessage(Unexpected);
      }
    }
  }
}
