/**
 * The login form (src/app/login/page.tsx): `handleSubmit` steps `loading`
 * and `error` through the call to the login action and hands a successful
 * result to the session provider.
 */
module LoginPage {
  import opened Js
  import opened Transport
  import opened Actions
  import opened Session

  const LoginFailedDefault := "Login failed"
  const UnexpectedErrorText := "An unexpected error occurred"

  /** What a settled submission leads to. */
  datatype SubmitOutcome = SignIn(token: Json, user: Json) | ShowError(text: Json)

  /**
   * A rejected call, or a success whose data cannot be read, shows the
   * generic error; a failure shows the action's message or the default.
   */
  function OutcomeOf(call: Settled<Envelope>): (o: SubmitOutcome)
    ensures call.Rejected? ==> o == ShowError(Str(UnexpectedErrorText))
    ensures call.Resolved? && call.value.success && !Nullish(call.value.data) ==>
      o == SignIn(Field(call.value.data, "token"), Field(call.value.data, "user"))
    ensures call.Resolved? && !call.value.success ==>
      o == ShowError(if Truthy(call.value.message) then call.value.message else Str(LoginFailedDefault))
    ensures o.ShowError? ==> Truthy(o.text)
  {
    match call
    case Rejected => ShowError(Str(UnexpectedErrorText))
    case Resolved(result) =>
      if result.success then
        match Prop(result.data, "token")
        case Threw => ShowError(Str(UnexpectedErrorText))
        case Got(t) => SignIn(t, Field(result.data, "user"))
      else ShowError(Or(result.message, Str(LoginFailedDefault)))
  }

  /**
   * End to end with the login action: a 200 reply signs in with the body's
   * token and user; every other reply shows the action's own message.
   */
  lemma SubmitWithLoginAction(reply: Reply)
    ensures OutcomeOf(Resolved(LoginEnvelope(reply))) ==
      if reply.Response? && reply.status == 200 && !Nullish(reply.body)
      then SignIn(Field(reply.body, "token"), Field(reply.body, "user"))
      else ShowError(LoginEnvelope(reply).message)
  {
  }

  class LoginForm {
    var loading: bool
    var error: Json

    constructor ()
      ensures !loading && error == Str("")
    {
      loading := false;
      error := Str("");
    }

    /** Before the action is called: loading on, error cleared. */
    method BeginSubmit()
      modifies this
      ensures loading && error == Str("")
    {
      loading := true;
      error := Str("");
    }

    /** After the action settles: sign in or show the error, and loading ends on every path. */
    method FinishSubmit(auth: AuthProvider, call: Settled<Envelope>)
      modifies this, auth
      ensures !loading
      ensures OutcomeOf(call).SignIn? ==>
        error == old(error) &&
        auth.cookies == WithSession(old(auth.cookies), OutcomeOf(call).token, OutcomeOf(call).user) &&
        auth.token == OutcomeOf(call).token && auth.user == OutcomeOf(call).user &&
        auth.navigations == old(auth.navigations) + ["/"] && auth.isLoading == old(auth.isLoading)
      ensures OutcomeOf(call).ShowError? ==>
        error == OutcomeOf(call).text &&
        auth.cookies == old(auth.cookies) && auth.token == old(auth.token) && auth.user == old(auth.user) &&
        auth.navigations == old(auth.navigations) && auth.isLoading == old(auth.isLoading)
    {
      match call {
        case Rejected =>
          error := Str(UnexpectedErrorText);
        case Resolved(result) =>
          if result.success {
            var t := Prop(result.data, "token");
            if t.Threw? {
              error := Str(UnexpectedErrorText);
            } else {
              auth.Login(t.value, Field(result.data, "user"));
            }
          } else {
            error := Or(result.message, Str(LoginFailedDefault));
          }
      }
      loading := false;
    }
  }
}
