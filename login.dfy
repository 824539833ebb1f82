/** The sign-in page (pages/Login.tsx): both credentials are required, the
    session manager's `login` does the work, and a successful sign-in goes
    back to the page that asked for it. */
module LoginPage {
  import opened Common
  import Transport
  import Session

  const DefaultTarget := "/dashboard"
  const ValidationMessage := "Please enter both email and password"
  const WelcomeMessage := "Welcome back to Nexus Medic Hub"
  const FallbackMessage := "Invalid email or password"

  /** `location.state?.from?.pathname || "/dashboard"`. */
  function RedirectTarget(from: Option<string>): (target: string)
    ensures target != ""
    ensures from.Some? && from.value != "" ==> target == from.value
    ensures from.None? || from.value == "" ==> target == DefaultTarget
  {
    OrElse(from.GetOr(""), DefaultTarget)
  }

  /** The mount effect: an already signed-in visitor is sent on at once. */
  function EffectRedirect(authenticated: bool, from: Option<string>): (target: Option<string>)
    ensures target.Some? <==> authenticated
    ensures target.Some? ==> target.value == RedirectTarget(from)
  {
    if authenticated then Some(RedirectTarget(from)) else None
  }

  predicate CredentialsGiven(email: string, password: string)
  {
    email != "" && password != ""
  }

  /** `error.message || "Invalid email or password"`: the text of a raised
      error, or the fallback when it has none. */
  function FailureToast(f: Transport.Failure): (text: string)
    ensures f.Raised? && f.message != "" ==> text == f.message
    ensures !f.Raised? || f.message == "" ==> text == FallbackMessage
  {
    if f.Raised? then OrElse(f.message, FallbackMessage) else FallbackMessage
  }

  /** A failed `login` always raises its own non-empty message (chosen by
      `LoginMessage` from the call's failure), so the page shows exactly
      that message and never reaches its own fallback. */
  lemma PageShowsLoginMessage(a: Session.Auth)
    requires Session.LoginSpec(a).outcome.Throw?
    ensures Transport.SendSpec(a.net, Transport.LoginPath).reply.Fail?
    ensures FailureToast(Session.LoginSpec(a).outcome.error)
         == Session.LoginMessage(Transport.SendSpec(a.net, Transport.LoginPath).reply.failure)
  {
  }

  class LoginForm {
    var email: string
    var password: string
    var isLoading: bool

    /** The form comes pre-filled with a demonstration account. */
    constructor ()
      ensures email == "doctor@example.com" && password == "password" && !isLoading
    {
      email := "doctor@example.com";
      password := "password";
      isLoading := false;
    }

    /** `handleSubmit`: missing credentials are reported without calling
        `login`; otherwise `login` runs, success navigates to the
        redirect target and failure shows the raised message. */
    method HandleSubmit(auth: Session.AuthProvider, from: Option<string>) returns (navigateTo: Option<string>, toast: string)
      modifies this, auth, auth.api
      ensures email == old(email) && password == old(password)
      ensures !CredentialsGiven(email, password) ==> (navigateTo.None? && toast == ValidationMessage
        && auth.State() == old(auth.State()) && isLoading == old(isLoading))
      ensures CredentialsGiven(email, password) ==> (auth.State() == Session.LoginSpec(old(auth.State())).auth
        && !isLoading)
      ensures CredentialsGiven(email, password) && Session.LoginSpec(old(auth.State())).outcome.Pass? ==>
        navigateTo == Some(RedirectTarget(from)) && toast == WelcomeMessage
      ensures CredentialsGiven(email, password) && Session.LoginSpec(old(auth.State())).outcome.Throw? ==>
        navigateTo.None? && toast == FailureToast(Session.LoginSpec(old(auth.State())).outcome.error)
    {
      if !CredentialsGiven(email, password) {
        return None, ValidationMessage;
      }
      isLoading := true;
      var outcome := auth.Login();
      match outcome {
        case Pass =>
          navigateTo := Some(RedirectTarget(from));
          toast := WelcomeMessage;
        case Throw(f) =>
          navigateTo := None;
          toast := FailureToast(f);
      }
      isLoading := false;
    }
  }
}
