/**
 * The login page's form: email, password and confirmation fields, an error
 * message, the active tab and the "not available" modal. The auth service's
 * reply to each request is an input (None for success, the error message
 * otherwise); the requests it receives, the routes navigated to and the
 * browser alerts are recorded in order.
 */
module LoginPage {
  import opened Wrappers

  datatype Tab = LoginTab | RegisterTab

  /** A request to the auth service. */
  datatype AuthRequest =
    | SignIn(email: string, password: string)
    | SignUp(email: string, password: string)
    | OAuth(provider: string, redirectTo: string)

  const MismatchError: string := "Las contraseñas no coinciden."
  const SignupAlert: string := "Registro exitoso. Por favor, verifica tu correo electrónico para confirmar tu cuenta."
  const AfterLoginRoute: string := "/transcripcion"
  const AfterSignupRoute: string := "/login"

  class LoginForm {
    var email: string
    var password: string
    var confirmPassword: string
    var error: Option<string>
    var tab: Tab
    var modalOpen: bool
    var requests: seq<AuthRequest>
    var navigations: seq<string>
    var alerts: seq<string>

    constructor ()
      ensures email == "" && password == "" && confirmPassword == "" && error == None
      ensures tab == LoginTab && !modalOpen
      ensures requests == [] && navigations == [] && alerts == []
    {
      email, password, confirmPassword := "", "", "";
      error := None;
      tab := LoginTab;
      modalOpen := false;
      requests, navigations, alerts := [], [], [];
    }

    method EditEmail(v: string)
      modifies this`email
      ensures email == v
    {
      email := v;
    }

    method EditPassword(v: string)
      modifies this`password
      ensures password == v
    {
      password := v;
    }

    method EditConfirmPassword(v: string)
      modifies this`confirmPassword
      ensures confirmPassword == v
    {
      confirmPassword := v;
    }

    /**
     * `onValueChange={setTab}` and the effect on `[tab]`: a change of tab
     * clears the error, the password and the confirmation, and keeps the
     * email; choosing the tab already shown changes nothing.
     */
    method ChangeTab(t: Tab)
      modifies this`tab, this`error, this`password, this`confirmPassword
      ensures tab == t && email == old(email)
      ensures t != old(tab) ==> error == None && password == "" && confirmPassword == ""
      ensures t == old(tab) ==> error == old(error) && password == old(password) && confirmPassword == old(confirmPassword)
    {
      if t != tab {
        tab := t;
        error := None;
        password := "";
        confirmPassword := "";
      }
    }

    /**
     * `handleEmailLogin`: clear the error, sign in with the form's email and
     * password, then show the returned message or go to the transcription page.
     */
    method EmailLogin(reply: Option<string>)
      modifies this`error, this`requests, this`navigations
      ensures requests == old(requests) + [SignIn(email, password)]
      ensures error == reply
      ensures navigations == old(navigations) + if reply.None? then [AfterLoginRoute] else []
    {
      error := None;
      requests := requests + [SignIn(email, password)];
      if reply.Some? {
        error := reply;
      } else {
        navigations := navigations + [AfterLoginRoute];
      }
    }

    /**
     * `handleEmailSignup`: clear the error; when the two passwords differ,
     * report it and stop before any request; otherwise sign up and show the
     * returned message, or alert and go to the login route.
     */
    method EmailSignup(reply: Option<string>)
      modifies this`error, this`requests, this`navigations, this`alerts
      ensures password != confirmPassword ==>
        error == Some(MismatchError) && requests == old(requests)
        && navigations == old(navigations) && alerts == old(alerts)
      ensures password == confirmPassword ==>
        && requests == old(requests) + [SignUp(email, password)]
        && error == reply
        && navigations == old(navigations) + (if reply.None? then [AfterSignupRoute] else [])
        && alerts == old(alerts) + (if reply.None? then [SignupAlert] else [])
    {
      error := None;
      if password != confirmPassword {
        error := Some(MismatchError);
        return;
      }
      requests := requests + [SignUp(email, password)];
      if reply.Some? {
        error := reply;
      } else {
        alerts := alerts + [SignupAlert];
        navigations := navigations + [AfterSignupRoute];
      }
    }

    /**
     * `handleGoogleLogin` (and `handleGoogleSignup`, which only calls it):
     * start the OAuth redirect back to the transcription page; an error is
     * shown, and the previous error is NOT cleared first.
     */
    method GoogleLogin(origin: string, reply: Option<string>)
      modifies this`error, this`requests
      ensures requests == old(requests) + [OAuth("google", origin + AfterLoginRoute)]
      ensures error == if reply.Some? then reply else old(error)
    {
      requests := requests + [OAuth("google", origin + AfterLoginRoute)];
      if reply.Some? {
        error := reply;
      }
    }

    /** `handleFacebookLogin`: only opens the modal; no request is made. */
    method FacebookLogin()
      modifies this`modalOpen
      ensures modalOpen
    {
      modalOpen := true;
    }

    /** The modal's `onClose`. */
    method CloseModal()
      modifies this`modalOpen
      ensures !modalOpen
    {
      modalOpen := false;
    }

    /** `{error && <p>...}`: the message is shown only when it is set and not empty. */
    function ShownError(): (shown: Option<string>)
      reads this
      ensures shown.Some? <==> error.Some? && error.value != ""
      ensures shown.Some? ==> shown == error
    {
      if error.Some? && error.value != "" then error else None
    }
  }
}
