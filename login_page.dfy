/**
 * The login page: the sign-in form, which goes through the application's login handler, and
 * the forgot-password view, which issues a reset token for the entered email.
 */
module LoginPage {
  import opened Wrappers
  import opened Types
  import opened JsStrings
  import opened Storage
  import opened AuthService
  import opened App

  const InvalidEmailMessage: string := "Please enter a valid email address"
  const LoginFallbackMessage: string := "Invalid email or password"
  const ResetFallbackMessage: string := "Failed to send reset email. Please try again."

  /** The confirmation shown once the reset link was sent. */
  function ResetSentMessage(email: string): (m: string)
    ensures Includes(m, email)
  {
    var m := "Reset link sent to " + email + "! Check your email (or console).";
    assert OccursAt(m, email, |"Reset link sent to "|);
    m
  }

  /** The message a thrown error leaves: `error.message || fallback`. */
  function ThrownMessage(message: string): (m: string)
    ensures m != ""
    ensures message != "" ==> m == message
  {
    if message != "" then message else ResetFallbackMessage
  }

  class LoginPageState {
    const app: AppState
    var isLoading: bool
    var email: string
    var password: string
    var error: string
    var showForgotView: bool
    var forgotEmail: string
    var forgotSuccess: string

    constructor (app: AppState)
      ensures this.app == app && !isLoading && email == "" && password == "" && error == ""
      ensures !showForgotView && forgotEmail == "" && forgotSuccess == ""
    {
      this.app := app;
      isLoading := false;
      email := "";
      password := "";
      error := "";
      showForgotView := false;
      forgotEmail := "";
      forgotSuccess := "";
    }

    /**
     * `handleSubmit`: signs in through the application's handler at time `at`; a failure shows
     * its message; the spinner is off afterwards.
     */
    method HandleSubmit(at: LoginTime)
      modifies this`isLoading, this`error, app`user, app.storage`user, app.storage`loginHistory
      ensures !isLoading
      ensures LoginUser(app.storage.users, email, password).Threw? ==>
        && error == LoginFailedMessage && app.user == old(app.user)
        && app.storage.user == old(app.storage.user) && app.storage.loginHistory == old(app.storage.loginHistory)
      ensures LoginUser(app.storage.users, email, password) == Returned(None) ==>
        && error == InvalidCredentialsMessage && app.user == old(app.user)
        && app.storage.user == old(app.storage.user) && app.storage.loginHistory == old(app.storage.loginHistory)
      ensures LoginUser(app.storage.users, email, password).Returned? && LoginUser(app.storage.users, email, password).value.Some? ==>
        var c := LoginUser(app.storage.users, email, password).value.value;
        && error == ""
        && app.user == Some(SessionUser(c)) && app.storage.user == app.user
        && app.storage.loginHistory == old(app.storage.loginHistory) + [LoginEntry(c.email, at.iso, at.local)]
    {
      isLoading := true;
      error := "";
      var result := app.HandleLogin(email, password, at);
      if !result.success {
        error := OrElse(result.error, LoginFallbackMessage);
      }
      isLoading := false;
    }

    /**
     * `handleForgotSubmit` at time `now`, with `token` the generated reset token and
     * `delivered` the outcome of the email step: an entry without `@` is refused before
     * anything else; otherwise the token is issued and the outcome shown.
     */
    method HandleForgotSubmit(token: string, now: int, delivered: bool)
      modifies this`isLoading, this`error, this`forgotSuccess, app.storage`users
      ensures !Includes(forgotEmail, "@") ==>
        && error == InvalidEmailMessage && isLoading == old(isLoading) && forgotSuccess == old(forgotSuccess)
        && app.storage.users == old(app.storage.users)
      ensures Includes(forgotEmail, "@") && FindIndex(old(app.storage.users), forgotEmail) == -1 ==>
        && error == NoAccountMessage && forgotSuccess == "" && !isLoading
        && app.storage.users == old(app.storage.users)
      ensures Includes(forgotEmail, "@") && FindIndex(old(app.storage.users), forgotEmail) >= 0 ==>
        && app.storage.users == IssueToken(old(app.storage.users), FindIndex(old(app.storage.users), forgotEmail),
                                           token, now + ResetTokenLifetime)
        && !isLoading
        && (delivered ==> forgotSuccess == ResetSentMessage(forgotEmail) && error == "")
        && (!delivered ==> forgotSuccess == "" && error == SendFailedMessage)
      ensures EmailsUnique(old(app.storage.users)) ==> EmailsUnique(app.storage.users)
    {
      if !Includes(forgotEmail, "@") {
        error := InvalidEmailMessage;
        return;
      }
      isLoading := true;
      error := "";
      forgotSuccess := "";
      var outcome := SendPasswordResetEmail(app.storage, forgotEmail, token, now, delivered);
      match outcome {
        case Returned(_) =>
          forgotSuccess := ResetSentMessage(forgotEmail);
        case Threw(message) =>
          error := ThrownMessage(message);
      }
      isLoading := false;
    }

    /** The "Forgot Password?" link. */
    method ShowForgot()
      modifies this`showForgotView
      ensures showForgotView
    {
      showForgotView := true;
    }

    /** The forgot view's "Back" button: back to sign-in, with both messages cleared. */
    method Back()
      modifies this`showForgotView, this`error, this`forgotSuccess
      ensures !showForgotView && error == "" && forgotSuccess == ""
    {
      showForgotView := false;
      error := "";
      forgotSuccess := "";
    }
  }
}
