/**
 * The reset-password page opened from a reset link: the link's `email` and `token` query
 * parameters, a new password typed twice, and the call that consumes the token.
 */
module ResetPasswordPage {
  import opened Wrappers
  import opened Types
  import opened Base64
  import opened Storage
  import opened AuthService

  const MinPasswordLength: int := 6
  const PasswordTooShortMessage: string := "Password must be at least 6 characters long"
  const PasswordMismatchMessage: string := "Passwords do not match"
  const InvalidLinkMessage: string := "Invalid reset link"
  const ExpiredLinkMessage: string := "Invalid or expired reset link. Please request a new one."

  /** `searchParams.get(name) || ''`. */
  function ParamOrEmpty(param: Option<string>): (v: string)
    ensures param.Some? ==> v == param.value
    ensures param.None? ==> v == ""
  {
    param.GetOr("")
  }

  /**
   * The form checks, in the order they run (length first, unlike the signup page): `None`
   * when the reset may be attempted.
   */
  function FormProblem(newPassword: string, confirmPassword: string, email: string, token: string): (e: Option<string>)
    ensures e.None? <==> |newPassword| >= MinPasswordLength && newPassword == confirmPassword && email != "" && token != ""
    ensures |newPassword| < MinPasswordLength ==> e == Some(PasswordTooShortMessage)
    ensures |newPassword| >= MinPasswordLength && newPassword != confirmPassword ==> e == Some(PasswordMismatchMessage)
    ensures |newPassword| >= MinPasswordLength && newPassword == confirmPassword && (email == "" || token == "") ==>
      e == Some(InvalidLinkMessage)
  {
    if |newPassword| < MinPasswordLength then Some(PasswordTooShortMessage)
    else if newPassword != confirmPassword then Some(PasswordMismatchMessage)
    else if email == "" || token == "" then Some(InvalidLinkMessage)
    else None
  }

  class ResetPasswordPageState {
    const storage: LocalStorage
    const email: string
    const token: string
    var newPassword: string
    var confirmPassword: string
    var isLoading: bool
    var error: string
    var success: bool

    /** The page for a link with the given query parameters. */
    constructor (storage: LocalStorage, emailParam: Option<string>, tokenParam: Option<string>)
      ensures this.storage == storage && email == ParamOrEmpty(emailParam) && token == ParamOrEmpty(tokenParam)
      ensures newPassword == "" && confirmPassword == "" && !isLoading && error == "" && !success
    {
      this.storage := storage;
      email := ParamOrEmpty(emailParam);
      token := ParamOrEmpty(tokenParam);
      newPassword := "";
      confirmPassword := "";
      isLoading := false;
      error := "";
      success := false;
    }

    /**
     * `handleSubmit`, including its delayed part, at time `now`: a form problem is shown and
     * nothing is written; otherwise `resetPassword` runs. Success shows the success view and
     * then leads to the login page; a rejected link shows the expiry message. A password
     * `btoa` refuses throws inside the timer, where nothing catches it: the spinner stays on.
     */
    method HandleSubmit(now: int) returns (navigateTo: Option<string>)
      modifies this`isLoading, this`error, this`success, storage`users
      ensures FormProblem(newPassword, confirmPassword, email, token).Some? ==>
        && error == FormProblem(newPassword, confirmPassword, email, token).value
        && isLoading == old(isLoading) && success == old(success)
        && storage.users == old(storage.users) && navigateTo.None?
      ensures FormProblem(newPassword, confirmPassword, email, token).None? && !VerifyResetToken(old(storage.users), email, token, now) ==>
        && error == ExpiredLinkMessage && !isLoading && success == old(success)
        && storage.users == old(storage.users) && navigateTo.None?
      ensures FormProblem(newPassword, confirmPassword, email, token).None? && VerifyResetToken(old(storage.users), email, token, now) ==>
        if IsLatin1(newPassword) then
          && success && error == "" && !isLoading && navigateTo == Some("/login")
          && storage.users == ApplyReset(old(storage.users), FindIndex(old(storage.users), email), HashPassword(newPassword).value)
          && forall t, n :: !VerifyResetToken(storage.users, email, t, n)
        else
          && isLoading && error == "" && success == old(success)
          && storage.users == old(storage.users) && navigateTo.None?
      ensures success && !old(success) ==> LoginUser(storage.users, email, newPassword).Returned?
    {
      navigateTo := None;
      error := "";
      var problem := FormProblem(newPassword, confirmPassword, email, token);
      if problem.Some? {
        error := problem.value;
        return;
      }
      isLoading := true;
      var result := ResetPassword(storage, email, token, newPassword, now);
      match result
      case Threw(_) =>
        return;
      case Returned(ok) =>
        if ok {
          success := true;
          navigateTo := Some("/login");
        } else {
          error := ExpiredLinkMessage;
        }
        isLoading := false;
    }
  }
}
