/**
 * The three-step signup form: the first two submits only advance the step; the third checks
 * the passwords and registers the account through the application's signup handler.
 */
module SignupPage {
  import opened Wrappers
  import opened Types
  import opened Base64
  import opened JsStrings
  import opened Storage
  import opened AuthService
  import opened App

  datatype SignupForm = SignupForm(
    name: string, role: string, organization: string, department: string,
    email: string, phone: string, password: string, confirmPassword: string)

  /** The empty form; the role starts as the Doctor role's value. */
  const InitialForm: SignupForm := SignupForm("", RoleName(Doctor), "", "", "", "", "", "")
  const StepCount: int := 3
  const MinPasswordLength: int := 6
  const PasswordMismatchMessage: string := "Passwords do not match"
  const PasswordTooShortMessage: string := "Password must be at least 6 characters long"
  const RegistrationFailedFallback: string := "Registration failed"

  /** The password checks of the last step, in the order they run: `None` when both pass. */
  function PasswordProblem(password: string, confirmPassword: string): (e: Option<string>)
    ensures e.None? <==> password == confirmPassword && |password| >= MinPasswordLength
    ensures password != confirmPassword ==> e == Some(PasswordMismatchMessage)
    ensures password == confirmPassword && |password| < MinPasswordLength ==> e == Some(PasswordTooShortMessage)
  {
    if password != confirmPassword then Some(PasswordMismatchMessage)
    else if |password| < MinPasswordLength then Some(PasswordTooShortMessage)
    else None
  }

  class SignupPageState {
    const app: AppState
    var step: int
    var isLoading: bool
    var error: string
    var form: SignupForm

    /** The step is one of the three. */
    predicate Valid()
      reads this
    {
      1 <= step <= StepCount
    }

    constructor (app: AppState)
      ensures this.app == app && step == 1 && Valid() && !isLoading && error == "" && form == InitialForm
    {
      this.app := app;
      step := 1;
      isLoading := false;
      error := "";
      form := InitialForm;
    }

    /** `prevStep`, offered from the second step on. */
    method PrevStep()
      requires Valid() && step > 1
      modifies this`step
      ensures step == old(step) - 1 && Valid()
    {
      step := step - 1;
    }

    /**
     * `handleSubmit`: before the last step it only advances the step; on the last step a
     * password problem is reported and nothing is registered; otherwise the account is
     * registered and a success leads to the login page, a failure shows the handler's message.
     */
    method HandleSubmit() returns (navigateTo: Option<string>)
      requires Valid()
      modifies this`step, this`isLoading, this`error, app.storage`users
      ensures Valid() && form == old(form)
      ensures old(step) < StepCount ==>
        && step == old(step) + 1 && error == old(error) && isLoading == old(isLoading)
        && app.storage.users == old(app.storage.users) && navigateTo.None?
      ensures old(step) == StepCount && PasswordProblem(form.password, form.confirmPassword).Some? ==>
        && step == old(step) && error == PasswordProblem(form.password, form.confirmPassword).value
        && isLoading == old(isLoading) && app.storage.users == old(app.storage.users) && navigateTo.None?
      ensures old(step) == StepCount && PasswordProblem(form.password, form.confirmPassword).None? ==>
        var registered := FindIndex(old(app.storage.users), form.email) == -1 && IsLatin1(form.password);
        && step == old(step) && !isLoading
        && (registered ==>
              && app.storage.users == old(app.storage.users) + [NewAccount(form.email, HashPassword(form.password).value,
                                                                form.name, form.role, form.organization, form.department)]
              && error == "" && navigateTo == Some("/login"))
        && (!registered ==>
              && app.storage.users == old(app.storage.users) && navigateTo.None?
              && error == (if FindIndex(old(app.storage.users), form.email) >= 0 then EmailTakenMessage
                           else RegistrationFailedMessage))
      ensures app.storage.users != old(app.storage.users) ==>
        old(step) == StepCount && form.password == form.confirmPassword && |form.password| >= MinPasswordLength
    {
      navigateTo := None;
      if step < StepCount {
        step := step + 1;
        return;
      }
      var problem := PasswordProblem(form.password, form.confirmPassword);
      if problem.Some? {
        error := problem.value;
        return;
      }
      isLoading := true;
      error := "";
      var result := app.HandleSignup(form.name, form.email, form.password, form.role, form.organization, form.department);
      if result.success {
        navigateTo := Some("/login");
      } else {
        error := OrElse(result.error, RegistrationFailedFallback);
      }
      isLoading := false;
    }
  }
}
