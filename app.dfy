/**
 * The application shell: the signed-in user (restored from the `user` slot), the login, signup
 * and logout handlers built on the credential store, the key that remounts the data provider
 * per user, and the route table with its guards.
 */
module App {
  import opened Wrappers
  import opened Types
  import opened Storage
  import opened AuthService
  import opened Base64
  import AuthContext

  /** What the login and signup handlers resolve to: `{ success, error? }`. */
  datatype AuthResult = AuthResult(success: bool, error: Option<string>)

  const InvalidCredentialsMessage: string := "Invalid email or password"
  const LoginFailedMessage: string := "Login failed. Please try again."
  const EmailTakenMessage: string := "Email already registered. Please login instead."
  const RegistrationFailedMessage: string := "Registration failed. Please try again."
  /** `key={user?.email || 'no-user'}`. */
  const NoUserKey: string := "no-user"

  /** The session user built from a credential record: its email doubles as the id. */
  function SessionUser(c: Credentials): (u: User)
    ensures u.id == u.email == c.email
  {
    User(c.email, c.name, c.email, c.role, c.organization)
  }

  /** `handleSignup`'s answer for what `registerUser` returned or threw. */
  function SignupResult(registered: Outcome<bool>): (r: AuthResult)
    ensures r.success <==> registered == Returned(true)
    ensures r.success <==> r.error.None?
    ensures registered.Threw? ==> r.error == Some(RegistrationFailedMessage)
    ensures registered == Returned(false) ==> r.error == Some(EmailTakenMessage)
  {
    match registered
    case Threw(_) => AuthResult(false, Some(RegistrationFailedMessage))
    case Returned(ok) => if ok then AuthResult(true, None) else AuthResult(false, Some(EmailTakenMessage))
  }

  /** The application component's state: the storage it reads and writes, and the user. */
  class AppState {
    const storage: LocalStorage
    var user: Option<User>

    /** The lazy initial state: the user saved under `user`, if any. */
    constructor (storage: LocalStorage)
      ensures this.storage == storage && user == storage.user
    {
      this.storage := storage;
      user := storage.user;
    }

    /**
     * `handleLogin`: a thrown error and a failed check leave everything as it was; a successful
     * check signs the record's user in, saves it and records one login-history entry.
     */
    method HandleLogin(email: string, password: string, at: LoginTime) returns (r: AuthResult)
      modifies this`user, storage`user, storage`loginHistory
      ensures LoginUser(storage.users, email, password).Threw? ==>
        r == AuthResult(false, Some(LoginFailedMessage)) && user == old(user)
        && storage.user == old(storage.user) && storage.loginHistory == old(storage.loginHistory)
      ensures LoginUser(storage.users, email, password) == Returned(None) ==>
        r == AuthResult(false, Some(InvalidCredentialsMessage)) && user == old(user)
        && storage.user == old(storage.user) && storage.loginHistory == old(storage.loginHistory)
      ensures LoginUser(storage.users, email, password).Returned? && LoginUser(storage.users, email, password).value.Some? ==>
        var c := LoginUser(storage.users, email, password).value.value;
        && r == AuthResult(true, None)
        && user == Some(SessionUser(c)) && storage.user == user
        && storage.loginHistory == old(storage.loginHistory) + [LoginEntry(c.email, at.iso, at.local)]
      ensures r.success <==> LoginUser(storage.users, email, password).Returned? && LoginUser(storage.users, email, password).value.Some?
    {
      match LoginUser(storage.users, email, password)
      case Threw(_) =>
        r := AuthResult(false, Some(LoginFailedMessage));
      case Returned(None) =>
        r := AuthResult(false, Some(InvalidCredentialsMessage));
      case Returned(Some(c)) =>
        var newUser := SessionUser(c);
        user := Some(newUser);
        storage.user := Some(newUser);
        AuthContext.SaveLoginHistory(storage, newUser.email, at);
        r := AuthResult(true, None);
    }

    /** `handleSignup`: `registerUser`'s outcome, mapped to a result; the user is not signed in. */
    method HandleSignup(name: string, email: string, password: string, role: string, organization: string,
                        department: string) returns (r: AuthResult)
      modifies storage`users
      ensures r.success <==> FindIndex(old(storage.users), email) == -1 && IsLatin1(password)
      ensures r.success ==>
        storage.users == old(storage.users) + [NewAccount(email, HashPassword(password).value, name, role, organization, department)]
      ensures !r.success ==> storage.users == old(storage.users)
      ensures FindIndex(old(storage.users), email) >= 0 ==> r == AuthResult(false, Some(EmailTakenMessage))
      ensures FindIndex(old(storage.users), email) == -1 && !IsLatin1(password) ==>
        r == AuthResult(false, Some(RegistrationFailedMessage))
      ensures EmailsUnique(old(storage.users)) ==> EmailsUnique(storage.users)
    {
      var registered := RegisterUser(storage, email, password, name, role, organization, department);
      r := SignupResult(registered);
    }

    /** `handleLogout`: the user is cleared and its saved copy removed; the browser goes to `/`. */
    method HandleLogout() returns (navigateTo: string)
      modifies this`user, storage`user
      ensures user.None? && storage.user.None? && navigateTo == "/"
      ensures Route(navigateTo, user.Some?) == Render(Landing)
    {
      user := None;
      storage.user := None;
      navigateTo := "/";
    }

    /** The `userId` the data provider receives: `user?.email`. */
    function DataUserId(): (id: Option<string>)
      reads this
      ensures id.Some? <==> user.Some?
      ensures id.Some? ==> id.value == user.value.email
    {
      match user
      case Some(u) => Some(u.email)
      case None => None
    }

    /** The data provider's remount key: the email, or `no-user` when there is none or it is empty. */
    function DataProviderKey(): (k: string)
      reads this
      ensures k != ""
      ensures user.Some? && user.value.email != "" ==> k == user.value.email
      ensures user.None? || user.value.email == "" ==> k == NoUserKey
    {
      match DataUserId()
      case Some(e) => if e != "" then e else NoUserKey
      case None => NoUserKey
    }
  }

  /** The pages the route table renders. */
  datatype Page =
    | Landing | Login | Signup | ResetPassword
    | Overview | NewAnalysis | History | Registration | Search

  /** What a location shows: a page, or a `<Navigate replace>` to another path. */
  datatype RouteOutcome = Render(page: Page) | Redirect(to: string)

  /** The four public paths, which a signed-in user is sent away from. */
  predicate IsPublicPath(path: string) {
    path == "/" || path == "/login" || path == "/signup" || path == "/reset-password"
  }

  /** `/dashboard` and its four child paths, which need a signed-in user. */
  predicate IsDashboardPath(path: string) {
    path == "/dashboard" || path == "/dashboard/analyze" || path == "/dashboard/history"
    || path == "/dashboard/register" || path == "/dashboard/search"
  }

  predicate IsDashboardPage(p: Page) {
    p.Overview? || p.NewAnalysis? || p.History? || p.Registration? || p.Search?
  }

  /** The page a public path shows to a visitor. */
  function PublicPage(path: string): Page
    requires IsPublicPath(path)
  {
    if path == "/" then Landing
    else if path == "/login" then Login
    else if path == "/signup" then Signup
    else ResetPassword
  }

  /** The page a dashboard path shows inside the layout. */
  function DashboardPage(path: string): Page
    requires IsDashboardPath(path)
  {
    if path == "/dashboard" then Overview
    else if path == "/dashboard/analyze" then NewAnalysis
    else if path == "/dashboard/history" then History
    else if path == "/dashboard/register" then Registration
    else Search
  }

  /**
   * `AppRoutes` for one path: public pages redirect a signed-in user to the dashboard, dashboard
   * pages redirect a visitor to the login page, and every other path redirects to `/`.
   */
  function Route(path: string, signedIn: bool): (r: RouteOutcome)
    ensures IsPublicPath(path) ==> (r == Redirect("/dashboard") <==> signedIn)
    ensures IsDashboardPath(path) ==> (r == Redirect("/login") <==> !signedIn)
    ensures !IsPublicPath(path) && !IsDashboardPath(path) ==> r == Redirect("/")
    ensures r.Render? ==> (IsDashboardPage(r.page) <==> signedIn)
  {
    if IsPublicPath(path) then
      if signedIn then Redirect("/dashboard") else Render(PublicPage(path))
    else if IsDashboardPath(path) then
      if signedIn then Render(DashboardPage(path)) else Redirect("/login")
    else Redirect("/")
  }

  /** Follows at most `hops` redirects from `path`. */
  function Settle(path: string, signedIn: bool, hops: nat): RouteOutcome
    decreases hops
  {
    match Route(path, signedIn)
    case Render(p) => Render(p)
    case Redirect(to) => if hops == 0 then Redirect(to) else Settle(to, signedIn, hops - 1)
  }

  /**
   * Redirects never loop: from any path, two redirects at most reach a page, and it is a
   * dashboard page exactly when the user is signed in.
   */
  lemma RoutesSettle(path: string, signedIn: bool)
    ensures Settle(path, signedIn, 2).Render?
    ensures IsDashboardPage(Settle(path, signedIn, 2).page) <==> signedIn
    ensures !IsPublicPath(path) && !IsDashboardPath(path) ==>
      Settle(path, signedIn, 2) == Render(if signedIn then Overview else Landing)
  {
    assert Route("/", signedIn) == if signedIn then Redirect("/dashboard") else Render(Landing);
    assert Route("/dashboard", signedIn) == if signedIn then Render(Overview) else Redirect("/login");
    assert Route("/login", signedIn) == if signedIn then Redirect("/dashboard") else Render(Login);
    if IsPublicPath(path) {
      if signedIn {
        assert Settle(path, signedIn, 2) == Settle("/dashboard", signedIn, 1);
      }
    } else if IsDashboardPath(path) {
      if !signedIn {
        assert Settle(path, signedIn, 2) == Settle("/login", signedIn, 1);
      }
    } else {
      assert Settle(path, signedIn, 2) == Settle("/", signedIn, 1);
      if signedIn {
        assert Settle("/", signedIn, 1) == Settle("/dashboard", signedIn, 0);
      }
    }
  }

  /** Each path reaches its own page for the right kind of user. */
  lemma RouteTable(path: string)
    ensures IsPublicPath(path) ==> Route(path, false) == Render(PublicPage(path))
    ensures IsDashboardPath(path) ==> Route(path, true) == Render(DashboardPage(path))
  {
  }
}
