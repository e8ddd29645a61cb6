/**
 * The authentication context: the current user, restored from local storage on mount, set by
 * `login` (which also records a login-history entry) and cleared by `logout`.
 */
module AuthContext {
  import opened Wrappers
  import opened Types
  import opened Storage

  /** `saveLoginHistory`: one entry for `email` appended, earlier entries kept. */
  method SaveLoginHistory(storage: LocalStorage, email: string, at: LoginTime)
    modifies storage`loginHistory
    ensures storage.loginHistory == old(storage.loginHistory) + [LoginEntry(email, at.iso, at.local)]
    ensures |storage.loginHistory| == |old(storage.loginHistory)| + 1
  {
    var loginHistory := storage.loginHistory;
    loginHistory := loginHistory + [LoginEntry(email, at.iso, at.local)];
    storage.loginHistory := loginHistory;
  }

  /** The user `login` builds: the email doubles as the id. */
  function ContextUser(email: string, name: string, role: string, organization: string): (u: User)
    ensures u.id == u.email == email
  {
    User(email, name, email, role, organization)
  }

  /** What the mount effect restores from a saved `currentUser` value; `None` leaves the user as it was. */
  function Restored(saved: Option<SavedUser>): (r: Option<User>)
    ensures r.Some? <==> saved.Some? && saved.value.WellFormed?
    ensures r.Some? ==> saved == Some(WellFormed(r.value))
  {
    match saved
    case Some(WellFormed(u)) => Some(u)
    case _ => None
  }

  class AuthProvider {
    const storage: LocalStorage
    var currentUser: Option<User>

    /** The provider before its mount effect has run: no user. */
    constructor (storage: LocalStorage)
      ensures this.storage == storage && currentUser.None? && !IsAuthenticated()
    {
      this.storage := storage;
      currentUser := None;
    }

    /** `isAuthenticated`: `!!currentUser`. */
    predicate IsAuthenticated()
      reads this
    {
      currentUser.Some?
    }

    /** The mount effect: a saved user is restored; a value that does not parse is logged and ignored. */
    method RestoreOnMount()
      modifies this`currentUser
      ensures currentUser == (if Restored(storage.currentUser).Some? then Restored(storage.currentUser) else old(currentUser))
      ensures Restored(storage.currentUser).Some? ==> IsAuthenticated()
      ensures storage.currentUser == Some(Malformed) ==> currentUser == old(currentUser)
    {
      var saved := storage.currentUser;
      match saved
      case Some(WellFormed(u)) =>
        currentUser := Some(u);
      case Some(Malformed) =>
      case None =>
    }

    /** `login`: the password argument is ignored; the user is set, saved and one history entry recorded. */
    method Login(email: string, password: string, name: string, role: string, organization: string, at: LoginTime)
      modifies this`currentUser, storage`currentUser, storage`loginHistory
      ensures currentUser == Some(ContextUser(email, name, role, organization)) && IsAuthenticated()
      ensures storage.currentUser == Some(WellFormed(ContextUser(email, name, role, organization)))
      ensures storage.loginHistory == old(storage.loginHistory) + [LoginEntry(email, at.iso, at.local)]
    {
      var user := ContextUser(email, name, role, organization);
      currentUser := Some(user);
      storage.currentUser := Some(WellFormed(user));
      SaveLoginHistory(storage, email, at);
    }

    /** `logout`: the user is cleared and the saved copy removed. */
    method Logout()
      modifies this`currentUser, storage`currentUser
      ensures currentUser.None? && !IsAuthenticated() && storage.currentUser.None?
    {
      currentUser := None;
      storage.currentUser := None;
    }
  }
}
