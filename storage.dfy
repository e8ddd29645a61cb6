/**
 * The browser's `localStorage` as the application uses it: one slot per key, each holding the
 * value that was last written there through `JSON.stringify` (the JSON round trip is taken to
 * be exact). A missing key and the empty list are told apart only where the source does.
 */
module Storage {
  import opened Wrappers
  import opened Types

  /** What `localStorage.getItem('currentUser')` yields: a user, or text `JSON.parse` rejects. */
  datatype SavedUser = WellFormed(user: User) | Malformed

  const PatientsPrefix: string := "patients_"
  const ReportsPrefix: string := "reports_"

  /** `patients_<userId>`: the key under which one user's patients are kept. */
  function PatientsKey(userId: string): (k: string)
    ensures |k| == |PatientsPrefix| + |userId| && k[|PatientsPrefix|..] == userId
  {
    PatientsPrefix + userId
  }

  /** `reports_<userId>`: the key under which one user's reports are kept. */
  function ReportsKey(userId: string): (k: string)
    ensures |k| == |ReportsPrefix| + |userId| && k[|ReportsPrefix|..] == userId
  {
    ReportsPrefix + userId
  }

  /** Distinct users get distinct keys, and a patients key is never a reports key. */
  lemma KeysSeparateUsers(u: string, v: string)
    ensures PatientsKey(u) == PatientsKey(v) ==> u == v
    ensures ReportsKey(u) == ReportsKey(v) ==> u == v
    ensures PatientsKey(u) != ReportsKey(v)
  {
    assert PatientsKey(u)[0] == 'p' && ReportsKey(v)[0] == 'r';
  }

  class LocalStorage {
    /** Key `users`: the credential table (absent reads as the empty table). */
    var users: seq<Credentials>
    /** Key `user`: the session user the application shell restores on start. */
    var user: Option<User>
    /** Key `currentUser`: the user the authentication context restores on mount. */
    var currentUser: Option<SavedUser>
    /** Key `loginHistory` (absent reads as the empty list). */
    var loginHistory: seq<LoginEntry>
    /** Keys `patients_<userId>`, indexed by the full key. */
    var patientLists: map<string, seq<Patient>>
    /** Keys `reports_<userId>`, indexed by the full key. */
    var reportLists: map<string, seq<Report>>

    /** A browser profile with nothing stored. */
    constructor ()
      ensures users == [] && user.None? && currentUser.None? && loginHistory == []
      ensures patientLists == map[] && reportLists == map[]
    {
      users := [];
      user := None;
      currentUser := None;
      loginHistory := [];
      patientLists := map[];
      reportLists := map[];
    }
  }
}
