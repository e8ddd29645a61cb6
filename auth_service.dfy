/**
 * The credential store: a table of credential records in the `users` slot of local storage,
 * keyed by email. Registration appends a record, the reset flow issues, checks and consumes a
 * per-record reset token, and a password change rewrites one record's password. Passwords are
 * stored as their Base64 text (`btoa`), a reversible encoding.
 *
 * Each write reads the table, edits one record and writes the table back; the methods below
 * are proved against the pure table transitions `NewAccount`, `IssueToken`, `ApplyReset` and
 * `ApplyPasswordChange`, and the lemmas state what the transitions promise.
 */
module AuthService {
  import opened Wrappers
  import opened Types
  import opened Seqs
  import opened Base64
  import opened Storage

  /** A reset token lives one hour, in milliseconds. */
  const ResetTokenLifetime: int := 3600000

  const InvalidCharacterMessage: string := "The string to be encoded contains characters outside of the Latin1 range."
  const NoAccountMessage: string := "No account found with this email address"
  const SendFailedMessage: string := "Failed to send reset email. Please try again later."

  /** `hashPassword`: the Base64 text of the password; it throws where `btoa` does. */
  function HashPassword(password: string): (r: Outcome<string>)
    ensures r.Returned? <==> IsLatin1(password)
    ensures r.Returned? ==> Atob(r.value) == password
  {
    match Btoa(password)
    case Some(h) => AtobBtoa(password); Returned(h)
    case None => Threw(InvalidCharacterMessage)
  }

  /** `verifyPassword`: does the password encode to the stored hash? */
  function VerifyPassword(password: string, hash: string): (r: Outcome<bool>)
    ensures r.Threw? <==> !IsLatin1(password)
    ensures r == Returned(true) ==> Atob(hash) == password
    ensures r.Returned? ==> (r.value <==> HashPassword(password) == Returned(hash))
  {
    match HashPassword(password)
    case Returned(h) => Returned(h == hash)
    case Threw(m) => Threw(m)
  }

  /** A password always verifies against its own hash. */
  lemma VerifyOwnHash(p: string)
    requires IsLatin1(p)
    ensures VerifyPassword(p, HashPassword(p).value) == Returned(true)
  {
  }

  /** Because the encoding is injective, a password verifies against the hash of `q` exactly when it is `q`. */
  lemma VerifyPasswordIff(p: string, q: string)
    requires IsLatin1(p) && IsLatin1(q)
    ensures VerifyPassword(p, HashPassword(q).value) == Returned(p == q)
  {
    if Btoa(p) == Btoa(q) {
      BtoaInjective(p, q);
    }
  }

  function HasEmail(email: string): Credentials -> bool {
    (c: Credentials) => c.email == email
  }

  /** `users.findIndex(u => u.email === email)`. */
  function FindIndex(users: seq<Credentials>, email: string): (i: int)
    ensures -1 <= i < |users|
    ensures i == -1 <==> forall k :: 0 <= k < |users| ==> users[k].email != email
    ensures 0 <= i ==> users[i].email == email && forall k :: 0 <= k < i ==> users[k].email != email
  {
    IndexOf(users, HasEmail(email))
  }

  /** The table's invariant: no two records share an email. */
  predicate EmailsUnique(users: seq<Credentials>) {
    forall i, j :: 0 <= i < j < |users| ==> users[i].email != users[j].email
  }

  function Emails(users: seq<Credentials>): (es: seq<string>)
    ensures |es| == |users| && forall i :: 0 <= i < |users| ==> es[i] == users[i].email
  {
    seq(|users|, i requires 0 <= i < |users| => users[i].email)
  }

  /** In a table without duplicate emails, the record with a given email sits at `FindIndex`. */
  lemma FindIndexUnique(users: seq<Credentials>, email: string, k: int)
    requires EmailsUnique(users) && 0 <= k < |users| && users[k].email == email
    ensures FindIndex(users, email) == k
  {
  }

  /**
   * `loginUser`: the record with that email when the password verifies against it, `null`
   * otherwise; it throws where `btoa` does, once a record was found.
   */
  function LoginUser(users: seq<Credentials>, email: string, password: string): (r: Outcome<Option<Credentials>>)
    ensures r.Threw? <==> FindIndex(users, email) >= 0 && !IsLatin1(password)
    ensures r.Returned? && r.value.Some? ==>
      var i := FindIndex(users, email);
      0 <= i && r.value.value == users[i] && HashPassword(password) == Returned(users[i].password)
    ensures r.Returned? && r.value.None? ==>
      var i := FindIndex(users, email);
      i == -1 || HashPassword(password) != Returned(users[i].password)
  {
    var i := FindIndex(users, email);
    if i < 0 then Returned(None)
    else
      match VerifyPassword(password, users[i].password)
      case Threw(m) => Threw(m)
      case Returned(ok) => if ok then Returned(Some(users[i])) else Returned(None)
  }

  /** With unique emails, login succeeds exactly when some record has that email and the password's hash. */
  lemma LoginUserIff(users: seq<Credentials>, email: string, password: string)
    requires EmailsUnique(users) && IsLatin1(password)
    ensures LoginUser(users, email, password).Returned?
    ensures LoginUser(users, email, password).value.Some? <==>
      exists k :: 0 <= k < |users| && users[k].email == email && HashPassword(password) == Returned(users[k].password)
  {
    var r := LoginUser(users, email, password);
    if k :| 0 <= k < |users| && users[k].email == email && HashPassword(password) == Returned(users[k].password) {
      FindIndexUnique(users, email, k);
    }
  }

  /**
   * `verifyResetToken`: the record with that email exists, holds a non-empty token equal to
   * `token` and a non-zero expiry (both are tested for truthiness), and `now` has not passed the expiry.
   */
  function VerifyResetToken(users: seq<Credentials>, email: string, token: string, now: int): (b: bool)
    ensures b <==>
      var i := FindIndex(users, email);
      && 0 <= i
      && users[i].resetToken == Some(token) && token != ""
      && users[i].resetTokenExpiry.Some? && users[i].resetTokenExpiry.value != 0
      && now <= users[i].resetTokenExpiry.value
  {
    match Find(users, HasEmail(email))
    case None => false
    case Some(u) =>
      if u.resetToken.None? || u.resetToken.value == "" || u.resetTokenExpiry.None? || u.resetTokenExpiry.value == 0 then false
      else if u.resetToken.value != token then false
      else if now > u.resetTokenExpiry.value then false
      else true
  }

  /** The record `registerUser` appends: the hashed password and no reset token. */
  function NewAccount(email: string, hash: string, name: string, role: string, organization: string, department: string): Credentials {
    Credentials(email, hash, name, role, organization, department, None, None)
  }

  /** The token-setting part of `sendPasswordResetEmail` on record `i`. */
  function IssueToken(users: seq<Credentials>, i: int, token: string, expiry: int): seq<Credentials>
    requires 0 <= i < |users|
  {
    users[i := users[i].(resetToken := Some(token), resetTokenExpiry := Some(expiry))]
  }

  /** `resetPassword`'s write on record `i`: the new hash, and both token fields deleted. */
  function ApplyReset(users: seq<Credentials>, i: int, hash: string): seq<Credentials>
    requires 0 <= i < |users|
  {
    users[i := users[i].(password := hash, resetToken := None, resetTokenExpiry := None)]
  }

  /** `changePassword`'s write on record `i`: the new hash only. */
  function ApplyPasswordChange(users: seq<Credentials>, i: int, hash: string): seq<Credentials>
    requires 0 <= i < |users|
  {
    users[i := users[i].(password := hash)]
  }

  /** Registering an unused email keeps the emails unique. */
  lemma RegisterKeepsEmailsUnique(users: seq<Credentials>, c: Credentials)
    requires EmailsUnique(users) && FindIndex(users, c.email) == -1
    ensures EmailsUnique(users + [c])
  {
  }

  /** The three in-place writes leave every email where it was: only registration adds one. */
  lemma InPlaceWritesKeepEmails(users: seq<Credentials>, i: int, token: string, expiry: int, hash: string)
    requires 0 <= i < |users|
    ensures Emails(IssueToken(users, i, token, expiry)) == Emails(users)
    ensures Emails(ApplyReset(users, i, hash)) == Emails(users)
    ensures Emails(ApplyPasswordChange(users, i, hash)) == Emails(users)
  {
  }

  /** Any table with the same emails as a uniquely keyed one is uniquely keyed. */
  lemma SameEmailsKeepUnique(users: seq<Credentials>, users': seq<Credentials>)
    requires EmailsUnique(users) && Emails(users') == Emails(users)
    ensures EmailsUnique(users')
  {
    forall i, j | 0 <= i < j < |users'|
      ensures users'[i].email != users'[j].email
    {
      assert Emails(users')[i] == Emails(users)[i] && Emails(users')[j] == Emails(users)[j];
    }
  }

  /**
   * A freshly issued non-empty token verifies for that email up to and including its expiry
   * instant, and never afterwards; no other token verifies.
   */
  lemma IssuedTokenLifetime(users: seq<Credentials>, i: int, token: string, issuedAt: int, now: int, other: string)
    requires EmailsUnique(users) && 0 <= i < |users|
    requires token != "" && issuedAt + ResetTokenLifetime != 0 && other != token
    ensures VerifyResetToken(IssueToken(users, i, token, issuedAt + ResetTokenLifetime), users[i].email, token, now)
            <==> now <= issuedAt + ResetTokenLifetime
    ensures !VerifyResetToken(IssueToken(users, i, token, issuedAt + ResetTokenLifetime), users[i].email, other, now)
  {
    var users' := IssueToken(users, i, token, issuedAt + ResetTokenLifetime);
    InPlaceWritesKeepEmails(users, i, token, issuedAt + ResetTokenLifetime, "");
    SameEmailsKeepUnique(users, users');
    FindIndexUnique(users', users[i].email, i);
  }

  /** A token stays valid at exactly its expiry instant and is rejected one millisecond later. */
  lemma TokenValidThroughExpiry(users: seq<Credentials>, email: string, token: string, expiry: int)
    requires VerifyResetToken(users, email, token, expiry - 1)
    requires users[FindIndex(users, email)].resetTokenExpiry == Some(expiry)
    ensures VerifyResetToken(users, email, token, expiry)
    ensures !VerifyResetToken(users, email, token, expiry + 1)
  {
  }

  /** After a reset the record holds no token, so no token verifies for it any more. */
  lemma ResetConsumesToken(users: seq<Credentials>, i: int, hash: string, token: string, now: int)
    requires EmailsUnique(users) && 0 <= i < |users|
    ensures !VerifyResetToken(ApplyReset(users, i, hash), users[i].email, token, now)
  {
    var users' := ApplyReset(users, i, hash);
    InPlaceWritesKeepEmails(users, i, "", 0, hash);
    SameEmailsKeepUnique(users, users');
    FindIndexUnique(users', users[i].email, i);
  }

  /** After a reset (or a change) to `p`, logging in with `p` returns the updated record. */
  lemma NewPasswordLogsIn(users: seq<Credentials>, i: int, p: string)
    requires EmailsUnique(users) && 0 <= i < |users| && IsLatin1(p)
    ensures LoginUser(ApplyReset(users, i, HashPassword(p).value), users[i].email, p)
            == Returned(Some(ApplyReset(users, i, HashPassword(p).value)[i]))
    ensures LoginUser(ApplyPasswordChange(users, i, HashPassword(p).value), users[i].email, p)
            == Returned(Some(ApplyPasswordChange(users, i, HashPassword(p).value)[i]))
  {
    var h := HashPassword(p).value;
    InPlaceWritesKeepEmails(users, i, "", 0, h);
    SameEmailsKeepUnique(users, ApplyReset(users, i, h));
    SameEmailsKeepUnique(users, ApplyPasswordChange(users, i, h));
    FindIndexUnique(ApplyReset(users, i, h), users[i].email, i);
    FindIndexUnique(ApplyPasswordChange(users, i, h), users[i].email, i);
  }

  /** A password change leaves the reset-token verdict of every email and token as it was. */
  lemma PasswordChangeKeepsTokens(users: seq<Credentials>, i: int, hash: string, email: string, token: string, now: int)
    requires 0 <= i < |users|
    ensures VerifyResetToken(ApplyPasswordChange(users, i, hash), email, token, now) == VerifyResetToken(users, email, token, now)
  {
    var users' := ApplyPasswordChange(users, i, hash);
    SameEmailsFindIndex(users, users', email);
  }

  /** Tables with the same emails answer `findIndex` alike. */
  lemma {:induction false} SameEmailsFindIndex(users: seq<Credentials>, users': seq<Credentials>, email: string)
    requires Emails(users') == Emails(users)
    ensures FindIndex(users', email) == FindIndex(users, email)
  {
    var i, j := FindIndex(users, email), FindIndex(users', email);
    assert forall k :: 0 <= k < |users| ==> users'[k].email == Emails(users')[k] == Emails(users)[k] == users[k].email;
  }

  /** A write to record `i` does not change what any other email's login or token check answers. */
  lemma OtherAccountsUnaffected(users: seq<Credentials>, i: int, c: Credentials, email: string, password: string, token: string, now: int)
    requires 0 <= i < |users| && c.email == users[i].email && email != users[i].email
    ensures LoginUser(users[i := c], email, password) == LoginUser(users, email, password)
    ensures VerifyResetToken(users[i := c], email, token, now) == VerifyResetToken(users, email, token, now)
  {
    var users' := users[i := c];
    SameEmailsFindIndex(users, users', email);
    var k := FindIndex(users, email);
    assert k != i;
  }

  /** `registerUser`: refuses a taken email, else appends the new record; nothing else is written. */
  method RegisterUser(store: LocalStorage, email: string, password: string, name: string, role: string,
                      organization: string, department: string) returns (r: Outcome<bool>)
    modifies store`users
    ensures FindIndex(old(store.users), email) >= 0 ==> r == Returned(false) && store.users == old(store.users)
    ensures FindIndex(old(store.users), email) == -1 && !IsLatin1(password) ==>
      r == Threw(InvalidCharacterMessage) && store.users == old(store.users)
    ensures FindIndex(old(store.users), email) == -1 && IsLatin1(password) ==>
      r == Returned(true) &&
      store.users == old(store.users) + [NewAccount(email, HashPassword(password).value, name, role, organization, department)]
    ensures EmailsUnique(old(store.users)) ==> EmailsUnique(store.users)
  {
    var users := store.users;
    if FindIndex(users, email) >= 0 {
      return Returned(false);
    }
    match HashPassword(password)
    case Threw(m) =>
      r := Threw(m);
    case Returned(hash) =>
      var account := NewAccount(email, hash, name, role, organization, department);
      if EmailsUnique(users) {
        RegisterKeepsEmailsUnique(users, account);
      }
      users := users + [account];
      store.users := users;
      r := Returned(true);
  }

  /**
   * The token-setting part of `sendPasswordResetEmail`: an unknown email throws and writes
   * nothing; a known one gets `token` expiring one hour after `now`. `delivered` stands for the
   * email step (the demo mode or a successful send); when it fails the call throws after the
   * token was saved.
   */
  method SendPasswordResetEmail(store: LocalStorage, email: string, token: string, now: int, delivered: bool)
    returns (r: Outcome<bool>)
    modifies store`users
    ensures FindIndex(old(store.users), email) == -1 ==> r == Threw(NoAccountMessage) && store.users == old(store.users)
    ensures FindIndex(old(store.users), email) >= 0 ==>
      && store.users == IssueToken(old(store.users), FindIndex(old(store.users), email), token, now + ResetTokenLifetime)
      && r == (if delivered then Returned(true) else Threw(SendFailedMessage))
    ensures EmailsUnique(old(store.users)) ==> EmailsUnique(store.users)
  {
    var users := store.users;
    var i := FindIndex(users, email);
    if i == -1 {
      return Threw(NoAccountMessage);
    }
    var expiry := now + ResetTokenLifetime;
    users := IssueToken(users, i, token, expiry);
    InPlaceWritesKeepEmails(store.users, i, token, expiry, "");
    if EmailsUnique(store.users) {
      SameEmailsKeepUnique(store.users, users);
    }
    store.users := users;
    r := if delivered then Returned(true) else Threw(SendFailedMessage);
  }

  /**
   * `resetPassword`: only a token that verifies lets the password be replaced; the write
   * deletes both token fields, so the same token cannot be used twice.
   */
  method ResetPassword(store: LocalStorage, email: string, token: string, newPassword: string, now: int)
    returns (r: Outcome<bool>)
    modifies store`users
    ensures !VerifyResetToken(old(store.users), email, token, now) ==> r == Returned(false) && store.users == old(store.users)
    ensures VerifyResetToken(old(store.users), email, token, now) && !IsLatin1(newPassword) ==>
      r == Threw(InvalidCharacterMessage) && store.users == old(store.users)
    ensures VerifyResetToken(old(store.users), email, token, now) && IsLatin1(newPassword) ==>
      && r == Returned(true)
      && store.users == ApplyReset(old(store.users), FindIndex(old(store.users), email), HashPassword(newPassword).value)
    ensures r == Returned(true) ==> forall t, n :: !VerifyResetToken(store.users, email, t, n)
    ensures EmailsUnique(old(store.users)) ==> EmailsUnique(store.users)
  {
    if !VerifyResetToken(store.users, email, token, now) {
      return Returned(false);
    }
    var users := store.users;
    var i := FindIndex(users, email);
    if i == -1 {
      return Returned(false);
    }
    match HashPassword(newPassword)
    case Threw(m) =>
      r := Threw(m);
    case Returned(hash) =>
      users := ApplyReset(users, i, hash);
      InPlaceWritesKeepEmails(store.users, i, "", 0, hash);
      SameEmailsFindIndex(store.users, users, email);
      if EmailsUnique(store.users) {
        SameEmailsKeepUnique(store.users, users);
      }
      store.users := users;
      r := Returned(true);
  }

  /**
   * `changePassword`: an unknown email or a wrong old password changes nothing; otherwise only
   * that record's password is replaced and any reset token stays as it was.
   */
  method ChangePassword(store: LocalStorage, email: string, oldPassword: string, newPassword: string)
    returns (r: Outcome<bool>)
    modifies store`users
    ensures FindIndex(old(store.users), email) == -1 ==> r == Returned(false) && store.users == old(store.users)
    ensures FindIndex(old(store.users), email) >= 0 && !IsLatin1(oldPassword) ==>
      r == Threw(InvalidCharacterMessage) && store.users == old(store.users)
    ensures FindIndex(old(store.users), email) >= 0 && IsLatin1(oldPassword) &&
            HashPassword(oldPassword) != Returned(old(store.users)[FindIndex(old(store.users), email)].password) ==>
      r == Returned(false) && store.users == old(store.users)
    ensures FindIndex(old(store.users), email) >= 0 &&
            HashPassword(oldPassword) == Returned(old(store.users)[FindIndex(old(store.users), email)].password) &&
            !IsLatin1(newPassword) ==>
      r == Threw(InvalidCharacterMessage) && store.users == old(store.users)
    ensures r == Returned(true) <==>
      && FindIndex(old(store.users), email) >= 0 && IsLatin1(newPassword)
      && HashPassword(oldPassword) == Returned(old(store.users)[FindIndex(old(store.users), email)].password)
    ensures r == Returned(true) ==>
      store.users == ApplyPasswordChange(old(store.users), FindIndex(old(store.users), email), HashPassword(newPassword).value)
    ensures r != Returned(true) ==> store.users == old(store.users)
    ensures EmailsUnique(old(store.users)) ==> EmailsUnique(store.users)
  {
    var users := store.users;
    var i := FindIndex(users, email);
    if i == -1 {
      return Returned(false);
    }
    match VerifyPassword(oldPassword, users[i].password)
    case Threw(m) =>
      r := Threw(m);
    case Returned(ok) =>
      if !ok {
        return Returned(false);
      }
      match HashPassword(newPassword)
      case Threw(m) =>
        r := Threw(m);
      case Returned(hash) =>
        users := ApplyPasswordChange(users, i, hash);
        InPlaceWritesKeepEmails(store.users, i, "", 0, hash);
        if EmailsUnique(store.users) {
          SameEmailsKeepUnique(store.users, users);
        }
        store.users := users;
        r := Returned(true);
  }
}
