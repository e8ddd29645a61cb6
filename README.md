# BreastCancerAI client core in Dafny

This project models the browser-side logic of BreastCancerAI, a demo clinical assistant for
breast-tumour image analysis. It proves properties of that model. Everything it models lives in
the browser's `localStorage`:

- **Credential store** (`authService.ts`): a table of accounts keyed by email.
  - Passwords are stored as their Base64 text (`btoa`).
  - The store registers accounts, logs users in, runs a reset-token lifecycle (issue with a
    one-hour expiry, verify, consume) and changes passwords.
- **Clinical data store** (`DataContext.tsx`): each signed-in user's patients and analysis
  reports, kept under per-user keys.
  - When a reports save fails, it retries with the images stripped.
- **Session layer** (`App.tsx`, `AuthContext.tsx`):
  - the login, signup and logout handlers;
  - the login history;
  - the route table with its guards.
- **Pages:** the validation chains and state machines of the analysis, search, dashboard,
  patient-registration, signup, reset-password and login pages.

Modules follow the source files:

| module | source file |
|---|---|
| `AuthService` | `authService.ts` |
| `DataContext` | `DataContext.tsx` |
| `App` | `App.tsx` |
| `AuthContext` | `AuthContext.tsx` |
| `NewAnalysis` | `NewAnalysis.tsx` |
| `PatientSearch` | `PatientSearch.tsx` |
| `Dashboard` | `Dashboard.tsx` |
| `PatientRegistration` | `PatientRegistration.tsx` |
| `SignupPage` | `SignupPage.tsx` |
| `ResetPasswordPage` | `ResetPasswordPage.tsx` |
| `LoginPage` | `LoginPage.tsx` |

Six supporting modules hold what these share:

- `Types`: the records of `types.ts` and the stored credential record.
- `Storage`: the `localStorage` slots, as a class with one field per key family.
- `Base64`: `btoa` and its inverse `atob`.
- `JsStrings`: the ECMAScript string functions used: ASCII `toLowerCase`, `includes`, `trim`,
  radix-less `parseInt`, and the decimal text of a number.
- `Seqs`: `filter`, `findIndex`, `find` and `some`.
- `Wrappers`: `Option`, and `Outcome` (a value returned or an error thrown).

Components whose state the source updates become classes whose methods change their fields:

- `LocalStorage`
- `DataProvider`
- `AppState`
- `AuthProvider`
- one class per page

Each method is proved against pure functions of the old state, such as the credential-table
transitions `IssueToken`, `ApplyReset` and `ApplyPasswordChange`. Lemmas state what those
functions promise.

Nondeterminism and the outside world become parameters:

- **Clock:** `now` (milliseconds), `today` (the ISO date) and the login timestamps are parameters.
- **Random draws:**
  - the reset token is an arbitrary string;
  - the report number is some `n < 10000`;
  - the recommendation shuffle is a permutation of the five entries.
- **Analysis service:** an oracle that either returns a finding or fails.
- **Email step of the reset flow:** a boolean `delivered`.
- **Storage writes that can fail:** booleans.

`btoa` throws on any character above U+00FF. The model keeps that error path and carries it:

- through `registerUser`, `loginUser`, `resetPassword` and `changePassword`;
- into the application's `catch` blocks;
- into the reset-password page, where the throw happens inside a timer. Nothing catches it
  there, so the spinner stays on.

## Model

| member | source | states |
|---|---|---|
| AuthService.HashPassword | src/services/authService.ts:15-17 | hashing succeeds exactly for Latin-1 passwords, and `atob` of the hash gives the password back |
| AuthService.VerifyPassword | src/services/authService.ts:19-21 | throws exactly when `btoa` refuses the password; otherwise the verdict is true exactly when the password's hash equals the stored one, and then the stored hash decodes to the password |
| AuthService.VerifyOwnHash | src/services/authService.ts:15-21 | a password always verifies against its own hash |
| AuthService.VerifyPasswordIff | src/services/authService.ts:15-21 | since the encoding is injective, `p` verifies against the hash of `q` exactly when `p == q` |
| Base64.AtobBtoa | src/services/authService.ts:16 | `atob(btoa(s)) == s` for every Latin-1 string: the stored hash is reversible |
| Base64.BtoaInjective | src/services/authService.ts:20 | equal `btoa` outputs come from equal passwords |
| AuthService.FindIndex | src/services/authService.ts:86 | `findIndex` by email: -1 exactly when no record has the email, else the first such record |
| AuthService.FindIndexUnique | src/services/authService.ts:45 | in a table without duplicate emails, a record with the email sits at `findIndex` |
| AuthService.LoginUser | src/services/authService.ts:63-76 | returns the found record only when the password's hash equals its stored hash; null when the email is unknown or the hash differs; throws only for a known email with a non-Latin-1 password |
| AuthService.LoginUserIff | src/services/authService.ts:63-76 | with unique emails and a Latin-1 password: login succeeds iff some record has that email and that password hash |
| AuthService.RegisterUser | src/services/authService.ts:35-60 | a taken email returns false and writes nothing; otherwise exactly one record is appended (the hash, no token) and true is returned; a refused password throws and writes nothing; unique emails stay unique |
| AuthService.RegisterKeepsEmailsUnique | src/services/authService.ts:45-58 | appending an unused email keeps "no two records share an email" |
| AuthService.InPlaceWritesKeepEmails | src/services/authService.ts:97-98 | issuing a token, resetting and changing a password leave every record's email where it was |
| AuthService.SameEmailsKeepUnique | src/services/authService.ts:97-99 | a table with the same emails as a uniquely keyed one is uniquely keyed |
| AuthService.SameEmailsFindIndex | src/services/authService.ts:168 | tables with the same emails answer `findIndex` alike |
| AuthService.SendPasswordResetEmail | src/services/authService.ts:84-99 | an unknown email throws and writes nothing; a known one gets the token with expiry `now + 3600000` and nothing else changes; a failed email step throws after the write; unique emails stay unique |
| AuthService.VerifyResetToken | src/services/authService.ts:142-159 | true iff the record exists, holds that token (non-empty) and a non-zero expiry, and `now <= expiry` |
| AuthService.IssuedTokenLifetime | src/services/authService.ts:142-159 | a freshly issued token verifies exactly up to and including its expiry instant; no other token verifies |
| AuthService.TokenValidThroughExpiry | src/services/authService.ts:154-156 | a token is still valid at its expiry instant and rejected one millisecond later |
| AuthService.ResetPassword | src/services/authService.ts:162-181 | succeeds only when the token verifies; then the password becomes the new hash and both token fields are deleted, so no token verifies for that email afterwards; otherwise nothing is written |
| AuthService.ResetConsumesToken | src/services/authService.ts:175-177 | after a reset no token verifies for that email, so the same link cannot be used twice |
| AuthService.NewPasswordLogsIn | src/services/authService.ts:162-199 | after a reset or a change to `p`, logging in with `p` returns the updated record |
| AuthService.ChangePassword | src/services/authService.ts:184-199 | an unknown email or a wrong old password returns false and writes nothing; a non-Latin-1 old password, or a verified old password with a non-Latin-1 new one, throws and writes nothing; success happens exactly when the old password verifies and the new one is Latin-1, and then only that record's password changes |
| AuthService.PasswordChangeKeepsTokens | src/services/authService.ts:196 | a password change leaves every reset-token verdict as it was |
| AuthService.OtherAccountsUnaffected | src/services/authService.ts:84-199 | a write to one record changes no other email's login or token verdict |
| Storage.KeysSeparateUsers | src/contexts/DataContext.tsx:44-45 | per-user keys are injective, and a patients key is never a reports key |
| DataContext.DataProvider.Load | src/contexts/DataContext.tsx:30-70 | no user (or the empty id): both lists cleared, not initialised; otherwise both lists read from `patients_<id>` / `reports_<id>`, a missing key reading as empty |
| DataContext.DataProvider.SavePatients | src/contexts/DataContext.tsx:73-83 | no write without a user or before loading; a successful write stores the list under the user's key |
| DataContext.DataProvider.SaveReports | src/contexts/DataContext.tsx:85-106 | as for patients; when the first write fails, the retry stores the image-stripped list |
| DataContext.StripImages | src/contexts/DataContext.tsx:96-99 | same length, every image removed, every other field kept, position by position |
| DataContext.StripImagesKeepsPatientReports | src/contexts/DataContext.tsx:96-99 | after stripping, each patient still has the same reports, stripped, in the same order |
| DataContext.DataProvider.AddPatient | src/contexts/DataContext.tsx:108-114 | one patient appended, registered today, earlier ones unchanged; the patient can be found by id |
| DataContext.GetPatientAfterAppend | src/contexts/DataContext.tsx:108-132 | no id check: after appending a duplicate id, `getPatient` still answers with the earlier patient |
| DataContext.ReportId | src/contexts/DataContext.tsx:119 | `AN-` followed by one to four decimal digits |
| DataContext.ReportIdNumber | src/contexts/DataContext.tsx:119 | the digits read back as the drawn number |
| DataContext.ReportIdInjective | src/contexts/DataContext.tsx:119 | distinct draws give distinct ids |
| DataContext.DataProvider.AddReport | src/contexts/DataContext.tsx:116-124 | one report put in front with a fresh id, today's date and status COMPLETED; that patient's report list gains it in front |
| DataContext.GetPatientReportsAfterPrepend | src/contexts/DataContext.tsx:116-128 | a prepended report heads its patient's list and leaves every other patient's list unchanged |
| DataContext.GetPatientReports | src/contexts/DataContext.tsx:126-128 | exactly the reports of that patient, each as many times as it is stored, as an order-preserving subsequence |
| DataContext.GetPatient | src/contexts/DataContext.tsx:130-132 | the first patient with that id, none when no patient has it |
| DataContext.DataProvider.constructor | src/contexts/DataContext.tsx:25-27 | the provider starts with no patients, no reports and not initialised |
| App.AppState.constructor | src/App.tsx:19-22 | the session user starts as the one saved under `user` |
| App.AppState.HandleLogin | src/App.tsx:24-59 | a thrown check or a failed check answers with its message and changes nothing; success signs in the record's user with `id = email`, saves it and appends one history entry |
| App.SessionUser | src/App.tsx:33-39 | the session user's id and email are the record's email |
| App.AppState.HandleSignup | src/App.tsx:61-82 | success iff the email is unused and the password Latin-1, and then exactly one account is added; a taken email and a thrown error map to their messages and write nothing |
| App.SignupResult | src/App.tsx:71-81 | success exactly for a `true` result; false and a throw map to their two messages |
| App.AppState.HandleLogout | src/App.tsx:84-89 | the user and its saved copy are cleared, and the browser lands on the landing page |
| App.AppState.DataUserId | src/App.tsx:92 | the data provider's user id is the user's email |
| App.AppState.DataProviderKey | src/App.tsx:92 | the remount key is the email, or `no-user` when there is none |
| JsStrings.OrElse | src/pages/SignupPage.tsx:68 | `error \|\| fallback`: the message unless it is missing or empty |
| App.Route | src/App.tsx:119-149 | a signed-in user on a public path goes to `/dashboard`; a visitor on a dashboard path goes to `/login`; any other path goes to `/`; a dashboard page is shown only to a signed-in user |
| App.RoutesSettle | src/App.tsx:122-146 | from any path, at most two redirects reach a page, and it is a dashboard page exactly when signed in |
| App.RouteTable | src/App.tsx:122-143 | every public path shows its page to a visitor, every dashboard path its page to a signed-in user |
| AuthContext.AuthProvider.constructor | src/contexts/AuthContext.tsx:22 | the provider starts with no user, so `isAuthenticated` is false |
| AuthContext.AuthProvider.RestoreOnMount | src/contexts/AuthContext.tsx:25-34 | a saved user is restored, and the provider is then authenticated; a value that fails to parse, or none, leaves the user as it was |
| AuthContext.Restored | src/contexts/AuthContext.tsx:26-29 | a user is restored exactly from a well-formed saved value |
| AuthContext.SaveLoginHistory | src/contexts/AuthContext.tsx:37-46 | exactly one entry for that email appended, earlier entries kept |
| AuthContext.ContextUser | src/contexts/AuthContext.tsx:49-55 | the context user's id is its email |
| AuthContext.AuthProvider.Login | src/contexts/AuthContext.tsx:48-60 | sets and saves the user built from the arguments (the password is ignored), appends one history entry; authenticated afterwards |
| AuthContext.AuthProvider.Logout | src/contexts/AuthContext.tsx:62-65 | the user and its saved copy are cleared; not authenticated afterwards |
| NewAnalysis.NewAnalysisPage.constructor | src/pages/NewAnalysis.tsx:11-17 | the page starts IDLE with no image, result, notification or recommendations, and empty patient fields |
| NewAnalysis.NewAnalysisPage.HandleFileChange | src/pages/NewAnalysis.tsx:21-33 | a chosen file becomes the image and resets status to IDLE, result and recommendations; no file changes nothing |
| NewAnalysis.FollowUpsDistinct | src/pages/NewAnalysis.tsx:37-43 | the five follow-up actions are pairwise different |
| NewAnalysis.GenerateRecommendations | src/pages/NewAnalysis.tsx:35-46 | three pairwise different entries of the five-item list |
| NewAnalysis.RecommendationsFor | src/pages/NewAnalysis.tsx:76-77 | benign: exactly the routine-screening line; malignant: three follow-ups |
| NewAnalysis.DisplayName | src/pages/NewAnalysis.tsx:64 | an empty name becomes `Anonymous Patient`, any other is kept |
| NewAnalysis.NewAnalysisPage.HandlePredict | src/pages/NewAnalysis.tsx:48-98 | no image: nothing; a blank or whitespace id, or an id no registered patient has exactly (untrimmed), only notifies; a failed analysis sets ERROR and saves nothing; a success sets COMPLETED, shows the result and saves exactly one report; a report is saved only for a registered id |
| NewAnalysis.NewAnalysisPage.RunAnalysis | src/pages/NewAnalysis.tsx:63-97 | failure: status ERROR and no report; success: COMPLETED, result and recommendations shown, one report in front carrying the analysis, image and recommendations |
| NewAnalysis.NewAnalysisPage.ShowAndSave | src/pages/NewAnalysis.tsx:72-92 | the analysis is shown with COMPLETED, its recommendations are set, and exactly one report carrying it is put in front, heading that patient's report list |
| NewAnalysis.NewAnalysisPage.Reset | src/pages/NewAnalysis.tsx:100-108 | every field back to its initial value |
| JsStrings.TrimEmptyIffBlank | src/pages/NewAnalysis.tsx:51 | `patientId.trim()` is empty exactly when every character is whitespace |
| PatientSearch.FilteredPatients | src/pages/PatientSearch.tsx:12-16 | an order-preserving subsequence containing exactly the patients whose lower-cased id or name includes the lower-cased term, each as many times as it is stored |
| PatientSearch.EmptyTermListsAll | src/pages/PatientSearch.tsx:13 | the empty term lists every patient |
| PatientSearch.SearchIgnoresCase | src/pages/PatientSearch.tsx:14-15 | terms that differ only in ASCII letter case give the same list |
| PatientSearch.ExactTermFindsPatient | src/pages/PatientSearch.tsx:14-15 | searching for a patient's exact id or name lists that patient |
| PatientSearch.CurrentReports | src/pages/PatientSearch.tsx:22 | no selection: no reports; otherwise exactly the selected patient's reports, each as many times as it is stored |
| PatientSearch.PatientSearchPage.OnSearchChange | src/pages/PatientSearch.tsx:39-42 | a new term clears the selection, so no reports are shown |
| PatientSearch.PatientSearchPage.HandleSelectPatient | src/pages/PatientSearch.tsx:18-22 | the chosen patient's reports are shown |
| PatientSearch.PatientSearchPage.BackToList | src/pages/PatientSearch.tsx:53 | the selection is cleared and the search term kept |
| PatientSearch.PatientSearchPage.constructor | src/pages/PatientSearch.tsx:8-9 | the page starts with an empty term and no selection |
| Dashboard.DashboardStats | src/pages/Dashboard.tsx:15-27 | total is the number of reports; today's and malignant counts are the matching reports and at most the total; registered patients is the patient count |
| Dashboard.BenignBarCountsBenign | src/pages/Dashboard.tsx:74-77 | `totalAnalyses - malignantCount` is the number of BENIGN reports |
| Dashboard.NewReportCounts | src/pages/Dashboard.tsx:15-21 | a report saved today adds one to the total and today's count, and one to the malignant count when malignant |
| Dashboard.Denominator | src/pages/Dashboard.tsx:26 | `totalAnalyses \|\| 1` is never zero |
| Dashboard.MalignantPercent | src/pages/Dashboard.tsx:26 | the malignant share before rounding lies in 0..100, and is 0 with no reports |
| Dashboard.BarHeight | src/pages/Dashboard.tsx:69-87 | `Math.max(share, 10)`: the share or 10, between 10 and 100 percent and never below the share |
| Dashboard.SharesAddUp | src/pages/Dashboard.tsx:63-99 | once the chart is shown, the two shares before rounding add up to 100 |
| Dashboard.WelcomeName | src/pages/Dashboard.tsx:11 | the greeting falls back to `Doctor` only when no name is passed |
| PatientRegistration.WithField | src/pages/PatientRegistration.tsx:16-18 | the named input takes the value and every other keeps its own |
| PatientRegistration.RegistrationForm.constructor | src/pages/PatientRegistration.tsx:7-14 | the form starts with all five inputs empty and no notification |
| PatientRegistration.RegistrationForm.HandleChange | src/pages/PatientRegistration.tsx:16-18 | the form becomes that one-field update |
| PatientRegistration.AgeValue | src/pages/PatientRegistration.tsx:35 | the parsed integer, or 0 when the text does not start with a number |
| PatientRegistration.AgeOfDecimal | src/pages/PatientRegistration.tsx:35 | typed digits are stored as their number; an empty field as 0 |
| PatientRegistration.SubmittedPatient | src/pages/PatientRegistration.tsx:32-38 | id, name, contact and history passed through unchanged, with the parsed age |
| PatientRegistration.RegistrationForm.HandleSubmit | src/pages/PatientRegistration.tsx:25-42 | a missing name or id only notifies; otherwise exactly that patient is appended and can be found, and the form is emptied |
| SignupPage.SignupPageState.constructor | src/pages/SignupPage.tsx:17-29 | the wizard starts at step 1 with the Doctor role |
| SignupPage.SignupPageState.PrevStep | src/pages/SignupPage.tsx:213-220 | offered above step 1, it goes back one step and stays within 1..3 |
| SignupPage.PasswordProblem | src/pages/SignupPage.tsx:42-50 | mismatch is checked before length; no problem iff equal and at least 6 characters |
| SignupPage.SignupPageState.HandleSubmit | src/pages/SignupPage.tsx:31-75 | below step 3 it only advances; a password problem is shown without registering; otherwise it registers through the shell, leads to `/login` on success or shows the handler's message; the spinner ends off; the account table changes only from step 3 with valid passwords |
| ResetPasswordPage.ResetPasswordPageState.constructor | src/pages/ResetPasswordPage.tsx:10-17 | a missing `email` or `token` parameter reads as the empty string |
| ResetPasswordPage.FormProblem | src/pages/ResetPasswordPage.tsx:23-36 | length first, then mismatch, then a missing email or token; no problem iff all three pass |
| ResetPasswordPage.ResetPasswordPageState.HandleSubmit | src/pages/ResetPasswordPage.tsx:19-54 | the error is cleared first; a form problem writes nothing; a rejected link shows the expiry message; success shows the success view, leads to `/login` and leaves no valid token; a refused password leaves the spinner on |
| LoginPage.LoginPageState.HandleSubmit | src/pages/LoginPage.tsx:17-32 | a thrown or failed login shows the handler's message and leaves the user, its saved copy and the login history unchanged; success signs the record's user in, saves it and appends exactly the entry for that email at that time; the spinner ends off |
| LoginPage.LoginPageState.HandleForgotSubmit | src/pages/LoginPage.tsx:34-54 | an entry without `@` is refused before anything is written; an unknown email shows its message; a known one gets the token, and the page shows the sent message or the thrown one; the spinner ends off |
| LoginPage.LoginPageState.constructor | src/pages/LoginPage.tsx:9-15 | the page starts on the sign-in view with empty fields, no messages and no spinner |
| LoginPage.ResetSentMessage | src/pages/LoginPage.tsx:48 | the confirmation contains the email |
| LoginPage.ThrownMessage | src/pages/LoginPage.tsx:50 | `error.message \|\| default`: never empty, the message when there is one |
| LoginPage.LoginPageState.ShowForgot | src/pages/LoginPage.tsx:120 | opens the forgot-password view |
| LoginPage.LoginPageState.Back | src/pages/LoginPage.tsx:154-158 | leaves the forgot view and clears both messages |

## Left out

- Storage is typed slots, and the JSON round trip is taken to be exact. Quota errors appear
  only as the save outcome parameters. Parse failures are modelled only for the `currentUser`
  slot. The data provider's two reads are also guarded by `try`; see the `DataProvider.Load`
  line below.
- `DataProvider.Load`: does not model the `catch` branch (a stored list that fails to parse).
  It follows from taking the JSON round trip to be exact.
- The `user` slot read at start is not guarded in the source. A malformed value there throws
  during rendering; it is not modelled.
- Lengths count Unicode code points, not UTF-16 code units. The length checks therefore differ
  from the source only for characters outside the Basic Multilingual Plane.
- `toLowerCase` is modelled on ASCII letters only; full Unicode case mapping is left out.
- `ParseInt`: returns an unbounded integer. JavaScript's `parseInt` loses precision above 2^53.
- `PatientRegistration.AgeValue`: takes any text. The browser's number input would have
  sanitised it first.
- `App.Route`: matches exact path strings. The router's normalisation (trailing slashes, case,
  query strings) is not modelled.
- The History page (`src/pages/History.tsx`) is not part of this model. Its route is modelled;
  its page is not.
- `Dashboard.MalignantPercent`: exact rational shares. The `toFixed(0)` / `Math.round` rounding
  of the displayed percentages is not modelled.
- The analysis service internals, the float confidence value and the PDF export are not
  modelled. The confidence is carried unchanged.
- The email step of the reset flow (EmailJS, demo-mode detection, alerts, console output, reset
  link text) is reduced to the `delivered` outcome.
- The token generator is left out; the token is a parameter.
- Timers are not modelled: notification auto-clearing, the 1.5 s analysis delay, the 1 s reset
  delay and the 2 s redirect.
- `NewAnalysis.NewAnalysisPage.HandlePredict`: one atomic step. The ANALYZING status visible
  during the delay is not observable in the model.
- React effect scheduling and async interleaving are not modelled; each handler runs to
  completion.
- The pages' `catch` blocks for unexpected errors are not modelled. The handlers they wrap
  catch everything themselves, so these branches are unreachable in this model.
- Signup form inputs and the login form's text fields are plain fields the caller assigns.
  Their `onChange` handlers only copy the input text.
