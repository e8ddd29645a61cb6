/**
 * The application's records: the shared types of `src/types.ts`, the credential record the
 * authentication service stores, and the login-history entry.
 */
module Types {
  import opened Wrappers

  datatype UserRole = Doctor | Researcher | Student | Admin

  /** The string value each role enum member carries. */
  function RoleName(r: UserRole): string {
    match r
    case Doctor => "Doctor"
    case Researcher => "Researcher"
    case Student => "Student"
    case Admin => "Admin"
  }

  datatype AnalysisStatus = Idle | Analyzing | Completed | Error

  datatype TumorClass = Benign | Malignant

  /**
   * The signed-in user. `role` holds whatever string the credential record holds: the source
   * casts it to `UserRole` without a check.
   */
  datatype User = User(id: string, name: string, email: string, role: string, organization: string)

  /** An analysis report. `confidence` is carried, never computed on. */
  datatype Report = Report(
    id: string,
    patientId: string,
    patientName: string,
    date: string,
    tumorClass: TumorClass,
    confidence: real,
    explanation: string,
    imageUrl: Option<string>,
    status: AnalysisStatus,
    recommendations: Option<seq<string>>)

  datatype Patient = Patient(
    id: string,
    name: string,
    age: int,
    contact: string,
    history: string,
    registeredDate: string)

  /** The record the authentication service keeps per registered email. */
  datatype Credentials = Credentials(
    email: string,
    password: string,
    name: string,
    role: string,
    organization: string,
    department: string,
    resetToken: Option<string>,
    resetTokenExpiry: Option<int>)

  /** One entry of the `loginHistory` list: the email and two renderings of the login time. */
  datatype LoginEntry = LoginEntry(email: string, timestamp: string, date: string)

  /** The clock readings a login records: `toISOString()` and `toLocaleString()`. */
  datatype LoginTime = LoginTime(iso: string, local: string)
}
