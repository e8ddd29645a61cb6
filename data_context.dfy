/**
 * The per-user clinical data store: the patients and reports of the signed-in user, loaded
 * from and saved to local storage under keys derived from the user id, with the two queries
 * the pages use.
 */
module DataContext {
  import opened Wrappers
  import opened Types
  import opened Seqs
  import opened JsStrings
  import opened Storage

  /** What a page passes to `addPatient`: a patient without its registration date. */
  datatype PatientData = PatientData(id: string, name: string, age: int, contact: string, history: string)

  /** What a page passes to `addReport`: a report without id, date and status. */
  datatype ReportData = ReportData(
    patientId: string,
    patientName: string,
    tumorClass: TumorClass,
    confidence: real,
    explanation: string,
    imageUrl: Option<string>,
    recommendations: Option<seq<string>>)

  /** Report ids are `AN-` followed by `Math.floor(Math.random() * 10000)`. */
  const ReportIdPrefix: string := "AN-"
  const ReportNumberBound: nat := 10000

  lemma {:induction false} DecimalStringLength(n: nat)
    ensures n < 10 ==> |DecimalString(n)| == 1
    ensures n < 100 ==> |DecimalString(n)| <= 2
    ensures n < 1000 ==> |DecimalString(n)| <= 3
    ensures n < ReportNumberBound ==> |DecimalString(n)| <= 4
  {
    if n >= 10 {
      DecimalStringLength(n / 10);
    }
  }

  /** The id of a report numbered `n`: `AN-` and at most four decimal digits. */
  function ReportId(n: nat): (id: string)
    requires n < ReportNumberBound
    ensures 4 <= |id| <= 7 && id[..3] == ReportIdPrefix
    ensures forall i :: 3 <= i < |id| ==> IsDecimalDigit(id[i])
  {
    DecimalStringLength(n);
    ReportIdPrefix + DecimalString(n)
  }

  /** The digits after the prefix read back as the report's number. */
  lemma ReportIdNumber(n: nat)
    requires n < ReportNumberBound
    ensures ParseInt(ReportId(n)[3..]) == Some(n)
  {
    ParseDecimalString(n, "");
    assert (ReportIdPrefix + DecimalString(n))[3..] == DecimalString(n) + "";
  }

  /** Distinct numbers give distinct ids (the source never checks ids for collisions). */
  lemma ReportIdInjective(n: nat, m: nat)
    requires n < ReportNumberBound && m < ReportNumberBound && ReportId(n) == ReportId(m)
    ensures n == m
  {
    ReportIdNumber(n);
    ReportIdNumber(m);
  }

  /** The patient `addPatient` stores: the given fields, registered today. */
  function NewPatient(d: PatientData, today: string): Patient {
    Patient(d.id, d.name, d.age, d.contact, d.history, today)
  }

  /** The report `addReport` stores: the given fields, a fresh id, today's date, status COMPLETED. */
  function NewReport(d: ReportData, n: nat, today: string): Report
    requires n < ReportNumberBound
  {
    Report(ReportId(n), d.patientId, d.patientName, today, d.tumorClass, d.confidence, d.explanation,
           d.imageUrl, Completed, d.recommendations)
  }

  function ForPatient(patientId: string): Report -> bool {
    (r: Report) => r.patientId == patientId
  }

  function HasId(patientId: string): Patient -> bool {
    (p: Patient) => p.id == patientId
  }

  /** `getPatientReports`: exactly the reports of that patient, each as often as stored, in stored order. */
  function GetPatientReports(reports: seq<Report>, patientId: string): (r: seq<Report>)
    ensures forall x :: x in r ==> x in reports && x.patientId == patientId
    ensures forall i :: 0 <= i < |reports| && reports[i].patientId == patientId ==> reports[i] in r
    ensures IsSubsequence(r, reports)
    ensures forall x :: multiset(r)[x] == if x.patientId == patientId then multiset(reports)[x] else 0
  {
    Filter(reports, ForPatient(patientId))
  }

  /** `getPatient`: the first patient with that id, or `undefined`. */
  function GetPatient(patients: seq<Patient>, patientId: string): (r: Option<Patient>)
    ensures r.None? <==> forall i :: 0 <= i < |patients| ==> patients[i].id != patientId
    ensures r.Some? ==> exists i :: 0 <= i < |patients| && patients[i] == r.value && r.value.id == patientId
                                    && forall k :: 0 <= k < i ==> patients[k].id != patientId
  {
    Find(patients, HasId(patientId))
  }

  /**
   * No id check on registration: appending a patient whose id is already taken leaves
   * `getPatient` answering with the earlier one.
   */
  lemma GetPatientAfterAppend(patients: seq<Patient>, p: Patient, patientId: string)
    ensures GetPatient(patients + [p], patientId) ==
      if GetPatient(patients, patientId).Some? then GetPatient(patients, patientId)
      else if p.id == patientId then Some(p)
      else None
  {
    var ps := patients + [p];
    var i := IndexOf(patients, HasId(patientId));
    var j := IndexOf(ps, HasId(patientId));
    assert forall k :: 0 <= k < |patients| ==> ps[k] == patients[k];
    if i >= 0 {
      assert j == i;
    } else if p.id == patientId {
      assert HasId(patientId)(ps[|patients|]);
      assert forall k :: 0 <= k < |patients| ==> !HasId(patientId)(ps[k]);
    }
  }

  /** A prepended report comes first among its patient's reports and changes no other patient's list. */
  lemma GetPatientReportsAfterPrepend(reports: seq<Report>, r: Report, patientId: string)
    ensures GetPatientReports([r] + reports, patientId) ==
      (if r.patientId == patientId then [r] else []) + GetPatientReports(reports, patientId)
  {
    assert ([r] + reports)[1..] == reports;
  }

  /** All fields but `imageUrl` agree. */
  predicate SameExceptImage(a: Report, b: Report) {
    && a.id == b.id && a.patientId == b.patientId && a.patientName == b.patientName
    && a.date == b.date && a.tumorClass == b.tumorClass && a.confidence == b.confidence
    && a.explanation == b.explanation && a.status == b.status && a.recommendations == b.recommendations
  }

  /** The fallback save's `reports.map(({imageUrl, ...rest}) => rest)`. */
  function StripImages(reports: seq<Report>): (r: seq<Report>)
    ensures |r| == |reports|
    ensures forall i :: 0 <= i < |r| ==> r[i].imageUrl.None? && SameExceptImage(r[i], reports[i])
  {
    seq(|reports|, i requires 0 <= i < |reports| => reports[i].(imageUrl := None))
  }

  /** Stripping a list with a head strips the head and then the rest. */
  lemma StripImagesCons(first: Report, rest: seq<Report>)
    ensures StripImages([first] + rest) == [first.(imageUrl := None)] + StripImages(rest)
  {
    var lhs := StripImages([first] + rest);
    var rhs := [first.(imageUrl := None)] + StripImages(rest);
    forall i | 0 <= i < |lhs|
      ensures lhs[i] == rhs[i]
    {
      if i > 0 {
        assert ([first] + rest)[i] == rest[i - 1];
      }
    }
  }

  /** Stripping keeps each patient's reports, stripped, in the same order. */
  lemma {:induction false} StripImagesKeepsPatientReports(reports: seq<Report>, patientId: string)
    ensures GetPatientReports(StripImages(reports), patientId) == StripImages(GetPatientReports(reports, patientId))
  {
    if reports != [] {
      var stripped := StripImages(reports);
      assert stripped[1..] == StripImages(reports[1..]);
      assert stripped[0] == reports[0].(imageUrl := None);
      StripImagesKeepsPatientReports(reports[1..], patientId);
      var rest := Filter(reports[1..], ForPatient(patientId));
      if reports[0].patientId == patientId {
        assert Filter(reports, ForPatient(patientId)) == [reports[0]] + rest;
        assert Filter(stripped, ForPatient(patientId)) == [stripped[0]] + Filter(stripped[1..], ForPatient(patientId));
        StripImagesCons(reports[0], rest);
      } else {
        assert Filter(reports, ForPatient(patientId)) == rest;
        assert Filter(stripped, ForPatient(patientId)) == Filter(stripped[1..], ForPatient(patientId));
      }
    }
  }

  /** `!userId`: no user, or the empty id. */
  predicate HasUser(userId: Option<string>) {
    userId.Some? && userId.value != ""
  }

  /** `getItem(key)` followed by `JSON.parse`, a missing key reading as the empty list. */
  function Stored<T>(m: map<string, seq<T>>, key: string): seq<T> {
    if key in m then m[key] else []
  }

  /**
   * The data provider of one user. The application remounts it whenever the signed-in email
   * changes, so its `userId` is fixed for its lifetime.
   */
  class DataProvider {
    const storage: LocalStorage
    const userId: Option<string>
    var patients: seq<Patient>
    var reports: seq<Report>
    var isInitialized: bool

    constructor (storage: LocalStorage, userId: Option<string>)
      ensures this.storage == storage && this.userId == userId
      ensures patients == [] && reports == [] && !isInitialized
    {
      this.storage := storage;
      this.userId := userId;
      patients := [];
      reports := [];
      isInitialized := false;
    }

    /** The load effect: clear for no user, else read both lists of this user. */
    method Load()
      modifies this`patients, this`reports, this`isInitialized
      ensures !HasUser(userId) ==> patients == [] && reports == [] && !isInitialized
      ensures HasUser(userId) ==>
        && patients == Stored(storage.patientLists, PatientsKey(userId.value))
        && reports == Stored(storage.reportLists, ReportsKey(userId.value))
        && isInitialized
    {
      isInitialized := false;
      if !HasUser(userId) {
        patients := [];
        reports := [];
        return;
      }
      patients := Stored(storage.patientLists, PatientsKey(userId.value));
      reports := Stored(storage.reportLists, ReportsKey(userId.value));
      isInitialized := true;
    }

    /**
     * The patients save effect: nothing without a user or before loading finished; a failed
     * write (`fails`) is caught and writes nothing.
     */
    method SavePatients(fails: bool)
      modifies storage`patientLists
      ensures !HasUser(userId) || !isInitialized || fails ==> storage.patientLists == old(storage.patientLists)
      ensures HasUser(userId) && isInitialized && !fails ==>
        storage.patientLists == old(storage.patientLists)[PatientsKey(userId.value) := patients]
    {
      if !HasUser(userId) || !isInitialized {
        return;
      }
      if !fails {
        storage.patientLists := storage.patientLists[PatientsKey(userId.value) := patients];
      }
    }

    /**
     * The reports save effect: like the patients one, except that when the first write fails
     * (`firstFails`) it retries with every report stripped of its image; `retryFails` is the
     * outcome of that second write.
     */
    method SaveReports(firstFails: bool, retryFails: bool)
      modifies storage`reportLists
      ensures !HasUser(userId) || !isInitialized ==> storage.reportLists == old(storage.reportLists)
      ensures HasUser(userId) && isInitialized ==>
        storage.reportLists ==
          if !firstFails then old(storage.reportLists)[ReportsKey(userId.value) := reports]
          else if !retryFails then old(storage.reportLists)[ReportsKey(userId.value) := StripImages(reports)]
          else old(storage.reportLists)
    {
      if !HasUser(userId) || !isInitialized {
        return;
      }
      var key := ReportsKey(userId.value);
      if !firstFails {
        storage.reportLists := storage.reportLists[key := reports];
      } else if !retryFails {
        storage.reportLists := storage.reportLists[key := StripImages(reports)];
      }
    }

    /** `addPatient`: one patient appended, registered `today`; no id check. */
    method AddPatient(d: PatientData, today: string)
      modifies this`patients
      ensures patients == old(patients) + [NewPatient(d, today)]
      ensures GetPatient(patients, d.id).Some?
    {
      GetPatientAfterAppend(patients, NewPatient(d, today), d.id);
      patients := patients + [NewPatient(d, today)];
    }

    /** `addReport`: one report put in front, numbered `n` (the random draw), dated `today`, COMPLETED. */
    method AddReport(d: ReportData, n: nat, today: string)
      requires n < ReportNumberBound
      modifies this`reports
      ensures reports == [NewReport(d, n, today)] + old(reports)
      ensures GetPatientReports(reports, d.patientId) == [NewReport(d, n, today)] + GetPatientReports(old(reports), d.patientId)
    {
      GetPatientReportsAfterPrepend(reports, NewReport(d, n, today), d.patientId);
      reports := [NewReport(d, n, today)] + reports;
    }
  }
}
