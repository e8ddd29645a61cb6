/**
 * The patient search page: a search term filters the user's patients by id or name, ignoring
 * the case of ASCII letters; selecting a patient shows that patient's reports.
 */
module PatientSearch {
  import opened Wrappers
  import opened Types
  import opened Seqs
  import opened JsStrings
  import opened DataContext

  /** The filter's test: the term is empty, or the lower-cased id or name contains the lower-cased term. */
  function Matches(term: string): Patient -> bool {
    (p: Patient) =>
      term == ""
      || Includes(ToLowerCase(p.id), ToLowerCase(term))
      || Includes(ToLowerCase(p.name), ToLowerCase(term))
  }

  /** `filteredPatients`: the matching patients, in stored order. */
  function FilteredPatients(patients: seq<Patient>, term: string): (r: seq<Patient>)
    ensures IsSubsequence(r, patients)
    ensures forall p :: p in r ==> p in patients && Matches(term)(p)
    ensures forall i :: 0 <= i < |patients| && Matches(term)(patients[i]) ==> patients[i] in r
    ensures forall p :: multiset(r)[p] == if Matches(term)(p) then multiset(patients)[p] else 0
  {
    Filter(patients, Matches(term))
  }

  /** An empty term lists every patient. */
  lemma EmptyTermListsAll(patients: seq<Patient>)
    ensures FilteredPatients(patients, "") == patients
  {
    FilterKeepsAll(patients, Matches(""));
  }

  /** Terms that differ only in the case of ASCII letters find the same patients. */
  lemma SearchIgnoresCase(patients: seq<Patient>, t1: string, t2: string)
    requires ToLowerCase(t1) == ToLowerCase(t2)
    ensures FilteredPatients(patients, t1) == FilteredPatients(patients, t2)
  {
    assert |t1| == |ToLowerCase(t1)| == |t2|;
    FilterCongruent(patients, Matches(t1), Matches(t2));
  }

  /** Searching for a patient's exact id, or exact name, lists that patient. */
  lemma ExactTermFindsPatient(patients: seq<Patient>, i: int)
    requires 0 <= i < |patients|
    ensures patients[i] in FilteredPatients(patients, patients[i].id)
    ensures patients[i] in FilteredPatients(patients, patients[i].name)
  {
    IncludesItself(ToLowerCase(patients[i].id));
    IncludesItself(ToLowerCase(patients[i].name));
    assert Matches(patients[i].id)(patients[i]);
    assert Matches(patients[i].name)(patients[i]);
  }

  /** `currentReports`: the selected patient's reports, none without a selection. */
  function CurrentReports(reports: seq<Report>, selected: Option<Patient>): (r: seq<Report>)
    ensures selected.None? ==> r == []
    ensures forall x :: x in r ==> x in reports && selected.Some? && x.patientId == selected.value.id
    ensures selected.Some? ==> forall i :: 0 <= i < |reports| && reports[i].patientId == selected.value.id ==> reports[i] in r
    ensures selected.Some? ==> forall x :: multiset(r)[x] == if x.patientId == selected.value.id then multiset(reports)[x] else 0
  {
    match selected
    case None => []
    case Some(p) => GetPatientReports(reports, p.id)
  }

  class PatientSearchPage {
    const data: DataProvider
    var searchTerm: string
    var selectedPatient: Option<Patient>

    constructor (data: DataProvider)
      ensures this.data == data && searchTerm == "" && selectedPatient.None?
    {
      this.data := data;
      searchTerm := "";
      selectedPatient := None;
    }

    /** The search input's change handler: a new term clears the selection. */
    method OnSearchChange(value: string)
      modifies this`searchTerm, this`selectedPatient
      ensures searchTerm == value && selectedPatient.None?
      ensures CurrentReports(data.reports, selectedPatient) == []
    {
      searchTerm := value;
      selectedPatient := None;
    }

    /** `handleSelectPatient`: show one listed patient and that patient's reports. */
    method HandleSelectPatient(patient: Patient)
      modifies this`selectedPatient
      ensures selectedPatient == Some(patient)
      ensures CurrentReports(data.reports, selectedPatient) == GetPatientReports(data.reports, patient.id)
    {
      selectedPatient := Some(patient);
    }

    /** The "Back to List" button: the selection is cleared, the term kept. */
    method BackToList()
      modifies this`selectedPatient
      ensures selectedPatient.None? && searchTerm == old(searchTerm)
    {
      selectedPatient := None;
    }
  }
}
