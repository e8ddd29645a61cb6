/**
 * The new-analysis page: an uploaded image, the patient it belongs to, the analysis outcome and
 * the follow-up recommendations; a successful analysis is saved as a report of that patient.
 * The image-analysis service is an oracle: its outcome is a parameter of `HandlePredict`.
 */
module NewAnalysis {
  import opened Wrappers
  import opened Types
  import opened Seqs
  import opened JsStrings
  import opened DataContext

  /** What the analysis service returns. */
  datatype Analysis = Analysis(tumorClass: TumorClass, confidence: real, explanation: string)

  /** The analysis service either answers or throws. */
  datatype AnalysisOutcome = Analyzed(analysis: Analysis) | AnalysisFailed

  /** The five follow-up actions a malignant finding draws from. */
  const FollowUps: seq<string> := [
    "Schedule follow-up Core Needle Biopsy within 48 hours.",
    "Urgent referral to Oncology for staging consultation.",
    "Conduct BRCA1/BRCA2 genetic screening.",
    "Schedule bilateral MRI for further assessment.",
    "Prepare multidisciplinary team review (Tumor Board)."
  ]

  const BenignRecommendations: seq<string> := ["Routine annual screening recommended."]
  const AnonymousPatient: string := "Anonymous Patient"
  const PatientIdRequiredMessage: string := "Patient ID is required for analysis."
  const PatientNotFoundMessage: string := "Patient ID not found. Please register the patient first."
  const AnalysisSavedMessage: string := "Analysis complete & report saved."

  /** `order` lists each index below `n` once: the order a shuffle leaves `n` items in. */
  predicate IsPermutation(order: seq<nat>, n: nat) {
    && |order| == n
    && (forall i :: 0 <= i < n ==> order[i] < n)
    && (forall i, j :: 0 <= i < j < n ==> order[i] != order[j])
  }

  /** No follow-up action is listed twice. */
  lemma FollowUpsDistinct()
    ensures forall i, j :: 0 <= i < j < |FollowUps| ==> FollowUps[i] != FollowUps[j]
  {
    assert |FollowUps[0]| == 54 && |FollowUps[1]| == 53 && |FollowUps[2]| == 38;
    assert |FollowUps[3]| == 46 && |FollowUps[4]| == 52;
  }

  /**
   * `generateRecommendations`: the first three follow-ups after shuffling by `order`; three
   * different entries of the list.
   */
  function GenerateRecommendations(order: seq<nat>): (r: seq<string>)
    requires IsPermutation(order, |FollowUps|)
    ensures |r| == 3
    ensures forall i :: 0 <= i < 3 ==> r[i] in FollowUps
    ensures forall i, j :: 0 <= i < j < 3 ==> r[i] != r[j]
  {
    FollowUpsDistinct();
    [FollowUps[order[0]], FollowUps[order[1]], FollowUps[order[2]]]
  }

  /** The recommendations for a finding: three follow-ups when malignant, routine screening when benign. */
  function RecommendationsFor(c: TumorClass, order: seq<nat>): (r: seq<string>)
    requires IsPermutation(order, |FollowUps|)
    ensures c == Benign ==> r == BenignRecommendations
    ensures c == Malignant ==> |r| == 3 && forall i :: 0 <= i < 3 ==> r[i] in FollowUps
    ensures BenignRecommendations[0] !in FollowUps
  {
    if c == Malignant then GenerateRecommendations(order) else BenignRecommendations
  }

  /** `!image`: no image, or the empty data URL. */
  predicate HasImage(image: Option<string>) {
    image.Some? && image.value != ""
  }

  /** `patients.some(p => p.id === patientId)`. */
  predicate IsRegistered(patients: seq<Patient>, patientId: string) {
    Any(patients, HasId(patientId))
  }

  /** `patientName || 'Anonymous Patient'`. */
  function DisplayName(patientName: string): (n: string)
    ensures n != ""
    ensures patientName != "" ==> n == patientName
  {
    if patientName == "" then AnonymousPatient else patientName
  }

  /** The report data a successful analysis hands to `addReport`. */
  function AnalysisReport(patientId: string, patientName: string, a: Analysis, image: string, recs: seq<string>): ReportData {
    ReportData(patientId, DisplayName(patientName), a.tumorClass, a.confidence, a.explanation, Some(image), Some(recs))
  }

  class NewAnalysisPage {
    const data: DataProvider
    var status: AnalysisStatus
    var image: Option<string>
    var result: Option<Analysis>
    var notification: Option<string>
    var patientId: string
    var patientName: string
    var recommendations: seq<string>

    /** The page's form as it starts and as `reset` leaves it. */
    predicate IsCleared()
      reads this
    {
      && image.None? && status == Idle && result.None? && notification.None?
      && recommendations == [] && patientId == "" && patientName == ""
    }

    constructor (data: DataProvider)
      ensures this.data == data && IsCleared()
    {
      this.data := data;
      image := None;
      status := Idle;
      result := None;
      notification := None;
      recommendations := [];
      patientId := "";
      patientName := "";
    }

    /**
     * `handleFileChange` once the file is read: a chosen file (`dataUrl`) becomes the image and
     * clears the previous outcome; no file changes nothing.
     */
    method HandleFileChange(dataUrl: Option<string>)
      modifies this`image, this`status, this`result, this`recommendations
      ensures dataUrl.None? ==>
        image == old(image) && status == old(status) && result == old(result) && recommendations == old(recommendations)
      ensures dataUrl.Some? ==> image == dataUrl && status == Idle && result.None? && recommendations == []
    {
      if dataUrl.Some? {
        image := dataUrl;
        status := Idle;
        result := None;
        recommendations := [];
      }
    }

    /**
     * The analysis half of `handlePredict`, once the checks passed: a failure leaves the ERROR
     * status; a success shows the result and its recommendations and saves a report numbered
     * `n`, dated `today`, for the patient, under the entered name or `Anonymous Patient`.
     * `order` is the shuffle the recommendations are drawn with.
     */
    method RunAnalysis(outcome: AnalysisOutcome, order: seq<nat>, n: nat, today: string)
      requires HasImage(image) && IsPermutation(order, |FollowUps|) && n < ReportNumberBound
      modifies this`status, this`result, this`recommendations, this`notification, data`reports
      ensures outcome.AnalysisFailed? ==>
        && status == Error && result == old(result) && recommendations == old(recommendations)
        && notification == old(notification) && data.reports == old(data.reports)
      ensures outcome.Analyzed? ==>
        var recs := RecommendationsFor(outcome.analysis.tumorClass, order);
        && status == Completed && result == Some(outcome.analysis) && recommendations == recs
        && notification == Some(AnalysisSavedMessage)
        && data.reports == [NewReport(AnalysisReport(patientId, patientName, outcome.analysis, image.value, recs), n, today)]
                           + old(data.reports)
        && GetPatientReports(data.reports, patientId)
           == [data.reports[0]] + GetPatientReports(old(data.reports), patientId)
    {
      status := Analyzing;
      match outcome
      case AnalysisFailed =>
        status := Error;
      case Analyzed(analysis) =>
        ShowAndSave(analysis, order, n, today);
    }

    /** The success path of the analysis: show the result and save its report. */
    method ShowAndSave(analysis: Analysis, order: seq<nat>, n: nat, today: string)
      requires HasImage(image) && IsPermutation(order, |FollowUps|) && n < ReportNumberBound
      modifies this`status, this`result, this`recommendations, this`notification, data`reports
      ensures
        var recs := RecommendationsFor(analysis.tumorClass, order);
        && status == Completed && result == Some(analysis) && recommendations == recs
        && notification == Some(AnalysisSavedMessage)
        && data.reports == [NewReport(AnalysisReport(patientId, patientName, analysis, image.value, recs), n, today)]
                           + old(data.reports)
        && GetPatientReports(data.reports, patientId)
           == [data.reports[0]] + GetPatientReports(old(data.reports), patientId)
    {
      result := Some(analysis);
      status := Completed;
      var recs := RecommendationsFor(analysis.tumorClass, order);
      recommendations := recs;
      data.AddReport(AnalysisReport(patientId, patientName, analysis, image.value, recs), n, today);
      notification := Some(AnalysisSavedMessage);
    }

    /**
     * `handlePredict`: with no image nothing happens; a blank patient id and an id no
     * registered patient has only raise a notification; otherwise the analysis runs.
     */
    method HandlePredict(outcome: AnalysisOutcome, order: seq<nat>, n: nat, today: string)
      requires IsPermutation(order, |FollowUps|) && n < ReportNumberBound
      modifies this`status, this`result, this`recommendations, this`notification, data`reports
      ensures !HasImage(image) ==>
        && status == old(status) && result == old(result) && recommendations == old(recommendations)
        && notification == old(notification) && data.reports == old(data.reports)
      ensures HasImage(image) && IsBlank(patientId) ==>
        && status == old(status) && result == old(result) && recommendations == old(recommendations)
        && notification == Some(PatientIdRequiredMessage) && data.reports == old(data.reports)
      ensures HasImage(image) && !IsBlank(patientId) && !IsRegistered(data.patients, patientId) ==>
        && status == old(status) && result == old(result) && recommendations == old(recommendations)
        && notification == Some(PatientNotFoundMessage) && data.reports == old(data.reports)
      ensures HasImage(image) && !IsBlank(patientId) && IsRegistered(data.patients, patientId) && outcome.AnalysisFailed? ==>
        && status == Error && result == old(result) && recommendations == old(recommendations)
        && notification == old(notification) && data.reports == old(data.reports)
      ensures HasImage(image) && !IsBlank(patientId) && IsRegistered(data.patients, patientId) && outcome.Analyzed? ==>
        var recs := RecommendationsFor(outcome.analysis.tumorClass, order);
        && status == Completed && result == Some(outcome.analysis) && recommendations == recs
        && notification == Some(AnalysisSavedMessage)
        && data.reports == [NewReport(AnalysisReport(patientId, patientName, outcome.analysis, image.value, recs), n, today)]
                           + old(data.reports)
      ensures data.reports != old(data.reports) ==> IsRegistered(data.patients, patientId) && !IsBlank(patientId)
    {
      if !HasImage(image) {
        return;
      }
      // `!patientId.trim()`, which is `IsBlank` by `TrimEmptyIffBlank`
      if IsBlank(patientId) {
        notification := Some(PatientIdRequiredMessage);
        return;
      }
      if !IsRegistered(data.patients, patientId) {
        notification := Some(PatientNotFoundMessage);
        return;
      }
      RunAnalysis(outcome, order, n, today);
    }

    /** `reset`: the page back to its initial state. */
    method Reset()
      modifies this`image, this`status, this`result, this`notification, this`recommendations, this`patientId, this`patientName
      ensures IsCleared()
    {
      image := None;
      status := Idle;
      result := None;
      notification := None;
      recommendations := [];
      patientId := "";
      patientName := "";
    }
  }
}
