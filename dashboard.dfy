/**
 * The dashboard overview: counts over the user's reports and patients, and the two-bar
 * diagnosis chart built from them.
 */
module Dashboard {
  import opened Wrappers
  import opened Types
  import opened Seqs

  function IsClass(c: TumorClass): Report -> bool {
    (r: Report) => r.tumorClass == c
  }

  function DatedOn(today: string): Report -> bool {
    (r: Report) => r.date == today
  }

  /** The four stat cards' numbers. */
  datatype Stats = Stats(totalAnalyses: nat, recentReports: nat, malignantCount: nat, registeredPatients: nat)

  /**
   * The stat cards for the given reports and patients; `today` is the `YYYY-MM-DD` prefix of
   * the current ISO date.
   */
  function DashboardStats(reports: seq<Report>, patients: seq<Patient>, today: string): (s: Stats)
    ensures s.totalAnalyses == |reports| && s.registeredPatients == |patients|
    ensures s.recentReports <= s.totalAnalyses && s.malignantCount <= s.totalAnalyses
    ensures s.recentReports == |Filter(reports, DatedOn(today))|
    ensures s.malignantCount == |Filter(reports, IsClass(Malignant))|
  {
    Stats(|reports|, |Filter(reports, DatedOn(today))|, |Filter(reports, IsClass(Malignant))|, |patients|)
  }

  /** What the benign bar shows, `totalAnalyses - malignantCount`, is the number of benign reports. */
  lemma BenignBarCountsBenign(reports: seq<Report>, patients: seq<Patient>, today: string)
    ensures var s := DashboardStats(reports, patients, today);
      s.totalAnalyses - s.malignantCount == |Filter(reports, IsClass(Benign))|
  {
    FilterPartition(reports, IsClass(Malignant), IsClass(Benign));
  }

  /** A report saved today counts once more among today's reports and, when malignant, among the malignant ones. */
  lemma NewReportCounts(r: Report, reports: seq<Report>, patients: seq<Patient>, today: string)
    requires r.date == today
    ensures var s, s' := DashboardStats(reports, patients, today), DashboardStats([r] + reports, patients, today);
      && s'.totalAnalyses == s.totalAnalyses + 1
      && s'.recentReports == s.recentReports + 1
      && s'.malignantCount == s.malignantCount + (if r.tumorClass == Malignant then 1 else 0)
  {
    FilterAppend([r], reports, DatedOn(today));
    FilterAppend([r], reports, IsClass(Malignant));
  }

  /** `totalAnalyses || 1`: the malignant card's denominator, never zero. */
  function Denominator(total: nat): (d: nat)
    ensures d >= 1
    ensures total > 0 ==> d == total
    ensures total == 0 ==> d == 1
  {
    if total == 0 then 1 else total
  }

  /** The malignant card's caption before rounding: `malignantCount / (totalAnalyses || 1) * 100`. */
  function MalignantPercent(s: Stats): (p: real)
    requires s.malignantCount <= s.totalAnalyses
    ensures 0.0 <= p <= 100.0
    ensures s.totalAnalyses == 0 ==> p == 0.0
  {
    (s.malignantCount as real / Denominator(s.totalAnalyses) as real) * 100.0
  }

  /** The chart shows the two bars only once there is a report; otherwise the empty-state text. */
  predicate ShowsChart(s: Stats) {
    s.totalAnalyses > 0
  }

  /** A bar's height in percent: its share of the reports, at least 10. */
  function BarHeight(count: nat, total: nat): (h: real)
    requires 0 < total && count <= total
    ensures 10.0 <= h <= 100.0
    ensures h >= (count as real / total as real) * 100.0
    ensures h == 10.0 || h == (count as real / total as real) * 100.0
  {
    var share := (count as real / total as real) * 100.0;
    if share > 10.0 then share else 10.0
  }

  /** The two bars' shares before rounding add up to the whole. */
  lemma SharesAddUp(s: Stats)
    requires ShowsChart(s) && s.malignantCount <= s.totalAnalyses
    ensures ((s.totalAnalyses - s.malignantCount) as real / s.totalAnalyses as real) * 100.0
          + (s.malignantCount as real / s.totalAnalyses as real) * 100.0 == 100.0
  {
    var t := s.totalAnalyses as real;
    var m := s.malignantCount as real;
    assert (s.totalAnalyses - s.malignantCount) as real == t - m;
    assert (t - m) / t + m / t == t / t;
  }

  /** `userName = 'Doctor'`: the default applies only when no name is passed, not to the empty name. */
  function WelcomeName(userName: Option<string>): (n: string)
    ensures userName.Some? ==> n == userName.value
    ensures userName.None? ==> n == "Doctor"
  {
    userName.GetOr("Doctor")
  }
}
