/**
 * The validation drawer of a building: when its report is fetched, and how a
 * report (or its absence while nothing has arrived) is presented — the
 * summary line, the count tags, the list of issues and the colour of each
 * issue's severity tag.
 */
module ValidationPanel {
  import opened Common
  import opened Types
  import opened QueryKeys

  /** The report query runs only while the drawer is open and a building id is known. */
  function FetchEnabled(open: bool, batimentId: Id): bool {
    open && batimentId != ""
  }

  /**
   * A closed drawer fetches nothing whatever building it belongs to, an empty
   * id is never fetched, and opening the drawer of a known building fetches
   * its report, under a key a change to that building refreshes.
   */
  lemma FetchFollowsDrawer(open: bool, batimentId: Id)
    ensures !FetchEnabled(false, batimentId) && !FetchEnabled(open, "")
    ensures batimentId != "" ==> FetchEnabled(true, batimentId) && Refreshes(Detail(batimentId), ReportKey(batimentId))
  {
  }

  /** The drawer's report is cached under the building's validation key, below its detail key. */
  function ReportKey(batimentId: Id): (k: Key)
    ensures Refreshes(Detail(batimentId), k) && Refreshes(All(), k)
  {
    DetailCoversValidation(batimentId);
    Validation(batimentId)
  }

  /** `validation?.valid`: false while no report has arrived. */
  predicate IsValid(report: Option<ValidationResponse>) {
    report.Some? && report.value.valid
  }

  /** `validation?.errors || []` (an empty array is truthy, so only a missing list becomes `[]`). */
  function Errors(report: Option<ValidationResponse>): seq<ValidationError> {
    if report.Some? && report.value.errors.Some? then report.value.errors.value else []
  }

  /** `validation?.warnings || []`. */
  function Warnings(report: Option<ValidationResponse>): seq<ValidationError> {
    if report.Some? && report.value.warnings.Some? then report.value.warnings.value else []
  }

  /** `[...errors, ...warnings]`: every error, in order, then every warning, in order. */
  function AllIssues(report: Option<ValidationResponse>): seq<ValidationError> {
    Errors(report) + Warnings(report)
  }

  /**
   * The list holds exactly the report's errors and warnings, each as often as
   * the report has it, errors first; without a report it is empty.
   */
  lemma AllIssuesAreTheReports(report: Option<ValidationResponse>, x: ValidationError)
    ensures x in AllIssues(report) <==> x in Errors(report) || x in Warnings(report)
    ensures multiset(AllIssues(report)) == multiset(Errors(report)) + multiset(Warnings(report))
    ensures report.Some? && report.value.errors.Some? ==>
      |AllIssues(report)| >= |report.value.errors.value| && AllIssues(report)[..|report.value.errors.value|] == report.value.errors.value
    ensures report.None? ==> AllIssues(report) == []
  {
    var es := Errors(report);
    assert AllIssues(report)[..|es|] == es;
  }

  // ---------------------------------------------------------------------------
  // The summary
  // ---------------------------------------------------------------------------

  const ValidText := "Bâtiment valide"
  const ErrorsSuffix := " erreur(s) et "
  const WarningsSuffix := " avertissement(s)"

  /** `${nErrors} erreur(s) et ${nWarnings} avertissement(s)`. */
  function CountsText(nErrors: nat, nWarnings: nat): (s: string)
    ensures |s| > 0 && IsDigit(s[0])
  {
    NatToString(nErrors) + ErrorsSuffix + NatToString(nWarnings) + WarningsSuffix
  }

  /** The alert's message. */
  function Summary(report: Option<ValidationResponse>): string {
    if IsValid(report) then ValidText else CountsText(|Errors(report)|, |Warnings(report)|)
  }

  /** A count followed by text that does not start with a digit: both parts can be read back. */
  lemma CountThenText(m: nat, r: string, n: nat, q: string)
    requires |r| > 0 && !IsDigit(r[0]) && |q| > 0 && !IsDigit(q[0])
    requires NatToString(m) + r == NatToString(n) + q
    ensures m == n && r == q
  {
    DigitsSplitUniquely(NatToString(m), r, NatToString(n), q);
    NatToStringInjective(m, n);
  }

  lemma CommonPrefix(p: string, x: string, y: string)
    requires p + x == p + y
    ensures x == y
  {
    assert x == (p + x)[|p|..] == (p + y)[|p|..] == y;
  }

  lemma CountsTextShape(e: nat, w: nat)
    ensures CountsText(e, w) == NatToString(e) + (ErrorsSuffix + (NatToString(w) + WarningsSuffix))
    ensures (ErrorsSuffix + (NatToString(w) + WarningsSuffix))[0] == ' '
  {
  }

  /** The counts text can be read back: it determines both counts. */
  lemma CountsTextInjective(e1: nat, w1: nat, e2: nat, w2: nat)
    requires CountsText(e1, w1) == CountsText(e2, w2)
    ensures e1 == e2 && w1 == w2
  {
    var x, y := NatToString(w1) + WarningsSuffix, NatToString(w2) + WarningsSuffix;
    CountsTextShape(e1, w1);
    CountsTextShape(e2, w2);
    CountThenText(e1, ErrorsSuffix + x, e2, ErrorsSuffix + y);
    CommonPrefix(ErrorsSuffix, x, y);
    CountThenText(w1, WarningsSuffix, w2, WarningsSuffix);
  }

  /**
   * The summary tells a valid report from an invalid one, and two invalid
   * reports with the same summary have as many errors and as many warnings.
   */
  lemma SummaryDistinguishes(r1: Option<ValidationResponse>, r2: Option<ValidationResponse>)
    requires Summary(r1) == Summary(r2)
    ensures IsValid(r1) <==> IsValid(r2)
    ensures !IsValid(r1) ==> |Errors(r1)| == |Errors(r2)| && |Warnings(r1)| == |Warnings(r2)|
  {
    assert !IsDigit(ValidText[0]);
    if !IsValid(r1) && !IsValid(r2) {
      CountsTextInjective(|Errors(r1)|, |Warnings(r1)|, |Errors(r2)|, |Warnings(r2)|);
    }
  }

  /** The alert's type. */
  function AlertType(report: Option<ValidationResponse>): string {
    if IsValid(report) then "success" else "error"
  }

  /**
   * The alert is green exactly when its message says the building is valid;
   * otherwise it is red and its message gives the counts.
   */
  lemma AlertMatchesSummary(report: Option<ValidationResponse>)
    ensures AlertType(report) == "success" <==> Summary(report) == ValidText
    ensures AlertType(report) != "success" ==> AlertType(report) == "error" && IsDigit(Summary(report)[0])
  {
    assert !IsDigit(ValidText[0]);
  }

  // ---------------------------------------------------------------------------
  // Count tags, issue list and severity colours
  // ---------------------------------------------------------------------------

  datatype CountTag = ErrorCount(n: nat) | WarningCount(n: nat)

  /** The tags under the alert: none for a valid report, otherwise one per non-empty list. */
  function CountTags(report: Option<ValidationResponse>): (tags: seq<CountTag>)
    ensures IsValid(report) ==> tags == []
    ensures ErrorCount(|Errors(report)|) in tags <==> !IsValid(report) && |Errors(report)| > 0
    ensures WarningCount(|Warnings(report)|) in tags <==> !IsValid(report) && |Warnings(report)| > 0
    ensures forall t :: t in tags ==> t.n > 0
    ensures |tags| <= 2
  {
    if IsValid(report) then []
    else
      (if |Errors(report)| > 0 then [ErrorCount(|Errors(report)|)] else [])
      + (if |Warnings(report)| > 0 then [WarningCount(|Warnings(report)|)] else [])
  }

  /** A tag's word takes a plural "s" only for a count above one. */
  function TagWord(t: CountTag): (w: string)
    ensures |w| > 0 && (w[|w| - 1] == 's' <==> t.n > 1)
    ensures t.ErrorCount? ==> |w| >= 6 && w[..6] == "Erreur"
    ensures t.WarningCount? ==> |w| >= 13 && w[..13] == "Avertissement"
  {
    (if t.ErrorCount? then "Erreur" else "Avertissement") + (if t.n > 1 then "s" else "")
  }

  datatype Body = Loading | IssueList(issues: seq<ValidationError>) | NoProblem | Blank

  /** Below the alert: the issue list, "Aucun problème détecté", or nothing. */
  function BodyOf(isLoading: bool, report: Option<ValidationResponse>): Body {
    if isLoading then Loading
    else if |AllIssues(report)| > 0 then IssueList(AllIssues(report))
    else if IsValid(report) then NoProblem
    else Blank
  }

  /**
   * "Aucun problème détecté" appears only under a green alert with no count
   * tag; an invalid report without any issue (or no report at all) shows the
   * message "0 erreur(s) et 0 avertissement(s)" over an empty body.
   */
  lemma BodyAgreesWithAlert(report: Option<ValidationResponse>)
    ensures BodyOf(false, report) == NoProblem ==>
      AlertType(report) == "success" && CountTags(report) == [] && Errors(report) == [] && Warnings(report) == []
    ensures BodyOf(false, report) == Blank <==> !IsValid(report) && Summary(report) == CountsText(0, 0)
    ensures BodyOf(false, report).IssueList? <==> |Errors(report)| + |Warnings(report)| > 0
  {
    if !IsValid(report) && Summary(report) == CountsText(0, 0) {
      CountsTextInjective(|Errors(report)|, |Warnings(report)|, 0, 0);
    }
  }

  /** A report marked valid that still carries warnings lists them instead of claiming there is no problem. */
  lemma ValidWithWarningsListsThem(report: Option<ValidationResponse>)
    requires IsValid(report) && |Warnings(report)| > 0
    ensures BodyOf(false, report) == IssueList(AllIssues(report)) && Summary(report) == ValidText
  {
  }

  /** The colour of a severity tag; any severity other than the three known ones gets the default. */
  function SeverityColor(severity: string): string {
    if severity == "ERROR" then "error"
    else if severity == "WARNING" then "warning"
    else if severity == "INFO" then "info"
    else "default"
  }

  /**
   * A severity gets the default colour exactly when the panel does not know
   * it, and distinct known severities get distinct colours.
   */
  lemma SeverityColorsDistinct(s: string, t: string)
    ensures SeverityColor(s) == "default" <==> s !in {"ERROR", "WARNING", "INFO"}
    ensures s in {"ERROR", "WARNING", "INFO"} && t in {"ERROR", "WARNING", "INFO"} && s != t
      ==> SeverityColor(s) != SeverityColor(t)
  {
  }
}
