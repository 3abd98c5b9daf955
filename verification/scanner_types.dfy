/** The data model of the scanner: severities, findings, scan results and
    scan requests. Optional TypeScript fields (`field?: T`) are `Option`s. */
module ScannerTypes {
  import opened Wrappers
  import opened Sequences

  /** The closed severity union `'critical' | 'high' | 'medium' | 'low' | 'info'`. */
  datatype Severity = Critical | High | Medium | Low | Info

  /** Every severity, most severe first (the order of the summary cards and tabs). */
  const Severities: seq<Severity> := [Critical, High, Medium, Low, Info]

  /** The string literal that stands for `sev` in the TypeScript union. */
  function SeverityName(sev: Severity): string
  {
    match sev
    case Critical => "critical"
    case High => "high"
    case Medium => "medium"
    case Low => "low"
    case Info => "info"
  }

  /** The severity whose literal is `name`, if `name` belongs to the union. */
  function ParseSeverity(name: string): (r: Option<Severity>)
    ensures r.Some? ==> SeverityName(r.value) == name
    ensures r.None? ==> forall sev :: SeverityName(sev) != name
  {
    if name == "critical" then Some(Critical)
    else if name == "high" then Some(High)
    else if name == "medium" then Some(Medium)
    else if name == "low" then Some(Low)
    else if name == "info" then Some(Info)
    else None
  }

  /** Printing a severity and parsing the literal back gives the severity. */
  lemma SeverityNameRoundTrip(sev: Severity)
    ensures ParseSeverity(SeverityName(sev)) == Some(sev)
  {
  }

  /** The union has exactly five members, each listed once, with pairwise
      distinct literals. */
  lemma SeveritiesExhaustive()
    ensures |Severities| == 5
    ensures forall sev: Severity :: sev in Severities
    ensures NoDuplicates(Severities)
    ensures forall i, j :: 0 <= i < j < |Severities| ==> SeverityName(Severities[i]) != SeverityName(Severities[j])
  {
    forall sev: Severity ensures sev in Severities {
      match sev
      case Critical => assert Severities[0] == sev;
      case High => assert Severities[1] == sev;
      case Medium => assert Severities[2] == sev;
      case Low => assert Severities[3] == sev;
      case Info => assert Severities[4] == sev;
    }
  }

  /** The status union `'completed' | 'failed' | 'in-progress'`. */
  datatype ScanStatus = Completed | Failed | InProgress

  /** The string literal that stands for `status`. */
  function StatusName(status: ScanStatus): string
  {
    match status
    case Completed => "completed"
    case Failed => "failed"
    case InProgress => "in-progress"
  }

  /** Printing a status and parsing the literal back gives the status. */
  lemma StatusNameRoundTrip(status: ScanStatus)
    ensures ParseStatus(StatusName(status)) == Some(status)
  {
  }

  /** The status whose literal is `name`, if `name` belongs to the union. */
  function ParseStatus(name: string): (r: Option<ScanStatus>)
    ensures r.Some? ==> StatusName(r.value) == name
    ensures r.None? ==> forall status :: StatusName(status) != name
  {
    if name == "completed" then Some(Completed)
    else if name == "failed" then Some(Failed)
    else if name == "in-progress" then Some(InProgress)
    else None
  }

  /** One reported security issue. Timestamps are carried as the strings the
      source stores; `resolvedAt` is present only once a finding is resolved. */
  datatype SecurityFinding = SecurityFinding(
    id: string,
    title: string,
    description: string,
    severity: Severity,
    codeSnippet: Option<string>,
    location: Option<string>,
    recommendation: Option<string>,
    createdAt: string,
    resolvedAt: Option<string>)

  /** The per-severity counts of a scan result: one count for each of the five
      levels. JavaScript `number`s are modelled as `int`. */
  datatype Summary = Summary(critical: int, high: int, medium: int, low: int, info: int)
  {
    /** The count recorded for `sev`. */
    function Count(sev: Severity): int {
      match sev
      case Critical => critical
      case High => high
      case Medium => medium
      case Low => low
      case Info => info
    }

    /** The sum of the five counts. */
    function Total(): int {
      critical + high + medium + low + info
    }
  }

  /** The summary holding `counts(sev)` for each level. */
  function SummaryOf(counts: Severity -> int): (r: Summary)
    ensures forall sev :: r.Count(sev) == counts(sev)
  {
    Summary(counts(Critical), counts(High), counts(Medium), counts(Low), counts(Info))
  }

  /** A summary is exactly its five counts: reading them back and rebuilding
      gives the same summary, and two summaries with equal counts are equal. */
  lemma SummaryIsItsCounts(a: Summary, b: Summary)
    ensures SummaryOf(sev => a.Count(sev)) == a
    ensures (forall sev :: a.Count(sev) == b.Count(sev)) ==> a == b
  {
    if forall sev :: a.Count(sev) == b.Count(sev) {
      assert a.Count(Critical) == b.Count(Critical) && a.Count(High) == b.Count(High);
      assert a.Count(Medium) == b.Count(Medium) && a.Count(Low) == b.Count(Low);
      assert a.Count(Info) == b.Count(Info);
    }
  }

  /** The full output of one scan run. `findings` keeps the generator's order. */
  datatype ScanResult = ScanResult(
    id: string,
    repository: string,
    branch: string,
    timestamp: string,
    findings: seq<SecurityFinding>,
    summary: Summary,
    status: ScanStatus)

  /** What a caller asks to scan: only `repository` is required. */
  datatype ScanRequest = ScanRequest(
    repository: string,
    branch: Option<string>,
    useWebSearch: Option<bool>,
    sendReport: Option<bool>,
    recipient: Option<string>,
    createIssues: Option<bool>,
    includeRecommendations: Option<bool>,
    scanDepth: Option<int>,
    fileTypes: Option<seq<string>>,
    scanHistory: Option<bool>)

  /** The error a failed scan throws; its content is opaque to the store. */
  datatype ScanError = ScanError(message: string)
}
