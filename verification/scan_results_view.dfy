/** The list logic of the scan results view: the open accordion items, the five
    severity buckets, and the predicates that decide what is shown or disabled. */
module ScanResultsView {
  import opened Sequences
  import opened ScannerTypes

  // ---------------------------------------------------------------------------
  // Accordion: the list of open item ids
  // ---------------------------------------------------------------------------

  /** The filter predicate `id => id !== itemId`. */
  function Other(itemId: string): string -> bool {
    (id: string) => id != itemId
  }

  /** Toggles accordion item `itemId`: when it is open, every occurrence is
      removed; otherwise it is appended at the end. */
  function ToggleAccordionItem(open: seq<string>, itemId: string): (r: seq<string>)
    ensures itemId in r <==> itemId !in open
    ensures forall id :: id != itemId ==> (id in r <==> id in open)
    ensures Filter(r, Other(itemId)) == Filter(open, Other(itemId))
    ensures itemId in open ==> IsSubsequence(r, open)
    ensures itemId !in open ==> |r| == |open| + 1 && r[..|open|] == open && r[|open|] == itemId
    ensures NoDuplicates(open) ==> NoDuplicates(r)
  {
    if itemId in open then
      FilterIdempotent(open, Other(itemId));
      FilterIsSubsequence(open, Other(itemId));
      if NoDuplicates(open) then
        FilterNoDuplicates(open, Other(itemId));
        Filter(open, Other(itemId))
      else
        Filter(open, Other(itemId))
    else
      var r := open + [itemId];
      FilterAppend(open, [itemId], Other(itemId));
      assert Filter([itemId], Other(itemId)) == [];
      r
  }

  /** Toggling an item that is removed removes it with every repeat: the
      number of occurrences of `itemId` drops to zero and no other count moves. */
  lemma ToggleRemovesOccurrences(open: seq<string>, itemId: string, id: string)
    requires itemId in open
    ensures multiset(ToggleAccordionItem(open, itemId))[id] == if id == itemId then 0 else multiset(open)[id]
  {
    FilterMultiplicity(open, Other(itemId), id);
  }

  /** Opening a closed item and toggling it again restores the list. */
  lemma ToggleTwiceRestores(open: seq<string>, itemId: string)
    requires itemId !in open
    ensures ToggleAccordionItem(ToggleAccordionItem(open, itemId), itemId) == open
  {
    var reopened := ToggleAccordionItem(open, itemId);
    assert reopened == open + [itemId];
    FilterAppend(open, [itemId], Other(itemId));
    assert Filter([itemId], Other(itemId)) == [];
    FilterKeepsAll(open, Other(itemId));
  }

  /** Closing an open item and toggling it again moves it to the end, after
      the other open items in their previous order. */
  lemma ToggleTwiceMovesToEnd(open: seq<string>, itemId: string)
    requires itemId in open
    ensures ToggleAccordionItem(ToggleAccordionItem(open, itemId), itemId) == Filter(open, Other(itemId)) + [itemId]
  {
  }

  // ---------------------------------------------------------------------------
  // Severity buckets
  // ---------------------------------------------------------------------------

  /** The filter predicate `f => f.severity === sev`. */
  function HasSeverity(sev: Severity): SecurityFinding -> bool {
    (f: SecurityFinding) => f.severity == sev
  }

  /** The findings of severity `sev`, as `findings.filter(...)` builds the
      critical, high, medium, low and info lists. */
  function Bucket(findings: seq<SecurityFinding>, sev: Severity): (r: seq<SecurityFinding>)
    ensures forall f :: f in r <==> f in findings && f.severity == sev
    ensures IsSubsequence(r, findings)
    ensures forall f :: multiset(r)[f] == if f.severity == sev then multiset(findings)[f] else 0
  {
    var r := Filter(findings, HasSeverity(sev));
    FilterIsSubsequence(findings, HasSeverity(sev));
    assert forall f :: multiset(r)[f] == if f.severity == sev then multiset(findings)[f] else 0 by {
      forall f ensures multiset(r)[f] == if f.severity == sev then multiset(findings)[f] else 0 {
        FilterMultiplicity(findings, HasSeverity(sev), f);
      }
    }
    r
  }

  /** The five buckets partition the findings: together they hold every
      finding exactly as often as `findings` does, so their lengths add up to
      `findings.length`. */
  lemma {:induction false} BucketsPartition(findings: seq<SecurityFinding>)
    ensures multiset(Bucket(findings, Critical)) + multiset(Bucket(findings, High))
            + multiset(Bucket(findings, Medium)) + multiset(Bucket(findings, Low))
            + multiset(Bucket(findings, Info)) == multiset(findings)
    ensures |Bucket(findings, Critical)| + |Bucket(findings, High)| + |Bucket(findings, Medium)|
            + |Bucket(findings, Low)| + |Bucket(findings, Info)| == |findings|
  {
    var total := multiset(Bucket(findings, Critical)) + multiset(Bucket(findings, High))
                 + multiset(Bucket(findings, Medium)) + multiset(Bucket(findings, Low))
                 + multiset(Bucket(findings, Info));
    forall f ensures total[f] == multiset(findings)[f] {
      match f.severity
      case Critical =>
      case High =>
      case Medium =>
      case Low =>
      case Info =>
    }
    assert total == multiset(findings);
  }

  /** Every finding lies in exactly one bucket: the one of its own severity. */
  lemma FindingInOneBucket(findings: seq<SecurityFinding>, f: SecurityFinding, sev: Severity)
    requires f in findings
    ensures f in Bucket(findings, sev) <==> sev == f.severity
  {
  }

  // ---------------------------------------------------------------------------
  // What the view shows
  // ---------------------------------------------------------------------------

  /** `hasFindings`: the tabs are shown rather than the "no vulnerabilities" card. */
  predicate HasFindings(result: ScanResult) {
    |result.findings| > 0
  }

  /** The tab of severity `sev` is disabled. */
  predicate TabDisabled(result: ScanResult, sev: Severity) {
    |Bucket(result.findings, sev)| == 0
  }

  /** A severity tab is disabled exactly when no finding has that severity. */
  lemma TabDisabledIffNoneOfSeverity(result: ScanResult, sev: Severity)
    ensures TabDisabled(result, sev) <==> forall f :: f in result.findings ==> f.severity != sev
  {
    var b := Bucket(result.findings, sev);
    if !TabDisabled(result, sev) {
      assert b[0] in b;
    }
  }

  /** The findings tabs are shown exactly when some severity tab is enabled. */
  lemma HasFindingsIffSomeTabEnabled(result: ScanResult)
    ensures HasFindings(result) <==> exists sev :: !TabDisabled(result, sev)
  {
    if HasFindings(result) {
      var f := result.findings[0];
      assert f in Bucket(result.findings, f.severity);
      assert !TabDisabled(result, f.severity);
    } else {
      forall sev ensures TabDisabled(result, sev) {
        BucketsPartition(result.findings);
      }
    }
  }

  /** The counts on the tabs: each severity tab shows its bucket's length and
      the "All" tab shows the number of findings. They are computed from the
      findings, never from `result.summary`. */
  function TabCounts(result: ScanResult): (counts: Summary)
    ensures forall sev :: counts.Count(sev) == |Bucket(result.findings, sev)|
    ensures counts.Total() == |result.findings|
    ensures forall sev :: counts.Count(sev) == 0 <==> TabDisabled(result, sev)
  {
    BucketsPartition(result.findings);
    SummaryOf(sev => |Bucket(result.findings, sev)|)
  }

  /** The counts on the summary cards: `result.summary`, shown as given. */
  function CardCounts(result: ScanResult): Summary {
    result.summary
  }

  /** Cards and tabs are independent: replacing the summary leaves the tabs
      alone, replacing the findings leaves the cards alone, and a result whose
      summary disagrees with its findings is displayed as is. */
  lemma CardsAndTabsIndependent(result: ScanResult, summary: Summary, findings: seq<SecurityFinding>)
    ensures TabCounts(result.(summary := summary)) == TabCounts(result)
    ensures CardCounts(result.(findings := findings)) == CardCounts(result)
    ensures var r := result.(findings := [], summary := Summary(1, 0, 0, 0, 0));
            CardCounts(r).Count(Critical) == 1 && TabCounts(r).Count(Critical) == 0
  {
    var r := result.(findings := [], summary := Summary(1, 0, 0, 0, 0));
    assert Bucket(r.findings, Critical) == [];
  }
}
