/**
  The CI report generator (scripts/generate_report.py): per-scanner lists of raw findings,
  first-seen deduplication on the string key `file:line:id`, and an aggregate with a severity
  summary and, per scanner, the deduplicated count and the first ten deduplicated findings.
*/
module ReportScript {
  import opened Optional
  import opened Text
  import opened Sequences
  import opened Deduplication
  import opened Severity

  /** f"{file}:{line}:{id}" with the `.get` defaults '', 0 and ''. */
  function FindingKey(f: Finding): string {
    f.file.GetOr("") + ":" + IntToString(f.line.GetOr(0)) + ":" + f.id.GetOr("")
  }

  /** Because ':' may occur inside a file name or an id, two different findings can share a key. */
  lemma KeyCollision()
    ensures FindingKey(Finding(Some("a:1"), Some(2), Some("x"), None, None))
         == FindingKey(Finding(Some("a"), Some(1), Some("2:x"), None, None))
  {
  }

  /**
    With a colon-free file name, the key determines the finding's file, line and id: two
    findings share a key exactly when they agree on all three (the id may contain colons).
  */
  lemma KeyDeterminesFields(f: Finding, g: Finding)
    requires ':' !in f.file.GetOr("") && ':' !in g.file.GetOr("")
    ensures FindingKey(f) == FindingKey(g) <==>
      && f.file.GetOr("") == g.file.GetOr("")
      && f.line.GetOr(0) == g.line.GetOr(0)
      && f.id.GetOr("") == g.id.GetOr("")
  {
    if FindingKey(f) == FindingKey(g) {
      var lf, lg := f.line.GetOr(0), g.line.GetOr(0);
      IntToStringNoColon(lf);
      IntToStringNoColon(lg);
      SplitTwoColons(f.file.GetOr(""), IntToString(lf), f.id.GetOr(""), g.file.GetOr(""), IntToString(lg), g.id.GetOr(""));
      IntToStringInjective(lf, lg);
    }
  }

  /** Findings lacking file, line and id all get the key ":0:" and collapse to the first one. */
  lemma MissingFieldsCollapse(fs: seq<Finding>)
    requires fs != []
    requires forall f :: f in fs ==> f.file.None? && f.line.None? && f.id.None?
    ensures forall f :: f in fs ==> FindingKey(f) == ":0:"
    ensures Dedup(fs, FindingKey) == [fs[0]]
  {
    var d := Dedup(fs, FindingKey);
    DedupKeys(fs, FindingKey);
    DedupDistinct(fs, FindingKey);
    DedupKeepsFirst(fs, FindingKey);
    assert FirstAt(fs, FindingKey, 0);
    assert fs[0] in d;
  }

  /** The `summary` object of the aggregate; its keys are "total_issues" and the five buckets. */
  datatype Summary = Summary(totalIssues: nat, counts: Counts)

  /** The six keys of the summary object. */
  const SummaryKeys: set<string> := {"total_issues", "critical", "high", "medium", "low", "info"}

  /**
    `if severity in summary: summary[severity] += 1`, where "total_issues" is a key too: a key
    of the summary object adds one to that entry, any other key changes nothing.
  */
  function BumpSummary(s: Summary, key: string): (r: Summary)
    ensures key !in SummaryKeys ==> r == s
    ensures r.totalIssues + r.counts.Sum() == s.totalIssues + s.counts.Sum() + (if key in SummaryKeys then 1 else 0)
    ensures r.totalIssues == s.totalIssues + (if key == "total_issues" then 1 else 0)
  {
    if key == "total_issues" then s.(totalIssues := s.totalIssues + 1)
    else s.(counts := Bump(s.counts, key))
  }

  function TallySummary(s: Summary, fs: seq<Finding>): Summary {
    if fs == [] then s else BumpSummary(TallySummary(s, fs[..|fs| - 1]), SeverityKey(fs[|fs| - 1]))
  }

  lemma {:induction false} TallySummaryCounts(s: Summary, fs: seq<Finding>)
    ensures TallySummary(s, fs)
         == Summary(s.totalIssues + CountSeverity(fs, "total_issues"), Tally(s.counts, fs))
  {
    if fs != [] {
      TallySummaryCounts(s, fs[..|fs| - 1]);
    }
  }

  /** The five buckets and the "total_issues" key are six distinct names: each finding bumps at most one. */
  lemma {:induction false} SixKeysBound(fs: seq<Finding>)
    ensures CountSeverity(fs, "critical") + CountSeverity(fs, "high") + CountSeverity(fs, "medium")
          + CountSeverity(fs, "low") + CountSeverity(fs, "info")
          + CountSeverity(fs, "total_issues") <= |fs|
  {
    if fs != [] {
      SixKeysBound(fs[..|fs| - 1]);
    }
  }

  /** One entry of `by_scanner`. */
  datatype ScannerReport = ScannerReport(count: nat, findings: seq<Finding>)

  /** `findings[:n]` */
  function Take(fs: seq<Finding>, n: nat): seq<Finding> {
    if |fs| <= n then fs else fs[..n]
  }

  /** `{"count": len(d), "findings": d[:10]}` for `d` the deduplicated list. */
  function ScannerReportOf(fs: seq<Finding>): ScannerReport {
    var d := Dedup(fs, FindingKey);
    ScannerReport(|d|, Take(d, 10))
  }

  /** The aggregate document (`by_severity` is created empty and never filled). */
  datatype Aggregated = Aggregated(
    timestamp: string,
    summary: Summary,
    byScanner: map<string, ScannerReport>,
    bySeverity: map<string, nat>)

  /** The deduplicated list of each scanner of `names`, in order (each list is deduplicated on its own). */
  function DedupedLists(names: seq<string>, findings: map<string, seq<Finding>>): (ds: seq<seq<Finding>>)
    requires forall n :: n in names ==> n in findings
    ensures |ds| == |names|
  {
    if names == [] then []
    else DedupedLists(names[..|names| - 1], findings) + [Dedup(findings[names[|names| - 1]], FindingKey)]
  }

  lemma {:induction false} DedupedListsAt(names: seq<string>, findings: map<string, seq<Finding>>, k: int)
    requires forall n :: n in names ==> n in findings
    requires 0 <= k < |names|
    ensures DedupedLists(names, findings)[k] == Dedup(findings[names[k]], FindingKey)
  {
    if k < |names| - 1 {
      DedupedListsAt(names[..|names| - 1], findings, k);
    }
  }

  /** The `by_scanner` map after visiting `names` in order. */
  function ByScannerOf(names: seq<string>, findings: map<string, seq<Finding>>): map<string, ScannerReport>
    requires forall n :: n in names ==> n in findings
  {
    if names == [] then map[]
    else ByScannerOf(names[..|names| - 1], findings)[names[|names| - 1] := ScannerReportOf(findings[names[|names| - 1]])]
  }

  /** Whatever the visiting order, each scanner's entry is the report of its own list. */
  lemma {:induction false} ByScannerOfMeaning(names: seq<string>, findings: map<string, seq<Finding>>)
    requires forall n :: n in names ==> n in findings
    ensures ByScannerOf(names, findings) == map n | n in names :: ScannerReportOf(findings[n])
  {
    if names != [] {
      var init := names[..|names| - 1];
      ByScannerOfMeaning(init, findings);
      assert names == init + [names[|names| - 1]];
    }
  }

  /** The summary after visiting the deduplicated lists `ds` in order, as the aggregation loop does:
      per list, add its length to `total_issues`, then bump once per finding. */
  function SummaryOf(ds: seq<seq<Finding>>): Summary {
    if ds == [] then Summary(0, NoCounts)
    else
      var s, d := SummaryOf(ds[..|ds| - 1]), ds[|ds| - 1];
      TallySummary(s.(totalIssues := s.totalIssues + |d|), d)
  }

  /** One more list: add its length to the total, then tally its findings. */
  lemma SummaryOfSnoc(ds: seq<seq<Finding>>, d: seq<Finding>, prev: Summary, s: Summary)
    requires prev == SummaryOf(ds)
    requires s == TallySummary(prev.(totalIssues := prev.totalIssues + |d|), d)
    ensures s == SummaryOf(ds + [d])
  {
    assert (ds + [d])[..|ds|] == ds;
  }

  lemma DedupedListsSnoc(names: seq<string>, findings: map<string, seq<Finding>>, i: nat)
    requires forall n :: n in names ==> n in findings
    requires i < |names|
    ensures DedupedLists(names[..i + 1], findings)
         == DedupedLists(names[..i], findings) + [Dedup(findings[names[i]], FindingKey)]
  {
    assert names[..i + 1][..i] == names[..i];
  }

  lemma ByScannerOfSnoc(names: seq<string>, findings: map<string, seq<Finding>>, i: nat)
    requires forall n :: n in names ==> n in findings
    requires i < |names|
    ensures ByScannerOf(names[..i + 1], findings)
         == ByScannerOf(names[..i], findings)[names[i] := ScannerReportOf(findings[names[i]])]
  {
    assert names[..i + 1][..i] == names[..i];
  }

  /** One pass of the scanner loop extends the summary by the next scanner's deduplicated list. */
  lemma AggregateStep(names: seq<string>, findings: map<string, seq<Finding>>, i: nat, d: seq<Finding>, prev: Summary, next: Summary)
    requires forall n :: n in names ==> n in findings
    requires i < |names|
    requires d == Dedup(findings[names[i]], FindingKey)
    requires prev == SummaryOf(DedupedLists(names[..i], findings))
    requires next == TallySummary(prev.(totalIssues := prev.totalIssues + |d|), d)
    ensures next == SummaryOf(DedupedLists(names[..i + 1], findings))
  {
    DedupedListsSnoc(names, findings, i);
    SummaryOfSnoc(DedupedLists(names[..i], findings), d, prev, next);
  }

  /** The sum of the lengths of the lists of `ds` (the `count` entries of `by_scanner`). */
  function CountSum(ds: seq<seq<Finding>>): nat {
    if ds == [] then 0 else CountSum(ds[..|ds| - 1]) + |ds[|ds| - 1]|
  }

  lemma {:induction false} SummaryOfConcat(ds: seq<seq<Finding>>)
    ensures |Concat(ds)| == CountSum(ds)
    ensures SummaryOf(ds) == Summary(
      CountSum(ds) + CountSeverity(Concat(ds), "total_issues"),
      Tally(NoCounts, Concat(ds)))
  {
    if ds != [] {
      var init, d := ds[..|ds| - 1], ds[|ds| - 1];
      var prev := Concat(init);
      SummaryOfConcat(init);
      var s := SummaryOf(init);
      var s' := s.(totalIssues := s.totalIssues + |d|);
      TallySummaryCounts(s', d);
      TallyAppend(NoCounts, prev, d);
      CountSeverityAppend(prev, d, "total_issues");
    }
  }

  /**
    What the summary means: each bucket counts the findings of all the deduplicated lists whose
    lower-cased severity (default "info") names it; `total_issues` is the sum of the list lengths
    plus one for each finding whose severity is "total_issues"; findings with any other severity
    are counted nowhere, so the five buckets never exceed the total.
  */
  lemma AggregateSummaryCounts(ds: seq<seq<Finding>>)
    ensures var s, all := SummaryOf(ds), Concat(ds);
      && s.counts.critical == CountSeverity(all, "critical")
      && s.counts.high == CountSeverity(all, "high")
      && s.counts.medium == CountSeverity(all, "medium")
      && s.counts.low == CountSeverity(all, "low")
      && s.counts.info == CountSeverity(all, "info")
      && s.totalIssues == CountSum(ds) + CountSeverity(all, "total_issues")
      && s.counts.Sum() <= s.totalIssues
  {
    var all := Concat(ds);
    SummaryOfConcat(ds);
    TallyCounts(NoCounts, all);
    SixKeysBound(all);
  }

  /** With every scanner's list empty (no report file found) every count is zero. */
  lemma {:induction false} EmptyListsAllZero(ds: seq<seq<Finding>>)
    requires forall i :: 0 <= i < |ds| ==> ds[i] == []
    ensures SummaryOf(ds) == Summary(0, NoCounts)
    ensures CountSum(ds) == 0
  {
    if ds != [] {
      EmptyListsAllZero(ds[..|ds| - 1]);
    }
  }

  /** Each scanner's entry counts its deduplicated findings and lists the first ten of them. */
  lemma ScannerReportShape(fs: seq<Finding>)
    ensures ScannerReportOf(fs).count == |Dedup(fs, FindingKey)| <= |fs|
    ensures |ScannerReportOf(fs).findings| == if ScannerReportOf(fs).count < 10 then ScannerReportOf(fs).count else 10
    ensures ScannerReportOf(fs).findings == Dedup(fs, FindingKey)[..|ScannerReportOf(fs).findings|]
  {
    DedupSubsequence(fs, FindingKey);
  }

  /** Two copies of one finding leave a single entry. */
  lemma DuplicatePairCollapses(f: Finding)
    ensures Dedup([f, f], FindingKey) == [f]
  {
    assert [f, f] == [f] + [f];
    assert FindingKey(f) in KeysOf([f], FindingKey) by { assert [f][0] == f; }
    Deduplication.LaterDuplicateIgnored([f], f, FindingKey);
    assert [f][..0] == [];
  }

  /** Deduplication is per scanner: the same finding reported by two scanners is counted twice. */
  lemma DedupIsPerScanner(f: Finding)
    ensures var ds := DedupedLists(["bandit", "semgrep"], map["bandit" := [f], "semgrep" := [f]]);
      CountSum(ds) == 2 && |Concat(ds)| == 2
  {
    var names, m := ["bandit", "semgrep"], map["bandit" := [f], "semgrep" := [f]];
    var ds := DedupedLists(names, m);
    assert [f][..0] == [];
    assert Dedup([f], FindingKey) == [f];
    DedupedListsSnoc(names, m, 0);
    DedupedListsSnoc(names, m, 1);
    assert names[..0] == [] && names[..2] == names;
    assert ds == [[f], [f]];
    assert ds[..1] == [[f]] && ds[..1][..0] == [];
    assert CountSum(ds[..1]) == 1;
    SummaryOfConcat(ds);
  }

  /** No report found for any scanner: every count, the total included, is zero. */
  lemma EmptyReportsAllZero(names: seq<string>, findings: map<string, seq<Finding>>)
    requires forall n :: n in names ==> n in findings && findings[n] == []
    ensures SummaryOf(DedupedLists(names, findings)) == Summary(0, NoCounts)
  {
    var ds := DedupedLists(names, findings);
    forall k | 0 <= k < |ds|
      ensures ds[k] == []
    {
      DedupedListsAt(names, findings, k);
    }
    EmptyListsAllZero(ds);
  }

  /** A Safety report that is a JSON array (an object, or any other JSON value, is replaced by []). */
  datatype SafetyDocument = JsonArray(items: seq<Finding>) | OtherJson

  /** `load_safety_report`: `None` stands for a missing file. */
  function LoadSafetyReport(file: Option<SafetyDocument>): (r: seq<Finding>)
    ensures file.Some? && file.value.JsonArray? ==> r == file.value.items
    ensures file.None? || file.value.OtherJson? ==> r == []
  {
    match file
    case Some(JsonArray(items)) => items
    case _ => []
  }

  const DefaultScanners: seq<string> := ["bandit", "semgrep", "safety", "trivy", "pylint"]

  class ReportGenerator {
    const artifactDir: string
    /** The keys of `findings`, in insertion order (the order Python iterates them). */
    var scanners: seq<string>
    var findings: map<string, seq<Finding>>

    ghost predicate Valid()
      reads this
    {
      && (forall i, j :: 0 <= i < j < |scanners| ==> scanners[i] != scanners[j])
      && (forall n :: n in findings <==> n in scanners)
    }

    constructor (artifactDir: string)
      ensures Valid() && this.artifactDir == artifactDir
      ensures scanners == DefaultScanners
      ensures findings == map["bandit" := [], "semgrep" := [], "safety" := [], "trivy" := [], "pylint" := []]
    {
      this.artifactDir := artifactDir;
      scanners := DefaultScanners;
      findings := map["bandit" := [], "semgrep" := [], "safety" := [], "trivy" := [], "pylint" := []];
    }

    /** `generator.findings[name] = list`: replaces the list of an existing scanner, or adds it last. */
    method SetFindings(name: string, list: seq<Finding>)
      requires Valid()
      modifies this
      ensures Valid()
      ensures findings == old(findings)[name := list]
      ensures scanners == if name in old(findings) then old(scanners) else old(scanners) + [name]
    {
      if name !in findings {
        scanners := scanners + [name];
      }
      findings := findings[name := list];
    }

    /** `deduplicate_findings` */
    static method DeduplicateFindings(fs: seq<Finding>) returns (unique: seq<Finding>)
      ensures unique == Dedup(fs, FindingKey)
    {
      var seen: set<string> := {};
      unique := [];
      var i := 0;
      while i < |fs|
        invariant 0 <= i <= |fs|
        invariant unique == Dedup(fs[..i], FindingKey)
        invariant seen == KeysOf(unique, FindingKey)
      {
        var h := FindingKey(fs[i]);
        assert fs[..i + 1][..i] == fs[..i];
        if h !in seen {
          KeysOfSnoc(unique, fs[i], FindingKey);
          seen := seen + {h};
          unique := unique + [fs[i]];
        }
        i := i + 1;
      }
      assert fs[..|fs|] == fs;
    }

    /** The inner loop of `aggregate_findings`: one bump of the summary per finding, in order. */
    static method CountSeverities(start: Summary, d: seq<Finding>) returns (summary: Summary)
      ensures summary == TallySummary(start, d)
    {
      summary := start;
      var j := 0;
      while j < |d|
        invariant 0 <= j <= |d|
        invariant summary == TallySummary(start, d[..j])
      {
        assert d[..j + 1][..j] == d[..j];
        summary := BumpSummary(summary, SeverityKey(d[j]));
        j := j + 1;
      }
      assert d[..|d|] == d;
    }

    /**
      The body of the scanner loop of `aggregate_findings`: deduplicate one scanner's list, make
      its `by_scanner` entry, add its length to the total and bump once per deduplicated finding.
    */
    static method VisitScanner(fs: seq<Finding>, summary: Summary) returns (report: ScannerReport, next: Summary, ghost d: seq<Finding>)
      ensures d == Dedup(fs, FindingKey)
      ensures report == ScannerReportOf(fs)
      ensures next == TallySummary(summary.(totalIssues := summary.totalIssues + |d|), d)
    {
      var unique := DeduplicateFindings(fs);
      report := ScannerReport(|unique|, Take(unique, 10));
      next := summary.(totalIssues := summary.totalIssues + |unique|);
      next := CountSeverities(next, unique);
      d := unique;
    }

    /** `aggregate_findings`, with the timestamp passed in; `findings` is only read. */
    method AggregateFindings(timestamp: string) returns (agg: Aggregated)
      requires Valid()
      ensures agg.timestamp == timestamp
      ensures agg.summary == SummaryOf(DedupedLists(scanners, findings))
      ensures agg.byScanner == map n | n in scanners :: ScannerReportOf(findings[n])
      ensures agg.bySeverity == map[]
      ensures agg.summary.counts.Sum() <= agg.summary.totalIssues
    {
      var names, lists := scanners, findings;
      var summary := Summary(0, NoCounts);
      var byScanner: map<string, ScannerReport> := map[];
      var i := 0;
      while i < |names|
        invariant 0 <= i <= |names|
        invariant summary == SummaryOf(DedupedLists(names[..i], lists))
        invariant byScanner == ByScannerOf(names[..i], lists)
      {
        var name := names[i];
        ghost var d;
        var report, next;
        report, next, d := VisitScanner(lists[name], summary);
        AggregateStep(names, lists, i, d, summary, next);
        ByScannerOfSnoc(names, lists, i);
        byScanner := byScanner[name := report];
        summary := next;
        i := i + 1;
      }
      assert names[..|names|] == names;
      ByScannerOfMeaning(names, lists);
      AggregateSummaryCounts(DedupedLists(names, lists));
      agg := Aggregated(timestamp, summary, byScanner, map[]);
    }
  }
}
