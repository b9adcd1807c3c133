/**
  The service-side report generator (services/security-automation/reporting/generate_report.py):
  a fixed set of five scanner lists, each replaced wholesale by its setter, and a five-bucket
  severity summary over all of them, without deduplication.
*/
module SecurityReport {
  import opened Optional
  import opened Text
  import opened Sequences
  import opened Severity

  /** The scanner keys, in the order the summary visits them. */
  const Scanners: seq<string> := ["bandit", "semgrep", "safety", "trivy", "threats"]

  class SecurityReportGenerator {
    /** The creation time, rendered; the clock is read by the caller. */
    const timestamp: string
    var findings: map<string, seq<Finding>>

    /** The key set is exactly the five scanners. */
    ghost predicate Valid()
      reads this
    {
      findings.Keys == set k | k in Scanners
    }

    constructor (timestamp: string)
      ensures Valid() && this.timestamp == timestamp
      ensures forall k :: k in Scanners ==> findings[k] == []
    {
      this.timestamp := timestamp;
      findings := map["bandit" := [], "semgrep" := [], "safety" := [], "trivy" := [], "threats" := []];
    }

    /** The five lists, in scanner order. */
    function Lists(): (ls: seq<seq<Finding>>)
      requires Valid()
      reads this
      ensures |ls| == |Scanners|
    {
      [findings["bandit"], findings["semgrep"], findings["safety"], findings["trivy"], findings["threats"]]
    }

    /** Every finding of every scanner, in scanner order. */
    function AllFindings(): seq<Finding>
      requires Valid()
      reads this
    {
      Concat(Lists())
    }

    /** The `total_issues` of the HTML report: the sum of the list lengths. */
    function TotalIssues(): (n: nat)
      requires Valid()
      reads this
      ensures n == |AllFindings()|
    {
      var ls := Lists();
      assert ls == [ls[0], ls[1], ls[2], ls[3], ls[4]];
      ConcatFive(ls);
      |findings["bandit"]| + |findings["semgrep"]| + |findings["safety"]| + |findings["trivy"]| + |findings["threats"]|
    }

    /** `add_bandit_findings`: replaces the bandit list and nothing else. */
    method AddBanditFindings(fs: seq<Finding>)
      requires Valid()
      modifies this
      ensures Valid() && findings == old(findings)["bandit" := fs]
    {
      findings := findings["bandit" := fs];
    }

    /** `add_semgrep_findings`: replaces the semgrep list and nothing else. */
    method AddSemgrepFindings(fs: seq<Finding>)
      requires Valid()
      modifies this
      ensures Valid() && findings == old(findings)["semgrep" := fs]
    {
      findings := findings["semgrep" := fs];
    }

    /** `add_safety_findings`: replaces the safety list and nothing else. */
    method AddSafetyFindings(fs: seq<Finding>)
      requires Valid()
      modifies this
      ensures Valid() && findings == old(findings)["safety" := fs]
    {
      findings := findings["safety" := fs];
    }

    /** `add_trivy_findings`: replaces the trivy list and nothing else. */
    method AddTrivyFindings(fs: seq<Finding>)
      requires Valid()
      modifies this
      ensures Valid() && findings == old(findings)["trivy" := fs]
    {
      findings := findings["trivy" := fs];
    }

    /** `add_threat_detections`: replaces the threats list and nothing else. */
    method AddThreatDetections(fs: seq<Finding>)
      requires Valid()
      modifies this
      ensures Valid() && findings == old(findings)["threats" := fs]
    {
      findings := findings["threats" := fs];
    }

    /** The inner loop of `_generate_summary`: one bump per finding of `list`, in order. */
    static method TallyList(start: Counts, list: seq<Finding>) returns (summary: Counts)
      ensures summary == Tally(start, list)
    {
      summary := start;
      var j := 0;
      while j < |list|
        invariant 0 <= j <= |list|
        invariant summary == Tally(start, list[..j])
      {
        assert list[..j + 1][..j] == list[..j];
        var severity := Lower(list[j].severity.GetOr("info"));
        summary := Bump(summary, severity);
        j := j + 1;
      }
      assert list[..|list|] == list;
    }

    /**
      `_generate_summary`: each bucket is the number of findings, over all five lists, whose
      lower-cased severity (default "info") is that bucket's name; other severities are counted
      nowhere, so the buckets never exceed the total. The lists are only read.
    */
    method GenerateSummary() returns (summary: Counts)
      requires Valid()
      ensures summary.critical == CountSeverity(AllFindings(), "critical")
      ensures summary.high == CountSeverity(AllFindings(), "high")
      ensures summary.medium == CountSeverity(AllFindings(), "medium")
      ensures summary.low == CountSeverity(AllFindings(), "low")
      ensures summary.info == CountSeverity(AllFindings(), "info")
      ensures summary.Sum() <= TotalIssues()
    {
      ghost var ls := Lists();
      summary := NoCounts;
      var i := 0;
      while i < |Scanners|
        invariant 0 <= i <= |Scanners|
        invariant summary == Tally(NoCounts, Concat(ls[..i]))
      {
        var list := findings[Scanners[i]];
        ghost var before := Concat(ls[..i]);
        assert ls[..i + 1][..i] == ls[..i];
        assert Concat(ls[..i + 1]) == before + list;
        TallyAppend(NoCounts, before, list);
        summary := TallyList(summary, list);
        i := i + 1;
      }
      assert ls[..|Scanners|] == ls;
      TallyCounts(NoCounts, AllFindings());
      BucketsBound(AllFindings());
    }
  }

  lemma ConcatFive(ls: seq<seq<Finding>>)
    requires |ls| == 5
    ensures |Concat(ls)| == |ls[0]| + |ls[1]| + |ls[2]| + |ls[3]| + |ls[4]|
  {
    assert ls[..4][..3] == ls[..3] && ls[..3][..2] == ls[..2] && ls[..2][..1] == ls[..1];
    assert Concat(ls[..1]) == ls[0] by { assert ls[..1][..0] == []; }
    assert Concat(ls[..2]) == Concat(ls[..1]) + ls[1];
    assert Concat(ls[..3]) == Concat(ls[..2]) + ls[2];
    assert Concat(ls[..4]) == Concat(ls[..3]) + ls[3];
    assert Concat(ls) == Concat(ls[..4]) + ls[4];
  }
}
