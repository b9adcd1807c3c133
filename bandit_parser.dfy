/**
  The Bandit report parser (services/security-automation/parsers/parse_bandit.py): the raw
  results are deduplicated on `filename:line_number:test_id`, first occurrence kept, and each
  kept result is normalised into an issue with defaults for its optional keys.
*/
module BanditParser {
  import opened Optional
  import opened Text
  import opened Sequences
  import opened Deduplication

  /** One element of the report's `results` array; every key may be missing. */
  datatype RawResult = RawResult(
    filename: Option<string>,
    lineNumber: Option<int>,
    testId: Option<string>,
    severity: Option<string>,
    confidence: Option<string>,
    issueText: Option<string>)

  /** Bandit's `metrics` object (per file, counter name to value), passed through unchanged. */
  type Metrics = map<string, map<string, int>>

  /** A decoded report: its `results` and `metrics` keys, if present. */
  datatype Report = Report(results: Option<seq<RawResult>>, metrics: Option<Metrics>)

  /** The result has the three keys the deduplication key reads (otherwise the parser raises). */
  predicate HasKeyFields(r: RawResult) {
    r.filename.Some? && r.lineNumber.Some? && r.testId.Some?
  }

  type KeyedResult = r: RawResult | HasKeyFields(r)
    witness RawResult(Some(""), Some(0), Some(""), None, None, None)

  /** Every result of the list has the key fields. */
  predicate AllKeyed(results: seq<RawResult>) {
    forall r :: r in results ==> HasKeyFields(r)
  }

  /** The list, seen as results with key fields. */
  function AsKeyed(results: seq<RawResult>): (ks: seq<KeyedResult>)
    requires AllKeyed(results)
    ensures ks == results
  {
    results
  }

  /** f"{filename}:{line_number}:{test_id}" */
  function Key(r: KeyedResult): string {
    r.filename.value + ":" + IntToString(r.lineNumber.value) + ":" + r.testId.value
  }

  /** One normalised issue. */
  datatype BanditIssue = BanditIssue(
    severity: string,
    confidence: string,
    issueType: string,
    message: string,
    file: string,
    line: int)

  /**
    The issue built from a kept result: the key fields are copied (their `.get` defaults are
    never used), severity and confidence default to "UNKNOWN", the message to "".
  */
  function Entry(r: KeyedResult): (e: BanditIssue)
    ensures e.file == r.filename.value && e.line == r.lineNumber.value && e.issueType == r.testId.value
    ensures e.severity == (if r.severity.Some? then r.severity.value else "UNKNOWN")
    ensures e.confidence == (if r.confidence.Some? then r.confidence.value else "UNKNOWN")
    ensures e.message == (if r.issueText.Some? then r.issueText.value else "")
  {
    BanditIssue(
      r.severity.GetOr("UNKNOWN"),
      r.confidence.GetOr("UNKNOWN"),
      r.testId.GetOr("UNKNOWN"),
      r.issueText.GetOr(""),
      r.filename.GetOr(""),
      r.lineNumber.GetOr(0))
  }

  /** The key of an output issue, rebuilt from its fields. */
  function IssueKey(e: BanditIssue): string {
    e.file + ":" + IntToString(e.line) + ":" + e.issueType
  }

  /** What `_extract_issues` returns for these results. */
  function Extracted(results: seq<RawResult>): seq<BanditIssue>
    requires AllKeyed(results)
  {
    Map(Dedup(AsKeyed(results), Key), Entry)
  }

  /** An output issue carries the key of the result it came from. */
  lemma EntryKey(r: KeyedResult)
    ensures IssueKey(Entry(r)) == Key(r)
  {
  }

  /**
    The output holds one issue per distinct key of the input: no two issues share a key, and
    their keys are exactly the input's keys. Each issue is built from the first result with its
    key, and the issues are built, in order, from a subsequence of the input.
  */
  lemma ExtractedOnePerKey(results: seq<RawResult>)
    requires AllKeyed(results)
    ensures DistinctKeys(Extracted(results), IssueKey)
    ensures KeysOf(Extracted(results), IssueKey) == KeysOf(AsKeyed(results), Key)
    ensures forall x :: x in Extracted(results) ==>
      exists i :: FirstAt(AsKeyed(results), Key, i) && x == Entry(AsKeyed(results)[i])
    ensures IsSubsequence(Dedup(AsKeyed(results), Key), AsKeyed(results))
    ensures |Extracted(results)| <= |results|
  {
    var ks := AsKeyed(results);
    var d := Dedup(ks, Key);
    var out := Extracted(results);
    DedupDistinct(ks, Key);
    DedupKeys(ks, Key);
    DedupOnlyFirst(ks, Key);
    DedupSubsequence(ks, Key);
    forall i | 0 <= i < |out|
      ensures IssueKey(out[i]) == Key(d[i])
    {
      EntryKey(d[i]);
    }
    assert KeysOf(out, IssueKey) == KeysOf(d, Key);
    forall x | x in out
      ensures exists i :: FirstAt(ks, Key, i) && x == Entry(ks[i])
    {
      var j :| 0 <= j < |out| && out[j] == x;
      assert d[j] in d;
    }
  }

  /** A later result with an already seen key changes nothing, whatever its text or severity. */
  lemma LaterDuplicateIgnored(results: seq<RawResult>, r: KeyedResult)
    requires AllKeyed(results)
    requires Key(r) in KeysOf(AsKeyed(results), Key)
    ensures AllKeyed(results + [r])
    ensures Extracted(results + [r]) == Extracted(results)
  {
    assert AsKeyed(results + [r]) == AsKeyed(results) + [r];
    Deduplication.LaterDuplicateIgnored(AsKeyed(results), r, Key);
  }

  /** What `parse` returns. */
  datatype ParseOutcome =
    | Failed(error: string)
    | Succeeded(totalIssues: nat, issues: seq<BanditIssue>, metrics: Metrics, timestamp: string)

  class Parser {
    const reportPath: string
    /** The decoded report, once a load has succeeded. */
    var data: Option<Report>

    constructor (reportPath: string)
      ensures this.reportPath == reportPath && data == None
    {
      this.reportPath := reportPath;
      data := None;
    }

    /** `_extract_issues`: one pass with a set of seen keys. */
    method ExtractIssues() returns (issues: seq<BanditIssue>)
      requires data.Some? && AllKeyed(data.value.results.GetOr([]))
      ensures issues == Extracted(data.value.results.GetOr([]))
    {
      var results := data.value.results.GetOr([]);
      ghost var ks := AsKeyed(results);
      ghost var unique: seq<KeyedResult> := [];
      var seen: set<string> := {};
      issues := [];
      var i := 0;
      while i < |results|
        invariant 0 <= i <= |results|
        invariant unique == Dedup(ks[..i], Key)
        invariant issues == Map(unique, Entry)
        invariant seen == KeysOf(unique, Key)
      {
        var result: KeyedResult := results[i];
        assert ks[..i + 1][..i] == ks[..i];
        var hash := result.filename.value + ":" + IntToString(result.lineNumber.value) + ":" + result.testId.value;
        if hash !in seen {
          KeysOfSnoc(unique, result, Key);
          MapSnoc(unique, result, Entry);
          seen := seen + {hash};
          issues := issues + [BanditIssue(
            result.severity.GetOr("UNKNOWN"),
            result.confidence.GetOr("UNKNOWN"),
            result.testId.GetOr("UNKNOWN"),
            result.issueText.GetOr(""),
            result.filename.GetOr(""),
            result.lineNumber.GetOr(0))];
          unique := unique + [result];
        }
        i := i + 1;
      }
      assert ks[..|results|] == ks;
    }

    /**
      `parse`, with the file already read and decoded and the clock read by the caller: a load
      error gives "failed" and leaves `data` as it was; otherwise `data` is the report and the
      outcome counts the raw results, so never fewer than the issues it returns.
    */
    method Parse(loaded: Loaded<Report>, timestamp: string) returns (outcome: ParseOutcome)
      requires loaded.Loaded? ==> AllKeyed(loaded.doc.results.GetOr([]))
      modifies this
      ensures loaded.LoadFailed? ==> outcome == Failed(loaded.error) && data == old(data)
      ensures loaded.Loaded? ==> data == Some(loaded.doc) && outcome.Succeeded?
      ensures loaded.Loaded? ==> outcome.totalIssues == |loaded.doc.results.GetOr([])|
      ensures loaded.Loaded? ==> outcome.issues == Extracted(loaded.doc.results.GetOr([]))
      ensures loaded.Loaded? ==> outcome.metrics == loaded.doc.metrics.GetOr(map[])
      ensures loaded.Loaded? ==> outcome.totalIssues >= |outcome.issues|
      ensures loaded.Loaded? ==> outcome.timestamp == timestamp
    {
      if loaded.LoadFailed? {
        return Failed(loaded.error);
      }
      data := Some(loaded.doc);
      var total := |loaded.doc.results.GetOr([])|;
      var issues := ExtractIssues();
      ExtractedOnePerKey(loaded.doc.results.GetOr([]));
      outcome := Succeeded(total, issues, loaded.doc.metrics.GetOr(map[]), timestamp);
    }
  }
}
