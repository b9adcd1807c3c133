/**
  The Semgrep report parser (services/security-automation/parsers/parse_semgrep.py): the raw
  results are deduplicated on `path:start.line:rule_id`, first occurrence kept, and each kept
  result is normalised into a finding with defaults for its optional keys.
*/
module SemgrepParser {
  import opened Optional
  import opened Text
  import opened Sequences
  import opened Deduplication

  /** The `start` object of a result. */
  datatype Start = Start(line: Option<int>)

  /** The `extra` object of a result. */
  datatype Extra = Extra(message: Option<string>, severity: Option<string>, cwe: Option<seq<string>>)

  /** One element of the report's `results` array; every key may be missing. */
  datatype RawResult = RawResult(path: Option<string>, start: Option<Start>, ruleId: Option<string>, extra: Option<Extra>)

  /** A decoded report: its `results` and `errors` keys, if present. */
  datatype Report = Report(results: Option<seq<RawResult>>, errors: Option<seq<string>>)

  /** The result has the three keys the deduplication key reads (otherwise the parser raises). */
  predicate HasKeyFields(r: RawResult) {
    r.path.Some? && r.start.Some? && r.start.value.line.Some? && r.ruleId.Some?
  }

  type KeyedResult = r: RawResult | HasKeyFields(r)
    witness RawResult(Some(""), Some(Start(Some(0))), Some(""), None)

  /** Every result of the list has the key fields. */
  predicate AllKeyed(results: seq<RawResult>) {
    forall r :: r in results ==> HasKeyFields(r)
  }

  /** The list, seen as results with key fields. */
  function AsKeyed(results: seq<RawResult>): (ks: seq<KeyedResult>)
    requires AllKeyed(results)
    ensures ks == results
  {
    results
  }

  /** f"{path}:{start.line}:{rule_id}" */
  function Key(r: KeyedResult): string {
    r.path.value + ":" + IntToString(r.start.value.line.value) + ":" + r.ruleId.value
  }

  /** One normalised finding. */
  datatype SemgrepFinding = SemgrepFinding(
    ruleId: string,
    message: string,
    severity: string,
    file: string,
    line: int,
    cwe: seq<string>)

  /** The `extra` object, or `{}` when absent. */
  function ExtraOf(r: RawResult): Extra {
    r.extra.GetOr(Extra(None, None, None))
  }

  /**
    The finding built from a kept result: the key fields are copied (their `.get` defaults are
    never used), the message defaults to "", the severity to "INFO", the CWE list to [].
  */
  function Entry(r: KeyedResult): (e: SemgrepFinding)
    ensures e.file == r.path.value && e.line == r.start.value.line.value && e.ruleId == r.ruleId.value
    ensures e.message == (if r.extra.Some? && r.extra.value.message.Some? then r.extra.value.message.value else "")
    ensures e.severity == (if r.extra.Some? && r.extra.value.severity.Some? then r.extra.value.severity.value else "INFO")
    ensures e.cwe == (if r.extra.Some? && r.extra.value.cwe.Some? then r.extra.value.cwe.value else [])
  {
    SemgrepFinding(
      r.ruleId.GetOr("UNKNOWN"),
      ExtraOf(r).message.GetOr(""),
      ExtraOf(r).severity.GetOr("INFO"),
      r.path.GetOr(""),
      r.start.GetOr(Start(None)).line.GetOr(0),
      ExtraOf(r).cwe.GetOr([]))
  }

  /** The key of an output finding, rebuilt from its fields. */
  function FindingKey(f: SemgrepFinding): string {
    f.file + ":" + IntToString(f.line) + ":" + f.ruleId
  }

  /** What `_extract_findings` returns for these results. */
  function Extracted(results: seq<RawResult>): seq<SemgrepFinding>
    requires AllKeyed(results)
  {
    Map(Dedup(AsKeyed(results), Key), Entry)
  }

  /** An output finding carries the key of the result it came from. */
  lemma EntryKey(r: KeyedResult)
    ensures FindingKey(Entry(r)) == Key(r)
  {
  }

  /**
    The output holds one finding per distinct key of the input: no two findings share a key,
    and their keys are exactly the input's keys. Each finding is built from the first result
    with its key, and the findings are built, in order, from a subsequence of the input.
  */
  lemma ExtractedOnePerKey(results: seq<RawResult>)
    requires AllKeyed(results)
    ensures DistinctKeys(Extracted(results), FindingKey)
    ensures KeysOf(Extracted(results), FindingKey) == KeysOf(AsKeyed(results), Key)
    ensures forall x :: x in Extracted(results) ==>
      exists i :: FirstAt(AsKeyed(results), Key, i) && x == Entry(AsKeyed(results)[i])
    ensures IsSubsequence(Dedup(AsKeyed(results), Key), AsKeyed(results))
    ensures |Extracted(results)| <= |results|
  {
    var ks := AsKeyed(results);
    var d := Dedup(ks, Key);
    var out := Extracted(results);
    DedupDistinct(ks, Key);
    DedupKeys(ks, Key);
    DedupOnlyFirst(ks, Key);
    DedupSubsequence(ks, Key);
    forall i | 0 <= i < |out|
      ensures FindingKey(out[i]) == Key(d[i])
    {
      EntryKey(d[i]);
    }
    assert KeysOf(out, FindingKey) == KeysOf(d, Key);
    forall x | x in out
      ensures exists i :: FirstAt(ks, Key, i) && x == Entry(ks[i])
    {
      var j :| 0 <= j < |out| && out[j] == x;
      assert d[j] in d;
    }
  }

  /** A later result with an already seen key changes nothing, whatever its message or severity. */
  lemma LaterDuplicateIgnored(results: seq<RawResult>, r: KeyedResult)
    requires AllKeyed(results)
    requires Key(r) in KeysOf(AsKeyed(results), Key)
    ensures AllKeyed(results + [r])
    ensures Extracted(results + [r]) == Extracted(results)
  {
    assert AsKeyed(results + [r]) == AsKeyed(results) + [r];
    Deduplication.LaterDuplicateIgnored(AsKeyed(results), r, Key);
  }

  /** What `parse` returns. */
  datatype ParseOutcome =
    | Failed(error: string)
    | Succeeded(totalFindings: nat, findings: seq<SemgrepFinding>, errors: seq<string>, timestamp: string)

  class Parser {
    const reportPath: string
    /** The decoded report, once a load has succeeded. */
    var data: Option<Report>

    constructor (reportPath: string)
      ensures this.reportPath == reportPath && data == None
    {
      this.reportPath := reportPath;
      data := None;
    }

    /** `_extract_findings`: one pass with a set of seen keys. */
    method ExtractFindings() returns (findings: seq<SemgrepFinding>)
      requires data.Some? && AllKeyed(data.value.results.GetOr([]))
      ensures findings == Extracted(data.value.results.GetOr([]))
    {
      var results := data.value.results.GetOr([]);
      ghost var ks := AsKeyed(results);
      ghost var unique: seq<KeyedResult> := [];
      var seen: set<string> := {};
      findings := [];
      var i := 0;
      while i < |results|
        invariant 0 <= i <= |results|
        invariant unique == Dedup(ks[..i], Key)
        invariant findings == Map(unique, Entry)
        invariant seen == KeysOf(unique, Key)
      {
        var result: KeyedResult := results[i];
        assert ks[..i + 1][..i] == ks[..i];
        var hash := result.path.value + ":" + IntToString(result.start.value.line.value) + ":" + result.ruleId.value;
        if hash !in seen {
          KeysOfSnoc(unique, result, Key);
          MapSnoc(unique, result, Entry);
          seen := seen + {hash};
          var extra := result.extra.GetOr(Extra(None, None, None));
          findings := findings + [SemgrepFinding(
            result.ruleId.GetOr("UNKNOWN"),
            extra.message.GetOr(""),
            extra.severity.GetOr("INFO"),
            result.path.GetOr(""),
            result.start.GetOr(Start(None)).line.GetOr(0),
            extra.cwe.GetOr([]))];
          unique := unique + [result];
        }
        i := i + 1;
      }
      assert ks[..|results|] == ks;
    }

    /**
      `parse`, with the file already read and decoded and the clock read by the caller: a load
      error gives "failed" and leaves `data` as it was; otherwise `data` is the report and the
      outcome counts the raw results, so never fewer than the findings it returns.
    */
    method Parse(loaded: Loaded<Report>, timestamp: string) returns (outcome: ParseOutcome)
      requires loaded.Loaded? ==> AllKeyed(loaded.doc.results.GetOr([]))
      modifies this
      ensures loaded.LoadFailed? ==> outcome == Failed(loaded.error) && data == old(data)
      ensures loaded.Loaded? ==> data == Some(loaded.doc) && outcome.Succeeded?
      ensures loaded.Loaded? ==> outcome.totalFindings == |loaded.doc.results.GetOr([])|
      ensures loaded.Loaded? ==> outcome.findings == Extracted(loaded.doc.results.GetOr([]))
      ensures loaded.Loaded? ==> outcome.errors == loaded.doc.errors.GetOr([])
      ensures loaded.Loaded? ==> outcome.totalFindings >= |outcome.findings|
      ensures loaded.Loaded? ==> outcome.timestamp == timestamp
    {
      if loaded.LoadFailed? {
        return Failed(loaded.error);
      }
      data := Some(loaded.doc);
      var total := |loaded.doc.results.GetOr([])|;
      var findings := ExtractFindings();
      ExtractedOnePerKey(loaded.doc.results.GetOr([]));
      outcome := Succeeded(total, findings, loaded.doc.errors.GetOr([]), timestamp);
    }
  }
}
