/**
  Contextual vulnerability triage (scripts/triage_vulnerabilities.py): a vulnerability whose
  package names an ML library and whose description names an accepted risk is set aside in
  `ignored` with a justification; every other one goes to the list named by its lower-cased
  severity, or nowhere when there is no such list. A run blocks when a critical or high
  vulnerability remains.
*/
module Triage {
  import opened Optional
  import opened Text
  import opened Sequences

  /** One entry of a report's `vulnerabilities` array; every key may be missing. */
  datatype Vuln = Vuln(
    package: Option<string>,
    id: Option<string>,
    description: Option<string>,
    severity: Option<string>)

  /** A decoded report file: its `vulnerabilities` key, if any. */
  datatype TriageDoc = TriageDoc(vulnerabilities: Option<seq<Vuln>>)

  /** The library names whose packages may carry an accepted risk. */
  const MlLibs: set<string> := {"transformers", "torch", "sklearn", "numpy", "tensorflow", "keras", "pickle"}

  /** The accepted risks, as (phrase, justification), in the order they are tried. */
  const AcceptableRisks: seq<(string, string)> := [
    ("deserialization", "ML-specific - model loading required"),
    ("pickle", "ML-specific - torch models use pickle"),
    ("eval", "Dev dependency only")
  ]

  /** Some ML library name occurs in the (lower-cased) package name. */
  predicate IsMlPackage(package: string) {
    exists lib | lib in MlLibs :: Contains(package, lib)
  }

  /** The test "the phrase of this risk occurs in `description`". */
  function RiskIn(description: string): ((string, string)) -> bool {
    (risk: (string, string)) => Contains(description, risk.0)
  }

  /** `should_ignore`: (whether to set the vulnerability aside, the justification). */
  function ShouldIgnore(v: Vuln): (r: (bool, string))
    ensures r.0 <==>
      IsMlPackage(Lower(v.package.GetOr("")))
      && exists k :: 0 <= k < |AcceptableRisks| && Contains(Lower(v.description.GetOr("")), AcceptableRisks[k].0)
    ensures r.0 ==>
      exists k :: 0 <= k < |AcceptableRisks|
        && Contains(Lower(v.description.GetOr("")), AcceptableRisks[k].0)
        && (forall j :: 0 <= j < k ==> !Contains(Lower(v.description.GetOr("")), AcceptableRisks[j].0))
        && r.1 == AcceptableRisks[k].1 + " - CVE " + v.id.GetOr("")
    ensures !r.0 ==> r.1 == ""
  {
    var package := Lower(v.package.GetOr(""));
    if IsMlPackage(package) then
      var description := Lower(Lower(v.description.GetOr("")));
      LowerIdempotent(v.description.GetOr(""));
      match FirstIndex(AcceptableRisks, RiskIn(description))
      case Some(k) => (true, AcceptableRisks[k].1 + " - CVE " + v.id.GetOr(""))
      case None => (false, "")
    else (false, "")
  }

  /** An entry of the `ignored` list: an accepted risk, or a vulnerability whose severity is "ignored". */
  datatype IgnoredEntry =
    | Accepted(package: Option<string>, id: Option<string>, reason: string)
    | Misfiled(vuln: Vuln)

  /** The five lists of the triager. */
  datatype TriageFindings = TriageFindings(
    critical: seq<Vuln>,
    high: seq<Vuln>,
    medium: seq<Vuln>,
    low: seq<Vuln>,
    ignored: seq<IgnoredEntry>)

  const NoFindings := TriageFindings([], [], [], [], [])

  /** `vuln.get('severity', 'unknown').lower()` */
  function SeverityOf(v: Vuln): string {
    Lower(v.severity.GetOr("unknown"))
  }

  /** Where one vulnerability goes: exactly one list grows by one entry, unless it is dropped. */
  function Route(f: TriageFindings, v: Vuln): (g: TriageFindings)
    ensures Total(g) == Total(f) + if Dropped(v) then 0 else 1
  {
    var (ignore, reason) := ShouldIgnore(v);
    if ignore then f.(ignored := f.ignored + [Accepted(v.package, v.id, reason)])
    else
      var severity := SeverityOf(v);
      if severity == "critical" then f.(critical := f.critical + [v])
      else if severity == "high" then f.(high := f.high + [v])
      else if severity == "medium" then f.(medium := f.medium + [v])
      else if severity == "low" then f.(low := f.low + [v])
      else if severity == "ignored" then f.(ignored := f.ignored + [Misfiled(v)])
      else f
  }

  /** The lists after routing every vulnerability of `vs`, in order. */
  function TriageAll(f: TriageFindings, vs: seq<Vuln>): TriageFindings {
    if vs == [] then f else Route(TriageAll(f, vs[..|vs| - 1]), vs[|vs| - 1])
  }

  /** The vulnerability is not set aside and its severity names the list `name`. */
  predicate RoutedTo(v: Vuln, name: string) {
    !ShouldIgnore(v).0 && SeverityOf(v) == name
  }

  /** The test "goes to the list `name`", as a function value for `Filter`. */
  function Bucket(name: string): Vuln -> bool {
    v => RoutedTo(v, name)
  }

  /** The vulnerability ends up in `ignored`, either way. */
  predicate GoesToIgnored(v: Vuln) {
    ShouldIgnore(v).0 || SeverityOf(v) == "ignored"
  }

  /** The vulnerability ends up in no list at all. */
  predicate Dropped(v: Vuln) {
    !ShouldIgnore(v).0 && SeverityOf(v) !in {"critical", "high", "medium", "low", "ignored"}
  }

  function Total(f: TriageFindings): nat {
    |f.critical| + |f.high| + |f.medium| + |f.low| + |f.ignored|
  }

  /** The number of vulnerabilities of `vs` that go nowhere. */
  function DroppedCount(vs: seq<Vuln>): nat {
    if vs == [] then 0 else DroppedCount(vs[..|vs| - 1]) + (if Dropped(vs[|vs| - 1]) then 1 else 0)
  }

  /** The severity list called `name`. */
  function ListOf(f: TriageFindings, name: string): seq<Vuln>
    requires name in {"critical", "high", "medium", "low"}
  {
    if name == "critical" then f.critical
    else if name == "high" then f.high
    else if name == "medium" then f.medium
    else f.low
  }

  /** One routing step, list by list. */
  lemma RouteEffect(f: TriageFindings, v: Vuln, name: string)
    requires name in {"critical", "high", "medium", "low"}
    ensures ListOf(Route(f, v), name) == ListOf(f, name) + (if RoutedTo(v, name) then [v] else [])
    ensures Route(f, v).ignored
         == f.ignored + (if ShouldIgnore(v).0 then [Accepted(v.package, v.id, ShouldIgnore(v).1)]
                         else if SeverityOf(v) == "ignored" then [Misfiled(v)] else [])
  {
  }

  /** Each severity list grows by exactly the vulnerabilities routed to it, in input order. */
  lemma {:induction false} TriageAllBucket(f: TriageFindings, vs: seq<Vuln>, name: string)
    requires name in {"critical", "high", "medium", "low"}
    ensures ListOf(TriageAll(f, vs), name) == ListOf(f, name) + Filter(vs, Bucket(name))
  {
    if vs != [] {
      var init, v := vs[..|vs| - 1], vs[|vs| - 1];
      TriageAllBucket(f, init, name);
      RouteEffect(TriageAll(f, init), v, name);
      assert Bucket(name)(v) == RoutedTo(v, name);
    }
  }

  /** The entry `ignored` gains for a vulnerability that goes there. */
  function IgnoredEntryOf(v: Vuln): IgnoredEntry {
    if ShouldIgnore(v).0 then Accepted(v.package, v.id, ShouldIgnore(v).1) else Misfiled(v)
  }

  /**
    `ignored` keeps its old entries and gains, in input order, one entry per vulnerability
    that goes there: {package, id, reason} for an accepted risk, the vulnerability itself for
    one whose severity is "ignored".
  */
  lemma {:induction false} TriageAllIgnored(f: TriageFindings, vs: seq<Vuln>)
    ensures TriageAll(f, vs).ignored == f.ignored + Map(Filter(vs, GoesToIgnored), IgnoredEntryOf)
    ensures |TriageAll(f, vs).ignored| == |f.ignored| + |Filter(vs, GoesToIgnored)|
    ensures TriageAll(f, vs).ignored[..|f.ignored|] == f.ignored
  {
    if vs != [] {
      var init, v := vs[..|vs| - 1], vs[|vs| - 1];
      TriageAllIgnored(f, init);
      RouteEffect(TriageAll(f, init), v, "low");
      if GoesToIgnored(v) {
        MapSnoc(Filter(init, GoesToIgnored), v, IgnoredEntryOf);
      }
    }
  }

  /** Every vulnerability lands in exactly one list or is dropped: nothing is counted twice. */
  lemma {:induction false} TriagePartition(f: TriageFindings, vs: seq<Vuln>)
    ensures Total(TriageAll(f, vs)) == Total(f) + |vs| - DroppedCount(vs)
    ensures DroppedCount(vs) <= |vs|
  {
    if vs != [] {
      TriagePartition(f, vs[..|vs| - 1]);
    }
  }

  /** A vulnerability that is set aside reaches no severity list: only `ignored` changes. */
  lemma IgnoredOnlyToIgnored(f: TriageFindings, v: Vuln)
    requires ShouldIgnore(v).0
    ensures Route(f, v) == f.(ignored := f.ignored + [Accepted(v.package, v.id, ShouldIgnore(v).1)])
  {
  }

  /** Over a whole report: a set-aside vulnerability absent from the old severity lists is absent from the new ones. */
  lemma IgnoredNeverBucketed(f: TriageFindings, vs: seq<Vuln>, v: Vuln)
    requires ShouldIgnore(v).0
    requires v !in f.critical && v !in f.high && v !in f.medium && v !in f.low
    ensures var g := TriageAll(f, vs);
      v !in g.critical && v !in g.high && v !in g.medium && v !in g.low
  {
    TriageAllBucket(f, vs, "critical");
    TriageAllBucket(f, vs, "high");
    TriageAllBucket(f, vs, "medium");
    TriageAllBucket(f, vs, "low");
    FilterMembers(vs, Bucket("critical"));
    FilterMembers(vs, Bucket("high"));
    FilterMembers(vs, Bucket("medium"));
    FilterMembers(vs, Bucket("low"));
  }

  /** Triaging two reports one after the other is triaging their vulnerabilities in sequence. */
  lemma {:induction false} TriageAllAppend(f: TriageFindings, a: seq<Vuln>, b: seq<Vuln>)
    ensures TriageAll(TriageAll(f, a), b) == TriageAll(f, a + b)
  {
    if b == [] {
      assert a + b == a;
    } else {
      assert (a + b)[..|a + b| - 1] == a + b[..|b| - 1];
      TriageAllAppend(f, a, b[..|b| - 1]);
    }
  }

  /** The `summary` of `generate_report`. */
  datatype TriageSummary = TriageSummary(critical: nat, high: nat, medium: nat, low: nat, ignored: nat, blocking: nat)

  /** The summary counts every entry of the five lists once; blocking is part of them. */
  function SummaryOf(f: TriageFindings): (s: TriageSummary)
    ensures s.critical + s.high + s.medium + s.low + s.ignored == Total(f)
    ensures s.blocking <= Total(f)
  {
    TriageSummary(|f.critical|, |f.high|, |f.medium|, |f.low|, |f.ignored|, |f.critical| + |f.high|)
  }

  /** The process exit status: 1 when the critical or the high list is non-empty, otherwise 0. */
  function ExitStatus(f: TriageFindings): (status: int)
    ensures status == 0 || status == 1
    ensures status == 0 <==> |f.critical| + |f.high| == 0
  {
    if f.critical != [] || f.high != [] then 1 else 0
  }

  /** The exit status and the reported blocking count agree: the run fails exactly when something blocks. */
  lemma ExitIffBlocking(f: TriageFindings)
    ensures ExitStatus(f) == 1 <==> SummaryOf(f).blocking > 0
    ensures ExitStatus(f) == 0 <==> SummaryOf(f).blocking == 0
    ensures SummaryOf(f).blocking == SummaryOf(f).critical + SummaryOf(f).high
  {
  }

  /** A torch vulnerability whose description mentions pickle deserialization is accepted with
      the justification of the first matching risk. */
  lemma TorchPickleIsIgnored(id: string, severity: Option<string>)
    ensures ShouldIgnore(Vuln(Some("torch"), Some(id), Some("pickle deserialization"), severity))
         == (true, "ML-specific - model loading required - CVE " + id)
  {
    LowerOfLowercase("torch");
    LowerOfLowercase("pickle deserialization");
    assert OccursAt("torch", "torch", 0);
    assert IsMlPackage("torch");
    assert OccursAt("pickle deserialization", "deserialization", 7);
    assert AcceptableRisks[0].1 + " - CVE " == "ML-specific - model loading required - CVE ";
  }

  /** ... and so it does not block, whatever severity it carries. */
  lemma TorchPickleDoesNotBlock(id: string, severity: Option<string>)
    ensures SummaryOf(Route(NoFindings, Vuln(Some("torch"), Some(id), Some("pickle deserialization"), severity))).blocking == 0
  {
    TorchPickleIsIgnored(id, severity);
  }

  class VulnerabilityTriager {
    var findings: TriageFindings

    constructor ()
      ensures findings == NoFindings
    {
      findings := NoFindings;
    }

    /**
      `triage_report`, with the file already read: a load error returns `None` (the empty
      dict) and changes nothing; otherwise every vulnerability is routed, in order, onto the
      lists, which persist across calls, and the lists are returned.
    */
    method TriageReport(loaded: Loaded<TriageDoc>) returns (r: Option<TriageFindings>)
      modifies this
      ensures loaded.LoadFailed? ==> r == None && findings == old(findings)
      ensures loaded.Loaded? ==>
        && findings == TriageAll(old(findings), loaded.doc.vulnerabilities.GetOr([]))
        && r == Some(findings)
    {
      if loaded.LoadFailed? {
        return None;
      }
      var vulns := loaded.doc.vulnerabilities.GetOr([]);
      var i := 0;
      while i < |vulns|
        invariant 0 <= i <= |vulns|
        invariant findings == TriageAll(old(findings), vulns[..i])
      {
        var v := vulns[i];
        assert vulns[..i + 1][..i] == vulns[..i];
        var (ignore, reason) := ShouldIgnore(v);
        if ignore {
          findings := findings.(ignored := findings.ignored + [Accepted(v.package, v.id, reason)]);
        } else {
          var severity := Lower(v.severity.GetOr("unknown"));
          if severity == "critical" {
            findings := findings.(critical := findings.critical + [v]);
          } else if severity == "high" {
            findings := findings.(high := findings.high + [v]);
          } else if severity == "medium" {
            findings := findings.(medium := findings.medium + [v]);
          } else if severity == "low" {
            findings := findings.(low := findings.low + [v]);
          } else if severity == "ignored" {
            findings := findings.(ignored := findings.ignored + [Misfiled(v)]);
          }
        }
        i := i + 1;
      }
      assert vulns[..|vulns|] == vulns;
      r := Some(findings);
    }
  }
}
