# Finding deduplication, severity aggregation and triage — a Dafny model

This project models the report-processing core of the `devsecops_ai_lab` security pipeline.

- **CI report script** (`scripts/generate_report.py`):
  - holds one list of raw findings per scanner, in insertion order;
  - deduplicates each list on the string key `file:line:id` (first occurrence wins);
  - aggregates a summary with `total_issues` and five severity buckets, plus, per scanner, the deduplicated count and the first ten deduplicated findings.
- **Service report generator** (`services/security-automation/reporting/generate_report.py`):
  - holds five fixed scanner lists, each replaced wholesale by its setter;
  - counts severities over all of them without deduplication.
- **Semgrep and Bandit parsers** (`services/security-automation/parsers/`):
  - deduplicate raw results on `path:start.line:rule_id` and `filename:line_number:test_id`;
  - normalise each kept result into a finding with defaults;
  - report the raw result count, or `failed` when the report cannot be loaded.
- **Vulnerability triager** (`scripts/triage_vulnerabilities.py`):
  - sets aside, into `ignored`, a vulnerability whose package names an ML library and whose description names an accepted risk;
  - routes every other one to the list named by its lower-cased severity;
  - summarises the lists and fails the run when critical or high findings remain.
- **Log analyser** (`scripts/analyze_logs.py`):
  - decodes JSON lines one at a time, skipping bad ones;
  - extracts security events by keyword;
  - counts error and warning levels and the logs of each event type.
- **Keyword threat classifier and batch endpoint** (`services/llm-nlp-service/main.py`).

Layout, one module per source file plus shared modules:

| file | module | models |
|---|---|---|
| `common.dfy` | `Optional`, `Text`, `Sequences` | `dict.get` defaults, load errors, ASCII case mapping, substring test, `str(int)`, subsequences, filter, first match |
| `dedup.dfy` | `Deduplication` | first-seen deduplication by a string key, generic in the record type |
| `severity.dfy` | `Severity` | the finding record and the five-bucket severity count |
| `report_generator.dfy` | `ReportScript` | `scripts/generate_report.py` |
| `security_report.dfy` | `SecurityReport` | `services/security-automation/reporting/generate_report.py` |
| `semgrep_parser.dfy` | `SemgrepParser` | `services/security-automation/parsers/parse_semgrep.py` |
| `bandit_parser.dfy` | `BanditParser` | `services/security-automation/parsers/parse_bandit.py` |
| `triage.dfy` | `Triage` | `scripts/triage_vulnerabilities.py` |
| `log_analysis.dfy` | `LogAnalysis` | `scripts/analyze_logs.py` |
| `threat_classifier.dfy` | `ThreatClassifier` | `services/llm-nlp-service/main.py` |

Conventions:

- JSON objects are datatypes whose optional keys are `Option` fields. `GetOr` reproduces `.get(key, default)`.
- A file that is missing, or a document that fails to load, is an input to the operation: an `Option` or a `Loaded` value.
- Clocks, the BERT score and `str(log)` are parameters.
- Objects whose fields the code updates are classes with `modifies` clauses. Loops are `while` loops, proved against specification functions such as `Dedup`, `Tally`, `TriageAll`, `Filter` and `EventCounts`. Those functions are defined from the back of the sequence, so a forward loop keeps "result so far = specification of the prefix". Lemmas then state what the specification functions mean.
- A missing file, line or id contributes `''`, `0` or `''` to the key.
- A severity that names no bucket is counted nowhere.
- Semgrep's default severity is `"INFO"`.
- In `scripts/generate_report.py`, line 97 tests membership in the whole summary object. So a finding whose severity is `total_issues` increments the total. The model keeps this (`BumpSummary`, `AggregateSummaryCounts`).
- Also kept: the key's `:` separator lets two different `(file, line, id)` triples collide (`KeyCollision`).

## Model

| member | source | states |
|---|---|---|
| Deduplication.DedupKeys | scripts/generate_report.py:63-67 | The output has exactly the keys of the input: every input key reaches the output, and no new key appears. |
| Deduplication.DedupDistinct | scripts/generate_report.py:65-67 | No two output records share a key. |
| Deduplication.DedupSubsequence | scripts/generate_report.py:58-69 | The output is a subsequence of the input, in the original relative order, and is no longer than the input. |
| Deduplication.DedupKeepsFirst | scripts/generate_report.py:63-67 | Every record that is the first with its key is kept. |
| Deduplication.DedupOnlyFirst | scripts/generate_report.py:63-67 | Every kept record is the first input record with its key. |
| Deduplication.DedupKeepsFirstOfEachKey | scripts/generate_report.py:65-67 | The output record with a given key is the first input record with that key. |
| Deduplication.LaterDuplicateIgnored | scripts/generate_report.py:65 | Appending a record whose key was already seen leaves the output unchanged, whatever its other fields. |
| Deduplication.DedupOfDistinct | scripts/generate_report.py:58-69 | Input whose keys are already distinct passes through unchanged. |
| Deduplication.DedupIdempotent | scripts/generate_report.py:58-69 | Deduplicating twice is deduplicating once. |
| Sequences.FilterMembers | scripts/analyze_logs.py:40-42 | A filter keeps exactly the elements passing the test, as a subsequence of the input, and is no longer than the input. |
| Sequences.FilterIdempotent | scripts/analyze_logs.py:40-42 | Filtering twice by the same test is filtering once. |
| Sequences.FirstIndex | scripts/triage_vulnerabilities.py:47-49 | Early-return search: the returned position satisfies the test and no earlier one does. With no result, no position does. |
| Text.LowerIdempotent | scripts/triage_vulnerabilities.py:45-48 | Lower-casing the already lower-cased description again changes nothing. |
| Text.LowerOfUpper | services/llm-nlp-service/main.py:119 | Lower-casing forgets an earlier upper-casing. |
| Severity.TallyCounts | services/security-automation/reporting/generate_report.py:105-109 | Tallying adds to each bucket the number of findings whose lower-cased severity (default "info") is that bucket's name. |
| Severity.TallyAppend | services/security-automation/reporting/generate_report.py:105-106 | Tallying a concatenation is tallying its parts in turn. |
| Severity.CountSeverityAppend | services/security-automation/reporting/generate_report.py:105-106 | Severity counts over a concatenation add up. |
| Severity.BucketsBound | services/security-automation/reporting/generate_report.py:107-108 | Each finding lands in at most one bucket, so the five buckets sum to at most the number of findings. |
| Severity.MissingSeverityIsInfo | services/security-automation/reporting/generate_report.py:107 | A finding without a severity is counted as info. |
| ReportScript.KeyCollision | scripts/generate_report.py:64 | Two different (file, line, id) triples can share a key, because ':' may occur in a file name or an id. |
| ReportScript.KeyDeterminesFields | scripts/generate_report.py:64 | When neither file name contains ':', two findings share a key exactly when they agree on file, line and id (the id may contain ':'), because `str(line)` is injective and colon-free. |
| ReportScript.MissingFieldsCollapse | scripts/generate_report.py:64 | Findings lacking file, line and id all get the key ":0:", and deduplication keeps only the first of them. |
| ReportScript.BumpSummary | scripts/generate_report.py:96-98 | A key of the summary object (the five buckets or "total_issues") adds exactly one to the entries; total_issues grows only for the key "total_issues"; any other key changes nothing. |
| ReportScript.DuplicatePairCollapses | scripts/generate_report.py:63-67 | Two copies of the same finding deduplicate to one. |
| ReportScript.TallySummaryCounts | scripts/generate_report.py:95-98 | Bumping the summary per finding adds the bucket counts, plus one to the total for each severity spelled "total_issues". |
| ReportScript.SixKeysBound | scripts/generate_report.py:96-98 | The five buckets and the "total_issues" key are distinct, so each finding bumps at most one of the six. |
| ReportScript.SummaryOfConcat | scripts/generate_report.py:87-98 | The summary over the per-scanner deduplicated lists equals the tally over their concatenation. The total is the sum of the list lengths plus the "total_issues" severities. |
| ReportScript.AggregateSummaryCounts | scripts/generate_report.py:87-98 | Each bucket counts the deduplicated findings of that severity. total_issues is the sum of the deduplicated counts plus the "total_issues" quirk. The five buckets never exceed total_issues. |
| ReportScript.EmptyListsAllZero | scripts/generate_report.py:73-98 | With every deduplicated list empty, every count and the total are zero. |
| ReportScript.EmptyReportsAllZero | scripts/generate_report.py:73-98 | When no scanner has findings (no report file found), the whole summary is zero. |
| ReportScript.DedupedListsAt | scripts/generate_report.py:87-88 | The list visited for the k-th scanner is the deduplication of that scanner's own list. |
| ReportScript.ByScannerOfMeaning | scripts/generate_report.py:87-92 | Whatever the visiting order, each scanner's by_scanner entry is the report of its own deduplicated list, and only visited scanners have entries. |
| ReportScript.ScannerReportShape | scripts/generate_report.py:88-92 | by_scanner's count is the length of the scanner's deduplicated list, at most the raw length. Its findings are the first min(10, count) deduplicated entries. |
| ReportScript.DedupIsPerScanner | scripts/generate_report.py:87-93 | Deduplication is per scanner: one finding reported by two scanners counts twice. |
| ReportScript.LoadSafetyReport | scripts/generate_report.py:47-56 | The decoded Safety document is used only when it is a JSON array. Any other value, or a missing file, gives []. |
| ReportScript.ReportGenerator.constructor | scripts/generate_report.py:17-25 | The five scanner lists start empty, in the order bandit, semgrep, safety, trivy, pylint. |
| ReportScript.ReportGenerator.SetFindings | scripts/generate_report.py:226-228 | Assigning a scanner's list replaces it, or adds the scanner last. The key order stays consistent with the map. |
| ReportScript.ReportGenerator.DeduplicateFindings | scripts/generate_report.py:58-69 | The loop with a seen set returns exactly Dedup of the input on the file:line:id key. |
| ReportScript.ReportGenerator.CountSeverities | scripts/generate_report.py:95-98 | The inner loop bumps the summary once per deduplicated finding, in order. |
| ReportScript.ReportGenerator.VisitScanner | scripts/generate_report.py:88-98 | One pass of the scanner loop: the entry counts the deduplicated list and holds its first ten findings; the total grows by the deduplicated length; each deduplicated finding bumps the summary once. |
| ReportScript.ReportGenerator.AggregateFindings | scripts/generate_report.py:71-100 | The aggregate carries the given timestamp and the summary over the per-scanner deduplicated lists (buckets ≤ total). Each scanner's by_scanner entry is built from its own deduplicated list. by_severity stays empty. findings is only read. |
| Triage.ShouldIgnore | scripts/triage_vulnerabilities.py:35-51 | Ignore iff an ML library name occurs in the lower-cased package AND a risk phrase occurs in the lower-cased description. The reason is "<reason> - CVE <id>" for the first matching risk (deserialization, pickle, eval). Otherwise the result is (false, ""). |
| Triage.RouteEffect | scripts/triage_vulnerabilities.py:65-77 | One vulnerability extends exactly one list, or none. A severity list gains it only when it is not ignored and its severity names that list. ignored gains an accepted entry or the raw vulnerability. |
| Triage.TriageAllBucket | scripts/triage_vulnerabilities.py:64-77 | Each severity list grows by exactly the vulnerabilities routed to it, in input order, after its old contents. |
| Triage.Route | scripts/triage_vulnerabilities.py:65-77 | One vulnerability adds exactly one entry to the five lists, unless it is neither set aside nor of a known severity, when it adds none. |
| Triage.TriageAllIgnored | scripts/triage_vulnerabilities.py:64-77 | ignored becomes its old entries followed, in input order, by one entry per vulnerability that goes there: {package, id, reason} when set aside, the vulnerability itself when its severity is "ignored". |
| Triage.TriagePartition | scripts/triage_vulnerabilities.py:64-77 | The total of the five lists grows by the number of vulnerabilities minus those dropped for an unknown severity: nothing is counted twice. |
| Triage.IgnoredOnlyToIgnored | scripts/triage_vulnerabilities.py:67-73 | An ignored vulnerability changes only ignored, appending {package, id, reason}. |
| Triage.IgnoredNeverBucketed | scripts/triage_vulnerabilities.py:64-77 | Over a whole report, an ignored vulnerability reaches no severity list. |
| Triage.TriageAllAppend | scripts/triage_vulnerabilities.py:27-33 | The lists persist across reports: triaging two reports in turn is triaging their vulnerabilities in sequence. |
| Triage.SummaryOf | scripts/triage_vulnerabilities.py:84-91 | The five counts add up to the number of list entries, and blocking never exceeds it. |
| Triage.ExitStatus | scripts/triage_vulnerabilities.py:122-124 | The status is 0 or 1, and 0 exactly when the critical and high lists are both empty. |
| Triage.ExitIffBlocking | scripts/triage_vulnerabilities.py:122-124 | The exit status is 1 exactly when blocking (critical + high) is positive, and 0 exactly when it is zero. |
| Triage.TorchPickleIsIgnored | scripts/triage_vulnerabilities.py:41-49 | A torch vulnerability described as "pickle deserialization" matches two risk phrases and is ignored with the justification of the first in table order (deserialization). |
| Triage.TorchPickleDoesNotBlock | scripts/triage_vulnerabilities.py:67-90 | That vulnerability, whatever its severity, goes to ignored and leaves blocking at zero. |
| Triage.VulnerabilityTriager.constructor | scripts/triage_vulnerabilities.py:26-33 | The triager starts with five empty lists. |
| Triage.VulnerabilityTriager.TriageReport | scripts/triage_vulnerabilities.py:53-79 | A load error returns the empty result and leaves the lists unchanged. Otherwise every vulnerability (default []) is routed onto the persistent lists, which are returned. |
| SecurityReport.SecurityReportGenerator.constructor | services/security-automation/reporting/generate_report.py:8-16 | Exactly the five scanner keys, each with an empty list. |
| SecurityReport.SecurityReportGenerator.AddBanditFindings | services/security-automation/reporting/generate_report.py:18-19 | Replaces the bandit list, keeps the key set, changes no other list. |
| SecurityReport.SecurityReportGenerator.AddSemgrepFindings | services/security-automation/reporting/generate_report.py:21-22 | Replaces the semgrep list, keeps the key set, changes no other list. |
| SecurityReport.SecurityReportGenerator.AddSafetyFindings | services/security-automation/reporting/generate_report.py:24-25 | Replaces the safety list, keeps the key set, changes no other list. |
| SecurityReport.SecurityReportGenerator.AddTrivyFindings | services/security-automation/reporting/generate_report.py:27-28 | Replaces the trivy list, keeps the key set, changes no other list. |
| SecurityReport.SecurityReportGenerator.AddThreatDetections | services/security-automation/reporting/generate_report.py:30-31 | Replaces the threats list, keeps the key set, changes no other list. |
| SecurityReport.SecurityReportGenerator.TotalIssues | services/security-automation/reporting/generate_report.py:90 | The sum of the five list lengths is the number of findings over all lists, with no deduplication. |
| SecurityReport.SecurityReportGenerator.TallyList | services/security-automation/reporting/generate_report.py:106-109 | The inner loop bumps the bucket named by each finding's lower-cased severity, once per finding, in order. |
| SecurityReport.SecurityReportGenerator.GenerateSummary | services/security-automation/reporting/generate_report.py:101-111 | Each bucket is the number of findings over all five lists whose lower-cased severity (default info) is its name. The buckets sum to at most the total. The lists are only read. |
| SemgrepParser.Entry | services/security-automation/parsers/parse_semgrep.py:37-46 | file, line and rule_id are copied from the key fields. message defaults to "", severity to "INFO", cwe to []. |
| SemgrepParser.EntryKey | services/security-automation/parsers/parse_semgrep.py:33-43 | An output finding rebuilds the key of the result it came from. |
| SemgrepParser.ExtractedOnePerKey | services/security-automation/parsers/parse_semgrep.py:32-47 | One finding per distinct key: keys are distinct and equal the input's key set. Each finding comes from the first result with its key, and the kept results are a subsequence of the input, in order. The output is no longer than the input. |
| SemgrepParser.LaterDuplicateIgnored | services/security-automation/parsers/parse_semgrep.py:35-36 | A later result with a seen key, whatever its message, does not change the output. |
| SemgrepParser.Parser.constructor | services/security-automation/parsers/parse_semgrep.py:7-9 | The parser starts with no data. |
| SemgrepParser.Parser.ExtractFindings | services/security-automation/parsers/parse_semgrep.py:27-48 | The seen-set loop returns exactly the deduplicated, normalised findings. |
| SemgrepParser.Parser.Parse | services/security-automation/parsers/parse_semgrep.py:11-25 | A load failure gives status failed and leaves data unchanged. Otherwise data is the report, total_findings counts the raw results (≥ the number of findings), and errors defaults to []. |
| BanditParser.Entry | services/security-automation/parsers/parse_bandit.py:37-46 | file, line and type are copied from filename, line_number and test_id. severity and confidence default to "UNKNOWN", message to "". |
| BanditParser.EntryKey | services/security-automation/parsers/parse_bandit.py:33-44 | An output issue rebuilds the key of the result it came from. |
| BanditParser.ExtractedOnePerKey | services/security-automation/parsers/parse_bandit.py:32-47 | One issue per distinct key: keys are distinct and equal the input's key set. Each issue comes from the first result with its key, and the kept results are a subsequence of the input, in order. The output is no longer than the input. |
| BanditParser.LaterDuplicateIgnored | services/security-automation/parsers/parse_bandit.py:35-36 | A later result with a seen key does not change the output. |
| BanditParser.Parser.constructor | services/security-automation/parsers/parse_bandit.py:7-9 | The parser starts with no data. |
| BanditParser.Parser.ExtractIssues | services/security-automation/parsers/parse_bandit.py:27-48 | The seen-set loop returns exactly the deduplicated, normalised issues. |
| BanditParser.Parser.Parse | services/security-automation/parsers/parse_bandit.py:11-25 | A load failure gives status failed and leaves data unchanged. Otherwise data is the report, total_issues counts the raw results (≥ the number of issues), and metrics defaults to {}. |
| LogAnalysis.DecodedCount | scripts/analyze_logs.py:25-30 | Every line is either kept or warned about, so at most all lines are kept. |
| LogAnalysis.DecodedAppend | scripts/analyze_logs.py:25-30 | Lines are handled independently: decoding two parts of a file decodes each part. |
| LogAnalysis.BadLineBetweenGoodOnes | scripts/analyze_logs.py:25-30 | A malformed line between two valid ones: both valid entries are kept in order, with one warning. |
| LogAnalysis.SecurityEventsProperties | scripts/analyze_logs.py:38-44 | The events are exactly the logs whose lower-cased rendering contains a security keyword. They are a subsequence of the logs, and extracting again changes nothing. |
| LogAnalysis.ErrorsAndWarningsBound | scripts/analyze_logs.py:61-65 | A log is an error or a warning, never both, so errors + warnings ≤ total_logs. |
| LogAnalysis.MissingKeysDefaults | scripts/analyze_logs.py:61-67 | A missing level is UNKNOWN (neither error nor warning). A missing type is "unknown". |
| LogAnalysis.EventCountsSum | scripts/analyze_logs.py:67-68 | The values of event_counts sum to the number of logs. |
| LogAnalysis.EventCountsMeaning | scripts/analyze_logs.py:67-68 | event_counts has a key exactly for each type that occurs, with the number of logs of that type. Its values sum to the number of logs. |
| LogAnalysis.LogAnalyzer.constructor | scripts/analyze_logs.py:16-18 | The analyser keeps its log directory. |
| LogAnalysis.LogAnalyzer.ParseJsonLogs | scripts/analyze_logs.py:20-33 | A missing file gives []. Otherwise the decodable lines are kept in file order, and kept plus skipped lines equal the line count. |
| LogAnalysis.LogAnalyzer.ExtractSecurityEvents | scripts/analyze_logs.py:35-44 | Returns the filter of the logs by the keyword test: exactly the logs whose rendering mentions a keyword. |
| LogAnalysis.LogAnalyzer.GenerateSummary | scripts/analyze_logs.py:46-70 | total_logs is the log count, and errors and warnings count upper-cased levels (errors + warnings ≤ total). event_counts holds the per-type counts. security_events is 0 and the timestamp range is None. |
| ThreatClassifier.ClassifyThreat | services/llm-nlp-service/main.py:108-124 | Always one of the six labels. The result is the first category, in table order, with a keyword in the lower-cased text, and "other" exactly when none of the five keyword categories matches. |
| ThreatClassifier.ClassifyIgnoresCase | services/llm-nlp-service/main.py:119 | A text, its lower-case form and its upper-case form get the same label. |
| ThreatClassifier.InjectionBeforeMalware | services/llm-nlp-service/main.py:120-122 | Category order wins, not text order: "Trojan SQL" matches the malware keywords, yet its label is injection. |
| ThreatClassifier.DetectThreat | services/llm-nlp-service/main.py:74-84 | is_threat iff the score reaches the threshold, and the type is the keyword classification. The echoed text is the first 100 characters. |
| ThreatClassifier.CountThreats | services/llm-nlp-service/main.py:100-101 | The number of flagged responses is at most the number of responses. |
| ThreatClassifier.ResponsesMeaning | services/llm-nlp-service/main.py:96-98 | The k-th batch response is the detection of the k-th text. |
| ThreatClassifier.DetectThreatsBatch | services/llm-nlp-service/main.py:90-105 | One response per text, in order, and total_processed equals the number of texts. threats_detected counts the flagged responses and is at most total_processed. |

## Left out

- File reads and writes, `json.load`/`json.dump`, HTML/Jinja rendering, logging and `print`: I/O. This covers `generate_reports`, `generate_json_report`, `generate_html_report`, `export_report` and the file write of the triage `generate_report`. A decoded document, or the per-line decode results, is an input.
- `load_bandit_report` and `load_semgrep_report` of `scripts/generate_report.py`: file reads that return the `results` key. Their outcome is the list given to `SetFindings`.
- `datetime.now()`: the timestamp is a parameter.
- BERT inference (tokeniser, model, softmax): the threat score is a parameter of `DetectThreat`. The score and threshold are `real` and are only compared. The HTTP 500 raised when inference fails is not modelled.
- Python's Unicode `.lower()`/`.upper()`: modelled as ASCII case mapping.
- `str(log)`: a parameter `render`. In Python the rendering includes key names, so a log with a key named, say, `error` is always a security event. The model does not fix the rendering.
- Values of an unexpected JSON type are excluded by the model's types. For example, a non-object log line makes `.get` raise, and a non-string severity makes `.lower()` raise.
- A Safety report that is not valid JSON raises out of `load_safety_report`; that exception is not modelled.
- SemgrepParser.Parser.Parse: a result without `path`, `start.line` or `rule_id` raises `KeyError` in the source. Here all results must have them (a precondition). The same holds for BanditParser.Parser.Parse with `filename`, `line_number` and `test_id`.
- Triage.ShouldIgnore: a non-string CVE id is rendered by `str()` in the source. The model takes the id as a string.
- ReportScript.ReportGenerator.AggregateFindings: `by_scanner` is a map, so the key order of the JSON object is not modelled. The summary does follow the scanners' insertion order.
- Object identity: the `add_*` setters of `services/security-automation/reporting/generate_report.py` store the caller's own list object, and `triage_report` returns the live `findings` dict; the model stores and returns values, so later mutation through an alias is not captured. `LogAnalyzer.__init__` also creates the log directory (file-system I/O).
- `scripts/forward_to_siem.py`, the OAuth2 and API back-end services, the ORM/pydantic models, the Flask and BERT wrappers under `src/`, and the tests are not part of this model.
