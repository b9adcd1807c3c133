/**
  The JSON-lines log analyser (scripts/analyze_logs.py): lines are decoded one at a time and
  undecodable ones skipped; security events are the logs whose rendering mentions a security
  keyword; the summary counts error and warning levels and the logs of each event type.
*/
module LogAnalysis {
  import opened Optional
  import opened Text
  import opened Sequences

  /** One decoded log line: a JSON object, of which the analyser reads `level` and `type`. */
  datatype LogRecord = LogRecord(level: Option<string>, eventType: Option<string>, fields: map<string, string>)

  /** The logs decoded from the per-line results, in file order; `None` marks a line that is not JSON. */
  function Decoded(lines: seq<Option<LogRecord>>): seq<LogRecord> {
    if lines == [] then []
    else
      var logs := Decoded(lines[..|lines| - 1]);
      match lines[|lines| - 1]
      case Some(log) => logs + [log]
      case None => logs
  }

  /** The number of lines that are not JSON (one warning is logged for each). */
  function BadLines(lines: seq<Option<LogRecord>>): nat {
    if lines == [] then 0 else BadLines(lines[..|lines| - 1]) + (if lines[|lines| - 1].None? then 1 else 0)
  }

  /** Every line is either kept or warned about, so at most all lines are kept. */
  lemma {:induction false} DecodedCount(lines: seq<Option<LogRecord>>)
    ensures |Decoded(lines)| + BadLines(lines) == |lines|
    ensures |Decoded(lines)| <= |lines|
  {
    if lines != [] {
      DecodedCount(lines[..|lines| - 1]);
    }
  }

  /** Lines are handled independently: decoding a file split in two decodes each part. */
  lemma {:induction false} DecodedAppend(a: seq<Option<LogRecord>>, b: seq<Option<LogRecord>>)
    ensures Decoded(a + b) == Decoded(a) + Decoded(b)
    ensures BadLines(a + b) == BadLines(a) + BadLines(b)
  {
    if b == [] {
      assert a + b == a;
    } else {
      assert (a + b)[..|a + b| - 1] == a + b[..|b| - 1];
      DecodedAppend(a, b[..|b| - 1]);
    }
  }

  /** A bad line between two good ones: both good lines are kept, in order, and one warning is logged. */
  lemma BadLineBetweenGoodOnes(x: LogRecord, y: LogRecord)
    ensures Decoded([Some(x), None, Some(y)]) == [x, y]
    ensures BadLines([Some(x), None, Some(y)]) == 1
  {
    var lines := [Some(x), None, Some(y)];
    assert lines[..2] == [Some(x), None];
    assert lines[..2][..1] == [Some(x)];
    assert lines[..2][..1][..0] == [];
    assert Decoded(lines[..1]) == [x];
    assert Decoded(lines[..2]) == [x];
    assert BadLines(lines[..1]) == 0;
    assert BadLines(lines[..2]) == 1;
  }

  /** The security keywords, matched in the lower-cased rendering of a log. */
  const SecurityKeywords: seq<string> := ["threat", "error", "unauthorized", "injection", "attack"]

  /** The lower-cased rendering `text` mentions a security keyword. */
  predicate MentionsSecurity(text: string) {
    exists keyword | keyword in SecurityKeywords :: Contains(text, keyword)
  }

  /** The test applied to each log: `render` stands for Python's `str(log)`. */
  function IsSecurityEvent(render: LogRecord -> string): LogRecord -> bool {
    log => MentionsSecurity(Lower(render(log)))
  }

  /**
    The security events are, in order, exactly the logs that pass the test: a subsequence of
    the logs, and extracting again from them changes nothing.
  */
  lemma SecurityEventsProperties(logs: seq<LogRecord>, render: LogRecord -> string)
    ensures IsSubsequence(Filter(logs, IsSecurityEvent(render)), logs)
    ensures forall log :: log in Filter(logs, IsSecurityEvent(render)) <==>
      log in logs && MentionsSecurity(Lower(render(log)))
    ensures Filter(Filter(logs, IsSecurityEvent(render)), IsSecurityEvent(render))
         == Filter(logs, IsSecurityEvent(render))
  {
    FilterMembers(logs, IsSecurityEvent(render));
    FilterIdempotent(logs, IsSecurityEvent(render));
  }

  /** `log.get("level", "unknown").upper()` */
  function LevelOf(log: LogRecord): string {
    Upper(log.level.GetOr("unknown"))
  }

  /** `log.get("type", "unknown")` */
  function TypeOf(log: LogRecord): string {
    log.eventType.GetOr("unknown")
  }

  /** The number of logs whose upper-cased level is `level`. */
  function CountLevel(logs: seq<LogRecord>, level: string): nat {
    if logs == [] then 0
    else CountLevel(logs[..|logs| - 1], level) + (if LevelOf(logs[|logs| - 1]) == level then 1 else 0)
  }

  /** The number of logs whose type is `t`. */
  function CountType(logs: seq<LogRecord>, t: string): nat {
    if logs == [] then 0
    else CountType(logs[..|logs| - 1], t) + (if TypeOf(logs[|logs| - 1]) == t then 1 else 0)
  }

  /** A log is an error or a warning, never both, so these two counts never exceed the total. */
  lemma {:induction false} ErrorsAndWarningsBound(logs: seq<LogRecord>)
    ensures CountLevel(logs, "ERROR") + CountLevel(logs, "WARNING") <= |logs|
  {
    if logs != [] {
      ErrorsAndWarningsBound(logs[..|logs| - 1]);
    }
  }

  /** A log without a level has level UNKNOWN, neither error nor warning; one without a type is of type "unknown". */
  lemma MissingKeysDefaults(log: LogRecord)
    ensures log.level.None? ==> LevelOf(log) == "UNKNOWN"
    ensures log.eventType.None? ==> TypeOf(log) == "unknown"
  {
  }

  /** The `event_counts` map built by the loop. */
  function EventCounts(logs: seq<LogRecord>): map<string, nat> {
    if logs == [] then map[]
    else
      var m, t := EventCounts(logs[..|logs| - 1]), TypeOf(logs[|logs| - 1]);
      m[t := (if t in m then m[t] else 0) + 1]
  }

  /** The sum of the values of a map. */
  ghost function SumValues(m: map<string, nat>): nat
    decreases |m|
  {
    if m == map[] then 0
    else
      var k :| k in m;
      m[k] + SumValues(m - {k})
  }

  lemma {:induction false} SumValuesRemove(m: map<string, nat>, k: string)
    requires k in m
    ensures SumValues(m) == m[k] + SumValues(m - {k})
    decreases |m|
  {
    var j :| j in m && SumValues(m) == m[j] + SumValues(m - {j});
    if j != k {
      SumValuesRemove(m - {j}, k);
      SumValuesRemove(m - {k}, j);
      assert m - {j} - {k} == m - {k} - {j};
    }
  }

  lemma SumValuesBump(m: map<string, nat>, t: string)
    ensures SumValues(m[t := (if t in m then m[t] else 0) + 1]) == SumValues(m) + 1
  {
    var m' := m[t := (if t in m then m[t] else 0) + 1];
    SumValuesRemove(m', t);
    assert m' - {t} == m - {t};
    if t in m {
      SumValuesRemove(m, t);
    } else {
      assert m - {t} == m;
    }
  }

  /** The counts add up to the number of logs. */
  lemma {:induction false} EventCountsSum(logs: seq<LogRecord>)
    ensures SumValues(EventCounts(logs)) == |logs|
  {
    if logs != [] {
      var init := logs[..|logs| - 1];
      EventCountsSum(init);
      SumValuesBump(EventCounts(init), TypeOf(logs[|logs| - 1]));
    } else {
      assert EventCounts(logs) == map[];
    }
  }

  /**
    Each event type that occurs has as its count the number of logs of that type, no other
    type appears, and the counts add up to the number of logs.
  */
  lemma {:induction false} EventCountsMeaning(logs: seq<LogRecord>)
    ensures forall t :: t in EventCounts(logs) <==> CountType(logs, t) > 0
    ensures forall t :: t in EventCounts(logs) ==> EventCounts(logs)[t] == CountType(logs, t)
    ensures SumValues(EventCounts(logs)) == |logs|
  {
    EventCountsSum(logs);
    if logs != [] {
      EventCountsMeaning(logs[..|logs| - 1]);
    }
  }

  /** One more log: the counts of the prefix grow by that log alone. */
  lemma CountsSnoc(logs: seq<LogRecord>, i: nat)
    requires i < |logs|
    ensures var log, prefix, next := logs[i], logs[..i], logs[..i + 1];
      && CountLevel(next, "ERROR") == CountLevel(prefix, "ERROR") + (if LevelOf(log) == "ERROR" then 1 else 0)
      && CountLevel(next, "WARNING") == CountLevel(prefix, "WARNING") + (if LevelOf(log) == "WARNING" then 1 else 0)
      && var m, t := EventCounts(prefix), TypeOf(log);
         EventCounts(next) == m[t := (if t in m then m[t] else 0) + 1]
  {
    assert logs[..i + 1][..i] == logs[..i];
  }

  /** The result of `generate_summary`. */
  datatype LogSummary = LogSummary(
    totalLogs: nat,
    securityEvents: nat,
    errors: nat,
    warnings: nat,
    start: Option<string>,
    end: Option<string>,
    eventCounts: map<string, nat>)

  class LogAnalyzer {
    const logDir: string

    constructor (logDir: string)
      ensures this.logDir == logDir
    {
      this.logDir := logDir;
    }

    /**
      `parse_json_logs`, with the file given as its per-line decode results (`None` for a
      missing file): every decodable line is kept, in file order.
    */
    method ParseJsonLogs(file: Option<seq<Option<LogRecord>>>) returns (logs: seq<LogRecord>)
      ensures file.None? ==> logs == []
      ensures file.Some? ==> logs == Decoded(file.value)
      ensures file.Some? ==> |logs| + BadLines(file.value) == |file.value|
    {
      logs := [];
      if file.None? {
        return;
      }
      var lines := file.value;
      var i := 0;
      while i < |lines|
        invariant 0 <= i <= |lines|
        invariant logs == Decoded(lines[..i])
      {
        assert lines[..i + 1][..i] == lines[..i];
        if lines[i].Some? {
          logs := logs + [lines[i].value];
        }
        i := i + 1;
      }
      assert lines[..|lines|] == lines;
      DecodedCount(lines);
    }

    /** `extract_security_events`: the logs whose rendering mentions a security keyword, in order. */
    method ExtractSecurityEvents(logs: seq<LogRecord>, render: LogRecord -> string) returns (events: seq<LogRecord>)
      ensures events == Filter(logs, IsSecurityEvent(render))
      ensures forall log :: log in events <==> log in logs && MentionsSecurity(Lower(render(log)))
    {
      events := [];
      var i := 0;
      while i < |logs|
        invariant 0 <= i <= |logs|
        invariant events == Filter(logs[..i], IsSecurityEvent(render))
      {
        assert logs[..i + 1][..i] == logs[..i];
        var text := Lower(render(logs[i]));
        if exists keyword | keyword in SecurityKeywords :: Contains(text, keyword) {
          events := events + [logs[i]];
        }
        i := i + 1;
      }
      assert logs[..|logs|] == logs;
      SecurityEventsProperties(logs, render);
    }

    /**
      `generate_summary`: the total, the error and warning counts and the per-type counts;
      `security_events` and the timestamp range are never updated.
    */
    method GenerateSummary(logs: seq<LogRecord>) returns (s: LogSummary)
      ensures s.totalLogs == |logs|
      ensures s.securityEvents == 0 && s.start.None? && s.end.None?
      ensures s.errors == CountLevel(logs, "ERROR") && s.warnings == CountLevel(logs, "WARNING")
      ensures s.errors + s.warnings <= s.totalLogs
      ensures forall t :: t in s.eventCounts <==> CountType(logs, t) > 0
      ensures forall t :: t in s.eventCounts ==> s.eventCounts[t] == CountType(logs, t)
      ensures s.eventCounts == EventCounts(logs)
    {
      s := LogSummary(|logs|, 0, 0, 0, None, None, map[]);
      var i := 0;
      while i < |logs|
        invariant 0 <= i <= |logs|
        invariant s.totalLogs == |logs| && s.securityEvents == 0 && s.start.None? && s.end.None?
        invariant s.errors == CountLevel(logs[..i], "ERROR") && s.warnings == CountLevel(logs[..i], "WARNING")
        invariant s.eventCounts == EventCounts(logs[..i])
      {
        CountsSnoc(logs, i);
        var log := logs[i];
        var level := Upper(log.level.GetOr("unknown"));
        if level == "ERROR" {
          s := s.(errors := s.errors + 1);
        } else if level == "WARNING" {
          s := s.(warnings := s.warnings + 1);
        }
        var eventType := log.eventType.GetOr("unknown");
        var previous := if eventType in s.eventCounts then s.eventCounts[eventType] else 0;
        s := s.(eventCounts := s.eventCounts[eventType := previous + 1]);
        i := i + 1;
      }
      assert logs[..|logs|] == logs;
      ErrorsAndWarningsBound(logs);
      EventCountsMeaning(logs);
    }
  }
}
