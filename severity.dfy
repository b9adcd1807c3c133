/**
  The finding record the two report generators read, and the five-bucket severity count they
  share: a finding's severity (default "info") is lower-cased and counted in the bucket of that
  name when there is one; any other value is counted nowhere.
*/
module Severity {
  import opened Optional
  import opened Text

  /** A finding as the report generators see it: a JSON object whose keys may be missing. */
  datatype Finding = Finding(
    file: Option<string>,
    line: Option<int>,
    id: Option<string>,
    severity: Option<string>,
    message: Option<string>)

  /** `finding.get("severity", "info").lower()` */
  function SeverityKey(f: Finding): string {
    Lower(f.severity.GetOr("info"))
  }

  /** The five severity buckets. */
  datatype Counts = Counts(critical: nat, high: nat, medium: nat, low: nat, info: nat) {
    function Sum(): nat {
      critical + high + medium + low + info
    }
  }

  const NoCounts := Counts(0, 0, 0, 0, 0)

  /** Adds one to the bucket named `key`; a name that is not a bucket changes nothing. */
  function Bump(c: Counts, key: string): Counts {
    if key == "critical" then c.(critical := c.critical + 1)
    else if key == "high" then c.(high := c.high + 1)
    else if key == "medium" then c.(medium := c.medium + 1)
    else if key == "low" then c.(low := c.low + 1)
    else if key == "info" then c.(info := c.info + 1)
    else c
  }

  /** The buckets after bumping once per finding of `fs`, in order, starting from `c`. */
  function Tally(c: Counts, fs: seq<Finding>): Counts {
    if fs == [] then c else Bump(Tally(c, fs[..|fs| - 1]), SeverityKey(fs[|fs| - 1]))
  }

  /** The number of findings of `fs` whose severity key is `key`. */
  function CountSeverity(fs: seq<Finding>, key: string): nat {
    if fs == [] then 0
    else CountSeverity(fs[..|fs| - 1], key) + (if SeverityKey(fs[|fs| - 1]) == key then 1 else 0)
  }

  /** Tallying adds, to each bucket, the number of findings whose severity key names it. */
  lemma {:induction false} TallyCounts(c: Counts, fs: seq<Finding>)
    ensures Tally(c, fs) == Counts(
      c.critical + CountSeverity(fs, "critical"),
      c.high + CountSeverity(fs, "high"),
      c.medium + CountSeverity(fs, "medium"),
      c.low + CountSeverity(fs, "low"),
      c.info + CountSeverity(fs, "info"))
  {
    if fs != [] {
      TallyCounts(c, fs[..|fs| - 1]);
    }
  }

  /** Tallying a concatenation is tallying its two parts one after the other. */
  lemma {:induction false} TallyAppend(c: Counts, a: seq<Finding>, b: seq<Finding>)
    ensures Tally(c, a + b) == Tally(Tally(c, a), b)
  {
    if b == [] {
      assert a + b == a;
    } else {
      assert (a + b)[..|a + b| - 1] == a + b[..|b| - 1];
      TallyAppend(c, a, b[..|b| - 1]);
    }
  }

  /** Counting over a concatenation adds the counts of its parts. */
  lemma {:induction false} CountSeverityAppend(a: seq<Finding>, b: seq<Finding>, key: string)
    ensures CountSeverity(a + b, key) == CountSeverity(a, key) + CountSeverity(b, key)
  {
    if b == [] {
      assert a + b == a;
    } else {
      assert (a + b)[..|a + b| - 1] == a + b[..|b| - 1];
      CountSeverityAppend(a, b[..|b| - 1], key);
    }
  }

  /** Each finding lands in at most one bucket, so the buckets hold at most all findings. */
  lemma {:induction false} BucketsBound(fs: seq<Finding>)
    ensures CountSeverity(fs, "critical") + CountSeverity(fs, "high") + CountSeverity(fs, "medium")
          + CountSeverity(fs, "low") + CountSeverity(fs, "info") <= |fs|
  {
    if fs != [] {
      BucketsBound(fs[..|fs| - 1]);
    }
  }

  /** A finding without a severity is counted as info. */
  lemma MissingSeverityIsInfo(f: Finding)
    requires f.severity.None?
    ensures Bump(NoCounts, SeverityKey(f)) == NoCounts.(info := 1)
  {
    LowerOfLowercase("info");
  }
}
