/**
  First-seen deduplication by a string key, as the report script and both scanner parsers do it:
  one pass over the records with a set of keys already seen; a record whose key was seen is
  dropped, otherwise its key is recorded and the record is kept.

  `Dedup` is the specification of that pass. It is defined from the back (the result for all
  but the last record, then the last record if its key is new), so that a loop running forward
  keeps `unique == Dedup(xs[..i], key)` and `seen == KeysOf(unique, key)`.
*/
module Deduplication {
  import opened Sequences

  /** The keys of the records of `xs`. */
  function KeysOf<T>(xs: seq<T>, key: T -> string): set<string> {
    set i | 0 <= i < |xs| :: key(xs[i])
  }

  /** The records of `xs` whose key has not occurred earlier in `xs`, in their original order. */
  function Dedup<T>(xs: seq<T>, key: T -> string): seq<T> {
    if xs == [] then []
    else
      var kept := Dedup(xs[..|xs| - 1], key);
      if key(xs[|xs| - 1]) in KeysOf(kept, key) then kept else kept + [xs[|xs| - 1]]
  }

  /** No two records of `xs` share a key. */
  ghost predicate DistinctKeys<T>(xs: seq<T>, key: T -> string) {
    forall i, j :: 0 <= i < j < |xs| ==> key(xs[i]) != key(xs[j])
  }

  /** `xs[i]` exists and is the first record of `xs` with its key. */
  ghost predicate FirstAt<T>(xs: seq<T>, key: T -> string, i: int) {
    0 <= i < |xs| && key(xs[i]) !in KeysOf(xs[..i], key)
  }

  lemma KeysOfSnoc<T>(xs: seq<T>, x: T, key: T -> string)
    ensures KeysOf(xs + [x], key) == KeysOf(xs, key) + {key(x)}
  {
    var ys := xs + [x];
    assert key(ys[|xs|]) == key(x);
    forall k | k in KeysOf(xs, key)
      ensures k in KeysOf(ys, key)
    {
      var i :| 0 <= i < |xs| && key(xs[i]) == k;
      assert ys[i] == xs[i];
    }
  }

  lemma KeysOfPrefix<T>(xs: seq<T>, i: int, j: int, key: T -> string)
    requires 0 <= i <= j <= |xs|
    ensures KeysOf(xs[..i], key) <= KeysOf(xs[..j], key)
  {
    forall k | k in KeysOf(xs[..i], key)
      ensures k in KeysOf(xs[..j], key)
    {
      var m :| 0 <= m < i && key(xs[..i][m]) == k;
      assert xs[..j][m] == xs[..i][m];
    }
  }

  /** Deduplication keeps every key that occurs in the input, and no other. */
  lemma {:induction false} DedupKeys<T>(xs: seq<T>, key: T -> string)
    ensures KeysOf(Dedup(xs, key), key) == KeysOf(xs, key)
  {
    if xs != [] {
      var init, last := xs[..|xs| - 1], xs[|xs| - 1];
      assert xs == init + [last];
      DedupKeys(init, key);
      KeysOfSnoc(init, last, key);
      KeysOfSnoc(Dedup(init, key), last, key);
    }
  }

  /** No two records of the output share a key. */
  lemma {:induction false} DedupDistinct<T>(xs: seq<T>, key: T -> string)
    ensures DistinctKeys(Dedup(xs, key), key)
  {
    if xs != [] {
      var init, last := xs[..|xs| - 1], xs[|xs| - 1];
      DedupDistinct(init, key);
      var kept := Dedup(init, key);
      if key(last) !in KeysOf(kept, key) {
        var r := kept + [last];
        forall i, j | 0 <= i < j < |r|
          ensures key(r[i]) != key(r[j])
        {
          if j == |kept| {
            assert key(r[i]) in KeysOf(kept, key);
          }
        }
      }
    }
  }

  lemma {:induction false} DedupEmbeds<T>(xs: seq<T>, key: T -> string) returns (idx: seq<nat>)
    ensures Embeds(Dedup(xs, key), xs, idx)
  {
    if xs == [] {
      idx := [];
    } else {
      var init, last := xs[..|xs| - 1], xs[|xs| - 1];
      assert xs == init + [last];
      idx := DedupEmbeds(init, key);
      EmbedsSnoc(Dedup(init, key), init, idx, last);
      if key(last) !in KeysOf(Dedup(init, key), key) {
        idx := idx + [|init|];
      }
    }
  }

  /** The output is the input with records removed and the rest in their original order. */
  lemma DedupSubsequence<T>(xs: seq<T>, key: T -> string)
    ensures IsSubsequence(Dedup(xs, key), xs)
    ensures |Dedup(xs, key)| <= |xs|
  {
    var idx := DedupEmbeds(xs, key);
    if |Dedup(xs, key)| > |xs| {
      // the increasing positions idx[0] < ... < idx[|xs|] would all lie below |xs|
      IncreasingBound(idx, |xs|);
    }
  }

  lemma {:induction false} IncreasingBound(idx: seq<nat>, n: nat)
    requires forall k :: 0 <= k < |idx| ==> idx[k] < n
    requires forall k, l :: 0 <= k < l < |idx| ==> idx[k] < idx[l]
    ensures |idx| <= n
  {
    if idx != [] {
      var init := idx[..|idx| - 1];
      IncreasingBound(init, idx[|idx| - 1]);
    }
  }

  /** Every record that is the first with its key is kept. */
  lemma {:induction false} DedupKeepsFirst<T>(xs: seq<T>, key: T -> string)
    ensures forall i :: FirstAt(xs, key, i) ==> xs[i] in Dedup(xs, key)
  {
    if xs != [] {
      var init, last := xs[..|xs| - 1], xs[|xs| - 1];
      DedupKeepsFirst(init, key);
      DedupKeys(init, key);
      forall i | FirstAt(xs, key, i)
        ensures xs[i] in Dedup(xs, key)
      {
        if i < |init| {
          assert xs[..i] == init[..i];
          assert FirstAt(init, key, i);
        } else {
          assert xs[..i] == init;
        }
      }
    }
  }

  /** Every kept record is the first record of the input with its key. */
  lemma DedupOnlyFirst<T>(xs: seq<T>, key: T -> string)
    ensures forall x :: x in Dedup(xs, key) ==> exists i :: FirstAt(xs, key, i) && xs[i] == x
  {
    forall x | x in Dedup(xs, key)
      ensures exists i :: FirstAt(xs, key, i) && xs[i] == x
    {
      var j :| 0 <= j < |Dedup(xs, key)| && Dedup(xs, key)[j] == x;
      var i := DedupOriginOf(xs, key, j);
    }
  }

  lemma {:induction false} DedupOriginOf<T>(xs: seq<T>, key: T -> string, j: int) returns (i: int)
    requires 0 <= j < |Dedup(xs, key)|
    ensures FirstAt(xs, key, i) && xs[i] == Dedup(xs, key)[j]
  {
    var init, last := xs[..|xs| - 1], xs[|xs| - 1];
    DedupKeys(init, key);
    var kept := Dedup(init, key);
    if j < |kept| {
      i := DedupOriginOf(init, key, j);
      assert xs[..i] == init[..i];
    } else {
      i := |init|;
      assert xs[..i] == init;
    }
  }

  /** For each key, the record kept is the first input record with that key. */
  lemma DedupKeepsFirstOfEachKey<T>(xs: seq<T>, key: T -> string, i: int, j: int)
    requires FirstAt(xs, key, i)
    requires 0 <= j < |Dedup(xs, key)| && key(Dedup(xs, key)[j]) == key(xs[i])
    ensures Dedup(xs, key)[j] == xs[i]
  {
    var i' := DedupOriginOf(xs, key, j);
  }

  /** A record arriving after one with the same key leaves the output unchanged,
      whatever its other fields. */
  lemma LaterDuplicateIgnored<T>(xs: seq<T>, y: T, key: T -> string)
    requires key(y) in KeysOf(xs, key)
    ensures Dedup(xs + [y], key) == Dedup(xs, key)
  {
    var ys := xs + [y];
    assert ys[..|ys| - 1] == xs && ys[|ys| - 1] == y;
    DedupKeys(xs, key);
    assert key(y) in KeysOf(Dedup(xs, key), key);
  }

  /** Input whose keys are already distinct passes through unchanged. */
  lemma {:induction false} DedupOfDistinct<T>(xs: seq<T>, key: T -> string)
    requires DistinctKeys(xs, key)
    ensures Dedup(xs, key) == xs
  {
    if xs != [] {
      var init, last := xs[..|xs| - 1], xs[|xs| - 1];
      assert xs == init + [last];
      DedupOfDistinct(init, key);
    }
  }

  /** Deduplicating an already deduplicated list changes nothing. */
  lemma DedupIdempotent<T>(xs: seq<T>, key: T -> string)
    ensures Dedup(Dedup(xs, key), key) == Dedup(xs, key)
  {
    DedupDistinct(xs, key);
    DedupOfDistinct(Dedup(xs, key), key);
  }
}
