/** The optional values that Python's `dict.get(key, default)` reads: a key is present or not. */
module Optional {

  datatype Option<+T> = None | Some(value: T) {

    /** The value when present, otherwise `default` (Python's `d.get(key, default)`). */
    function GetOr(default: T): T {
      match this
      case Some(v) => v
      case None => default
    }
  }

  /** The outcome of reading and decoding one JSON document: the document, or the error text. */
  datatype Loaded<+T> = Loaded(doc: T) | LoadFailed(error: string)
}

/** String operations the scripts use: ASCII case mapping, substring test, decimal rendering. */
module Text {

  function LowerChar(c: char): char {
    if 'A' <= c <= 'Z' then (c as int + 32) as char else c
  }

  function UpperChar(c: char): char {
    if 'a' <= c <= 'z' then (c as int - 32) as char else c
  }

  /** `s.lower()`, restricted to ASCII letters. */
  function Lower(s: string): (r: string)
    ensures |r| == |s|
    ensures forall i :: 0 <= i < |s| ==> r[i] == LowerChar(s[i])
  {
    seq(|s|, i requires 0 <= i < |s| => LowerChar(s[i]))
  }

  /** `s.upper()`, restricted to ASCII letters. */
  function Upper(s: string): (r: string)
    ensures |r| == |s|
    ensures forall i :: 0 <= i < |s| ==> r[i] == UpperChar(s[i])
  {
    seq(|s|, i requires 0 <= i < |s| => UpperChar(s[i]))
  }

  /** `sub` occurs in `s` starting at position `i`. */
  predicate OccursAt(s: string, sub: string, i: int) {
    0 <= i <= |s| - |sub| && s[i..i + |sub|] == sub
  }

  /** Python's `sub in s`; the empty string is contained in every string. */
  predicate Contains(s: string, sub: string) {
    exists i | 0 <= i <= |s| :: OccursAt(s, sub, i)
  }

  /** A string without upper-case ASCII letters is its own lower-case form. */
  lemma LowerOfLowercase(s: string)
    requires forall i :: 0 <= i < |s| ==> !('A' <= s[i] <= 'Z')
    ensures Lower(s) == s
  {
  }

  /** Lower-casing twice is lower-casing once. */
  lemma LowerIdempotent(s: string)
    ensures Lower(Lower(s)) == Lower(s)
  {
  }

  /** Lower-casing forgets an earlier upper-casing. */
  lemma LowerOfUpper(s: string)
    ensures Lower(Upper(s)) == Lower(s)
  {
  }

  function DigitChar(d: nat): char
    requires d < 10
  {
    ('0' as int + d) as char
  }

  function NatToString(n: nat): (r: string)
    ensures |r| > 0
  {
    if n < 10 then [DigitChar(n)] else NatToString(n / 10) + [DigitChar(n % 10)]
  }

  /** Python's `str(n)` for an integer (what an f-string inserts). */
  function IntToString(n: int): string
    decreases if n < 0 then 1 else 0
  {
    if n < 0 then "-" + IntToString(-n) else NatToString(n)
  }

  /** A decimal rendering is made of digits only. */
  lemma {:induction false} NatToStringDigits(n: nat)
    ensures forall i :: 0 <= i < |NatToString(n)| ==> '0' <= NatToString(n)[i] <= '9'
  {
    if n >= 10 {
      NatToStringDigits(n / 10);
    }
  }

  /** Different numbers have different decimal renderings. */
  lemma {:induction false} NatToStringInjective(m: nat, n: nat)
    requires NatToString(m) == NatToString(n)
    ensures m == n
    decreases m
  {
    var s := NatToString(m);
    if m < 10 && n < 10 {
      assert s[0] == DigitChar(m) && s[0] == DigitChar(n);
    } else if m >= 10 && n >= 10 {
      var k := |s| - 1;
      assert s[k] == DigitChar(m % 10) && s[k] == DigitChar(n % 10);
      assert s[..k] == NatToString(m / 10) && s[..k] == NatToString(n / 10);
      NatToStringInjective(m / 10, n / 10);
    }
    // otherwise one rendering has a single digit and the other at least two, so they differ
  }

  /** `str(n)` never contains a colon: it is a minus sign and digits. */
  lemma IntToStringNoColon(n: int)
    ensures ':' !in IntToString(n)
  {
    NatToStringDigits(if n < 0 then -n else n);
  }

  /** In `a + ":" + r` with colon-free `a`, the first colon is at position `|a|`. */
  lemma FirstColonAt(a: string, r: string)
    requires ':' !in a
    ensures (a + ":" + r)[|a|] == ':'
    ensures forall i :: 0 <= i < |a| ==> (a + ":" + r)[i] != ':'
  {
    forall i | 0 <= i < |a|
      ensures (a + ":" + r)[i] != ':'
    {
      assert (a + ":" + r)[i] == a[i];
    }
  }

  /** Text before the first colon: a colon-free head is recovered from `head + ":" + rest`. */
  lemma SplitAtFirstColon(a: string, r: string, a2: string, r2: string)
    requires ':' !in a && ':' !in a2
    requires a + ":" + r == a2 + ":" + r2
    ensures a == a2 && r == r2
  {
    var s := a + ":" + r;
    FirstColonAt(a, r);
    FirstColonAt(a2, r2);
    assert |a| == |a2|;
    assert a == s[..|a|] && a2 == s[..|a2|];
    assert r == s[|a| + 1..] && r2 == s[|a2| + 1..];
  }

  /** `a:b:c` with colon-free `a` and `b` determines all three parts; `c` may contain colons. */
  lemma SplitTwoColons(a: string, b: string, c: string, a2: string, b2: string, c2: string)
    requires ':' !in a && ':' !in b && ':' !in a2 && ':' !in b2
    requires a + ":" + b + ":" + c == a2 + ":" + b2 + ":" + c2
    ensures a == a2 && b == b2 && c == c2
  {
    assert a + ":" + b + ":" + c == a + ":" + (b + ":" + c);
    assert a2 + ":" + b2 + ":" + c2 == a2 + ":" + (b2 + ":" + c2);
    SplitAtFirstColon(a, b + ":" + c, a2, b2 + ":" + c2);
    SplitAtFirstColon(b, c, b2, c2);
  }

  /** `str(n)` starts with '-' exactly when `n` is negative. */
  lemma IntToStringSign(n: int)
    ensures |IntToString(n)| > 0 && (IntToString(n)[0] == '-' <==> n < 0)
  {
    NatToStringDigits(if n < 0 then -n else n);
  }

  /** Different integers have different `str` renderings. */
  lemma IntToStringInjective(m: int, n: int)
    requires IntToString(m) == IntToString(n)
    ensures m == n
  {
    var s := IntToString(m);
    if m < 0 && n < 0 {
      assert s[1..] == NatToString(-m) && s[1..] == NatToString(-n);
      NatToStringInjective(-m, -n);
    } else if m >= 0 && n >= 0 {
      NatToStringInjective(m, n);
    } else {
      // one rendering starts with '-', the other with a digit
      IntToStringSign(m);
      IntToStringSign(n);
    }
  }
}

/** Order-preserving selections of sequences. */
module Sequences {
  import opened Optional

  /** `idx` lists, in increasing order, positions of `b` that spell out `a`. */
  ghost predicate Embeds<T>(a: seq<T>, b: seq<T>, idx: seq<nat>) {
    && |idx| == |a|
    && (forall k :: 0 <= k < |a| ==> idx[k] < |b| && a[k] == b[idx[k]])
    && (forall k, l :: 0 <= k < l < |a| ==> idx[k] < idx[l])
  }

  /** `a` is `b` with some elements removed and the rest kept in their original order. */
  ghost predicate IsSubsequence<T>(a: seq<T>, b: seq<T>) {
    exists idx :: Embeds(a, b, idx)
  }

  /** An embedding survives appending to the larger sequence, and extends by a shared last element. */
  lemma EmbedsSnoc<T>(a: seq<T>, b: seq<T>, idx: seq<nat>, x: T)
    requires Embeds(a, b, idx)
    ensures Embeds(a, b + [x], idx)
    ensures Embeds(a + [x], b + [x], idx + [|b|])
  {
  }

  /** The sequences of `xss`, one after the other. */
  function Concat<T>(xss: seq<seq<T>>): seq<T> {
    if xss == [] then [] else Concat(xss[..|xss| - 1]) + xss[|xss| - 1]
  }

  /** The position of the first element of `xs` that satisfies `p`, if there is one. */
  function FirstIndex<T>(xs: seq<T>, p: T -> bool): (r: Option<nat>)
    ensures r.Some? ==> r.value < |xs| && p(xs[r.value])
    ensures r.Some? ==> forall k :: 0 <= k < r.value ==> !p(xs[k])
    ensures r.None? ==> forall k :: 0 <= k < |xs| ==> !p(xs[k])
  {
    if xs == [] then None
    else if p(xs[0]) then Some(0)
    else
      match FirstIndex(xs[1..], p)
      case None => None
      case Some(k) => Some(k + 1)
  }

  /** `f` applied to every element of `xs`, in order. */
  function Map<T, U>(xs: seq<T>, f: T -> U): (r: seq<U>)
    ensures |r| == |xs|
    ensures forall i :: 0 <= i < |xs| ==> r[i] == f(xs[i])
  {
    seq(|xs|, i requires 0 <= i < |xs| => f(xs[i]))
  }

  lemma MapSnoc<T, U>(xs: seq<T>, x: T, f: T -> U)
    ensures Map(xs + [x], f) == Map(xs, f) + [f(x)]
  {
  }

  /** The elements of `xs` satisfying `p`, in order. */
  function Filter<T>(xs: seq<T>, p: T -> bool): seq<T> {
    if xs == [] then []
    else
      var kept := Filter(xs[..|xs| - 1], p);
      if p(xs[|xs| - 1]) then kept + [xs[|xs| - 1]] else kept
  }

  lemma {:induction false} FilterEmbeds<T>(xs: seq<T>, p: T -> bool) returns (idx: seq<nat>)
    ensures Embeds(Filter(xs, p), xs, idx)
  {
    if xs == [] {
      idx := [];
    } else {
      var init, last := xs[..|xs| - 1], xs[|xs| - 1];
      assert xs == init + [last];
      idx := FilterEmbeds(init, p);
      EmbedsSnoc(Filter(init, p), init, idx, last);
      if p(last) {
        idx := idx + [|init|];
      }
    }
  }

  /** A filter keeps exactly the elements that satisfy the test, in their original order. */
  lemma {:induction false} FilterMembers<T>(xs: seq<T>, p: T -> bool)
    ensures IsSubsequence(Filter(xs, p), xs)
    ensures |Filter(xs, p)| <= |xs|
    ensures forall x :: x in Filter(xs, p) <==> x in xs && p(x)
  {
    var idx := FilterEmbeds(xs, p);
    if xs != [] {
      var init, last := xs[..|xs| - 1], xs[|xs| - 1];
      assert xs == init + [last];
      FilterMembers(init, p);
    }
  }

  /** Filtering a sequence whose every element passes changes nothing. */
  lemma {:induction false} FilterAllPass<T>(xs: seq<T>, p: T -> bool)
    requires forall x :: x in xs ==> p(x)
    ensures Filter(xs, p) == xs
  {
    if xs != [] {
      var init := xs[..|xs| - 1];
      assert xs == init + [xs[|xs| - 1]];
      FilterAllPass(init, p);
    }
  }

  /** Filtering twice by the same test is filtering once. */
  lemma FilterIdempotent<T>(xs: seq<T>, p: T -> bool)
    ensures Filter(Filter(xs, p), p) == Filter(xs, p)
  {
    FilterMembers(xs, p);
    FilterAllPass(Filter(xs, p), p);
  }
}
