/**
 * The string handling the planner relies on: Python's `str.strip()`, `str.lower()`,
 * `str.split(",")`, the `in` substring test, and the quantity-suffix regex
 * `\s+\d+.*$` used to normalise ingredient names. Characters are modelled on
 * ASCII: `lower()` maps only 'A'..'Z', `\s` and `\d` are their ASCII members.
 */
module Text {

  /** Python's `str.isspace()` restricted to ASCII: space, \t \n \v \f \r and \x1c..\x1f. */
  predicate IsSpace(c: char) {
    c == ' ' || ('\t' <= c <= '\r') || ('\U{1C}' <= c <= '\U{1F}')
  }

  predicate IsDigit(c: char) {
    '0' <= c <= '9'
  }

  function LowerChar(c: char): char {
    if 'A' <= c <= 'Z' then (c as int - 'A' as int + 'a' as int) as char else c
  }

  /** `s.lower()` */
  function Lower(s: string): (r: string)
    ensures |r| == |s|
    ensures forall i :: 0 <= i < |s| ==> r[i] == LowerChar(s[i])
  {
    seq(|s|, i requires 0 <= i < |s| => LowerChar(s[i]))
  }

  /** `s.lstrip()`: drops the leading whitespace, and only that. */
  function TrimStart(s: string): (r: string)
  {
    if s != [] && IsSpace(s[0]) then TrimStart(s[1..]) else s
  }

  /** What `lstrip` leaves: a suffix of `s`, not starting with whitespace, after only whitespace. */
  lemma {:induction false} TrimStartFacts(s: string)
    ensures var r := TrimStart(s);
      |r| <= |s| && r == s[|s| - |r|..] && (r == [] || !IsSpace(r[0])) &&
      forall i :: 0 <= i < |s| - |r| ==> IsSpace(s[i])
  {
    if s != [] && IsSpace(s[0]) {
      var r := TrimStart(s[1..]);
      TrimStartFacts(s[1..]);
      assert TrimStart(s) == r;
      assert s[1..][|s| - 1 - |r|..] == s[|s| - |r|..];
      forall i | 0 <= i < |s| - |r|
        ensures IsSpace(s[i])
      {
        if i > 0 {
          assert s[i] == s[1..][i - 1];
        }
      }
    }
  }

  /** `s.rstrip()`: drops the trailing whitespace, and only that. */
  function TrimEnd(s: string): (r: string)
  {
    if s != [] && IsSpace(s[|s| - 1]) then TrimEnd(s[..|s| - 1]) else s
  }

  /** What `rstrip` leaves: a prefix of `s`, not ending in whitespace, before only whitespace. */
  lemma {:induction false} TrimEndFacts(s: string)
    ensures var r := TrimEnd(s);
      |r| <= |s| && r == s[..|r|] && (r == [] || !IsSpace(r[|r| - 1])) &&
      forall i :: |r| <= i < |s| ==> IsSpace(s[i])
  {
    if s != [] && IsSpace(s[|s| - 1]) {
      var r := TrimEnd(s[..|s| - 1]);
      TrimEndFacts(s[..|s| - 1]);
      assert TrimEnd(s) == r;
      assert s[..|s| - 1][..|r|] == s[..|r|];
      forall i | |r| <= i < |s|
        ensures IsSpace(s[i])
      {
        if i < |s| - 1 {
          assert s[i] == s[..|s| - 1][i];
        }
      }
    }
  }

  /** `s.strip()` */
  function Trim(s: string): string {
    TrimEnd(TrimStart(s))
  }

  /** What `strip` leaves is no longer than the text and neither starts nor ends with whitespace. */
  lemma TrimEnds(s: string)
    ensures |Trim(s)| <= |s|
    ensures Trim(s) == [] || (!IsSpace(Trim(s)[0]) && !IsSpace(Trim(s)[|Trim(s)| - 1]))
  {
    TrimStartFacts(s);
    TrimEndFacts(TrimStart(s));
  }

  /** Stripping twice is stripping once, so a name stored already stripped keeps its key. */
  lemma TrimIdempotent(s: string)
    ensures Trim(Trim(s)) == Trim(s)
  {
    TrimEnds(s);
    var t := Trim(s);
    assert TrimStart(t) == t;
    assert TrimEnd(t) == t;
  }

  /** The comparison key of an item name: `name.strip().lower()`. */
  function Key(s: string): string {
    Lower(Trim(s))
  }

  /** Trimming, lowercasing and the regex cut all treat two strings that differ only in
      letter case alike, so they normalise to the same key. */
  lemma LowerSameClass(a: char, b: char)
    requires LowerChar(a) == LowerChar(b)
    ensures IsSpace(a) == IsSpace(b) && IsDigit(a) == IsDigit(b) && (a == '\n') == (b == '\n')
  {
  }

  // ---------------------------------------------------------------- split and join

  /** `s.split(sep)`: the pieces between separators, empty pieces included. */
  function Split(s: string, sep: char): (r: seq<string>)
    ensures |r| >= 1
  {
    if s == [] then [""]
    else if s[0] == sep then [""] + Split(s[1..], sep)
    else
      var rest := Split(s[1..], sep);
      [[s[0]] + rest[0]] + rest[1..]
  }

  /** `sep.join(parts)` */
  function Join(parts: seq<string>, sep: char): string
    requires |parts| >= 1
  {
    if |parts| == 1 then parts[0] else parts[0] + [sep] + Join(parts[1..], sep)
  }

  /** Splitting loses nothing: joining the pieces gives the text back, and no piece holds the separator. */
  lemma {:induction false} SplitJoin(s: string, sep: char)
    ensures Join(Split(s, sep), sep) == s
    ensures forall k :: 0 <= k < |Split(s, sep)| ==> sep !in Split(s, sep)[k]
  {
    if s != [] {
      SplitJoin(s[1..], sep);
      var rest := Split(s[1..], sep);
      if s[0] == sep {
        assert Split(s, sep)[1..] == rest;
      } else {
        var r := Split(s, sep);
        assert r[0] == [s[0]] + rest[0];
        assert r[1..] == rest[1..];
        if |rest| > 1 {
          assert Join(rest, sep) == rest[0] + [sep] + Join(rest[1..], sep);
        }
        forall k | 0 <= k < |r| ensures sep !in r[k] {
          if k > 0 { assert r[k] == rest[k]; }
        }
      }
    }
  }

  /** The ingredient fragments of a recipe: `[i.strip() for i in text.split(",") if i.strip()]`. */
  function Fragments(text: string): seq<string> {
    NonEmptyTrimmed(Split(text, ','))
  }

  function NonEmptyTrimmed(parts: seq<string>): (r: seq<string>)
    ensures forall k :: 0 <= k < |r| ==> r[k] != [] && Trim(r[k]) == r[k]
  {
    if parts == [] then []
    else
      var t := Trim(parts[0]);
      TrimIdempotent(parts[0]);
      (if t != [] then [t] else []) + NonEmptyTrimmed(parts[1..])
  }

  /** The comprehension drops nothing it should keep: every piece that is not blank once
      stripped is kept, stripped, and everything kept is such a piece. */
  lemma {:induction false} NonEmptyTrimmedMembers(parts: seq<string>)
    ensures forall k :: 0 <= k < |parts| && Trim(parts[k]) != [] ==> Trim(parts[k]) in NonEmptyTrimmed(parts)
    ensures forall x :: x in NonEmptyTrimmed(parts) ==> exists k :: 0 <= k < |parts| && x == Trim(parts[k])
  {
    if parts != [] {
      NonEmptyTrimmedMembers(parts[1..]);
      var t, rest := Trim(parts[0]), NonEmptyTrimmed(parts[1..]);
      assert NonEmptyTrimmed(parts) == (if t != [] then [t] else []) + rest;
      forall k | 0 <= k < |parts| && Trim(parts[k]) != [] ensures Trim(parts[k]) in NonEmptyTrimmed(parts) {
        if k > 0 {
          assert parts[k] == parts[1..][k - 1];
        }
      }
      forall x | x in NonEmptyTrimmed(parts) ensures exists k :: 0 <= k < |parts| && x == Trim(parts[k]) {
        if x in rest {
          var k :| 0 <= k < |parts[1..]| && x == Trim(parts[1..][k]);
          assert parts[1..][k] == parts[k + 1];
        } else {
          assert x == Trim(parts[0]);
        }
      }
    }
  }

  /** The comprehension keeps the order of the pieces: the fragments of two runs of pieces
      are the fragments of the first followed by those of the second. */
  lemma {:induction false} NonEmptyTrimmedConcat(a: seq<string>, b: seq<string>)
    ensures NonEmptyTrimmed(a + b) == NonEmptyTrimmed(a) + NonEmptyTrimmed(b)
  {
    if a == [] {
      assert a + b == b;
    } else {
      assert (a + b)[0] == a[0];
      assert (a + b)[1..] == a[1..] + b;
      NonEmptyTrimmedConcat(a[1..], b);
    }
  }

  // ---------------------------------------------------------------- the quantity suffix

  /** The end of the run of whitespace that starts at `j`. */
  function RunEnd(s: string, j: nat): (k: nat)
    requires j <= |s|
    ensures j <= k <= |s|
    ensures forall p :: j <= p < k ==> IsSpace(s[p])
    ensures k == |s| || !IsSpace(s[k])
    decreases |s| - j
  {
    if j < |s| && IsSpace(s[j]) then RunEnd(s, j + 1) else j
  }

  /** The regex `\s+\d+.*$` matches at `p`: a whitespace run starts at `p` and is followed
      by a digit, and from there on no newline occurs except possibly as the last
      character (`.` does not match a newline; `$` matches at the end or before a final one). */
  predicate QuantityAt(s: string, p: nat)
    requires p < |s|
  {
    var j := RunEnd(s, p);
    IsSpace(s[p]) && j < |s| && IsDigit(s[j]) &&
    forall q :: j <= q < |s| - 1 ==> s[q] != '\n'
  }

  /** Where `re.sub(r"\s+\d+.*$", "", s)` cuts `s`: the leftmost match at or after `from`,
      or the end of `s` when there is none. */
  function QuantityCut(s: string, from: nat): (k: nat)
    requires from <= |s|
    ensures from <= k <= |s|
    ensures k < |s| ==> QuantityAt(s, k)
    ensures forall p :: from <= p < k ==> !QuantityAt(s, p)
    decreases |s| - from
  {
    if from == |s| then |s|
    else if QuantityAt(s, from) then from
    else QuantityCut(s, from + 1)
  }

  /** The lookup key of an ingredient fragment: the quantity suffix cut off, then stripped
      and lowercased. (When the cut match ends before a final newline, the substitution
      leaves that newline behind; the strip removes it again.) */
  function BaseName(s: string): (b: string)
    ensures |b| <= |s|
    ensures b == [] || (!IsSpace(b[0]) && !IsSpace(b[|b| - 1]))
    ensures forall i :: 0 <= i < |b| ==> LowerChar(b[i]) == b[i]
  {
    var name := s[..QuantityCut(s, 0)];
    TrimEnds(name);
    Key(name)
  }

  // ---------------------------------------------------------------- case-insensitivity

  lemma {:induction false} TrimStartCaseBlind(a: string, b: string)
    requires Lower(a) == Lower(b)
    ensures |TrimStart(a)| == |TrimStart(b)|
  {
    if a != [] {
      LowerSameClass(a[0], b[0]);
      assert Lower(a[1..]) == Lower(a)[1..];
      assert Lower(b[1..]) == Lower(b)[1..];
      TrimStartCaseBlind(a[1..], b[1..]);
    }
  }

  lemma {:induction false} TrimEndCaseBlind(a: string, b: string)
    requires Lower(a) == Lower(b)
    ensures |TrimEnd(a)| == |TrimEnd(b)|
  {
    if a != [] {
      var n := |a| - 1;
      assert Lower(a)[n] == Lower(b)[n];
      LowerSameClass(a[n], b[n]);
      assert Lower(a[..n]) == Lower(a)[..n];
      assert Lower(b[..n]) == Lower(b)[..n];
      TrimEndCaseBlind(a[..n], b[..n]);
    }
  }

  lemma LowerSlice(s: string, i: nat, j: nat)
    requires i <= j <= |s|
    ensures Lower(s[i..j]) == Lower(s)[i..j]
  {
  }

  lemma KeyCaseBlind(a: string, b: string)
    requires Lower(a) == Lower(b)
    ensures Key(a) == Key(b)
  {
    TrimStartCaseBlind(a, b);
    TrimStartFacts(a);
    TrimStartFacts(b);
    var ta, tb := TrimStart(a), TrimStart(b);
    LowerSlice(a, |a| - |ta|, |a|);
    LowerSlice(b, |b| - |tb|, |b|);
    assert Lower(ta) == Lower(tb);
    TrimEndCaseBlind(ta, tb);
    TrimEndFacts(ta);
    TrimEndFacts(tb);
    var ra, rb := TrimEnd(ta), TrimEnd(tb);
    LowerSlice(ta, 0, |ra|);
    LowerSlice(tb, 0, |rb|);
    assert Lower(ra) == Lower(rb);
  }

  lemma {:induction false} RunEndCaseBlind(a: string, b: string, j: nat)
    requires Lower(a) == Lower(b) && j <= |a|
    ensures RunEnd(a, j) == RunEnd(b, j)
    decreases |a| - j
  {
    if j < |a| {
      assert Lower(a)[j] == Lower(b)[j];
      LowerSameClass(a[j], b[j]);
      RunEndCaseBlind(a, b, j + 1);
    }
  }

  lemma QuantityAtCaseBlind(a: string, b: string, p: nat)
    requires Lower(a) == Lower(b) && p < |a|
    ensures QuantityAt(a, p) == QuantityAt(b, p)
  {
    RunEndCaseBlind(a, b, p);
    var j := RunEnd(a, p);
    assert Lower(a)[p] == Lower(b)[p];
    LowerSameClass(a[p], b[p]);
    if j < |a| {
      assert Lower(a)[j] == Lower(b)[j];
      LowerSameClass(a[j], b[j]);
    }
    forall q | j <= q < |a| - 1 ensures (a[q] == '\n') == (b[q] == '\n') {
      assert Lower(a)[q] == Lower(b)[q];
      LowerSameClass(a[q], b[q]);
    }
  }

  lemma {:induction false} QuantityCutCaseBlind(a: string, b: string, from: nat)
    requires Lower(a) == Lower(b) && from <= |a|
    ensures QuantityCut(a, from) == QuantityCut(b, from)
    decreases |a| - from
  {
    if from < |a| {
      QuantityAtCaseBlind(a, b, from);
      QuantityCutCaseBlind(a, b, from + 1);
    }
  }

  /** Resolving the same ingredient written in different letter case looks up the same key. */
  lemma BaseNameCaseBlind(a: string, b: string)
    requires Lower(a) == Lower(b)
    ensures BaseName(a) == BaseName(b)
  {
    QuantityCutCaseBlind(a, b, 0);
    var k := QuantityCut(a, 0);
    assert Lower(a[..k]) == Lower(a)[..k];
    assert Lower(b[..k]) == Lower(b)[..k];
    KeyCaseBlind(a[..k], b[..k]);
  }

  // ---------------------------------------------------------------- substrings

  /** Python's `needle in hay` on strings. */
  predicate IsSubstring(needle: string, hay: string) {
    exists i | 0 <= i <= |hay| - |needle| :: OccursAt(needle, hay, i)
  }

  predicate OccursAt(needle: string, hay: string, i: nat) {
    i + |needle| <= |hay| && hay[i..i + |needle|] == needle
  }
}
