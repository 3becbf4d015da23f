/**
 * The Python `str` operations that the server's formatter and the agent's parser rely on:
 * `find`, `in`, `split` (with and without `maxsplit`), `join`, `strip`, `rstrip(c)`,
 * `lower` and `capitalize`, on `seq<char>`.
 */
module Text {
  import opened Wrappers

  /** `sep` occurs in `s` starting at position `i`. */
  predicate OccursAt(s: string, sep: string, i: nat) {
    i + |sep| <= |s| && s[i..i + |sep|] == sep
  }

  /** `s.find(sep)`, with `None` for -1: the first position at which `sep` occurs. */
  function Find(s: string, sep: string): (r: Option<nat>)
    requires |sep| > 0
    ensures r.Some? ==> OccursAt(s, sep, r.value)
    ensures r.Some? ==> forall j :: 0 <= j < r.value ==> !OccursAt(s, sep, j)
    ensures r.None? ==> forall j: nat :: !OccursAt(s, sep, j)
    decreases |s|
  {
    if |s| < |sep| then None
    else if s[..|sep|] == sep then Some(0)
    else
      var r := Find(s[1..], sep);
      forall j: nat | 1 <= j && OccursAt(s, sep, j) ensures OccursAt(s[1..], sep, j - 1) {
        assert s[1..][j - 1..j - 1 + |sep|] == s[j..j + |sep|];
      }
      if r.None? then None
      else
        assert s[1..][r.value..r.value + |sep|] == s[r.value + 1..r.value + 1 + |sep|];
        Some(r.value + 1)
  }

  /** Python's `sep in s`. */
  predicate Contains(s: string, sep: string)
    requires |sep| > 0
  {
    Find(s, sep).Some?
  }

  /** `sep` does not overlap itself: its first character does not occur in the rest of it. */
  predicate Unbordered(sep: string) {
    |sep| > 0 && forall i :: 1 <= i < |sep| ==> sep[i] != sep[0]
  }

  /** `sep.join(xs)`. */
  function Join(sep: string, xs: seq<string>): string {
    if |xs| == 0 then ""
    else if |xs| == 1 then xs[0]
    else xs[0] + sep + Join(sep, xs[1..])
  }

  /** Joining a piece in front of a non-empty list puts `sep` between them. */
  lemma JoinCons(x: string, rest: seq<string>, sep: string)
    requires |rest| >= 1
    ensures Join(sep, [x] + rest) == x + sep + Join(sep, rest)
  {
    assert ([x] + rest)[1..] == rest;
  }

  /** Where `sep` occurs, `s` is the text before it, `sep` and the text after it. */
  lemma CutAt(s: string, sep: string, i: nat)
    requires OccursAt(s, sep, i)
    ensures s == s[..i] + sep + s[i + |sep|..]
  {
    assert s[i..i + |sep|] == sep;
  }

  /** `s.split(sep)`: the pieces between the occurrences of `sep`, left to right. */
  function Split(s: string, sep: string): (r: seq<string>)
    requires |sep| > 0
    ensures |r| >= 1
    ensures Join(sep, r) == s
    ensures forall k :: 0 <= k < |r| ==> !Contains(r[k], sep)
    decreases |s|
  {
    match Find(s, sep)
    case None => [s]
    case Some(i) =>
      var rest := Split(s[i + |sep|..], sep);
      PrefixBeforeFirst(s, sep, i);
      CutAt(s, sep, i);
      JoinCons(s[..i], rest, sep);
      [s[..i]] + rest
  }

  /** `s.split(sep, n)`: at most `n` splits, the last piece keeps the remaining separators. */
  function SplitN(s: string, sep: string, n: nat): (r: seq<string>)
    requires |sep| > 0
    ensures 1 <= |r| <= n + 1
    ensures Join(sep, r) == s
    decreases n
  {
    if n == 0 then [s]
    else match Find(s, sep)
      case None => [s]
      case Some(i) =>
        var rest := SplitN(s[i + |sep|..], sep, n - 1);
        CutAt(s, sep, i);
        JoinCons(s[..i], rest, sep);
        [s[..i]] + rest
  }

  /**
   * `s.split(sep, 1) if sep in s else (s, "")`: the text before the first `sep`
   * and the text after it.
   */
  function Partition(s: string, sep: string): (r: (string, string))
    requires |sep| > 0
    ensures |r.0| + |r.1| <= |s|
  {
    match Find(s, sep)
    case None => (s, "")
    case Some(i) => (s[..i], s[i + |sep|..])
  }

  /**
   * With `sep` present, `s` is the first part, `sep` and the second part, and the first part
   * holds no `sep`; without it, the first part is all of `s`.
   */
  lemma PartitionSplits(s: string, sep: string)
    requires |sep| > 0
    ensures var r := Partition(s, sep);
      (Contains(s, sep) ==> s == r.0 + sep + r.1 && !Contains(r.0, sep))
      && (!Contains(s, sep) ==> r == (s, ""))
  {
    if Contains(s, sep) {
      var i := Find(s, sep).value;
      PrefixBeforeFirst(s, sep, i);
      CutAt(s, sep, i);
    }
  }

  /** The text before the first occurrence of `sep` does not contain `sep`. */
  lemma PrefixBeforeFirst(s: string, sep: string, i: nat)
    requires |sep| > 0 && Find(s, sep) == Some(i)
    ensures !Contains(s[..i], sep)
  {
    forall j: nat ensures !OccursAt(s[..i], sep, j) {
      if j + |sep| <= i {
        assert s[..i][j..j + |sep|] == s[j..j + |sep|];
        assert !OccursAt(s, sep, j);
      }
    }
  }

  /**
   * In `a + sep + b`, the first `sep` is the one written after `a`, provided `a` does not
   * contain `sep` and `sep` cannot overlap itself.
   */
  lemma FindAfter(a: string, sep: string, b: string)
    requires Unbordered(sep) && !Contains(a, sep)
    ensures Find(a + sep + b, sep) == Some(|a|)
  {
    var t := a + sep + b;
    assert t[|a|..|a| + |sep|] == sep;
    assert OccursAt(t, sep, |a|);
    forall j | 0 <= j < |a| ensures !OccursAt(t, sep, j) {
      if j + |sep| <= |a| {
        assert t[j..j + |sep|] == a[j..j + |sep|];
        assert !OccursAt(a, sep, j);
      } else {
        assert t[j..j + |sep|][|a| - j] == sep[0];
        assert sep[|a| - j] != sep[0];
      }
    }
  }

  /** A string without the first character of `sep` can be put in front of a `sep`-free one. */
  lemma NoFindConcat(a: string, b: string, sep: string)
    requires |sep| > 0 && sep[0] !in a && !Contains(b, sep)
    ensures !Contains(a + b, sep)
  {
    var t := a + b;
    forall j: nat | j + |sep| <= |t| ensures !OccursAt(t, sep, j) {
      if j < |a| {
        assert t[j..j + |sep|][0] == a[j];
        assert a[j] in a;
      } else {
        assert t[j..j + |sep|] == b[j - |a|..j - |a| + |sep|];
        assert !OccursAt(b, sep, j - |a|);
      }
    }
  }

  /** A string shorter than `sep` does not contain it. */
  lemma ShortNoFind(s: string, sep: string)
    requires |sep| > 0 && |s| < |sep|
    ensures !Contains(s, sep)
  {
  }

  /** Splitting `a + sep + b`, where `a` holds no `sep`, cuts off `a` first. */
  lemma SplitAfterFirst(a: string, sep: string, b: string)
    requires Unbordered(sep) && !Contains(a, sep)
    ensures Split(a + sep + b, sep) == [a] + Split(b, sep)
  {
    var t := a + sep + b;
    FindAfter(a, sep, b);
    assert t[..|a|] == a;
    assert t[|a| + |sep|..] == b;
  }

  /** `sep.join(xs).split(sep) == xs` when no piece contains `sep` and `sep` cannot overlap itself. */
  lemma {:induction false} SplitJoin(xs: seq<string>, sep: string)
    requires Unbordered(sep) && |xs| >= 1
    requires forall k :: 0 <= k < |xs| ==> !Contains(xs[k], sep)
    ensures Split(Join(sep, xs), sep) == xs
  {
    if |xs| > 1 {
      SplitAfterFirst(xs[0], sep, Join(sep, xs[1..]));
      SplitJoin(xs[1..], sep);
      assert xs == [xs[0]] + xs[1..];
    }
  }

  /** Python's `str.isspace` for one character (the characters Python's `strip()` removes). */
  predicate IsSpace(c: char) {
    c == ' ' || ('\t' <= c <= '\r') || ('\U{1C}' <= c <= '\U{1F}') || c == '\U{85}' || c == '\U{A0}'
    || c == '\U{1680}' || ('\U{2000}' <= c <= '\U{200A}') || c == '\U{2028}' || c == '\U{2029}'
    || c == '\U{202F}' || c == '\U{205F}' || c == '\U{3000}'
  }

  /** `s` neither starts nor ends with whitespace, so `s.strip() == s`. */
  predicate Trimmed(s: string) {
    s == [] || (!IsSpace(s[0]) && !IsSpace(s[|s| - 1]))
  }

  /** The number of whitespace characters at the start of `s`. */
  function LeadingSpace(s: string): (k: nat)
    ensures k <= |s|
    ensures forall i :: 0 <= i < k ==> IsSpace(s[i])
    ensures k < |s| ==> !IsSpace(s[k])
  {
    if s != [] && IsSpace(s[0]) then 1 + LeadingSpace(s[1..]) else 0
  }

  /** The number of whitespace characters at the end of `s`. */
  function TrailingSpace(s: string): (k: nat)
    ensures k <= |s|
    ensures forall i :: |s| - k <= i < |s| ==> IsSpace(s[i])
    ensures k < |s| ==> !IsSpace(s[|s| - 1 - k])
  {
    if s != [] && IsSpace(s[|s| - 1]) then 1 + TrailingSpace(s[..|s| - 1]) else 0
  }

  /** `s.strip()`: `s` without its leading and trailing whitespace. */
  function Strip(s: string): (r: string)
    ensures Trimmed(r)
    ensures LeadingSpace(s) + |r| <= |s| && r == s[LeadingSpace(s)..LeadingSpace(s) + |r|]
    ensures forall i :: LeadingSpace(s) + |r| <= i < |s| ==> IsSpace(s[i])
  {
    var lead := LeadingSpace(s);
    var t := s[lead..];
    var end := lead + (|t| - TrailingSpace(t));
    assert t[..|t| - TrailingSpace(t)] == s[lead..end];
    s[lead..end]
  }

  /** Stripping a string without surrounding whitespace changes nothing. */
  lemma StripTrimmed(s: string)
    requires Trimmed(s)
    ensures Strip(s) == s
  {
  }

  /** `s.rstrip(c)`: `s` without the run of `c` at its end. */
  function RStripChar(s: string, c: char): (r: string)
    ensures |r| <= |s| && r == s[..|r|]
    ensures forall i :: |r| <= i < |s| ==> s[i] == c
    ensures r != [] ==> r[|r| - 1] != c
  {
    if s != [] && s[|s| - 1] == c then RStripChar(s[..|s| - 1], c) else s
  }

  function LowerChar(c: char): char {
    if 'A' <= c <= 'Z' then (c as int - 'A' as int + 'a' as int) as char else c
  }

  function UpperChar(c: char): char {
    if 'a' <= c <= 'z' then (c as int - 'a' as int + 'A' as int) as char else c
  }

  /** `s.lower()` on ASCII letters. */
  function Lower(s: string): (r: string)
    ensures |r| == |s|
    ensures forall i :: 0 <= i < |s| ==> !('A' <= r[i] <= 'Z')
    ensures forall i :: 0 <= i < |s| ==> r[i] == LowerChar(s[i])
  {
    seq(|s|, i requires 0 <= i < |s| => LowerChar(s[i]))
  }

  /** `s.capitalize()` on ASCII letters: first character upper case, the rest lower case. */
  function Capitalize(s: string): (r: string)
    ensures |r| == |s|
    ensures r != [] ==> r[0] == UpperChar(s[0]) && r[1..] == Lower(s[1..])
  {
    if s == [] then [] else [UpperChar(s[0])] + Lower(s[1..])
  }
}
