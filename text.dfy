/** String helpers with the semantics of the Go standard library calls the
    harness makes: `strings.Contains`, `strings.TrimSpace`, `strings.Split`
    (first piece only) and `regexp.MustCompile(`\s+`).Split(s, -1)`. */
module Text {

  /** `unicode.IsSpace`, the set `strings.TrimSpace` removes. */
  predicate IsUnicodeSpace(c: char) {
    c == ' ' || c == '\t' || c == '\n' || c == '\U{0B}' || c == '\U{0C}' || c == '\r'
    || c == '\U{85}' || c == '\U{A0}' || c == '\U{1680}'
    || ('\U{2000}' <= c <= '\U{200A}')
    || c == '\U{2028}' || c == '\U{2029}' || c == '\U{202F}' || c == '\U{205F}' || c == '\U{3000}'
  }

  /** The RE2 class `\s`, i.e. `[\t\n\f\r ]`: ASCII only and without `\v`. */
  predicate IsRegexSpace(c: char) {
    c == ' ' || c == '\t' || c == '\n' || c == '\U{0C}' || c == '\r'
  }

  predicate NoRegexSpace(s: string) {
    forall i :: 0 <= i < |s| ==> !IsRegexSpace(s[i])
  }

  predicate AllRegexSpace(s: string) {
    forall i :: 0 <= i < |s| ==> IsRegexSpace(s[i])
  }

  /** `strings.Contains(s, sub)`: `sub` occurs in `s` at some offset. */
  predicate Contains(s: string, sub: string) {
    exists i :: 0 <= i <= |s| && sub <= s[i..]
  }

  /** The number of leading `unicode.IsSpace` characters. */
  function LeadingSpaces(s: string): (n: nat)
    ensures n <= |s|
    ensures forall i :: 0 <= i < n ==> IsUnicodeSpace(s[i])
    ensures n < |s| ==> !IsUnicodeSpace(s[n])
  {
    if s != [] && IsUnicodeSpace(s[0]) then 1 + LeadingSpaces(s[1..]) else 0
  }

  /** The number of trailing `unicode.IsSpace` characters. */
  function TrailingSpaces(s: string): (n: nat)
    ensures n <= |s|
    ensures forall i :: |s| - n <= i < |s| ==> IsUnicodeSpace(s[i])
    ensures n < |s| ==> !IsUnicodeSpace(s[|s| - n - 1])
  {
    if s != [] && IsUnicodeSpace(s[|s| - 1]) then 1 + TrailingSpaces(s[..|s| - 1]) else 0
  }

  /** `strings.TrimSpace`: what is left after removing white space at both
      ends; it neither starts nor ends with white space. */
  function TrimSpace(s: string): (r: string)
    ensures |r| <= |s|
    ensures r == [] || (!IsUnicodeSpace(r[0]) && !IsUnicodeSpace(r[|r| - 1]))
  {
    var t := s[LeadingSpaces(s)..];
    t[..|t| - TrailingSpaces(t)]
  }

  /** What `TrimSpace` keeps is the slice `s[i..j]`; everything outside it is
      white space. */
  lemma TrimSpaceSlice(s: string) returns (i: nat, j: nat)
    ensures i <= j <= |s| && TrimSpace(s) == s[i..j]
    ensures forall k :: 0 <= k < i ==> IsUnicodeSpace(s[k])
    ensures forall k :: j <= k < |s| ==> IsUnicodeSpace(s[k])
  {
    i := LeadingSpaces(s);
    var t := s[i..];
    j := i + |t| - TrailingSpaces(t);
    forall k | j <= k < |s|
      ensures IsUnicodeSpace(s[k])
    {
      assert s[k] == t[k - i];
    }
  }

  /** The first piece of `strings.Split(s, [sep])`: everything before the first
      `sep`, or all of `s` when there is none. */
  function BeforeFirst(s: string, sep: char): (r: string)
    ensures r <= s
    ensures sep !in r
    ensures |r| < |s| ==> s[|r|] == sep
  {
    if s == [] || s[0] == sep then [] else [s[0]] + BeforeFirst(s[1..], sep)
  }

  /** The length of the longest prefix of `s` free of `\s` characters. */
  function WordLength(s: string): (n: nat)
    ensures n <= |s|
    ensures forall i :: 0 <= i < n ==> !IsRegexSpace(s[i])
    ensures n < |s| ==> IsRegexSpace(s[n])
  {
    if s == [] || IsRegexSpace(s[0]) then 0 else 1 + WordLength(s[1..])
  }

  /** The length of the leading run of `\s` characters. */
  function SpaceRunLength(s: string): (n: nat)
    ensures n <= |s|
    ensures forall i :: 0 <= i < n ==> IsRegexSpace(s[i])
    ensures n < |s| ==> !IsRegexSpace(s[n])
  {
    if s != [] && IsRegexSpace(s[0]) then 1 + SpaceRunLength(s[1..]) else 0
  }

  /** `regexp.MustCompile(`\s+`).Split(s, -1)`: the pieces between the maximal
      runs of `\s`; a leading (trailing) run yields an empty first (last)
      piece, and the empty string yields one empty piece. */
  function SplitSpaceRuns(s: string): (r: seq<string>)
    ensures |r| >= 1
    ensures forall k :: 0 <= k < |r| ==> NoRegexSpace(r[k])
    decreases |s|
  {
    var w := WordLength(s);
    if w == |s| then [s]
    else
      var rest := s[w..];
      assert SpaceRunLength(rest) >= 1 by { assert IsRegexSpace(rest[0]); }
      [s[..w]] + SplitSpaceRuns(rest[SpaceRunLength(rest)..])
  }

  /** One step of the split: the first word, then the split of what follows
      the run of `\s` after it. */
  lemma SplitStep(s: string) returns (tail: string)
    requires WordLength(s) < |s|
    ensures |tail| < |s|
    ensures tail == [] || !IsRegexSpace(tail[0])
    ensures SplitSpaceRuns(s) == [s[..WordLength(s)]] + SplitSpaceRuns(tail)
  {
    var rest := s[WordLength(s)..];
    assert IsRegexSpace(rest[0]);
    var n := SpaceRunLength(rest);
    tail := rest[n..];
    if tail != [] {
      assert tail[0] == rest[n];
    }
  }

  /** A split of a string that does not start with `\s` and has a second
      piece has a non-empty first piece. */
  lemma SplitHeadNonEmpty(t: string)
    requires t == [] || !IsRegexSpace(t[0])
    ensures |SplitSpaceRuns(t)| > 1 ==> SplitSpaceRuns(t)[0] != []
  {
    var v := WordLength(t);
    if v < |t| {
      assert SplitSpaceRuns(t)[0] == t[..v];
    }
  }

  /** Only the first and the last piece of the split can be empty. */
  lemma {:induction false} SplitInteriorNonEmpty(s: string)
    ensures var r := SplitSpaceRuns(s);
            forall k :: 0 < k < |r| - 1 ==> r[k] != []
    decreases |s|
  {
    var w := WordLength(s);
    if w < |s| {
      var tail := SplitStep(s);
      SplitInteriorNonEmpty(tail);
      SplitHeadNonEmpty(tail);
      forall k | 0 < k < |SplitSpaceRuns(tail)|
        ensures ([s[..w]] + SplitSpaceRuns(tail))[k] != []
      {
        assert ([s[..w]] + SplitSpaceRuns(tail))[k] == SplitSpaceRuns(tail)[k - 1];
      }
    }
  }

  /** The split yields fewer than two pieces exactly when the string holds no
      `\s` character at all. */
  lemma SplitSingleIff(s: string)
    ensures |SplitSpaceRuns(s)| < 2 <==> NoRegexSpace(s)
  {
    var w := WordLength(s);
    if w < |s| {
      assert IsRegexSpace(s[w]);
    }
  }

  /** On a line `w0 <space run> w1 <space or end> ...` whose first word is not
      empty, the second piece of the split is `w1`. */
  lemma SplitSecondWord(w0: string, sp: string, w1: string, rest: string)
    requires w0 != [] && NoRegexSpace(w0)
    requires sp != [] && AllRegexSpace(sp)
    requires w1 != [] && NoRegexSpace(w1)
    requires rest == [] || IsRegexSpace(rest[0])
    ensures |SplitSpaceRuns(w0 + sp + w1 + rest)| >= 2
    ensures SplitSpaceRuns(w0 + sp + w1 + rest)[1] == w1
  {
    var u := w1 + rest;
    ConcatRegroup(w0, sp, w1, rest);
    SplitAfterWord(w0, sp, u);
    SplitFirstWord(w1, rest);
  }

  lemma ConcatRegroup(a: string, b: string, c: string, d: string)
    ensures a + b + c + d == a + (b + (c + d))
  {
  }

  /** A word, a run of `\s` and a remainder that starts with no `\s` split
      into the word followed by the split of the remainder. */
  lemma SplitAfterWord(w: string, sp: string, u: string)
    requires NoRegexSpace(w)
    requires sp != [] && AllRegexSpace(sp)
    requires u == [] || !IsRegexSpace(u[0])
    ensures SplitSpaceRuns(w + (sp + u)) == [w] + SplitSpaceRuns(u)
  {
    var t := sp + u;
    var s := w + t;
    WordLengthOf(w, t);
    assert s[|w|..] == t && s[..|w|] == w;
    SpaceRunLengthOf(sp, u);
    assert t[|sp|..] == u;
  }

  /** The first piece of a split is the leading word. */
  lemma SplitFirstWord(w: string, rest: string)
    requires NoRegexSpace(w)
    requires rest == [] || IsRegexSpace(rest[0])
    ensures SplitSpaceRuns(w + rest)[0] == w
  {
    WordLengthOf(w, rest);
    assert (w + rest)[..|w|] == w;
  }

  /** A word followed by a space (or nothing) is exactly what `WordLength`
      measures. */
  lemma WordLengthOf(w: string, rest: string)
    requires NoRegexSpace(w)
    requires rest == [] || IsRegexSpace(rest[0])
    ensures WordLength(w + rest) == |w|
  {
    var n := WordLength(w + rest);
    if rest != [] {
      assert (w + rest)[|w|] == rest[0];
    }
  }

  /** A run of `\s` followed by a non-space (or nothing) is exactly what
      `SpaceRunLength` measures. */
  lemma SpaceRunLengthOf(sp: string, rest: string)
    requires AllRegexSpace(sp)
    requires rest == [] || !IsRegexSpace(rest[0])
    ensures SpaceRunLength(sp + rest) == |sp|
  {
    var n := SpaceRunLength(sp + rest);
    if rest != [] {
      assert (sp + rest)[|sp|] == rest[0];
    }
  }
}
