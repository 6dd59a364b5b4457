/**
 * The string operations the catalogue script relies on: lower-casing,
 * substring search, prefix test and replacement, trimming and comparison.
 * Characters are compared by code point; lower-casing maps ASCII letters only.
 */
module Text {

  /** `toLowerCase` on one character, restricted to the ASCII letters. */
  function LowerChar(c: char): char {
    if 'A' <= c <= 'Z' then (c as int + 32) as char else c
  }

  /** `String.prototype.toLowerCase`, character by character. */
  function ToLower(s: string): (r: string)
    ensures |r| == |s|
    ensures forall i :: 0 <= i < |s| ==> r[i] == LowerChar(s[i])
  {
    seq(|s|, i requires 0 <= i < |s| => LowerChar(s[i]))
  }

  // ---------------------------------------------------------------------
  // Substring search: indexOf, includes, startsWith, replace
  // ---------------------------------------------------------------------

  /** `pat` occurs in `s` starting at position `j`. */
  predicate MatchAt(s: string, pat: string, j: int) {
    0 <= j && j + |pat| <= |s| && s[j..j + |pat|] == pat
  }

  /**
   * The first position at or after `from` where `pat` occurs, or -1. The
   * script only searches from 0 (`s.indexOf(pat)`); for a `from` past the end
   * this differs from JavaScript, which clamps it.
   */
  function IndexFrom(s: string, pat: string, from: nat): (r: int)
    ensures r == -1 || (from <= r && MatchAt(s, pat, r))
    ensures r >= 0 ==> forall j :: from <= j < r ==> !MatchAt(s, pat, j)
    ensures r == -1 ==> forall j :: from <= j ==> !MatchAt(s, pat, j)
    decreases |s| - from
  {
    if from + |pat| > |s| then -1
    else if s[from..from + |pat|] == pat then from
    else IndexFrom(s, pat, from + 1)
  }

  /** `s.indexOf(pat)`. */
  function IndexOf(s: string, pat: string): int {
    IndexFrom(s, pat, 0)
  }

  /** `s.includes(t)`: holds exactly when `t` occurs somewhere in `s`. */
  predicate Includes(s: string, t: string): (b: bool)
    ensures b <==> exists j :: MatchAt(s, t, j)
  {
    var i := IndexOf(s, t);
    assert i >= 0 ==> MatchAt(s, t, i);
    i >= 0
  }

  /** `s.startsWith(p)`: holds exactly when `p` occurs in `s` at position 0. */
  predicate StartsWith(s: string, p: string): (b: bool)
    ensures b <==> MatchAt(s, p, 0)
  {
    |p| <= |s| && s[..|p|] == p
  }

  /**
   * `s.replace(pat, rep)` with a string pattern and a replacement without `$`
   * (so no `$&`-style substitution): `s` unchanged when `pat` does not occur,
   * otherwise `s` with only its first occurrence of `pat` replaced.
   */
  function ReplaceFirst(s: string, pat: string, rep: string): (r: string)
    ensures (forall j :: !MatchAt(s, pat, j)) ==> r == s
    ensures forall i :: MatchAt(s, pat, i) && (forall j :: 0 <= j < i ==> !MatchAt(s, pat, j)) ==>
      r == s[..i] + rep + s[i + |pat|..]
  {
    var i := IndexOf(s, pat);
    if i < 0 then s else s[..i] + rep + s[i + |pat|..]
  }

  /** When `s` starts with `p`, the first occurrence of `p` is at the front. */
  lemma IndexOfPrefix(s: string, p: string)
    requires StartsWith(s, p)
    ensures IndexOf(s, p) == 0
  {
    assert MatchAt(s, p, 0);
  }

  /** Replacing a leading `p` by nothing strips exactly that prefix. */
  lemma ReplacePrefixStrips(s: string, p: string)
    requires StartsWith(s, p)
    ensures ReplaceFirst(s, p, "") == s[|p|..]
    ensures s == p + ReplaceFirst(s, p, "")
  {
    IndexOfPrefix(s, p);
  }

  // ---------------------------------------------------------------------
  // trim
  // ---------------------------------------------------------------------

  /** The WhiteSpace and LineTerminator characters that `String.prototype.trim` removes. */
  predicate IsWhitespace(c: char) {
    || c == '\t' || c == '\n' || c == '\U{000B}' || c == '\U{000C}' || c == '\r'
    || c == ' ' || c == '\U{00A0}' || c == '\U{1680}'
    || ('\U{2000}' <= c <= '\U{200A}')
    || c == '\U{2028}' || c == '\U{2029}' || c == '\U{202F}' || c == '\U{205F}'
    || c == '\U{3000}' || c == '\U{FEFF}'
  }

  predicate AllWhitespace(s: string) {
    forall k :: 0 <= k < |s| ==> IsWhitespace(s[k])
  }

  /** The first position at or after `i` that is not whitespace, or `|s|`. */
  function SkipLeading(s: string, i: nat): (n: nat)
    requires i <= |s|
    ensures i <= n <= |s|
    ensures forall k :: i <= k < n ==> IsWhitespace(s[k])
    ensures n == |s| || !IsWhitespace(s[n])
    decreases |s| - i
  {
    if i < |s| && IsWhitespace(s[i]) then SkipLeading(s, i + 1) else i
  }

  /** The end of `s[..j]` once its trailing whitespace is cut off. */
  function SkipTrailing(s: string, j: nat): (n: nat)
    requires j <= |s|
    ensures n <= j
    ensures forall k :: n <= k < j ==> IsWhitespace(s[k])
    ensures n == 0 || !IsWhitespace(s[n - 1])
  {
    if j > 0 && IsWhitespace(s[j - 1]) then SkipTrailing(s, j - 1) else j
  }

  /** Removes leading whitespace: the result is a suffix of `s` preceded only by whitespace. */
  function TrimStart(s: string): (r: string)
    ensures |r| <= |s| && r == s[|s| - |r|..]
    ensures AllWhitespace(s[..|s| - |r|])
    ensures r == [] || !IsWhitespace(r[0])
  {
    s[SkipLeading(s, 0)..]
  }

  /** Removes trailing whitespace: the result is a prefix of `s` followed only by whitespace. */
  function TrimEnd(s: string): (r: string)
    ensures |r| <= |s| && r == s[..|r|]
    ensures AllWhitespace(s[|r|..])
    ensures r == [] || !IsWhitespace(r[|r| - 1])
  {
    s[..SkipTrailing(s, |s|)]
  }

  /** `String.prototype.trim`: no whitespace is left at either end. */
  function Trim(s: string): (r: string)
    ensures |r| <= |s|
    ensures r == [] || (!IsWhitespace(r[0]) && !IsWhitespace(r[|r| - 1]))
  {
    var t := TrimStart(s);
    var r := TrimEnd(t);
    assert r != [] ==> r[0] == t[0];
    r
  }

  /**
   * What trimming keeps: the slice of `s` starting at `i`, with only whitespace
   * cut from either side, that neither begins nor ends with whitespace.
   */
  lemma TrimKeepsCore(s: string) returns (i: nat)
    ensures i + |Trim(s)| <= |s| && Trim(s) == s[i..i + |Trim(s)|]
    ensures AllWhitespace(s[..i]) && AllWhitespace(s[i + |Trim(s)|..])
    ensures Trim(s) == [] || (!IsWhitespace(Trim(s)[0]) && !IsWhitespace(Trim(s)[|Trim(s)| - 1]))
  {
    var t := TrimStart(s);
    var r := TrimEnd(t);
    i := |s| - |t|;
    SliceOfSuffix(s, i, |r|);
    assert t[..|r|] == r;
  }

  /** Slicing a suffix of `s` is slicing `s` itself, shifted. */
  lemma SliceOfSuffix(s: string, i: nat, n: nat)
    requires i + n <= |s|
    ensures s[i..][..n] == s[i..i + n] && s[i..][n..] == s[i + n..]
  {
  }

  /** An input trims to the empty string exactly when it is all whitespace. */
  lemma TrimEmptyIff(s: string)
    ensures Trim(s) == [] <==> AllWhitespace(s)
  {
    var t := TrimStart(s);
    assert t[0..] == t;
    assert s[..|s|] == s;
    if t != [] {
      assert t[0] == s[|s| - |t|];
    }
  }

  // ---------------------------------------------------------------------
  // localeCompare, modelled as lexicographic order on code points
  // ---------------------------------------------------------------------

  /** `a.localeCompare(b)`: negative, zero or positive as `a` sorts before, with or after `b`. */
  function Compare(a: string, b: string): (r: int)
    ensures -1 <= r <= 1
    ensures r == 0 <==> a == b
  {
    if a == [] && b == [] then 0
    else if a == [] then -1
    else if b == [] then 1
    else if a[0] < b[0] then -1
    else if a[0] > b[0] then 1
    else
      assert a == [a[0]] + a[1..] && b == [b[0]] + b[1..];
      Compare(a[1..], b[1..])
  }

  /** Swapping the operands negates the comparison. */
  lemma {:induction false} CompareAntisymmetric(a: string, b: string)
    ensures Compare(b, a) == -Compare(a, b)
  {
    if a != [] && b != [] && a[0] == b[0] {
      CompareAntisymmetric(a[1..], b[1..]);
    }
  }

  /** "Sorts no later than" is transitive. */
  lemma {:induction false} CompareTransitive(a: string, b: string, c: string)
    requires Compare(a, b) <= 0 && Compare(b, c) <= 0
    ensures Compare(a, c) <= 0
  {
    if a != [] && b != [] && c != [] && a[0] == b[0] == c[0] {
      CompareTransitive(a[1..], b[1..], c[1..]);
    }
  }
}
