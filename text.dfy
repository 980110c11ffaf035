/** The ECMAScript string operations the app relies on: `trim` and `startsWith`. */
module Text {

  /** The code points ECMAScript counts as WhiteSpace or LineTerminator, which
      is exactly what `String.prototype.trim` strips from both ends. */
  predicate IsWhitespace(c: char) {
    c == '\t' || c == '\n' || c == '\U{000B}' || c == '\U{000C}' || c == '\r' || c == ' '
    || c == '\U{00A0}' || c == '\U{1680}' || ('\U{2000}' <= c <= '\U{200A}')
    || c == '\U{2028}' || c == '\U{2029}' || c == '\U{202F}' || c == '\U{205F}'
    || c == '\U{3000}' || c == '\U{FEFF}'
  }

  predicate AllWhitespace(s: string) {
    forall i :: 0 <= i < |s| ==> IsWhitespace(s[i])
  }

  /** The number of whitespace code points at the start of `s`. */
  function LeadingWhitespace(s: string): (k: nat)
    ensures k <= |s| && AllWhitespace(s[..k])
    ensures k == |s| || !IsWhitespace(s[k])
  {
    if s != [] && IsWhitespace(s[0]) then
      var k := 1 + LeadingWhitespace(s[1..]);
      assert forall i :: 1 <= i < k ==> s[..k][i] == s[1..][..k - 1][i - 1];
      k
    else 0
  }

  /** The length of `s` without the whitespace at its end. */
  function WithoutTrailingWhitespace(s: string): (k: nat)
    ensures k <= |s| && AllWhitespace(s[k..])
    ensures k == 0 || !IsWhitespace(s[k - 1])
  {
    if s != [] && IsWhitespace(s[|s| - 1]) then
      var k := WithoutTrailingWhitespace(s[..|s| - 1]);
      assert forall i :: k <= i < |s| - 1 ==> s[i] == s[..|s| - 1][k..][i - k];
      k
    else |s|
  }

  /** `s.trim()`. The result is a slice of `s` with no whitespace at either end,
      and it is empty exactly when `s` is all whitespace. */
  function Trim(s: string): (r: string)
    ensures var k := LeadingWhitespace(s); k + |r| <= |s| && r == s[k..k + |r|]
    ensures r == [] || (!IsWhitespace(r[0]) && !IsWhitespace(r[|r| - 1]))
    ensures r == [] <==> AllWhitespace(s)
  {
    var k := LeadingWhitespace(s);
    var t := s[k..];
    var n := WithoutTrailingWhitespace(t);
    assert AllWhitespace(s) ==> k == |s|;
    assert t[0..] == t && s[..|s|] == s;
    assert n > 0 ==> s[k] == t[0];
    t[..n]
  }

  /** Trimming a string that already has no whitespace at its ends changes nothing. */
  lemma TrimmedIsFixed(s: string)
    requires s == [] || (!IsWhitespace(s[0]) && !IsWhitespace(s[|s| - 1]))
    ensures Trim(s) == s
  {
  }

  /** `trim` is idempotent. */
  lemma TrimIdempotent(s: string)
    ensures Trim(Trim(s)) == Trim(s)
  {
    TrimmedIsFixed(Trim(s));
  }

  /** Trim agrees with the declarative reading of "strip whitespace at both
      ends": any slice `s[i..j]` with only whitespace before and after it and
      no whitespace at its own ends is what `Trim` returns. */
  lemma TrimCharacterization(s: string, i: nat, j: nat)
    requires i < j <= |s|
    requires AllWhitespace(s[..i]) && AllWhitespace(s[j..])
    requires !IsWhitespace(s[i]) && !IsWhitespace(s[j - 1])
    ensures Trim(s) == s[i..j]
  {
    LeadingStopsAt(s, i);
    var t := s[i..];
    assert t[j - i..] == s[j..];
    TrailingStopsAt(t, j - i);
  }

  lemma {:induction false} LeadingStopsAt(s: string, i: nat)
    requires i < |s| && AllWhitespace(s[..i]) && !IsWhitespace(s[i])
    ensures LeadingWhitespace(s) == i
    decreases i
  {
    if i > 0 {
      assert IsWhitespace(s[..i][0]);
      assert s[1..][..i - 1] == s[..i][1..];
      LeadingStopsAt(s[1..], i - 1);
    }
  }

  lemma {:induction false} TrailingStopsAt(s: string, j: nat)
    requires 0 < j <= |s| && AllWhitespace(s[j..]) && !IsWhitespace(s[j - 1])
    ensures WithoutTrailingWhitespace(s) == j
    decreases |s| - j
  {
    if j < |s| {
      assert IsWhitespace(s[j..][|s| - 1 - j]);
      var u := s[..|s| - 1];
      assert u[j..] == s[j..|s| - 1];
      TrailingStopsAt(u, j);
    }
  }

  /** ECMAScript `s.startsWith(p)`. */
  predicate StartsWith(s: string, p: string) {
    |p| <= |s| && s[..|p|] == p
  }

  /** Two prefixes of the same string are prefixes of one another. */
  lemma PrefixesComparable(s: string, p: string, q: string)
    requires StartsWith(s, p) && StartsWith(s, q)
    ensures StartsWith(p, q) || StartsWith(q, p)
  {
    if |q| <= |p| {
      assert p[..|q|] == s[..|p|][..|q|] == s[..|q|];
    } else {
      assert q[..|p|] == s[..|q|][..|p|] == s[..|p|];
    }
  }
}
