/**
 * The handful of Python `str` operations the record shaping relies on:
 * `strip()`, `lower()`, `upper()`, `replace('Z', '+00:00')` and the
 * code-point ordering used by `sorted()`.
 *
 * Case mapping covers ASCII and Latin-1 (the characters the unit and
 * parameter names of this system use, including `µ`, `³` and `Â`).
 */
module Text {

  /** Python's `str.isspace`, for every code point it accepts. */
  predicate IsSpace(c: char) {
    || c == ' ' || c == '\t' || c == '\n' || c == '\r'
    || c == '\U{0B}' || c == '\U{0C}'
    || ('\U{1C}' <= c <= '\U{1F}')
    || c == '\U{85}' || c == '\U{A0}' || c == '\U{1680}'
    || ('\U{2000}' <= c <= '\U{200A}')
    || c == '\U{2028}' || c == '\U{2029}' || c == '\U{202F}'
    || c == '\U{205F}' || c == '\U{3000}'
  }

  ghost predicate AllSpace(s: string) {
    forall k :: 0 <= k < |s| ==> IsSpace(s[k])
  }

  /** How many whitespace characters `s` starts with. */
  function LeadingSpace(s: string): (n: nat)
    ensures n <= |s|
    ensures n < |s| ==> !IsSpace(s[n])
  {
    if s != [] && IsSpace(s[0]) then 1 + LeadingSpace(s[1..]) else 0
  }

  /** How many whitespace characters `s` ends with. */
  function TrailingSpace(s: string): (n: nat)
    ensures n <= |s|
    ensures n < |s| ==> !IsSpace(s[|s| - 1 - n])
  {
    if s != [] && IsSpace(s[|s| - 1]) then 1 + TrailingSpace(s[..|s| - 1]) else 0
  }

  /** The leading run counted by `LeadingSpace` is whitespace. */
  lemma {:induction false} LeadingSpaceIsSpace(s: string)
    ensures AllSpace(s[..LeadingSpace(s)])
  {
    if s != [] && IsSpace(s[0]) {
      var t := s[1..];
      LeadingSpaceIsSpace(t);
      var n := LeadingSpace(s);
      var dropped := s[..n];
      forall k | 0 <= k < |dropped| ensures IsSpace(dropped[k]) {
        if k > 0 {
          assert t[..n - 1][k - 1] == dropped[k];
        }
      }
    }
  }

  /** The trailing run counted by `TrailingSpace` is whitespace. */
  lemma {:induction false} TrailingSpaceIsSpace(s: string)
    ensures AllSpace(s[|s| - TrailingSpace(s)..])
  {
    if s != [] && IsSpace(s[|s| - 1]) {
      var t := s[..|s| - 1];
      TrailingSpaceIsSpace(t);
      var e := |s| - TrailingSpace(s);
      var dropped := s[e..];
      forall k | 0 <= k < |dropped| ensures IsSpace(dropped[k]) {
        if e + k < |s| - 1 {
          assert t[e..][k] == dropped[k];
        }
      }
    }
  }

  /** `s.lstrip()`: `s` without its leading whitespace. */
  function StripLeft(s: string): (r: string)
    ensures |r| <= |s| && r == s[|s| - |r|..]
    ensures r == [] || !IsSpace(r[0])
  {
    s[LeadingSpace(s)..]
  }

  /** `s.rstrip()`: `s` without its trailing whitespace. */
  function StripRight(s: string): (r: string)
    ensures |r| <= |s| && r == s[..|r|]
    ensures r == [] || !IsSpace(r[|r| - 1])
  {
    s[..|s| - TrailingSpace(s)]
  }

  /** `s.strip()`: `s` without leading or trailing whitespace. */
  function Strip(s: string): (r: string)
    ensures |r| <= |s|
    ensures r == [] || (!IsSpace(r[0]) && !IsSpace(r[|r| - 1]))
  {
    StripRight(StripLeft(s))
  }

  /** The stripped text is the slice of `s` that starts after its leading whitespace. */
  lemma {:induction false} StripSlice(s: string)
    ensures LeadingSpace(s) + |Strip(s)| <= |s|
    ensures Strip(s) == s[LeadingSpace(s)..LeadingSpace(s) + |Strip(s)|]
  {
    var i := LeadingSpace(s);
    var l := s[i..];
    var n := |l| - TrailingSpace(l);
    assert Strip(s) == l[..n];
    SliceOfSuffix(s, i, n);
  }

  /** What `strip` cuts away after the stripped text is whitespace. */
  lemma {:induction false} StripDropsTrailingSpace(s: string)
    ensures LeadingSpace(s) + |Strip(s)| <= |s|
    ensures AllSpace(s[LeadingSpace(s) + |Strip(s)|..])
  {
    var i := LeadingSpace(s);
    var l := s[i..];
    var n := |l| - TrailingSpace(l);
    assert |Strip(s)| == n;
    TrailingSpaceIsSpace(l);
    SliceOfSuffix(s, i, n);
    assert l[n..] == s[i + n..];
  }

  /**
   * The stripped text is the contiguous middle of `s`, and everything cut
   * away on either side of it is whitespace.
   */
  lemma {:induction false} StripMiddle(s: string)
    ensures var i := LeadingSpace(s);
            var r := Strip(s);
            && i + |r| <= |s| && r == s[i..i + |r|]
            && AllSpace(s[..i]) && AllSpace(s[i + |r|..])
  {
    StripSlice(s);
    LeadingSpaceIsSpace(s);
    StripDropsTrailingSpace(s);
  }

  lemma {:induction false} SliceOfSuffix(s: string, i: int, n: int)
    requires 0 <= i && 0 <= n && i + n <= |s|
    ensures s[i..][..n] == s[i..i + n] && s[i..][n..] == s[i + n..]
  {
  }

  /** Stripping is empty exactly for all-whitespace strings. */
  lemma {:induction false} StripEmptyIffAllSpace(s: string)
    ensures Strip(s) == [] <==> AllSpace(s)
  {
    var r := Strip(s);
    StripMiddle(s);
    var i := LeadingSpace(s);
    if r != [] {
      assert r[0] == s[i];
    } else {
      // an empty strip leaves nothing after `lstrip` either, so all of `s` was dropped
      assert i == |s|;
      forall k | 0 <= k < |s| ensures IsSpace(s[k]) {
        assert s[..i][k] == s[k];
      }
    }
  }

  /** Stripping twice is stripping once. */
  lemma {:induction false} StripIdempotent(s: string)
    ensures Strip(Strip(s)) == Strip(s)
  {
    var r := Strip(s);
    assert StripLeft(r) == r;
    assert StripRight(r) == r;
  }

  /** `c.lower()` for ASCII and Latin-1 capitals; other characters are unchanged. */
  function LowerChar(c: char): char {
    if 'A' <= c <= 'Z' then (c as int + 32) as char
    else if '\U{C0}' <= c <= '\U{DE}' && c != '\U{D7}' then (c as int + 32) as char
    else c
  }

  /** `s.lower()`: a character-by-character mapping. */
  function Lower(s: string): (r: string)
    ensures |r| == |s|
    ensures forall k :: 0 <= k < |s| ==> r[k] == LowerChar(s[k])
  {
    seq(|s|, k requires 0 <= k < |s| => LowerChar(s[k]))
  }

  /** `s.upper()` of one character: `ß` becomes `SS`, `µ` and `ÿ` leave Latin-1. */
  function UpperChars(c: char): string {
    if 'a' <= c <= 'z' then [(c as int - 32) as char]
    else if '\U{E0}' <= c <= '\U{FE}' && c != '\U{F7}' then [(c as int - 32) as char]
    else if c == '\U{DF}' then "SS"
    else if c == '\U{B5}' then "\U{039C}"
    else if c == '\U{FF}' then "\U{0178}"
    else [c]
  }

  /** `s.upper()`. */
  function Upper(s: string): string {
    if s == [] then [] else UpperChars(s[0]) + Upper(s[1..])
  }

  /** A string of capitals, digits and punctuation is its own upper case. */
  lemma {:induction false} UpperFixed(s: string)
    requires forall k :: 0 <= k < |s| ==> !('a' <= s[k] <= 'z') && s[k] < '\U{B5}'
    ensures Upper(s) == s
  {
    if s != [] {
      UpperFixed(s[1..]);
      assert s == [s[0]] + s[1..];
    }
  }

  /** Lower-case ASCII letters and digits. */
  predicate PlainLowerChar(c: char) {
    'a' <= c <= 'z' || '0' <= c <= '9' || c == '.'
  }

  /**
   * Upper-casing does not see the case of letters: a string whose lower
   * case is plain ASCII has the same upper case as that lower case.
   */
  lemma {:induction false} UpperIgnoresCase(s: string)
    requires forall k :: 0 <= k < |s| ==> PlainLowerChar(LowerChar(s[k]))
    ensures Upper(s) == Upper(Lower(s))
  {
    if s != [] {
      UpperIgnoresCase(s[1..]);
      assert Lower(s[1..]) == Lower(s)[1..];
      assert UpperChars(s[0]) == UpperChars(LowerChar(s[0]));
    }
  }

  /** A string without capitals is its own lower case. */
  lemma {:induction false} LowerFixed(s: string)
    requires forall k :: 0 <= k < |s| ==> !('A' <= s[k] <= 'Z') && !('\U{C0}' <= s[k] <= '\U{DE}')
    ensures Lower(s) == s
  {
  }

  /** A string that neither starts nor ends with whitespace is its own strip. */
  lemma {:induction false} StripFixed(s: string)
    requires s == [] || (!IsSpace(s[0]) && !IsSpace(s[|s| - 1]))
    ensures Strip(s) == s
  {
  }

  /** Lower-casing twice is lower-casing once. */
  lemma {:induction false} LowerIdempotent(s: string)
    ensures Lower(Lower(s)) == Lower(s)
  {
  }

  /** `s.replace('Z', '+00:00')`. */
  function ReplaceZ(s: string): (r: string)
    ensures 'Z' !in s ==> r == s
    ensures 'Z' !in r
  {
    if s == [] then []
    else (if s[0] == 'Z' then "+00:00" else [s[0]]) + ReplaceZ(s[1..])
  }

  /** Python's `a <= b` on strings: code-point lexicographic order. */
  predicate StrLe(a: string, b: string) {
    if a == [] then true
    else if b == [] then false
    else if a[0] != b[0] then a[0] < b[0]
    else StrLe(a[1..], b[1..])
  }

  lemma {:induction false} StrLeTotal(a: string, b: string)
    ensures StrLe(a, b) || StrLe(b, a)
  {
    if a != [] && b != [] && a[0] == b[0] {
      StrLeTotal(a[1..], b[1..]);
    }
  }

  lemma {:induction false} StrLeTransitive(a: string, b: string, c: string)
    requires StrLe(a, b) && StrLe(b, c)
    ensures StrLe(a, c)
  {
    if a != [] && b != [] && c != [] && a[0] == b[0] && b[0] == c[0] {
      StrLeTransitive(a[1..], b[1..], c[1..]);
    }
  }

  lemma {:induction false} StrLeAntisymmetric(a: string, b: string)
    requires StrLe(a, b) && StrLe(b, a)
    ensures a == b
  {
    if a != [] && b != [] {
      StrLeAntisymmetric(a[1..], b[1..]);
      assert a == [a[0]] + a[1..];
      assert b == [b[0]] + b[1..];
    }
  }
}
