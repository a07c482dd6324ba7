/**
  Character classes and the two small regular-expression shapes the validators use:
  `\w{n,}` over a whole string, and a lookahead `(?=.*[lo-hi])` that asks whether some
  character of the string lies in a range.
 */
module Text {

  import opened Wrappers

  /** A word character, `\w`, restricted to ASCII letters, digits and the underscore. */
  predicate IsWordChar(c: char) {
    ('a' <= c <= 'z') || ('A' <= c <= 'Z') || ('0' <= c <= '9') || c == '_'
  }

  /** `\w*` anchored at both ends: the matcher consumes `s` one character at a time. */
  predicate AllWordChars(s: string) {
    |s| == 0 || (IsWordChar(s[0]) && AllWordChars(s[1..]))
  }

  lemma {:induction false} AllWordCharsIff(s: string)
    ensures AllWordChars(s) <==> forall i :: 0 <= i < |s| ==> IsWordChar(s[i])
  {
    if |s| > 0 {
      AllWordCharsIff(s[1..]);
      assert forall i :: 1 <= i < |s| ==> s[i] == s[1..][i - 1];
    }
  }

  /** The lookahead `(?=.*[lo-hi])`: scans `s` for a character between `lo` and `hi`. */
  predicate ContainsInRange(s: string, lo: char, hi: char) {
    |s| > 0 && ((lo <= s[0] <= hi) || ContainsInRange(s[1..], lo, hi))
  }

  lemma {:induction false} ContainsInRangeIff(s: string, lo: char, hi: char)
    ensures ContainsInRange(s, lo, hi) <==> exists i :: 0 <= i < |s| && lo <= s[i] <= hi
  {
    if |s| > 0 {
      ContainsInRangeIff(s[1..], lo, hi);
      if exists i :: 0 <= i < |s| && lo <= s[i] <= hi {
        var i :| 0 <= i < |s| && lo <= s[i] <= hi;
        if i > 0 {
          assert s[1..][i - 1] == s[i];
        }
      }
      if ContainsInRange(s[1..], lo, hi) {
        var j :| 0 <= j < |s| - 1 && lo <= s[1..][j] <= hi;
        assert s[j + 1] == s[1..][j];
      }
    }
  }

  /** `str.lower()` on one character, restricted to ASCII: `A`..`Z` become `a`..`z`. */
  function LowerChar(c: char): (r: char)
    ensures 'A' <= c <= 'Z' ==> 'a' <= r <= 'z' && r as int - c as int == 'a' as int - 'A' as int
    ensures !('A' <= c <= 'Z') ==> r == c
  {
    if 'A' <= c <= 'Z' then (c as int - 'A' as int + 'a' as int) as char else c
  }

  /** `str.lower()` on a string, character by character. */
  function Lower(s: string): (r: string)
    ensures |r| == |s|
    ensures forall i :: 0 <= i < |s| ==> r[i] == LowerChar(s[i])
  {
    seq(|s|, i requires 0 <= i < |s| => LowerChar(s[i]))
  }

  lemma LowerIdempotent(s: string)
    ensures Lower(Lower(s)) == Lower(s)
  {
    assert forall i :: 0 <= i < |s| ==> LowerChar(LowerChar(s[i])) == LowerChar(s[i]);
  }

  /** Where `rsplit(c, 1)` splits `s`: the index of the last `c`, if there is one. */
  function LastIndexOf(s: string, c: char): (r: Option<nat>)
    ensures r.Some? ==> r.value < |s| && s[r.value] == c && forall j :: r.value < j < |s| ==> s[j] != c
    ensures r.None? ==> forall j :: 0 <= j < |s| ==> s[j] != c
  {
    if s == [] then None
    else if s[|s| - 1] == c then Some(|s| - 1)
    else LastIndexOf(s[..|s| - 1], c)
  }

  /** `c` repeated `n` times, the `'x' * n` of the boundary cases. */
  function Repeat(c: char, n: nat): (r: string)
    ensures |r| == n
    ensures forall i :: 0 <= i < n ==> r[i] == c
  {
    if n == 0 then "" else Repeat(c, n - 1) + [c]
  }
}
