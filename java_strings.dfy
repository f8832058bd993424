/**
 * The part of `java.lang.String` the startup options builder relies on:
 * `trim()`, which removes every leading and trailing character whose code
 * point is at most U+0020 (space and the control characters U+0000 to
 * U+001F; DEL and the C1 controls are kept), and the `trim().isEmpty()` test
 * built on it.
 */
module JavaStrings {

  /** A character `String.trim()` removes from either end. */
  predicate IsTrimmed(c: char) {
    c <= ' '
  }

  /** Every character of `s` is one that `trim()` removes. */
  predicate AllTrimmed(s: string) {
    forall i :: 0 <= i < |s| ==> IsTrimmed(s[i])
  }

  /** The length of the leading run of trimmed characters of `s`. */
  function LeadingTrimmed(s: string): (n: nat)
    ensures n <= |s|
    ensures forall i :: 0 <= i < n ==> IsTrimmed(s[i])
    ensures n < |s| ==> !IsTrimmed(s[n])
  {
    if |s| > 0 && IsTrimmed(s[0]) then 1 + LeadingTrimmed(s[1..]) else 0
  }

  /** The length of the trailing run of trimmed characters of `s`. */
  function TrailingTrimmed(s: string): (n: nat)
    ensures n <= |s|
    ensures forall i :: |s| - n <= i < |s| ==> IsTrimmed(s[i])
    ensures n < |s| ==> !IsTrimmed(s[|s| - n - 1])
  {
    if |s| > 0 && IsTrimmed(s[|s| - 1]) then 1 + TrailingTrimmed(s[..|s| - 1]) else 0
  }

  /**
   * Index just past the last character `trim()` keeps; the trailing run is
   * looked for only after the leading one, so the two never overlap.
   */
  function TrimEnd(s: string): (end: nat)
    ensures LeadingTrimmed(s) <= end <= |s|
  {
    |s| - TrailingTrimmed(s[LeadingTrimmed(s)..])
  }

  /** `String.trim()`: both runs of trimmed characters removed. */
  function Trim(s: string): (t: string)
    ensures |t| <= |s|
  {
    s[LeadingTrimmed(s)..TrimEnd(s)]
  }

  /**
   * `trim()` keeps an infix of `s`; everything before and after it is a
   * trimmed character, and the infix is empty or starts and ends with a kept
   * character.
   */
  lemma TrimIsInfix(s: string)
    ensures forall i :: 0 <= i < LeadingTrimmed(s) ==> IsTrimmed(s[i])
    ensures forall i :: TrimEnd(s) <= i < |s| ==> IsTrimmed(s[i])
    ensures Trim(s) == [] || (!IsTrimmed(Trim(s)[0]) && !IsTrimmed(Trim(s)[|Trim(s)| - 1]))
  {
    var start, end := LeadingTrimmed(s), TrimEnd(s);
    var rest := s[start..];
    var k := TrailingTrimmed(rest);
    assert end == start + |rest| - k;
    forall i | end <= i < |s|
      ensures IsTrimmed(s[i])
    {
      assert s[i] == rest[i - start];
    }
    var t := Trim(s);
    assert t == s[start..end];
    if start < end {
      assert t[0] == s[start];
      assert t[|t| - 1] == s[end - 1] == rest[|rest| - k - 1];
    }
  }

  /** `s.trim().isEmpty()` holds exactly when every character of `s` is trimmed. */
  lemma TrimEmptyIff(s: string)
    ensures Trim(s) == [] <==> AllTrimmed(s)
  {
    TrimIsInfix(s);
  }

  /** A string that starts and ends with a kept character is its own trim. */
  lemma TrimOfUntrimmed(s: string)
    requires s == [] || (!IsTrimmed(s[0]) && !IsTrimmed(s[|s| - 1]))
    ensures Trim(s) == s
  {
    if s != [] {
      assert LeadingTrimmed(s) == 0;
      assert s[0..] == s;
      assert TrailingTrimmed(s) == 0;
    }
  }

  /** Trimming a trimmed string changes nothing. */
  lemma TrimIdempotent(s: string)
    ensures Trim(Trim(s)) == Trim(s)
  {
    TrimIsInfix(s);
    TrimOfUntrimmed(Trim(s));
  }
}
