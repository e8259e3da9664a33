/** The string functions the validators, the queries and the ledger texts rely on. */
module Text {

  /** Characters that String.trim() strips: every code point up to and including the space. */
  predicate IsTrimmed(c: char) {
    c <= ' '
  }

  /**
   * Bean Validation's @NotBlank on a string: after trimming, something is left.
   * The contract gives the independent "some character survives trimming" reading.
   */
  function NotBlank(s: string): (r: bool)
    ensures r <==> exists i :: 0 <= i < |s| && !IsTrimmed(s[i])
  {
    if s == [] then false
    else if !IsTrimmed(s[0]) then true
    else
      var rest := NotBlank(s[1..]);
      assert rest ==> exists i :: 0 <= i < |s| && !IsTrimmed(s[i]) by {
        if rest {
          var j :| 0 <= j < |s[1..]| && !IsTrimmed(s[1..][j]);
          assert !IsTrimmed(s[j + 1]);
        }
      }
      assert !rest ==> forall i :: 0 <= i < |s| ==> IsTrimmed(s[i]) by {
        if !rest {
          forall i | 0 <= i < |s| ensures IsTrimmed(s[i]) {
            if i > 0 { assert s[i] == s[1..][i - 1]; }
          }
        }
      }
      rest
  }

  /** A character outside the Basic Multilingual Plane, which UTF-16 stores as a surrogate pair. */
  predicate IsSupplementary(c: char) {
    c as int > 0xFFFF
  }

  /**
   * String.length() on the JVM: the number of UTF-16 code units, which is what
   * @Size measures. A string is at least as long as its characters and at most
   * twice as long; it is exactly as long when every character lies in the Basic
   * Multilingual Plane, and exactly twice as long when none does.
   */
  function Utf16Length(s: string): (n: nat)
    ensures |s| <= n <= 2 * |s|
    ensures (forall i :: 0 <= i < |s| ==> !IsSupplementary(s[i])) ==> n == |s|
    ensures (forall i :: 0 <= i < |s| ==> IsSupplementary(s[i])) ==> n == 2 * |s|
  {
    if s == [] then 0
    else
      assert forall i :: 0 <= i < |s[1..]| ==> s[1..][i] == s[i + 1];
      (if IsSupplementary(s[0]) then 2 else 1) + Utf16Length(s[1..])
  }

  /** Upper-casing of one character, as the database's UPPER() does for ASCII letters. */
  function UpperChar(c: char): char {
    if 'a' <= c <= 'z' then (c as int - 32) as char else c
  }

  function Upper(s: string): string {
    seq(|s|, i requires 0 <= i < |s| => UpperChar(s[i]))
  }

  /** The `IgnoreCase` of Spring Data's derived queries: UPPER(a) = UPPER(b). */
  predicate EqualsIgnoreCase(a: string, b: string) {
    Upper(a) == Upper(b)
  }

  predicate OccursAt(needle: string, haystack: string, i: int) {
    0 <= i <= |haystack| - |needle| && haystack[i..i + |needle|] == needle
  }

  predicate IsInfix(needle: string, haystack: string) {
    exists i | 0 <= i <= |haystack| - |needle| :: OccursAt(needle, haystack, i)
  }

  /** The `ContainingIgnoreCase` of Spring Data: UPPER(haystack) LIKE %UPPER(needle)%. */
  predicate ContainsIgnoreCase(haystack: string, needle: string) {
    IsInfix(Upper(needle), Upper(haystack))
  }

  function DigitChar(d: nat): char
    requires d < 10
  {
    ('0' as int + d) as char
  }

  function NatToString(n: nat): string
    decreases n
  {
    if n < 10 then [DigitChar(n)] else NatToString(n / 10) + [DigitChar(n % 10)]
  }

  /** Kotlin's rendering of an Int inside a string template. */
  function IntToString(i: int): string {
    if i < 0 then "-" + NatToString(-i) else NatToString(i)
  }
}
