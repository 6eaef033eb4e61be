/** String operations the JavaScript source relies on: `startsWith`,
    `includes` and the decimal rendering of a non-negative integer
    (`Number.prototype.toString`). */
module Text {

  /** `s.startsWith(prefix)` (case-sensitive). */
  predicate StartsWith(s: string, prefix: string)
  {
    |prefix| <= |s| && s[..|prefix|] == prefix
  }

  /** `needle` occurs in `s` at position `i`. */
  predicate OccursAt(s: string, needle: string, i: int)
  {
    0 <= i && i + |needle| <= |s| && s[i..i + |needle|] == needle
  }

  /** `s.includes(needle)`: a case-sensitive substring test. */
  function Contains(s: string, needle: string): (r: bool)
    ensures r <==> exists i :: OccursAt(s, needle, i)
    decreases |s|
  {
    if |s| < |needle| then
      assert forall i :: !OccursAt(s, needle, i);
      false
    else if s[..|needle|] == needle then
      assert OccursAt(s, needle, 0);
      true
    else
      var rest := Contains(s[1..], needle);
      assert forall i :: OccursAt(s[1..], needle, i) <==> OccursAt(s, needle, i + 1) by {
        forall i ensures OccursAt(s[1..], needle, i) <==> OccursAt(s, needle, i + 1) {
          if 0 <= i && i + |needle| <= |s| - 1 {
            assert s[1..][i..i + |needle|] == s[i + 1..i + 1 + |needle|];
          }
        }
      }
      assert !OccursAt(s, needle, 0);
      assert forall i :: OccursAt(s, needle, i) ==> i >= 1 && OccursAt(s[1..], needle, i - 1);
      rest
  }

  /** A string without the needle's first character does not contain it. */
  lemma AbsentFirstCharMeansNoMatch(s: string, needle: string)
    requires |needle| > 0
    requires forall j :: 0 <= j < |s| ==> s[j] != needle[0]
    ensures !Contains(s, needle)
  {
  }

  /** The character for a decimal digit. */
  function DigitChar(d: nat): (c: char)
    requires d < 10
    ensures '0' <= c <= '9' && (c as int) - ('0' as int) == d
  {
    (('0' as int) + d) as char
  }

  predicate IsDigits(s: string)
  {
    forall i :: 0 <= i < |s| ==> '0' <= s[i] <= '9'
  }

  /** `n.toString()` for a non-negative integer: its decimal digits, most
      significant first, without leading zeros. */
  function DecimalString(n: nat): (s: string)
    ensures |s| >= 1 && IsDigits(s)
    ensures |s| > 1 ==> s[0] != '0'
  {
    if n < 10 then [DigitChar(n)] else DecimalString(n / 10) + [DigitChar(n % 10)]
  }

  /** The number a string of decimal digits denotes. */
  function DecimalValue(s: string): nat
    requires IsDigits(s)
  {
    if s == [] then 0
    else DecimalValue(s[..|s| - 1]) * 10 + ((s[|s| - 1] as int) - ('0' as int))
  }

  /** Reading back the decimal rendering gives the number. */
  lemma {:induction false} DecimalRoundTrip(n: nat)
    ensures DecimalValue(DecimalString(n)) == n
  {
    var s := DecimalString(n);
    if n < 10 {
      assert s[..|s| - 1] == [];
    } else {
      assert s[..|s| - 1] == DecimalString(n / 10);
      DecimalRoundTrip(n / 10);
    }
  }

  /** Distinct numbers have distinct decimal renderings. */
  lemma DecimalStringInjective(a: nat, b: nat)
    requires DecimalString(a) == DecimalString(b)
    ensures a == b
  {
    DecimalRoundTrip(a);
    DecimalRoundTrip(b);
  }
}
