/**
 * The string pipelines the job uses (`Str::lower`, `Str::replace`) and PHP's
 * rendering of an integer inside an interpolated string.
 * Lower-casing is ASCII only: `mb_strtolower` would also fold non-ASCII letters.
 */
module Strings {

  predicate IsUpper(c: char) {
    'A' <= c <= 'Z'
  }

  predicate IsDigit(c: char) {
    '0' <= c <= '9'
  }

  function LowerChar(c: char): char {
    if IsUpper(c) then (c as int + 32) as char else c
  }

  /** No character of `s` is an upper-case ASCII letter. */
  predicate IsLowerCase(s: string) {
    forall i :: 0 <= i < |s| ==> !IsUpper(s[i])
  }

  /** `Str::lower`, restricted to ASCII: every upper-case letter becomes its
      lower-case partner and every other character is kept. */
  function Lower(s: string): (r: string)
    ensures |r| == |s|
    ensures IsLowerCase(r)
    ensures forall i :: 0 <= i < |s| && !IsUpper(s[i]) ==> r[i] == s[i]
    ensures forall i :: 0 <= i < |s| && IsUpper(s[i]) ==> r[i] as int == s[i] as int + 32
  {
    seq(|s|, i requires 0 <= i < |s| => LowerChar(s[i]))
  }

  /** `Str::replace('.', '_')`: every dot becomes an underscore, nothing else changes. */
  function ReplaceDots(s: string): (r: string)
    ensures |r| == |s|
    ensures '.' !in r
    ensures forall i :: 0 <= i < |s| && s[i] != '.' ==> r[i] == s[i]
    ensures forall i :: 0 <= i < |s| && s[i] == '.' ==> r[i] == '_'
  {
    seq(|s|, i requires 0 <= i < |s| => if s[i] == '.' then '_' else s[i])
  }

  /** Lower-casing leaves a string without upper-case letters unchanged. */
  lemma LowerKeepsLowerCase(s: string)
    requires IsLowerCase(s)
    ensures Lower(s) == s
  {
  }

  lemma LowerAppend(a: string, b: string)
    ensures Lower(a + b) == Lower(a) + Lower(b)
  {
  }

  /** Replacing dots and lower-casing commute, because neither `.` nor `_` has a case. */
  lemma LowerReplaceDotsCommute(s: string)
    ensures Lower(ReplaceDots(s)) == ReplaceDots(Lower(s))
  {
  }

  /** The decimal digits of `n`, as PHP prints an integer inside a string. */
  function Decimal(n: nat): (r: string)
    ensures |r| >= 1
    ensures forall i :: 0 <= i < |r| ==> IsDigit(r[i])
    ensures r[0] == '0' <==> n == 0
    ensures r[0] == '0' ==> r == "0"
  {
    if n < 10 then [('0' as int + n) as char]
    else Decimal(n / 10) + [('0' as int + n % 10) as char]
  }

  /** The number a string of decimal digits denotes. */
  function ParseDecimal(s: string): nat
    requires forall i :: 0 <= i < |s| ==> IsDigit(s[i])
  {
    if s == [] then 0
    else ParseDecimal(s[..|s| - 1]) * 10 + DigitValue(s[|s| - 1])
  }

  function DigitValue(c: char): nat
    requires IsDigit(c)
  {
    assert '0' as int <= c as int;
    c as int - '0' as int
  }

  /** Reading back the printed id gives the id. */
  lemma {:induction false} DecimalRoundTrip(n: nat)
    ensures ParseDecimal(Decimal(n)) == n
  {
    var d := Decimal(n);
    if n >= 10 {
      DecimalRoundTrip(n / 10);
      assert d[..|d| - 1] == Decimal(n / 10);
    }
  }

  /** Different ids print differently. */
  lemma DecimalInjective(m: nat, n: nat)
    ensures Decimal(m) == Decimal(n) ==> m == n
  {
    DecimalRoundTrip(m);
    DecimalRoundTrip(n);
  }
}
