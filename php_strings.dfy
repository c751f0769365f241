/**
 * The PHP string built-ins the exception message relies on: `explode` with a
 * one-character delimiter (and its inverse `implode`), and the decimal text an
 * integer becomes when it is interpolated into a double-quoted string.
 */
module PhpStrings {

  /** `implode(sep, parts)`: the parts joined by the separator. */
  function Implode(sep: char, parts: seq<string>): string
    requires |parts| >= 1
    decreases |parts|
  {
    if |parts| == 1 then parts[0]
    else Implode(sep, parts[..|parts| - 1]) + [sep] + parts[|parts| - 1]
  }

  /** Appending a character to the last part appends it to the joined text. */
  lemma ImplodeExtendLast(sep: char, parts: seq<string>, c: char)
    requires |parts| >= 1
    ensures Implode(sep, parts[..|parts| - 1] + [parts[|parts| - 1] + [c]]) == Implode(sep, parts) + [c]
  {
  }

  /** Adding an empty last part appends one separator to the joined text. */
  lemma ImplodeAddEmpty(sep: char, parts: seq<string>)
    requires |parts| >= 1
    ensures Implode(sep, parts + [""]) == Implode(sep, parts) + [sep]
  {
  }

  /**
   * `explode(sep, s)`: the maximal separator-free segments of `s`, in order.
   * There is always at least one segment, no segment holds the separator, and
   * joining the segments back gives `s`.
   */
  function Explode(sep: char, s: string): (parts: seq<string>)
    ensures |parts| >= 1
    ensures forall i :: 0 <= i < |parts| ==> sep !in parts[i]
    ensures Implode(sep, parts) == s
    decreases |s|
  {
    if s == [] then [""]
    else
      var init := Explode(sep, s[..|s| - 1]);
      var c := s[|s| - 1];
      assert s == s[..|s| - 1] + [c];
      if c == sep then
        ImplodeAddEmpty(sep, init);
        init + [""]
      else
        ImplodeExtendLast(sep, init, c);
        init[..|init| - 1] + [init[|init| - 1] + [c]]
  }

  /**
   * The text joined from several parts ends with the last part, right after a
   * separator; joined from one part, it is that part.
   */
  lemma ImplodeEndsWithLast(sep: char, parts: seq<string>)
    requires |parts| >= 1
    ensures var s, last := Implode(sep, parts), parts[|parts| - 1];
      && |last| <= |s| && s[|s| - |last|..] == last
      && (|parts| == 1 ==> s == last)
      && (|parts| > 1 ==> |last| < |s| && s[|s| - |last| - 1] == sep)
  {
  }

  predicate IsDigit(c: char) {
    '0' <= c <= '9'
  }

  predicate AllDigits(s: string) {
    forall i :: 0 <= i < |s| ==> IsDigit(s[i])
  }

  function DigitChar(d: nat): (c: char)
    requires d < 10
    ensures IsDigit(c)
  {
    ('0' as int + d) as char
  }

  function DigitValue(c: char): (d: nat)
    requires IsDigit(c)
    ensures d < 10
  {
    c as int - '0' as int
  }

  /** The decimal digits of a natural number, most significant first, without leading zeros. */
  function NatToDecimal(n: nat): (s: string)
    ensures |s| >= 1 && AllDigits(s)
    ensures |s| > 1 ==> s[0] != '0'
    decreases n
  {
    if n < 10 then [DigitChar(n)]
    else NatToDecimal(n / 10) + [DigitChar(n % 10)]
  }

  /** What PHP prints for an integer in a double-quoted string: a minus sign for negatives. */
  function IntToDecimal(i: int): string {
    if i < 0 then "-" + NatToDecimal(-i) else NatToDecimal(i)
  }

  /** The value of a string of decimal digits (the empty string stands for 0). */
  function DecimalValue(s: string): nat
    requires AllDigits(s)
    decreases |s|
  {
    if s == [] then 0
    else DecimalValue(s[..|s| - 1]) * 10 + DigitValue(s[|s| - 1])
  }

  /** Reads back an integer written by IntToDecimal. */
  function ParseInt(s: string): int
    requires (|s| > 0 && s[0] == '-' && AllDigits(s[1..])) || AllDigits(s)
  {
    if |s| > 0 && s[0] == '-' then -(DecimalValue(s[1..]) as int) else DecimalValue(s)
  }

  lemma {:induction false} NatToDecimalRoundTrip(n: nat)
    ensures DecimalValue(NatToDecimal(n)) == n
    decreases n
  {
    var s := NatToDecimal(n);
    if n < 10 {
      assert s[..|s| - 1] == [];
    } else {
      NatToDecimalRoundTrip(n / 10);
      assert s[..|s| - 1] == NatToDecimal(n / 10);
    }
  }

  /** Interpolating an integer loses nothing: the text reads back as the same integer. */
  lemma IntToDecimalRoundTrip(i: int)
    ensures var s := IntToDecimal(i);
      && ((|s| > 0 && s[0] == '-' && AllDigits(s[1..])) || AllDigits(s))
      && ParseInt(s) == i
  {
    if i < 0 {
      NatToDecimalRoundTrip(-i);
      assert IntToDecimal(i)[1..] == NatToDecimal(-i);
    } else {
      NatToDecimalRoundTrip(i);
    }
  }

  /** Different integers are printed differently. */
  lemma IntToDecimalInjective(i: int, j: int)
    requires IntToDecimal(i) == IntToDecimal(j)
    ensures i == j
  {
    IntToDecimalRoundTrip(i);
    IntToDecimalRoundTrip(j);
  }
}
