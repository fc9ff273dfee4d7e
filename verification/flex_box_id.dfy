/**
 * The string form of a numeric box id (`to_string()` on an unsigned
 * integer: its decimal digits) and the inverse reading, so that a
 * `FlexBoxProps` id can be traced back to the id it was built from.
 */
module FlexBoxIds {
  import opened TuiCore

  predicate IsDigit(c: char)
  {
    '0' <= c <= '9'
  }

  function DigitChar(d: nat): (c: char)
    requires d < 10
    ensures IsDigit(c)
  {
    (('0' as int) + d) as char
  }

  function DigitValue(c: char): (d: nat)
    requires IsDigit(c)
    ensures d < 10
  {
    (c as int) - ('0' as int)
  }

  /** Decimal rendering, most significant digit first, no leading zeros. */
  function IdToString(n: nat): (s: string)
    ensures |s| > 0
    ensures forall i :: 0 <= i < |s| ==> IsDigit(s[i])
    ensures |s| > 1 ==> s[0] != '0'
    decreases n
  {
    if n < 10 then [DigitChar(n)]
    else IdToString(n / 10) + [DigitChar(n % 10)]
  }

  /** Reads a decimal string back; `None` for the empty string or a non-digit. */
  function ParseId(s: string): (r: Option<nat>)
    ensures r.Some? ==> |s| > 0
    decreases |s|
  {
    if |s| == 0 then None
    else if !IsDigit(s[|s| - 1]) then None
    else if |s| == 1 then Some(DigitValue(s[0]))
    else match ParseId(s[..|s| - 1])
      case None => None
      case Some(v) => Some(v * 10 + DigitValue(s[|s| - 1]))
  }

  /** Reading the string form gives the id back. */
  lemma {:induction false} ParseIdToString(n: nat)
    ensures ParseId(IdToString(n)) == Some(n)
    decreases n
  {
    var s := IdToString(n);
    if n >= 10 {
      ParseIdToString(n / 10);
      assert s[..|s| - 1] == IdToString(n / 10);
      assert DigitValue(DigitChar(n % 10)) == n % 10;
    } else {
      assert DigitValue(DigitChar(n)) == n;
    }
  }

  /** Distinct ids have distinct string forms. */
  lemma IdToStringInjective(a: nat, b: nat)
    requires IdToString(a) == IdToString(b)
    ensures a == b
  {
    ParseIdToString(a);
    ParseIdToString(b);
  }
}
