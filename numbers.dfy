/**
 * The integer conversions the order form relies on: JavaScript's `parseInt`
 * restricted to an optional sign followed by a decimal-digit prefix, the
 * idiom that turns a value `parseInt` cannot read into 0, and the
 * decimal rendering of an integer used when a total is written into text.
 */
module Numbers {
  import opened Wrappers

  predicate IsDigit(c: char) {
    '0' <= c <= '9'
  }

  predicate AllDigits(s: string) {
    forall i :: 0 <= i < |s| ==> IsDigit(s[i])
  }

  function DigitValue(c: char): nat
    requires IsDigit(c)
  {
    (c as int) - ('0' as int)
  }

  function DigitChar(d: nat): (c: char)
    requires d < 10
    ensures IsDigit(c) && DigitValue(c) == d
  {
    (('0' as int) + d) as char
  }

  /** Length of the longest prefix of `s` made of decimal digits. */
  function DigitRun(s: string): (n: nat)
    ensures n <= |s|
    ensures AllDigits(s[..n])
    ensures n < |s| ==> !IsDigit(s[n])
  {
    if s == [] || !IsDigit(s[0]) then 0 else 1 + DigitRun(s[1..])
  }

  /** Value of a string of decimal digits, most significant first. */
  function DigitsValue(d: string): nat
    requires AllDigits(d)
  {
    if d == [] then 0 else 10 * DigitsValue(d[..|d| - 1]) + DigitValue(d[|d| - 1])
  }

  /** The digit prefix of `s` as a number; None when `s` does not start with a digit. */
  function ParseUnsigned(s: string): Option<nat> {
    var n := DigitRun(s);
    if n == 0 then None else Some(DigitsValue(s[..n]))
  }

  /** The text after an optional leading `-` or `+`. */
  function AfterSign(s: string): string {
    if |s| > 0 && (s[0] == '-' || s[0] == '+') then s[1..] else s
  }

  /** `parseInt(s)`: an optional sign, then at least one digit; the rest of `s` is ignored. */
  function ParseInt(s: string): Option<int> {
    if |s| > 0 && (s[0] == '-' || s[0] == '+') then
      match ParseUnsigned(s[1..])
      case None => None
      case Some(v) => Some(if s[0] == '-' then -(v as int) else v as int)
    else
      ParseUnsigned(s)
  }

  /**
   * What `parseInt` reads: it succeeds exactly when a digit follows the
   * optional sign, and its value is that of the maximal digit run, negated
   * when the text starts with `-`.
   */
  lemma ParseIntReads(s: string)
    ensures ParseInt(s).Some? <==> DigitRun(AfterSign(s)) > 0
    ensures ParseInt(s).Some? ==>
      var m := DigitsValue(AfterSign(s)[..DigitRun(AfterSign(s))]);
      ParseInt(s).value == if s[0] == '-' then -(m as int) else m as int
  {
  }

  /** The number a text contributes to a sum: its parsed value, or 0 when it does not parse. */
  function IntOr0(s: string): (r: int)
    ensures ParseInt(s).None? ==> r == 0
    ensures ParseInt(s).Some? ==> r == ParseInt(s).value
  {
    ParseInt(s).GetOr(0)
  }

  /** Decimal digits of `n`, without leading zeros. */
  function NatToString(n: nat): (s: string)
    ensures s != [] && AllDigits(s)
    ensures |s| > 1 ==> s[0] != '0'
  {
    if n < 10 then [DigitChar(n)] else NatToString(n / 10) + [DigitChar(n % 10)]
  }

  /** How JavaScript writes an integer-valued number into a template string. */
  function IntToString(n: int): string {
    if n < 0 then "-" + NatToString(-n) else NatToString(n)
  }

  lemma {:induction false} NatToStringValue(n: nat)
    ensures DigitsValue(NatToString(n)) == n
  {
    var s := NatToString(n);
    if n >= 10 {
      assert s[..|s| - 1] == NatToString(n / 10);
      NatToStringValue(n / 10);
    }
  }

  /** Parsing the rendering of an integer gives the integer back. */
  lemma ParseIntOfIntToString(n: int)
    ensures ParseInt(IntToString(n)) == Some(n)
  {
    var t := NatToString(if n < 0 then -n else n);
    NatToStringValue(if n < 0 then -n else n);
    assert DigitRun(t) == |t|;
    assert t[..|t|] == t;
    if n < 0 {
      assert IntToString(n)[1..] == t;
    }
  }

  /** The empty string and "0" both contribute nothing to a sum. */
  lemma EmptyAndZeroCountAsZero()
    ensures ParseInt("") == None && IntOr0("") == 0
    ensures ParseInt("0") == Some(0) && IntOr0("0") == 0
  {
    assert DigitRun("0") == 1;
    assert "0"[..1] == "0";
  }
}
