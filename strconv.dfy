/**
 * `strconv.ParseInt(s, 10, 64)` and its inverse `strconv.FormatInt(n, 10)`,
 * the only two number conversions the timestamp resolution relies on.
 */
module StrConv {
  import opened Wrappers
  import opened GoValues

  predicate IsDigit(c: char) {
    '0' <= c <= '9'
  }

  predicate AllDigits(s: string) {
    forall i | 0 <= i < |s| :: IsDigit(s[i])
  }

  function DigitValue(c: char): nat
    requires IsDigit(c)
  {
    (c as int) - ('0' as int)
  }

  function DigitChar(d: nat): (c: char)
    requires d < 10
    ensures IsDigit(c) && DigitValue(c) == d
  {
    ('0' as int + d) as char
  }

  /** The value of a string of decimal digits, most significant first. */
  function DecimalValue(s: string): nat
    requires AllDigits(s)
  {
    if s == [] then 0 else 10 * DecimalValue(s[..|s| - 1]) + DigitValue(s[|s| - 1])
  }

  /** The text after an optional leading '+' or '-'. */
  function Unsigned(s: string): string {
    if s != [] && (s[0] == '+' || s[0] == '-') then s[1..] else s
  }

  /** The value a sign and digit string denotes: a leading '-' negates, '+' does not. */
  function SignedValue(s: string): int
    requires AllDigits(Unsigned(s))
  {
    if s != [] && s[0] == '-' then -(DecimalValue(Unsigned(s)) as int) else DecimalValue(Unsigned(s))
  }

  /**
   * `strconv.ParseInt(s, 10, 64)`: an optional sign, then one or more ASCII
   * digits and nothing else, and a value within int64.  Every other input is
   * an error (`None`): the empty string, a lone sign, any other character,
   * and out-of-range values.
   */
  function ParseInt(s: string): (r: Option<Int64>)
    // accepted exactly when the text is a signed digit string whose value fits in int64
    ensures r.Some? <==> |Unsigned(s)| > 0 && AllDigits(Unsigned(s)) && MinInt64 <= SignedValue(s) <= MaxInt64
    ensures r.Some? ==> r.value == SignedValue(s)
    // corollaries of the two clauses above, spelled out for callers
    ensures r.Some? ==> |Unsigned(s)| > 0 && AllDigits(Unsigned(s))
    ensures r.Some? ==> (r.value == DecimalValue(Unsigned(s)) || r.value == -(DecimalValue(Unsigned(s)) as int))
    ensures r.Some? && r.value < 0 ==> s[0] == '-'
    // every digit string whose magnitude fits in int64 is accepted, whatever its sign
    ensures |Unsigned(s)| > 0 && AllDigits(Unsigned(s)) && DecimalValue(Unsigned(s)) <= MaxInt64 ==> r.Some?
    // magnitudes beyond 2^63 are out of range for either sign
    ensures |Unsigned(s)| > 0 && AllDigits(Unsigned(s)) && DecimalValue(Unsigned(s)) > -MinInt64 ==> r.None?
  {
    var digits := Unsigned(s);
    if digits == [] || !AllDigits(digits) then None
    else
      var v: int := if s[0] == '-' then -(DecimalValue(digits) as int) else DecimalValue(digits);
      if MinInt64 <= v <= MaxInt64 then Some(v) else None
  }

  /**
   * The int64 edge: the magnitude 2^63 parses only with a leading '-', as
   * the minimum int64; with '+' or no sign it is out of range.
   */
  lemma ParseIntMagnitudeEdge(s: string)
    requires |Unsigned(s)| > 0 && AllDigits(Unsigned(s)) && DecimalValue(Unsigned(s)) == -MinInt64
    ensures ParseInt(s) == if s[0] == '-' then Some(MinInt64) else None
  {
  }

  /** The decimal digits of `n`, without leading zeros. */
  function DecimalDigits(n: nat): (s: string)
    ensures |s| > 0 && AllDigits(s) && DecimalValue(s) == n
    ensures s[0] == '0' ==> n == 0
    decreases n
  {
    if n < 10 then [DigitChar(n)]
    else
      var prefix := DecimalDigits(n / 10);
      var s := prefix + [DigitChar(n % 10)];
      assert s[..|s| - 1] == prefix;
      s
  }

  /** `strconv.FormatInt(n, 10)`; parsing its output gives `n` back. */
  function FormatInt(n: Int64): (s: string)
    ensures ParseInt(s) == Some(n)
    ensures s[0] == '-' <==> n < 0
  {
    if n < 0 then
      var magnitude: nat := -(n as int);
      var s := "-" + DecimalDigits(magnitude);
      assert Unsigned(s) == DecimalDigits(magnitude);
      s
    else
      var s := DecimalDigits(n);
      assert Unsigned(s) == s;
      s
  }

  /** The digits of 1700000, built one digit at a time. */
  lemma ShortMillisDigits()
    ensures DecimalDigits(1700000) == "1700000"
  {
    assert DecimalDigits(1) == "1";
    assert DecimalDigits(17) == "17";
    assert DecimalDigits(170) == "170";
    assert DecimalDigits(1700) == "1700";
    assert DecimalDigits(17000) == "17000";
    assert DecimalDigits(170000) == "170000";
  }

  /** The digits of 1700000000000, built one digit at a time. */
  lemma MillisDigits()
    ensures DecimalDigits(1700000000000) == "1700000000000"
  {
    ShortMillisDigits();
    assert DecimalDigits(17000000) == "17000000";
    assert DecimalDigits(170000000) == "170000000";
    assert DecimalDigits(1700000000) == "1700000000";
    assert DecimalDigits(17000000000) == "17000000000";
    assert DecimalDigits(170000000000) == "170000000000";
  }

  /** The integer timestamp `"1700000000000"` parses to itself. */
  lemma ParseIntMillisExample()
    ensures ParseInt("1700000000000") == Some(1700000000000)
  {
    MillisDigits();
    assert FormatInt(1700000000000) == DecimalDigits(1700000000000);
  }
}
