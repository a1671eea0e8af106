/** What a spreadsheet cell is once pandas has read it, and the three Python
    operations the converter applies to one: truth value (`or`), `pd.notna`
    and `str()`. Number parsing and float formatting are floating point and
    stay uninterpreted: they arrive as the functions of a `Coercion`. */
module Cells {

  datatype Option<+T> = None | Some(value: T)

  /** The outcome of evaluating a Python expression that may raise. */
  datatype Outcome<+T> = Ok(value: T) | Raised

  /** A scalar as `row.get(key)` returns it. */
  datatype Value =
    | Missing          // None: the sheet has no column of that name
    | Text(s: string)  // a str cell
    | Int(i: int)      // an int cell, or a row index
    | Float(x: real)   // a finite float cell
    | NaN              // float('nan'): how pandas fills an empty cell

  /** Python's truth value, which decides an `a or b` chain. NaN is a non-zero
      float, so it is truthy. */
  predicate Truthy(v: Value)
    ensures !Truthy(v) <==> v in {Missing, Text(""), Int(0), Float(0.0)}
  {
    match v
    case Missing => false
    case Text(s) => s != ""
    case Int(i) => i != 0
    case Float(x) => x != 0.0
    case NaN => true
  }

  /** `pd.notna(v)`: false for None and NaN, true for everything else. It
      differs from truthiness exactly on NaN and on the falsy cells `''`, `0`
      and `0.0`. */
  predicate NotNA(v: Value)
    ensures !NotNA(v) <==> v in {Missing, NaN}
    ensures NotNA(v) != Truthy(v) <==> v in {NaN, Text(""), Int(0), Float(0.0)}
  {
    !v.Missing? && !v.NaN?
  }

  /** The conversions the converter calls but that are floating point:
      `str()` of a float, `float(v)` and `int(v)`, the last two `None` where
      Python raises (a non-numeric string, an infinity passed to `int`). */
  datatype Coercion = Coercion(
    floatText: real -> string,
    toFloat: Value -> Option<real>,
    toInt: Value -> Option<int>)

  /** `str(v)`. */
  function PyStr(v: Value, floatText: real -> string): string {
    match v
    case Missing => "None"
    case Text(s) => s
    case Int(i) => DecimalText(i)
    case Float(x) => floatText(x)
    case NaN => "nan"
  }

  /** What `str()` gives for each kind of cell: the text itself, decimal
      digits that read back as the int, the float formatting, "None" and
      "nan". */
  lemma PyStrCases(v: Value, floatText: real -> string)
    ensures v.Text? ==> PyStr(v, floatText) == v.s
    ensures v.Int? ==> IntOfText(PyStr(v, floatText)) == Some(v.i)
    ensures v.Float? ==> PyStr(v, floatText) == floatText(v.x)
    ensures v == Missing ==> PyStr(v, floatText) == "None"
    ensures v == NaN ==> PyStr(v, floatText) == "nan"
  {
    if v.Int? {
      DecimalTextRoundTrip(v.i);
    }
  }

  predicate IsDigit(c: char) {
    '0' <= c <= '9'
  }

  predicate AllDigits(s: string) {
    forall k :: 0 <= k < |s| ==> IsDigit(s[k])
  }

  function DigitChar(d: nat): char
    requires d < 10
  {
    ('0' as int + d) as char
  }

  function DigitValue(c: char): nat
    requires IsDigit(c)
  {
    c as int - '0' as int
  }

  /** `str(n)` of a non-negative Python int: its decimal digits, most
      significant first, without leading zeros. */
  function NatText(n: nat): (s: string)
    ensures |s| > 0 && AllDigits(s)
    ensures s[0] == '0' ==> n == 0
    decreases n
  {
    if n < 10 then [DigitChar(n)] else NatText(n / 10) + [DigitChar(n % 10)]
  }

  /** `str(i)` of a Python int. */
  function DecimalText(i: int): (s: string)
    ensures |s| > 0
    ensures s[0] == '-' <==> i < 0
  {
    if i < 0 then "-" + NatText(-i) else NatText(i)
  }

  /** The value of a string of decimal digits. */
  function DigitsValue(s: string): nat
    requires AllDigits(s)
    decreases |s|
  {
    if |s| == 0 then 0 else DigitsValue(s[..|s| - 1]) * 10 + DigitValue(s[|s| - 1])
  }

  /** `int(s)` restricted to an optional minus sign followed by digits; `None`
      for every other string. The reference inverse of `DecimalText`. */
  function IntOfText(s: string): Option<int> {
    if |s| > 1 && s[0] == '-' && AllDigits(s[1..]) then Some(-(DigitsValue(s[1..]) as int))
    else if |s| > 0 && AllDigits(s) then Some(DigitsValue(s))
    else None
  }

  lemma {:induction false} NatTextRoundTrip(n: nat)
    ensures DigitsValue(NatText(n)) == n
    decreases n
  {
    if n >= 10 {
      var s := NatText(n);
      assert s[..|s| - 1] == NatText(n / 10);
      NatTextRoundTrip(n / 10);
    }
  }

  /** Reading back what `str()` wrote for an int gives the int again. */
  lemma DecimalTextRoundTrip(i: int)
    ensures IntOfText(DecimalText(i)) == Some(i)
  {
    if i < 0 {
      NatTextRoundTrip(-i);
      assert DecimalText(i)[1..] == NatText(-i);
    } else {
      NatTextRoundTrip(i);
    }
  }

  /** Distinct ints print as distinct strings. */
  lemma DecimalTextInjective(i: int, j: int)
    requires i != j
    ensures DecimalText(i) != DecimalText(j)
  {
    DecimalTextRoundTrip(i);
    DecimalTextRoundTrip(j);
  }
}
