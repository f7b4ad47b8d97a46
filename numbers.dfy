/**
 * The numeric values the calculator handles, as Python sees them:
 * `int` and `float` objects, `format_number`, and the conversions
 * `float(text)` and `str(int)` that the display relies on.
 * A float is modelled as an exact real; rounding is not modelled.
 */
module Numbers {

  datatype Option<T> = None | Some(value: T)

  /** A Python number object: an `int`, or a `float` modelled by its exact value. */
  datatype Number = IntVal(i: int) | FloatVal(f: real)
  {
    function Value(): real {
      match this
      case IntVal(i) => i as real
      case FloatVal(f) => f
    }
  }

  /** `x % 1 == 0` */
  predicate IsIntegral(x: real) {
    x.Floor as real == x
  }

  /**
   * `format_number`: an integral value comes back as an `int`,
   * any other value comes back unchanged.
   */
  function FormatNumber(n: Number): (r: Number)
    ensures r.Value() == n.Value()
    ensures r.IntVal? <==> IsIntegral(n.Value())
    ensures !IsIntegral(n.Value()) ==> r == n
  {
    if IsIntegral(n.Value()) then IntVal(n.Value().Floor) else n
  }

  lemma FormatNumberIdempotent(n: Number)
    ensures FormatNumber(FormatNumber(n)) == FormatNumber(n)
  {
  }

  /** `a ** n` for a natural exponent, computed exactly. */
  function IntPow(a: real, n: nat): (r: real)
    ensures a != 0.0 ==> r != 0.0
    ensures a > 0.0 ==> r > 0.0
  {
    if n == 0 then 1.0 else a * IntPow(a, n - 1)
  }

  /** `math.factorial` */
  function Factorial(n: nat): (r: nat)
    ensures 1 <= r && n <= r
  {
    if n == 0 then 1 else n * Factorial(n - 1)
  }

  // ---------------------------------------------------------------------------
  // Decimal text
  // ---------------------------------------------------------------------------

  predicate IsDigit(c: char) {
    '0' <= c <= '9'
  }

  function DigitValue(c: char): (d: nat)
    requires IsDigit(c)
    ensures d < 10
  {
    c as int - '0' as int
  }

  function DigitChar(d: nat): (c: char)
    requires d < 10
    ensures IsDigit(c) && DigitValue(c) == d
  {
    ('0' as int + d) as char
  }

  predicate AllDigits(s: string) {
    forall i :: 0 <= i < |s| ==> IsDigit(s[i])
  }

  /** The value of a string of decimal digits read as a whole number. */
  function WholeValue(s: string): nat
    requires AllDigits(s)
  {
    if s == [] then 0 else WholeValue(s[..|s| - 1]) * 10 + DigitValue(s[|s| - 1])
  }

  /** The value of the digits after a decimal point. */
  function FractionValue(s: string): (r: real)
    requires AllDigits(s)
    ensures 0.0 <= r < 1.0
  {
    if s == [] then 0.0 else (DigitValue(s[0]) as real + FractionValue(s[1..])) / 10.0
  }

  /** The position of the first '.', or the length when there is none. */
  function PointIndex(s: string): (i: nat)
    ensures i <= |s|
    ensures i < |s| ==> s[i] == '.'
    ensures forall j :: 0 <= j < i ==> s[j] != '.'
  {
    if s == [] || s[0] == '.' then 0 else 1 + PointIndex(s[1..])
  }

  predicate IsExpMark(c: char) {
    c == 'e' || c == 'E'
  }

  /** The position of the first 'e' or 'E', or the length when there is none. */
  function ExpIndex(s: string): (i: nat)
    ensures i <= |s|
    ensures i < |s| ==> IsExpMark(s[i])
    ensures forall j :: 0 <= j < i ==> !IsExpMark(s[j])
  {
    if s == [] || IsExpMark(s[0]) then 0 else 1 + ExpIndex(s[1..])
  }

  /** Text after its sign, if any. */
  function Unsigned(s: string): string {
    if |s| > 0 && (s[0] == '-' || s[0] == '+') then s[1..] else s
  }

  /** `m * 10 ** e` for any integer exponent, exactly. */
  function Scale(m: real, e: int): (r: real)
    ensures m >= 0.0 ==> r >= 0.0
    decreases if e >= 0 then e else -e
  {
    if e == 0 then m
    else if e > 0 then Scale(m, e - 1) * 10.0
    else Scale(m, e + 1) / 10.0
  }

  /** The digits before an exponent: at most one point, at least one digit. */
  function ParseMantissa(s: string): Option<real> {
    var p := PointIndex(s);
    var whole := s[..p];
    var frac := if p < |s| then s[p + 1..] else "";
    if AllDigits(whole) && AllDigits(frac) && |whole| + |frac| > 0 then
      Some(WholeValue(whole) as real + FractionValue(frac))
    else
      None
  }

  /** The text after 'e': an optional sign and at least one digit. */
  function ParseExponent(t: string): Option<int> {
    var d := Unsigned(t);
    if |d| > 0 && AllDigits(d) then
      Some(if t[0] == '-' then -(WholeValue(d) as int) else WholeValue(d))
    else
      None
  }

  /** An unsigned float literal: a mantissa, then optionally 'e' or 'E' and an exponent. */
  function ParseUnsigned(s: string): Option<real> {
    var k := ExpIndex(s);
    match ParseMantissa(s[..k])
    case None => None
    case Some(m) =>
      if k == |s| then Some(m)
      else (
        match ParseExponent(s[k + 1..])
        case None => None
        case Some(e) => Some(Scale(m, e)))
  }

  /**
   * `float(s)` on the texts the display can hold: an optional sign and an
   * unsigned float literal. `None` is the ValueError Python raises.
   */
  function ParseFloat(s: string): (r: Option<real>)
    ensures r.Some? && |s| > 0 && s[0] == '-' ==> r.value <= 0.0
    ensures r.Some? && (|s| == 0 || s[0] != '-') ==> r.value >= 0.0
    ensures r.Some? ==> |s| > 0
  {
    var u := ParseUnsigned(Unsigned(s));
    ParseUnsignedNonNegative(Unsigned(s));
    if |s| > 0 && s[0] == '-' then
      match u
      case Some(x) => Some(-x)
      case None => None
    else
      u
  }

  /** Digits and points only, at most one point, at least one digit. */
  predicate IsMantissa(t: string) {
    && (forall i :: 0 <= i < |t| ==> IsDigit(t[i]) || t[i] == '.')
    && multiset(t)['.'] <= 1
    && (exists i :: 0 <= i < |t| && IsDigit(t[i]))
  }

  /** An optional sign, then at least one digit. */
  predicate IsExponent(t: string) {
    |Unsigned(t)| > 0 && AllDigits(Unsigned(t))
  }

  /** A mantissa, then optionally an exponent mark and an exponent. */
  predicate IsUnsignedDecimal(t: string) {
    var k := ExpIndex(t);
    IsMantissa(t[..k]) && (k == |t| || IsExponent(t[k + 1..]))
  }

  /** The grammar `float` accepts here, stated without reference to the parser. */
  predicate IsDecimal(s: string) {
    IsUnsignedDecimal(Unsigned(s))
  }

  /** `str(n)` for a natural number: its decimal digits. */
  function NatToString(n: nat): (s: string)
    ensures |s| >= 1 && AllDigits(s)
  {
    if n < 10 then [DigitChar(n)] else NatToString(n / 10) + [DigitChar(n % 10)]
  }

  /** `str(i)` for a Python int: a '-' exactly when negative. */
  function IntToString(i: int): (s: string)
    ensures |s| >= 1
    ensures s[0] == '-' <==> i < 0
  {
    if i < 0 then "-" + NatToString(-i) else NatToString(i)
  }

  // ---------------------------------------------------------------------------
  // Properties of the conversions
  // ---------------------------------------------------------------------------

  lemma {:induction false} WholeValueOfNatToString(n: nat)
    ensures WholeValue(NatToString(n)) == n
  {
    if n >= 10 {
      var s := NatToString(n);
      WholeValueOfNatToString(n / 10);
      assert s[..|s| - 1] == NatToString(n / 10);
    }
  }

  lemma PointIndexOfDigits(s: string)
    requires AllDigits(s)
    ensures PointIndex(s) == |s|
  {
  }

  lemma ExpIndexOfDigits(s: string)
    requires AllDigits(s)
    ensures ExpIndex(s) == |s|
  {
  }

  lemma ParseUnsignedOfDigits(s: string)
    requires AllDigits(s) && |s| > 0
    ensures ParseUnsigned(s) == Some(WholeValue(s) as real)
  {
    PointIndexOfDigits(s);
    ExpIndexOfDigits(s);
    assert s[..|s|] == s;
  }

  /** `float(str(i)) == i`: printing an int and reading it back is the identity. */
  lemma ParseIntToString(i: int)
    ensures ParseFloat(IntToString(i)) == Some(i as real)
  {
    var n: nat := if i < 0 then -i else i;
    var t := NatToString(n);
    WholeValueOfNatToString(n);
    ParseUnsignedOfDigits(t);
    if i < 0 {
      assert IntToString(i)[1..] == t;
    }
  }

  /** Prefixing a '-' to unsigned text negates what it reads as. */
  lemma ParseNegated(s: string)
    requires |s| > 0 && s[0] != '-' && s[0] != '+'
    ensures ParseFloat("-" + s) == match ParseFloat(s) case Some(x) => Some(-x) case None => None
  {
    assert ("-" + s)[1..] == s;
  }

  lemma MantissaNonNegative(s: string)
    ensures ParseMantissa(s).Some? ==> ParseMantissa(s).value >= 0.0
  {
  }

  /** An unsigned literal reads as a value that is not negative. */
  lemma ParseUnsignedNonNegative(s: string)
    ensures ParseUnsigned(s).Some? ==> ParseUnsigned(s).value >= 0.0
  {
    MantissaNonNegative(s[..ExpIndex(s)]);
  }

  lemma {:induction false} PointsBefore(s: string, k: nat)
    requires k <= |s|
    requires forall j :: 0 <= j < k ==> s[j] != '.'
    ensures multiset(s[..k])['.'] == 0
  {
    if k > 0 {
      PointsBefore(s, k - 1);
      assert s[..k] == s[..k - 1] + [s[k - 1]];
    }
  }

  lemma {:induction false} DigitsHaveNoPoint(s: string)
    requires AllDigits(s)
    ensures multiset(s)['.'] == 0
  {
    PointsBefore(s, |s|);
    assert s[..|s|] == s;
  }

  lemma NoPointAllDigits(s: string)
    requires forall i :: 0 <= i < |s| ==> IsDigit(s[i]) || s[i] == '.'
    requires multiset(s)['.'] == 0
    ensures AllDigits(s)
  {
    assert forall i :: 0 <= i < |s| ==> s[i] in multiset(s);
  }

  /** The points of a text are its first one and those after it. */
  lemma PointCount(s: string)
    ensures var p := PointIndex(s);
      multiset(s)['.'] == if p < |s| then 1 + multiset(s[p + 1..])['.'] else 0
  {
    var p := PointIndex(s);
    PointsBefore(s, p);
    if p < |s| {
      assert s == s[..p] + [s[p]] + s[p + 1..];
    } else {
      assert s == s[..p];
    }
  }

  /** The characters of a readable mantissa are digits and points. */
  lemma MantissaCharacters(s: string)
    requires ParseMantissa(s).Some?
    ensures forall i :: 0 <= i < |s| ==> IsDigit(s[i]) || s[i] == '.'
  {
    var p := PointIndex(s);
    forall i | 0 <= i < |s|
      ensures IsDigit(s[i]) || s[i] == '.'
    {
      if i < p {
        assert s[i] == s[..p][i];
      } else if i > p {
        assert s[i] == s[p + 1..][i - p - 1];
      }
    }
  }

  /** A readable mantissa has at most one point. */
  lemma MantissaPoints(s: string)
    requires ParseMantissa(s).Some?
    ensures multiset(s)['.'] <= 1
  {
    var p := PointIndex(s);
    PointCount(s);
    if p < |s| {
      DigitsHaveNoPoint(s[p + 1..]);
    }
  }

  /** A readable mantissa has a digit. */
  lemma MantissaDigit(s: string)
    requires ParseMantissa(s).Some?
    ensures exists i :: 0 <= i < |s| && IsDigit(s[i])
  {
    var p := PointIndex(s);
    if p > 0 {
      assert IsDigit(s[..p][0]) && s[..p][0] == s[0];
    } else {
      assert s[p + 1..][0] == s[p + 1];
      assert IsDigit(s[p + 1]);
    }
  }

  /** Whatever the mantissa parser reads is in the mantissa grammar. */
  lemma MantissaSound(s: string)
    requires ParseMantissa(s).Some?
    ensures IsMantissa(s)
  {
    MantissaCharacters(s);
    MantissaPoints(s);
    MantissaDigit(s);
  }

  /** In a text of the mantissa grammar, both sides of the first point are digits. */
  lemma MantissaParts(s: string)
    requires IsMantissa(s)
    ensures var p := PointIndex(s);
      AllDigits(s[..p]) && AllDigits(if p < |s| then s[p + 1..] else "")
  {
    var p := PointIndex(s);
    PointsBefore(s, p);
    NoPointAllDigits(s[..p]);
    if p < |s| {
      PointCount(s);
      NoPointAllDigits(s[p + 1..]);
    }
  }

  /** Every text of the mantissa grammar is read by the mantissa parser. */
  lemma MantissaComplete(s: string)
    requires IsMantissa(s)
    ensures ParseMantissa(s).Some?
  {
    var p := PointIndex(s);
    MantissaParts(s);
    var i :| 0 <= i < |s| && IsDigit(s[i]);
    assert i != p;
    if i < p {
      assert |s[..p]| > 0;
    } else {
      assert |s[p + 1..]| > 0;
    }
  }

  /** `float(s)` succeeds exactly on the decimal texts. */
  lemma ParseFloatAccepts(s: string)
    ensures ParseFloat(s).Some? <==> IsDecimal(s)
  {
    var u := Unsigned(s);
    var m := u[..ExpIndex(u)];
    if ParseMantissa(m).Some? {
      MantissaSound(m);
    }
    if IsMantissa(m) {
      MantissaComplete(m);
    }
  }

  /** The text "Error" does not read as a number. */
  lemma ErrorUnreadable()
    ensures ParseFloat("Error").None?
  {
    assert Unsigned("Error") == "Error";
    assert ExpIndex("Error") == 0;
    assert "Error"[..0] == "";
    assert ParseMantissa("").None?;
  }

  lemma ParseFive()
    ensures ParseMantissa("5") == Some(5.0)
  {
    PointIndexOfDigits("5");
    assert "5"[..1] == "5";
    assert WholeValue("5") == 5 by {
      assert "5"[..0] == "";
    }
  }

  lemma ParseMinusSix()
    ensures ParseExponent("-06") == Some(-6)
  {
    assert Unsigned("-06") == "06";
    assert WholeValue("06") == 6 by {
      assert "06"[..1] == "0";
      assert "0"[..0] == "";
    }
  }

  /** Python prints a float below 1e-4 with an exponent, and reads it back. */
  lemma ParseSmallFloat()
    ensures ParseFloat("-5e-06") == Some(-0.000005)
  {
    var u := "5e-06";
    assert Unsigned("-5e-06") == u;
    assert ExpIndex(u) == 1 by {
      assert u[1..] == "e-06";
    }
    assert u[..1] == "5" && u[2..] == "-06";
    ParseFive();
    ParseMinusSix();
    assert Scale(5.0, -6) == 0.000005;
    assert ParseUnsigned(u) == Some(Scale(5.0, -6));
  }
}
