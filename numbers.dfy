/**
 * Number text of the command protocol: the `%f` formatting the encoders use
 * (six decimals) and the `float()` conversion the decoder applies to each
 * parameter. Both are written out over decimal digit strings, and their round
 * trip is proved: parsing a formatted number gives the number rounded to six
 * decimals.
 */
module Numbers {
  import opened Common

  /** `%f` prints six decimals, so values are kept as counts of millionths. */
  const Decimals: nat := 6
  const Scale: nat := 1000000

  function Pow10(k: nat): (p: nat)
    ensures p >= 1
  {
    if k == 0 then 1 else 10 * Pow10(k - 1)
  }

  lemma Pow10Decimals()
    ensures Pow10(Decimals) == Scale
  {
    assert Pow10(2) == 100;
    assert Pow10(4) == 10000;
  }

  /**
   * The count of millionths that `%f` prints for r: the integer nearest to
   * r * 10^6, and of two equally near ones the even one.
   */
  function Millionths(r: real): (n: int)
    ensures -0.5 <= n as real - r * 1000000.0 <= 0.5
    ensures (n as real - r * 1000000.0 == 0.5 || n as real - r * 1000000.0 == -0.5) ==> n % 2 == 0
  {
    var x := r * 1000000.0;
    var f := x.Floor;
    if x - f as real < 0.5 then f
    else if x - f as real > 0.5 then f + 1
    else if f % 2 == 0 then f else f + 1
  }

  /** The value that survives formatting with `%f`: r to the nearest millionth, ties to an even count. */
  function Round6(r: real): (v: real)
    ensures -0.0000005 <= v - r <= 0.0000005
  {
    Millionths(r) as real / 1000000.0
  }

  predicate IsDigit(c: char)
  {
    '0' <= c <= '9'
  }

  predicate AllDigits(s: string)
  {
    forall i :: 0 <= i < |s| ==> IsDigit(s[i])
  }

  /** Characters `%f` can produce. */
  predicate IsNumberChar(c: char)
  {
    IsDigit(c) || c == '-' || c == '.'
  }

  function DigitChar(d: nat): (c: char)
    requires d < 10
    ensures IsDigit(c) && c as int - '0' as int == d
  {
    ('0' as int + d) as char
  }

  function DigitOf(c: char): nat
    requires IsDigit(c)
  {
    c as int - '0' as int
  }

  /** The natural number a string of decimal digits denotes (0 for the empty string). */
  function DigitsValue(s: string): nat
    requires AllDigits(s)
  {
    if s == [] then 0
    else DigitsValue(s[..|s| - 1]) * 10 + DigitOf(s[|s| - 1])
  }

  /** Decimal digits of n without leading zeros (a single "0" for zero). */
  function NatDigits(n: nat): (s: string)
    ensures s != [] && AllDigits(s) && DigitsValue(s) == n
  {
    if n < 10 then [DigitChar(n)]
    else
      var s := NatDigits(n / 10) + [DigitChar(n % 10)];
      assert s[..|s| - 1] == NatDigits(n / 10);
      s
  }

  /** Exactly k decimal digits of n, with leading zeros. */
  function PadDigits(n: nat, k: nat): (s: string)
    requires n < Pow10(k)
    ensures |s| == k && AllDigits(s) && DigitsValue(s) == n
  {
    if k == 0 then []
    else
      var s := PadDigits(n / 10, k - 1) + [DigitChar(n % 10)];
      assert s[..|s| - 1] == PadDigits(n / 10, k - 1);
      s
  }

  /** m millionths printed as the integer part, a point and six decimals. */
  function MillionthsText(m: nat): (s: string)
    ensures s != [] && IsDigit(s[0])
    ensures forall i :: 0 <= i < |s| ==> IsNumberChar(s[i])
  {
    Pow10Decimals();
    NatDigits(m / Scale) + "." + PadDigits(m % Scale, Decimals)
  }

  /**
   * `"%f" % r`: a minus sign for a negative r (even when it rounds to zero),
   * the integer part, a point and six decimals.
   */
  function FormatFloat(r: real): (s: string)
    ensures s != [] && forall i :: 0 <= i < |s| ==> IsNumberChar(s[i])
    ensures (s[0] == '-') <==> r < 0.0
  {
    var n := Millionths(r);
    if r < 0.0 then "-" + MillionthsText(-n) else MillionthsText(n)
  }

  /** Rounding is symmetric about zero: `%f` prints -r as a minus sign followed by the text of r. */
  lemma FormatNegative(r: real)
    requires r > 0.0
    ensures FormatFloat(-r) == "-" + FormatFloat(r)
  {
    MillionthsNegate(r);
  }

  /** A tie goes the same way for r and -r: to the even count. */
  lemma MillionthsNegate(r: real)
    ensures Millionths(-r) == -Millionths(r)
  {
    var n, m := Millionths(r), Millionths(-r);
    assert (-r) * 1000000.0 == -(r * 1000000.0);
    assert -1 <= m + n <= 1;
  }

  /** v divided by 10 k times. */
  function Shift(v: real, k: nat): real
  {
    if k == 0 then v else Shift(v, k - 1) / 10.0
  }

  lemma ShiftMillionths(v: real)
    ensures Shift(v, Decimals) == v / 1000000.0
  {
    assert Shift(v, 1) == v / 10.0;
    assert Shift(v, 2) == v / 100.0;
    assert Shift(v, 3) == v / 1000.0;
    assert Shift(v, 4) == v / 10000.0;
    assert Shift(v, 5) == v / 100000.0;
  }

  /** The value of the decimal `whole.frac`. */
  function DecimalValue(whole: string, frac: string): real
    requires AllDigits(whole) && AllDigits(frac)
  {
    DigitsValue(whole) as real + Shift(DigitsValue(frac) as real, |frac|)
  }

  /**
   * A `_` is accepted between two digits only, as in `1_000`: prev records
   * whether the character before it was a digit.
   */
  predicate GroupSeparator(s: string, prev: bool)
    requires s != []
  {
    s[0] == '_' && prev && |s| > 1 && IsDigit(s[1])
  }

  /**
   * Digits before the point, read left to right: `whole` is the value read so
   * far and `seen` records whether any digit was read.
   */
  function ScanWhole(s: string, whole: nat, seen: bool, prev: bool): Option<real>
  {
    if s == [] then (if seen then Some(whole as real) else None)
    else if IsDigit(s[0]) then ScanWhole(s[1..], whole * 10 + DigitOf(s[0]), true, true)
    else if GroupSeparator(s, prev) then ScanWhole(s[1..], whole, seen, false)
    else if s[0] == '.' then ScanFrac(s[1..], whole, 0, 0, seen, false)
    else None
  }

  /** Digits after the point: `frac` is their value so far and `len` their count. */
  function ScanFrac(s: string, whole: nat, frac: nat, len: nat, seen: bool, prev: bool): Option<real>
  {
    if s == [] then (if seen || len > 0 then Some(whole as real + Shift(frac as real, len)) else None)
    else if IsDigit(s[0]) then ScanFrac(s[1..], whole, frac * 10 + DigitOf(s[0]), len + 1, seen, true)
    else if GroupSeparator(s, prev) then ScanFrac(s[1..], whole, frac, len, seen, false)
    else None
  }

  /** An unsigned decimal: digits, optionally a point and more digits, at least one digit in all. */
  function ParseUnsigned(s: string): Option<real>
  {
    ScanWhole(s, 0, false, false)
  }

  /** The digits of an exponent, read left to right. */
  function ScanDigits(s: string, acc: nat, seen: bool, prev: bool): Option<nat>
  {
    if s == [] then (if seen then Some(acc) else None)
    else if IsDigit(s[0]) then ScanDigits(s[1..], acc * 10 + DigitOf(s[0]), true, true)
    else if GroupSeparator(s, prev) then ScanDigits(s[1..], acc, seen, false)
    else None
  }

  /** An exponent: an optional sign and at least one digit. */
  function ParseExponent(s: string): Option<int>
  {
    if s != [] && (s[0] == '-' || s[0] == '+') then
      match ScanDigits(s[1..], 0, false, false)
      case None => None
      case Some(e) =>
        var v: int := if s[0] == '-' then -(e as int) else e;
        Some(v)
    else
      match ScanDigits(s, 0, false, false)
      case None => None
      case Some(e) => Some(e)
  }

  /** The position of the first `e` or `E` of s, or |s| when there is none. */
  function ExponentAt(s: string): (k: nat)
    ensures k <= |s|
  {
    if s == [] || s[0] == 'e' || s[0] == 'E' then 0 else 1 + ExponentAt(s[1..])
  }

  /** m * 10^e. */
  function TimesPow10(m: real, e: int): real
  {
    if e >= 0 then m * Pow10(e) as real else m / Pow10(-e) as real
  }

  /** An unsigned number: a decimal, optionally followed by `e` or `E` and an exponent. */
  function ParseMagnitude(s: string): Option<real>
  {
    var k := ExponentAt(s);
    if k == |s| then ParseUnsigned(s)
    else
      match ParseUnsigned(s[..k])
      case None => None
      case Some(m) =>
        match ParseExponent(s[k + 1..])
        case None => None
        case Some(e) => Some(TimesPow10(m, e))
  }

  /**
   * `float(s)` on finite numbers: an optional sign, then a decimal with an
   * optional exponent; a `_` may separate two digits.
   */
  function ParseFloat(s: string): Option<real>
  {
    if s != [] && (s[0] == '-' || s[0] == '+') then
      match ParseMagnitude(s[1..])
      case None => None
      case Some(v) => Some(if s[0] == '-' then -v else v)
    else ParseMagnitude(s)
  }

  /** `float("1e3")` is a thousand. */
  lemma ParseExponentForm()
    ensures ParseFloat("1e3") == Some(1000.0)
  {
    var t := "1e3";
    assert t[1..] == "e3" && ExponentAt(t) == 1;
    assert t[..1] == "1" && t[2..] == "3";
    assert ParseUnsigned("1") == Some(1.0);
    assert ParseExponent("3") == Some(3);
    assert Pow10(3) == 1000;
  }

  /** `float("-2.5E-1")` is a negative quarter. */
  lemma ParseNegativeExponentForm()
    ensures ParseFloat("-2.5E-1") == Some(-0.25)
  {
    var t := "2.5E-1";
    assert "-2.5E-1"[1..] == t;
    assert t[1..] == ".5E-1" && t[2..] == "5E-1" && t[3..] == "E-1";
    assert ExponentAt(t) == 3;
    assert t[..3] == "2.5" && t[4..] == "-1";
    assert "2.5"[1..] == ".5" && "2.5"[2..] == "5";
    assert Shift(5.0, 1) == 0.5;
    assert ScanFrac("5", 2, 0, 0, true, false) == Some(2.5);
    assert ParseUnsigned("2.5") == Some(2.5);
    assert "-1"[1..] == "1";
    assert ParseExponent("-1") == Some(-1);
  }

  /** `float("1_000")` is a thousand; a `_` that does not sit between two digits is refused. */
  lemma ParseGroupedForm()
    ensures ParseFloat("1_000") == Some(1000.0)
    ensures ParseFloat("1__0") == None && ParseFloat("_1") == None && ParseFloat("1_") == None
  {
    var t := "1_000";
    assert t[1..] == "_000" && t[2..] == "000" && t[3..] == "00" && t[4..] == "0";
    assert ExponentAt(t) == |t|;
    assert ScanWhole("000", 1, true, false) == Some(1000.0);
    assert "1__0"[1..] == "__0";
    assert ExponentAt("1__0") == 4 && ExponentAt("_1") == 2 && ExponentAt("1_") == 2;
  }

  /** Text `%f` prints has no exponent. */
  lemma {:induction false} NoExponent(s: string)
    requires forall i :: 0 <= i < |s| ==> IsNumberChar(s[i])
    ensures ExponentAt(s) == |s|
  {
    if s != [] {
      NoExponent(s[1..]);
    }
  }

  /** The value of digits d read left to right after the value acc. */
  function Horner(acc: nat, d: string): nat
    requires AllDigits(d)
    decreases |d|
  {
    if d == [] then acc else Horner(acc * 10 + DigitOf(d[0]), d[1..])
  }

  lemma {:induction false} HornerAppend(acc: nat, d: string, c: char)
    requires AllDigits(d) && IsDigit(c)
    ensures Horner(acc, d + [c]) == Horner(acc, d) * 10 + DigitOf(c)
    decreases |d|
  {
    if d != [] {
      assert (d + [c])[1..] == d[1..] + [c];
      HornerAppend(acc * 10 + DigitOf(d[0]), d[1..], c);
    }
  }

  /** Reading left to right gives the value DigitsValue defines right to left. */
  lemma {:induction false} HornerValue(d: string)
    requires AllDigits(d)
    ensures Horner(0, d) == DigitsValue(d)
  {
    if d != [] {
      var init := d[..|d| - 1];
      HornerValue(init);
      HornerAppend(0, init, d[|d| - 1]);
      assert init + [d[|d| - 1]] == d;
    }
  }

  lemma {:induction false} ScanWholeDigits(d: string, rest: string, whole: nat, seen: bool, prev: bool)
    requires AllDigits(d)
    ensures ScanWhole(d + rest, whole, seen, prev) == ScanWhole(rest, Horner(whole, d), seen || d != [], prev || d != [])
    decreases |d|
  {
    if d == [] {
      assert d + rest == rest;
    } else {
      assert (d + rest)[0] == d[0];
      assert (d + rest)[1..] == d[1..] + rest;
      ScanWholeDigits(d[1..], rest, whole * 10 + DigitOf(d[0]), true, true);
    }
  }

  lemma {:induction false} ScanFracDigits(d: string, whole: nat, frac: nat, len: nat, seen: bool, prev: bool)
    requires AllDigits(d)
    ensures ScanFrac(d, whole, frac, len, seen, prev)
      == if seen || len + |d| > 0 then Some(whole as real + Shift(Horner(frac, d) as real, len + |d|)) else None
    decreases |d|
  {
    if d != [] {
      ScanFracDigits(d[1..], whole, frac * 10 + DigitOf(d[0]), len + 1, seen, true);
    }
  }

  lemma ParseDecimal(whole: string, frac: string)
    requires whole != [] && AllDigits(whole) && AllDigits(frac)
    ensures ParseUnsigned(whole + "." + frac) == Some(DecimalValue(whole, frac))
  {
    assert whole + "." + frac == whole + ("." + frac);
    ScanWholeDigits(whole, "." + frac, 0, false, false);
    assert ("." + frac)[1..] == frac;
    ScanFracDigits(frac, Horner(0, whole), 0, 0, true, false);
    HornerValue(whole);
    HornerValue(frac);
  }

  lemma MillionthsTextValue(m: nat)
    ensures ParseUnsigned(MillionthsText(m)) == Some(m as real / 1000000.0)
  {
    Pow10Decimals();
    var q, f := m / Scale, m % Scale;
    var whole := NatDigits(q);
    var frac := PadDigits(f, Decimals);
    ParseDecimal(whole, frac);
    ShiftMillionths(f as real);
    assert m == q * 1000000 + f;
  }

  lemma ParseSigned(m: nat)
    ensures ParseFloat(MillionthsText(m)) == Some(m as real / 1000000.0)
    ensures ParseFloat("-" + MillionthsText(m)) == Some(-(m as real / 1000000.0))
  {
    var body := MillionthsText(m);
    MillionthsTextValue(m);
    NoExponent(body);
    assert ("-" + body)[1..] == body;
  }

  /** Reading back what `%f` printed gives the value rounded to six decimals. */
  lemma ParseFormat(r: real)
    ensures ParseFloat(FormatFloat(r)) == Some(Round6(r))
  {
    var n := Millionths(r);
    if r < 0.0 {
      ParseSigned(-n);
      assert -((-n) as real / 1000000.0) == n as real / 1000000.0;
    } else {
      ParseSigned(n);
    }
  }
}
