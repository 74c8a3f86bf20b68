/** Java `int` arithmetic, `Integer.parseInt` and the `%0Nd` format, which the
    invoice numbering and every quantity field go through. */
module JavaNumbers {
  import opened Wrappers
  import opened Text

  const INT_MIN: int := -0x8000_0000
  const INT_MAX: int := 0x7fff_ffff

  predicate IsInt32(n: int) { INT_MIN <= n <= INT_MAX }

  /** Java `int` addition: the mathematical sum reduced into the 32-bit range. */
  function Wrap32(n: int): (r: int)
    ensures IsInt32(r)
    ensures IsInt32(n) ==> r == n
    ensures (r - n) % 0x1_0000_0000 == 0
  {
    (n - INT_MIN) % 0x1_0000_0000 + INT_MIN
  }

  /** Numbers that agree modulo 2^32 wrap to the same `int`. */
  lemma Wrap32Congruent(x: int, y: int)
    requires (x - y) % 0x1_0000_0000 == 0
    ensures Wrap32(x) == Wrap32(y)
  {
    var m := 0x1_0000_0000;
    var k := (x - y) / m;
    assert x - INT_MIN == (y - INT_MIN) + k * m;
    assert ((y - INT_MIN) + k * m) % m == (y - INT_MIN) % m;
  }

  /** Adding to an `int` that already wrapped gives what adding to the
      exact value and wrapping once gives: a running `+=` over `int`
      ends at the wrapped exact sum. */
  lemma Wrap32Accumulate(total: int, x: int)
    ensures Wrap32(Wrap32(total) + x) == Wrap32(total + x)
  {
    Wrap32Congruent(Wrap32(total) + x, total + x);
  }

  function Pow10(k: nat): (r: nat)
    ensures r >= 1
  {
    if k == 0 then 1 else 10 * Pow10(k - 1)
  }

  function DigitValue(c: char): (r: nat)
    requires IsDigit(c)
    ensures r < 10
  {
    c as int - '0' as int
  }

  function DigitChar(d: nat): (c: char)
    requires d < 10
    ensures IsDigit(c) && DigitValue(c) == d
  {
    ('0' as int + d) as char
  }

  /** The value of a string of decimal digits, most significant first. */
  function DigitsValue(s: string): nat
    requires AllDigits(s)
  {
    if |s| == 0 then 0 else 10 * DigitsValue(s[..|s| - 1]) + DigitValue(s[|s| - 1])
  }

  /** `Integer.parseInt` failed with a NumberFormatException. */
  datatype NumberFormatError = NumberFormatError

  /** `Integer.parseInt(s)`: an optional sign, then one or more ASCII digits
      whose value fits in an `int`. */
  function ParseInt(s: string): (r: Result<int, NumberFormatError>)
    ensures r.Success? ==> IsInt32(r.value)
    ensures r.Success? ==> |s| > 0 && (IsDigit(s[0]) || s[0] == '-' || s[0] == '+')
    ensures AllDigits(s) && |s| > 0 && DigitsValue(s) <= INT_MAX ==> r == Success(DigitsValue(s))
  {
    var signed := |s| > 0 && (s[0] == '-' || s[0] == '+');
    var digits := if signed then s[1..] else s;
    if |digits| == 0 || !AllDigits(digits) then Failure(NumberFormatError)
    else
      var v: int := if signed && s[0] == '-' then -(DigitsValue(digits) as int) else DigitsValue(digits);
      if IsInt32(v) then Success(v) else Failure(NumberFormatError)
  }

  /** The position of the first `c` in `s`. */
  function FirstIndexOf(s: string, c: char): (r: Option<nat>)
    ensures r.Some? ==> r.value < |s| && s[r.value] == c
    ensures r.Some? ==> forall k :: 0 <= k < r.value ==> s[k] != c
    ensures r.None? ==> forall k :: 0 <= k < |s| ==> s[k] != c
  {
    if |s| == 0 then None
    else if s[0] == c then Some(0)
    else match FirstIndexOf(s[1..], c)
      case None => None
      case Some(k) => Some(k + 1)
  }

  /** `Double.parseDouble` on plain decimal text: an optional sign, then
      digits with at most one decimal point and at least one digit. The
      value is exact. */
  function ParseDecimal(s: string): (r: Option<real>)
    ensures r.Some? ==> |s| > 0
  {
    var signed := |s| > 0 && (s[0] == '-' || s[0] == '+');
    var body := if signed then s[1..] else s;
    var dot := FirstIndexOf(body, '.');
    var intPart := if dot.Some? then body[..dot.value] else body;
    var fracPart := if dot.Some? then body[dot.value + 1..] else [];
    if |intPart| + |fracPart| == 0 || !AllDigits(intPart) || !AllDigits(fracPart) then None
    else
      var v := DecimalValue(intPart, fracPart);
      Some(if signed && s[0] == '-' then -v else v)
  }

  /** The value of `whole.fraction`. */
  function DecimalValue(whole: string, fraction: string): (v: real)
    requires AllDigits(whole) && AllDigits(fraction)
    ensures v >= 0.0
  {
    DigitsValue(whole) as real + FractionValue(fraction)
  }

  /** The value of the digits after the decimal point: the first digit in
      tenths, the next in hundredths, and so on. */
  function FractionValue(fraction: string): (v: real)
    requires AllDigits(fraction)
    ensures v >= 0.0
    decreases |fraction|
  {
    if |fraction| == 0 then 0.0
    else (DigitValue(fraction[0]) as real + FractionValue(fraction[1..])) / 10.0
  }

  /** The shortest decimal rendering of a natural number (`Integer.toString`). */
  function NatDigits(n: nat): (r: string)
    ensures |r| >= 1 && AllDigits(r)
    ensures |r| > 1 ==> r[0] != '0'
    ensures DigitsValue(r) == n
  {
    if n < 10 then [DigitChar(n)]
    else
      var init := NatDigits(n / 10);
      var r := init + [DigitChar(n % 10)];
      assert r[..|r| - 1] == init;
      r
  }

  function Zeros(k: nat): (r: string)
    ensures |r| == k && AllDigits(r)
    ensures forall i :: 0 <= i < k ==> r[i] == '0'
  {
    seq(k, _ => '0')
  }

  /** Left-pads a digit string with zeros up to `width` characters. */
  function ZeroPad(digits: string, width: nat): (r: string)
    requires AllDigits(digits)
    ensures AllDigits(r)
    ensures |r| == if |digits| >= width then |digits| else width
    ensures r[|r| - |digits|..] == digits
  {
    if |digits| >= width then digits else Zeros(width - |digits|) + digits
  }

  /** `String.format("%0<width>d", n)`: the sign counts towards the width. */
  function FormatZeroPadded(n: int, width: nat): string
  {
    if n >= 0 then ZeroPad(NatDigits(n), width)
    else "-" + ZeroPad(NatDigits(-n), if width > 0 then width - 1 else 0)
  }

  // ---------------------------------------------------------------------
  // Properties

  lemma {:induction false} DigitsValueConcat(a: string, b: string)
    requires AllDigits(a) && AllDigits(b)
    ensures AllDigits(a + b)
    ensures DigitsValue(a + b) == DigitsValue(a) * Pow10(|b|) + DigitsValue(b)
    decreases |b|
  {
    if |b| > 0 {
      var ab := a + b;
      var init := b[..|b| - 1];
      assert ab[..|ab| - 1] == a + init;
      DigitsValueConcat(a, init);
      var x, p, y, d := DigitsValue(a), Pow10(|init|), DigitsValue(init), DigitValue(b[|b| - 1]);
      assert DigitsValue(ab) == 10 * (x * p + y) + d;
      assert DigitsValue(b) == 10 * y + d;
      assert Pow10(|b|) == 10 * p;
      ShiftDigit(x, p, y, d);
    } else {
      assert a + b == a;
    }
  }

  lemma ShiftDigit(x: int, p: int, y: int, d: int)
    ensures 10 * (x * p + y) + d == x * (10 * p) + (10 * y + d)
  {
  }

  lemma {:induction false} DigitsValueZeros(k: nat)
    ensures DigitsValue(Zeros(k)) == 0
  {
    if k > 0 {
      assert Zeros(k)[..k - 1] == Zeros(k - 1);
      DigitsValueZeros(k - 1);
    }
  }

  /** Zero padding never changes the value that the digits denote. */
  lemma ZeroPadValue(digits: string, width: nat)
    requires AllDigits(digits)
    ensures DigitsValue(ZeroPad(digits, width)) == DigitsValue(digits)
  {
    if |digits| < width {
      var z := Zeros(width - |digits|);
      DigitsValueZeros(width - |digits|);
      DigitsValueConcat(z, digits);
      assert DigitsValue(z + digits) == 0 * Pow10(|digits|) + DigitsValue(digits);
    }
  }

  /** The formatted number reads back as itself: `Integer.parseInt` inverts
      `%0Nd` on every `int`. */
  lemma ParseFormatRoundTrip(n: int, width: nat)
    requires IsInt32(n)
    ensures ParseInt(FormatZeroPadded(n, width)) == Success(n)
  {
    if n >= 0 {
      ParseNonNegative(n, width);
    } else {
      ParseNegative(n, width);
    }
  }

  lemma ParseNonNegative(n: nat, width: nat)
    requires n <= INT_MAX
    ensures ParseInt(ZeroPad(NatDigits(n), width)) == Success(n)
  {
    var s := ZeroPad(NatDigits(n), width);
    ZeroPadValue(NatDigits(n), width);
    assert |s| > 0 && IsDigit(s[0]);
  }

  lemma ParseNegative(n: int, width: nat)
    requires INT_MIN <= n < 0
    ensures ParseInt(FormatZeroPadded(n, width)) == Success(n)
  {
    var w := if width > 0 then width - 1 else 0;
    var pad := ZeroPad(NatDigits(-n), w);
    ZeroPadValue(NatDigits(-n), w);
    var s := "-" + pad;
    assert s == FormatZeroPadded(n, width);
    assert s[0] == '-' && s[1..] == pad;
    assert |pad| > 0 && AllDigits(pad) && DigitsValue(pad) == -n;
  }

  lemma {:induction false} NatDigitsLength(n: nat, k: nat)
    requires n < Pow10(k)
    ensures |NatDigits(n)| <= if k == 0 then 1 else k
  {
    if n >= 10 {
      NatDigitsLength(n / 10, k - 1);
    }
  }

  /** A non-negative number below 10^width formats to exactly `width` digits. */
  lemma FormatWidth(n: int, width: nat)
    requires 0 <= n < Pow10(width) && width > 0
    ensures |FormatZeroPadded(n, width)| == width
    ensures AllDigits(FormatZeroPadded(n, width))
  {
    NatDigitsLength(n, width);
  }

  /** From 10^width on, the format grows past the width. */
  lemma FormatOverflowsWidth(n: int, width: nat)
    requires n >= Pow10(width)
    ensures |FormatZeroPadded(n, width)| > width
  {
    var d := NatDigits(n);
    if |d| <= width {
      DigitsValueBound(d);
      PowMonotone(|d|, width);
      assert false;
    }
  }

  lemma {:induction false} DigitsValueBound(s: string)
    requires AllDigits(s)
    ensures DigitsValue(s) < Pow10(|s|)
  {
    if |s| > 0 {
      DigitsValueBound(s[..|s| - 1]);
    }
  }

  /** A decimal fraction reads back as the whole part plus the fraction. */
  lemma ParseDecimalParts(whole: string, fraction: string)
    requires AllDigits(whole) && AllDigits(fraction) && |whole| > 0
    ensures ParseDecimal(whole + "." + fraction) == Some(DecimalValue(whole, fraction))
  {
    var s := whole + "." + fraction;
    assert IsDigit(s[0]);
    var signed := |s| > 0 && (s[0] == '-' || s[0] == '+');
    assert !signed;
    var dot := FirstIndexOf(s, '.');
    FirstIndexOfAfter(whole, fraction);
    assert s[..dot.value] == whole;
    assert s[dot.value + 1..] == fraction;
  }

  lemma FirstIndexOfAfter(whole: string, fraction: string)
    requires AllDigits(whole)
    ensures FirstIndexOf(whole + "." + fraction, '.') == Some(|whole|)
  {
    var s := whole + "." + fraction;
    var r := FirstIndexOf(s, '.');
    assert s[|whole|] == '.';
    assert forall k :: 0 <= k < |whole| ==> s[k] == whole[k] && s[k] != '.';
    assert r.value >= |whole|;
  }

  lemma {:induction false} PowMonotone(i: nat, j: nat)
    requires i <= j
    ensures Pow10(i) <= Pow10(j)
    decreases j
  {
    if i < j {
      PowMonotone(i, j - 1);
    }
  }

  /** Two digit strings of one length with one value are the same string. */
  lemma {:induction false} DigitsValueInjective(a: string, b: string)
    requires AllDigits(a) && AllDigits(b) && |a| == |b|
    requires DigitsValue(a) == DigitsValue(b)
    ensures a == b
    decreases |a|
  {
    if |a| > 0 {
      var n := |a| - 1;
      var va, vb := DigitsValue(a[..n]), DigitsValue(b[..n]);
      var da, db := DigitValue(a[n]), DigitValue(b[n]);
      assert 10 * va + da == 10 * vb + db;
      assert da == db && va == vb;
      DigitsValueInjective(a[..n], b[..n]);
      assert a == a[..n] + [a[n]] && b == b[..n] + [b[n]];
    }
  }

  /** Formatting the value of a digit string to its own width gives the
      string back, leading zeros included. */
  lemma FormatOfDigits(d: string)
    requires AllDigits(d) && |d| > 0
    ensures FormatZeroPadded(DigitsValue(d), |d|) == d
  {
    DigitsValueBound(d);
    FormatWidth(DigitsValue(d), |d|);
    ZeroPadValue(NatDigits(DigitsValue(d)), |d|);
    DigitsValueInjective(FormatZeroPadded(DigitsValue(d), |d|), d);
  }

  /** The number of hundredths `%.2f` shows for a non-negative value:
      rounded half up. */
  function Cents(x: real): nat
    requires x >= 0.0
  {
    (x * 100.0 + 0.5).Floor
  }

  /** The value `%.2f` shows: rounded half up (away from zero) to two
      decimals. */
  function Round2(x: real): real
  {
    if x >= 0.0 then Cents(x) as real / 100.0 else -(Cents(-x) as real / 100.0)
  }

  /** A count of hundredths as "whole.ff". */
  function CentsText(cents: nat): string
  {
    DecimalText(NatDigits(cents / 100), ZeroPad(NatDigits(cents % 100), 2))
  }

  /** A whole part and a fraction joined by the decimal point. */
  function DecimalText(whole: string, fraction: string): string
  {
    whole + "." + fraction
  }

  /** `String.format("%.2f", x)` with '.' as the decimal separator. */
  function FormatFixed2(x: real): string
  {
    if x >= 0.0 then CentsText(Cents(x)) else "-" + CentsText(Cents(-x))
  }

  /** A plain run of digits reads as its integer value. */
  lemma ParseDecimalOfDigits(s: string)
    requires AllDigits(s) && |s| > 0
    ensures ParseDecimal(s) == Some(DigitsValue(s) as real)
  {
  }

  /** Text that starts with a digit never reads as a negative number. */
  lemma ParseDecimalUnsigned(s: string)
    requires |s| > 0 && IsDigit(s[0]) && ParseDecimal(s).Some?
    ensures ParseDecimal(s).value >= 0.0
  {
  }

  /** Rounding moves a non-negative value by at most half a hundredth. */
  lemma Round2Close(x: real)
    requires x >= 0.0
    ensures x - 0.005 < Round2(x) <= x + 0.005
    ensures Round2(x) >= 0.0
  {
  }

  /** A positive value shows as positive exactly from half a hundredth on. */
  lemma Round2Positive(x: real)
    requires x > 0.0
    ensures Round2(x) > 0.0 <==> x >= 0.005
  {
  }

  /** A value that already has two decimals is shown as it is. */
  lemma Round2OfCents(cents: nat)
    ensures Round2(cents as real / 100.0) == cents as real / 100.0
  {
    var x := cents as real / 100.0;
    assert x * 100.0 == cents as real;
    assert (cents as real + 0.5).Floor == cents;
    assert Cents(x) == cents;
  }

  /** "whole.ff" reads back as the number of hundredths over a hundred. */
  lemma CentsTextRoundTrip(cents: nat)
    ensures ParseDecimal(CentsText(cents)) == Some(cents as real / 100.0)
  {
    var w, f := cents / 100, cents % 100;
    var whole, fraction := NatDigits(w), ZeroPad(NatDigits(f), 2);
    assert CentsText(cents) == DecimalText(whole, fraction);
    HundredthsValue(w, f);
    WholeAndHundredths(w, f, cents);
    ParseDecimalPartsValue(whole, fraction, cents as real / 100.0);
  }

  lemma ParseDecimalPartsValue(whole: string, fraction: string, v: real)
    requires AllDigits(whole) && AllDigits(fraction) && |whole| > 0
    requires DecimalValue(whole, fraction) == v
    ensures ParseDecimal(DecimalText(whole, fraction)) == Some(v)
  {
    ParseDecimalParts(whole, fraction);
  }

  lemma HundredthsValue(w: nat, f: nat)
    requires f < 100
    ensures AllDigits(ZeroPad(NatDigits(f), 2))
    ensures DecimalValue(NatDigits(w), ZeroPad(NatDigits(f), 2)) == w as real + f as real / 100.0
  {
    var fraction := ZeroPad(NatDigits(f), 2);
    NatDigitsLength(f, 2);
    ZeroPadValue(NatDigits(f), 2);
    assert |fraction| == 2 && DigitsValue(fraction) == f;
    TwoDigitFraction(fraction);
  }

  /** Two digits after the point are hundredths. */
  lemma TwoDigitFraction(fraction: string)
    requires AllDigits(fraction) && |fraction| == 2
    ensures FractionValue(fraction) == DigitsValue(fraction) as real / 100.0
  {
    var d0, d1 := DigitValue(fraction[0]), DigitValue(fraction[1]);
    assert fraction[1..][1..] == [];
    assert FractionValue(fraction[1..]) == d1 as real / 10.0;
    assert fraction[..1][..0] == [];
    assert DigitsValue(fraction[..1]) == d0;
    assert DigitsValue(fraction) == 10 * d0 + d1;
  }

  lemma WholeAndHundredths(w: nat, f: nat, cents: nat)
    requires w == cents / 100 && f == cents % 100
    ensures w as real + f as real / 100.0 == cents as real / 100.0
  {
    assert cents == 100 * w + f;
  }

  /** Reading back what `%.2f` printed gives the rounded value. */
  lemma FormatFixed2RoundTrip(x: real)
    requires x >= 0.0
    ensures ParseDecimal(FormatFixed2(x)) == Some(Round2(x))
  {
    var c := Cents(x);
    assert FormatFixed2(x) == CentsText(c);
    assert Round2(x) == c as real / 100.0;
    CentsTextRoundTrip(c);
  }

  /** Zero prints as "0.00". */
  lemma FormatFixed2Zero()
    ensures FormatFixed2(0.0) == "0.00"
  {
    assert Cents(0.0) == 0;
    assert NatDigits(0) == "0";
    assert ZeroPad("0", 2) == "00";
  }
}
