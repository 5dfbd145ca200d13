/** The exchange rejects exponent notation: an approved quantity is written out without changing its value. */
module DecimalText {
  import N = Numerals

  predicate Digits(s: string) {
    N.InBase(10, s)
  }

  /** A positive number as the runtime prints it: plain, or a mantissa and a decimal exponent. */
  datatype NumberText = Plain(text: string) | Exponential(whole: string, fraction: string, exponent: int)

  predicate Valid(n: NumberText) {
    n.Exponential? ==> n.whole != "" && Digits(n.whole) && Digits(n.fraction)
  }

  /** `decimal`. */
  function Unroll(n: NumberText): string {
    match n
    case Plain(text) => text
    case Exponential(whole, fraction, exponent) =>
      var digits := whole + fraction;
      var point := |whole| + exponent;
      if point <= 0 then "0." + N.Zeros(-point) + digits
      else if point >= |digits| then digits + N.Zeros(point - |digits|)
      else digits[..point] + "." + digits[point..]
  }

  // ---------------------------------------------------------------------------
  // Denotation
  // ---------------------------------------------------------------------------

  function Pow10(n: nat): (r: nat)
    ensures r > 0
  {
    N.PowMonotone(10, 0, n);
    N.Pow(10, n)
  }

  /** `n` times ten to the power `k`. */
  function Shift(n: nat, k: int): real {
    if k >= 0 then (n * Pow10(k)) as real else n as real / Pow10(-k) as real
  }

  function Natural(s: string): nat
    requires Digits(s)
  {
    N.Value(10, s)
  }

  /** Where the decimal point stands; the length of the text when it has none. */
  function Point(text: string): (i: nat)
    ensures i <= |text|
    ensures forall j :: 0 <= j < i ==> text[j] != '.'
    ensures i < |text| ==> text[i] == '.'
  {
    if text == "" || text[0] == '.' then 0 else 1 + Point(text[1..])
  }

  /** Plain decimal notation: digits, at most one point, and a digit on each side of it. */
  predicate PlainNotation(text: string) {
    var i := Point(text);
    && i > 0 && Digits(text[..i])
    && (i < |text| ==> i + 1 < |text| && Digits(text[i + 1..]))
  }

  /** Plain notation is a text of digits with at most one point inside it. */
  lemma PlainIsDigitsAndAPoint(text: string)
    ensures PlainNotation(text) <==>
      && text != "" && '0' <= text[0] <= '9' && '0' <= text[|text| - 1] <= '9'
      && (forall i :: 0 <= i < |text| ==> text[i] == '.' || '0' <= text[i] <= '9')
      && forall i, j :: 0 <= i < j < |text| ==> text[i] != '.' || text[j] != '.'
  {
    var k := Point(text);
    assert forall i :: 0 <= i < k ==> text[..k][i] == text[i];
    assert k < |text| ==> forall i :: k < i < |text| ==> text[i] == text[k + 1..][i - k - 1];
    if text != "" {
      assert k == 0 ==> text[0] == '.';
      assert k == |text| - 1 ==> text[|text| - 1] == '.';
    }
  }

  /** The digits without the point, and the power of ten they are taken by. */
  function Scaled(text: string): (nat, int)
    requires PlainNotation(text)
  {
    var i := Point(text);
    if i == |text| then (Natural(text), 0)
    else (Natural(text[..i] + text[i + 1..]), -(|text| - i - 1))
  }

  function Value(text: string): real
    requires PlainNotation(text)
  {
    Shift(Scaled(text).0, Scaled(text).1)
  }

  /** What the mantissa and exponent denote. */
  function Denoted(n: NumberText): real
    requires Valid(n) && n.Exponential?
  {
    Shift(Natural(n.whole + n.fraction), n.exponent - |n.fraction|)
  }

  // ---------------------------------------------------------------------------
  // Unrolling keeps the value
  // ---------------------------------------------------------------------------

  lemma {:induction false} PointAfterDigits(s: string, rest: string)
    requires Digits(s) && (rest == "" || rest[0] == '.')
    ensures Point(s + rest) == |s|
  {
    if s == "" {
      assert s + rest == rest;
    } else {
      assert (s + rest)[1..] == s[1..] + rest;
      PointAfterDigits(s[1..], rest);
    }
  }

  lemma {:induction false} ZerosEnd(n: nat)
    requires n > 0
    ensures N.Zeros(n) == N.Zeros(n - 1) + "0"
  {
    if n > 1 {
      ZerosEnd(n - 1);
    }
  }

  lemma TimesTen(a: nat, b: nat)
    ensures (a * b) * 10 == a * (10 * b)
  {
  }

  lemma {:induction false} TrailingZeros(s: string, n: nat)
    requires Digits(s)
    ensures Digits(s + N.Zeros(n)) && Natural(s + N.Zeros(n)) == Natural(s) * Pow10(n)
    decreases n
  {
    if n == 0 {
      assert s + N.Zeros(0) == s;
    } else {
      TrailingZeros(s, n - 1);
      AppendZero(s + N.Zeros(n - 1));
      ZerosEnd(n);
      assert s + N.Zeros(n) == s + N.Zeros(n - 1) + "0";
      TimesTen(Natural(s), Pow10(n - 1));
    }
  }

  lemma AppendZero(s: string)
    requires Digits(s)
    ensures Digits(s + "0") && Natural(s + "0") == Natural(s) * 10
  {
    assert (s + "0")[..|s|] == s;
  }

  lemma PointedValue(text: string, whole: string, fraction: string)
    requires whole != "" && fraction != "" && Digits(whole) && Digits(fraction)
    requires text == whole + "." + fraction
    ensures PlainNotation(text) && Scaled(text) == (Natural(whole + fraction), -|fraction|)
  {
    assert text == whole + ("." + fraction);
    PointAfterDigits(whole, "." + fraction);
    assert text[..|whole|] == whole && text[|whole| + 1..] == fraction;
  }

  lemma SmallText(text: string, zeros: string, digits: string)
    requires digits != "" && Digits(zeros) && Digits(digits) && text == "0." + zeros + digits
    ensures PlainNotation(text) && Scaled(text) == (Natural("0" + (zeros + digits)), -(|zeros| + |digits|))
  {
    PointFirst(zeros, digits);
    PointedValue(text, "0", zeros + digits);
  }

  lemma SmallNatural(digits: string, zeros: nat)
    requires Digits(digits)
    ensures Natural("0" + (N.Zeros(zeros) + digits)) == Natural(digits)
  {
    N.LeadingZerosKeepValue(10, zeros, digits);
    LeadingZero(N.Zeros(zeros) + digits);
  }

  lemma SmallUnrolls(text: string, digits: string, zeros: nat)
    requires digits != "" && Digits(digits) && text == "0." + N.Zeros(zeros) + digits
    ensures PlainNotation(text) && Scaled(text) == (Natural(digits), -(zeros + |digits|))
  {
    SmallText(text, N.Zeros(zeros), digits);
    SmallNatural(digits, zeros);
  }

  lemma PointFirst(s: string, t: string)
    ensures "0." + s + t == "0" + "." + (s + t)
  {
    assert "0." == "0" + ".";
  }

  lemma LeadingZero(s: string)
    requires Digits(s)
    ensures Natural("0" + s) == Natural(s)
  {
    assert N.Zeros(1) == "0";
    N.LeadingZerosKeepValue(10, 1, s);
  }

  lemma LargeUnrolls(text: string, digits: string, zeros: nat)
    requires digits != "" && Digits(digits) && text == digits + N.Zeros(zeros)
    ensures PlainNotation(text) && Scaled(text) == (Natural(digits) * Pow10(zeros), 0)
  {
    TrailingZeros(digits, zeros);
    assert text + "" == text && text[..|text|] == text;
    PointAfterDigits(text, "");
  }

  lemma MiddleUnrolls(text: string, digits: string, point: nat)
    requires Digits(digits) && 0 < point < |digits| && text == digits[..point] + "." + digits[point..]
    ensures PlainNotation(text) && Scaled(text) == (Natural(digits), point - |digits|)
  {
    PointedValue(text, digits[..point], digits[point..]);
    assert digits[..point] + digits[point..] == digits;
  }

  /** The unrolled text is plain decimal notation and denotes exactly the number it came from. */
  lemma UnrollKeepsValue(n: NumberText)
    requires Valid(n) && n.Exponential?
    ensures PlainNotation(Unroll(n)) && Value(Unroll(n)) == Denoted(n)
  {
    var digits, point := n.whole + n.fraction, |n.whole| + n.exponent;
    if point <= 0 {
      SmallUnrolls(Unroll(n), digits, -point);
    } else if point >= |digits| {
      LargeUnrolls(Unroll(n), digits, point - |digits|);
      assert Shift(Natural(digits) * Pow10(point - |digits|), 0) == Shift(Natural(digits), point - |digits|);
    } else {
      MiddleUnrolls(Unroll(n), digits, point);
    }
  }
}
