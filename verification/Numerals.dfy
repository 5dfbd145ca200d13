/** Numbers written in positional notation: what a digit string denotes, how a number prints, and the texts the
    wallet code accepts as integers. */
module Numerals {
  import opened Outcomes

  const TWO_256: nat := 0x1_0000000000000000_0000000000000000_0000000000000000_0000000000000000

  /** An unsigned 256-bit integer. */
  type Word = n: nat | n < TWO_256

  const MAX_SAFE_INTEGER: nat := 9007199254740991

  const NOT_A_DIGIT: nat := 99

  function DigitOf(c: char): nat {
    if '0' <= c <= '9' then c as int - '0' as int
    else if 'a' <= c <= 'f' then c as int - 'a' as int + 10
    else if 'A' <= c <= 'F' then c as int - 'A' as int + 10
    else NOT_A_DIGIT
  }

  /** Every character is a digit of the base. */
  predicate InBase(base: nat, s: string) {
    forall i :: 0 <= i < |s| ==> DigitOf(s[i]) < base
  }

  function Value(base: nat, s: string): nat {
    if s == "" then 0 else base * Value(base, s[..|s| - 1]) + DigitOf(s[|s| - 1])
  }

  function Pow(base: nat, n: nat): nat {
    if n == 0 then 1 else base * Pow(base, n - 1)
  }

  predicate LowerDigits(s: string) {
    forall i :: 0 <= i < |s| ==> !('A' <= s[i] <= 'F')
  }

  function DigitChar(d: nat): (c: char)
    requires d < 16
    ensures DigitOf(c) == d && !('A' <= c <= 'F')
  {
    if d < 10 then ('0' as int + d) as char else ('a' as int + d - 10) as char
  }

  /** The digits of a number, without leading zeros. */
  function Printed(base: nat, n: nat): (s: string)
    requires 2 <= base <= 16
    ensures s != "" && InBase(base, s) && LowerDigits(s) && Value(base, s) == n
    decreases n
  {
    if n < base then
      assert [DigitChar(n)][..0] == "" && Value(base, "") == 0;
      [DigitChar(n)]
    else
      assert n / base < n && n == base * (n / base) + n % base by { Division(n, base); }
      var front := Printed(base, n / base);
      var s := front + [DigitChar(n % base)];
      assert s[..|s| - 1] == front;
      s
  }

  lemma Division(n: nat, base: nat)
    requires 2 <= base <= n
    ensures n / base < n && n == base * (n / base) + n % base
  {
    var q := n / base;
    Scaled(q, 2, base);
    assert q > 0;
  }

  // ---------------------------------------------------------------------------
  // What a digit string determines
  // ---------------------------------------------------------------------------

  lemma Carry(base: nat, a: nat, b: nat)
    requires a < b
    ensures base * a + base <= base * b
  {
    var gap := b - a - 1;
    assert b == a + 1 + gap;
    assert base * b == base * a + base + base * gap;
  }

  lemma {:induction false} ValueBound(base: nat, s: string)
    requires base >= 2 && InBase(base, s)
    ensures Value(base, s) < Pow(base, |s|)
    decreases |s|
  {
    if s != "" {
      var front := s[..|s| - 1];
      ValueBound(base, front);
      Carry(base, Value(base, front), Pow(base, |s| - 1));
    }
  }

  lemma SameParts(base: nat, a: nat, x: nat, b: nat, y: nat)
    requires x < base && y < base && base * a + x == base * b + y
    ensures a == b && x == y
  {
    if a < b {
      Carry(base, a, b);
    } else if b < a {
      Carry(base, b, a);
    }
  }

  lemma SameDigit(c: char, d: char)
    requires DigitOf(c) == DigitOf(d) < 16 && !('A' <= c <= 'F') && !('A' <= d <= 'F')
    ensures c == d
  {
  }

  lemma EqualParts(s: string, t: string, n: nat)
    requires |s| == |t| == n + 1 && s[..n] == t[..n] && s[n] == t[n]
    ensures s == t
  {
    assert s == s[..n] + [s[n]] && t == t[..n] + [t[n]];
  }

  lemma SameEnds(base: nat, s: string, t: string)
    requires InBase(base, s) && InBase(base, t) && s != "" && t != "" && Value(base, s) == Value(base, t)
    ensures Value(base, s[..|s| - 1]) == Value(base, t[..|t| - 1])
    ensures DigitOf(s[|s| - 1]) == DigitOf(t[|t| - 1])
  {
    SameParts(base, Value(base, s[..|s| - 1]), DigitOf(s[|s| - 1]), Value(base, t[..|t| - 1]), DigitOf(t[|t| - 1]));
  }

  /** Two strings of one length and one letter case denote the same number only when they are the same string. */
  lemma {:induction false} ValueUnique(base: nat, s: string, t: string)
    requires 2 <= base <= 16 && |s| == |t| && InBase(base, s) && InBase(base, t) && LowerDigits(s) && LowerDigits(t)
    requires Value(base, s) == Value(base, t)
    ensures s == t
    decreases |s|
  {
    if s != "" {
      var n := |s| - 1;
      SameEnds(base, s, t);
      SameDigit(s[n], t[n]);
      ValueUnique(base, s[..n], t[..n]);
      EqualParts(s, t, n);
    }
  }

  function Zeros(n: nat): (s: string)
    ensures |s| == n && forall i :: 0 <= i < n ==> s[i] == '0'
  {
    if n == 0 then "" else "0" + Zeros(n - 1)
  }

  lemma {:induction false} LeadingZerosKeepValue(base: nat, n: nat, s: string)
    ensures Value(base, Zeros(n) + s) == Value(base, s)
    decreases |s|, n
  {
    var z := Zeros(n) + s;
    if s != "" {
      assert z[..|z| - 1] == Zeros(n) + s[..|s| - 1];
      LeadingZerosKeepValue(base, n, s[..|s| - 1]);
    } else if n > 0 {
      assert z[..n - 1] == Zeros(n - 1) + "";
      LeadingZerosKeepValue(base, n - 1, "");
    }
  }

  // ---------------------------------------------------------------------------
  // Storage slots
  // ---------------------------------------------------------------------------

  function LowerChar(c: char): char {
    if 'A' <= c <= 'Z' then (c as int - 'A' as int + 'a' as int) as char else c
  }

  function Lower(s: string): (r: string)
    ensures |r| == |s| && forall i :: 0 <= i < |s| ==> r[i] == LowerChar(s[i])
  {
    seq(|s|, i requires 0 <= i < |s| => LowerChar(s[i]))
  }

  lemma {:induction false} LowerKeepsValue(s: string)
    requires InBase(16, s)
    ensures InBase(16, Lower(s)) && LowerDigits(Lower(s)) && Value(16, Lower(s)) == Value(16, s)
    decreases |s|
  {
    if s != "" {
      LowerKeepsValue(s[..|s| - 1]);
      assert Lower(s)[..|s| - 1] == Lower(s[..|s| - 1]);
    }
  }

  /** `0x` followed by at least one hexadecimal digit. */
  predicate HexText(s: string) {
    |s| > 2 && s[..2] == "0x" && InBase(16, s[2..])
  }

  function HexValue(s: string): nat
    requires HexText(s)
  {
    Value(16, s[2..])
  }

  function Pad64(digits: string): string
    requires |digits| <= 64
  {
    "0x" + Zeros(64 - |digits|) + digits
  }

  /** `normalizeSlot`: a slot name of at most 64 digits, lowered and padded to 32 bytes. */
  function NormalizeSlot(slot: string): Option<string> {
    if !HexText(slot) then None
    else if |slot| - 2 > 64 then None
    else Some(Pad64(Lower(slot[2..])))
  }

  /** The 32-byte text of a word. */
  function Hex32(n: Word): string {
    PrintedFits(n);
    Pad64(Printed(16, n))
  }

  function ToHex(n: nat): string {
    "0x" + Printed(16, n)
  }

  lemma PowersOf16()
    ensures Pow(16, 64) == TWO_256
  {
    PowSum(16, 8, 8);
    PowSum(16, 16, 16);
    PowSum(16, 32, 32);
    assert Pow(16, 4) == 0x1_0000;
    PowSum(16, 4, 4);
    assert Pow(16, 8) == 0x1_0000_0000;
    assert Pow(16, 16) == 0x1_0000_0000_0000_0000;
  }

  lemma {:induction false} PowSum(base: nat, m: nat, n: nat)
    ensures Pow(base, m + n) == Pow(base, m) * Pow(base, n)
    decreases m
  {
    if m > 0 {
      PowSum(base, m - 1, n);
      assert Pow(base, m + n) == base * Pow(base, m - 1 + n);
      assert base * (Pow(base, m - 1) * Pow(base, n)) == (base * Pow(base, m - 1)) * Pow(base, n);
    }
  }

  lemma {:induction false} PowMonotone(base: nat, m: nat, n: nat)
    requires base >= 1 && m <= n
    ensures 1 <= Pow(base, m) <= Pow(base, n)
    decreases n
  {
    if m < n {
      PowMonotone(base, m, n - 1);
      assert 1 * Pow(base, n - 1) <= base * Pow(base, n - 1);
    } else if m > 0 {
      PowMonotone(base, m - 1, m - 1);
      assert 1 * Pow(base, m - 1) <= base * Pow(base, m - 1);
    }
  }

  lemma Scaled(base: nat, a: nat, b: nat)
    requires a <= b
    ensures base * a <= base * b
  {
  }

  /** A printed number has no leading zero, so it is at least the power its length says. */
  lemma {:induction false} PrintedIsLong(base: nat, n: nat)
    requires 2 <= base <= 16
    ensures n > 0 ==> Pow(base, |Printed(base, n)| - 1) <= n
    ensures n == 0 ==> Printed(base, n) == "0"
    decreases n
  {
    if n >= base {
      Division(n, base);
      PrintedIsLong(base, n / base);
      var k := |Printed(base, n / base)|;
      Scaled(base, Pow(base, k - 1), n / base);
    }
  }

  lemma PrintedFits(n: nat)
    requires n < TWO_256
    ensures |Printed(16, n)| <= 64
  {
    PrintedIsLong(16, n);
    PowersOf16();
    if |Printed(16, n)| > 64 {
      PowMonotone(16, 64, |Printed(16, n)| - 1);
    }
  }

  lemma Pad64Keeps(digits: string)
    requires |digits| <= 64 && InBase(16, digits) && LowerDigits(digits) && digits != ""
    ensures HexText(Pad64(digits)) && |Pad64(digits)| == 66 && LowerDigits(Pad64(digits)[2..])
    ensures HexValue(Pad64(digits)) == Value(16, digits)
  {
    assert Pad64(digits)[2..] == Zeros(64 - |digits|) + digits;
    LeadingZerosKeepValue(16, 64 - |digits|, digits);
  }

  /** A normalised slot is the 32-byte text of the word its name denotes, so two names are the same slot exactly
      when they denote the same word. */
  lemma NormalizedIsHex32(slot: string)
    requires NormalizeSlot(slot).Some?
    ensures HexValue(slot) < TWO_256 && NormalizeSlot(slot).value == Hex32(HexValue(slot))
  {
    var digits := slot[2..];
    LowerKeepsValue(digits);
    ValueBound(16, digits);
    PowMonotone(16, |digits|, 64);
    PowersOf16();
    PrintedFits(HexValue(slot));
    Pad64Keeps(Lower(digits));
    Pad64Keeps(Printed(16, HexValue(slot)));
    var s, t := NormalizeSlot(slot).value, Hex32(HexValue(slot));
    ValueUnique(16, s[2..], t[2..]);
    assert s == s[..2] + s[2..] && t == t[..2] + t[2..];
  }

  lemma Hex32Reads(n: Word)
    ensures HexText(Hex32(n)) && |Hex32(n)| == 66 && HexValue(Hex32(n)) == n
      && NormalizeSlot(Hex32(n)) == Some(Hex32(n))
  {
    PrintedFits(n);
    Pad64Keeps(Printed(16, n));
    NormalizedIsHex32(Hex32(n));
  }

  // ---------------------------------------------------------------------------
  // Quantities of unknown shape, and signed amounts
  // ---------------------------------------------------------------------------

  /** A value received from a node or a configuration: a missing field, `null`, an integral number, a big integer,
      a string, or anything else. */
  datatype Unknown = Missing | Null | Whole(n: int) | Big(n: int) | Text(s: string) | Other

  /** `parseQuantity`: an exact unsigned 256-bit integer. */
  function ParseQuantity(v: Unknown): Option<Word> {
    match v
    case Whole(n) => if 0 <= n <= MAX_SAFE_INTEGER then Some(n) else None
    case Big(n) => if 0 <= n < TWO_256 then Some(n) else None
    case Text(s) =>
      if HexText(s) then (if HexValue(s) < TWO_256 then Some(HexValue(s)) else None)
      else if s != "" && InBase(10, s) then (if Value(10, s) < TWO_256 then Some(Value(10, s)) else None)
      else None
    case _ => None
  }

  /** What the code writes for a quantity reads back as that quantity. */
  lemma QuantityReads(n: Word)
    ensures ParseQuantity(Text(ToHex(n))) == Some(n) && ParseQuantity(Text(Hex32(n))) == Some(n)
  {
    assert ToHex(n)[2..] == Printed(16, n);
    Hex32Reads(n);
  }

  /** A big integer in decimal. */
  function SignedText(d: int): string {
    if d < 0 then "-" + Printed(10, -d) else Printed(10, d)
  }

  /** `parseDelta`. */
  function ParseDelta(s: string): Option<int> {
    if s != "" && InBase(10, s) then Some(Value(10, s))
    else if |s| > 1 && s[0] == '-' && InBase(10, s[1..]) then Some(0 - Value(10, s[1..]))
    else None
  }

  lemma SignedReads(d: int)
    ensures ParseDelta(SignedText(d)) == Some(d)
  {
    if d < 0 {
      assert SignedText(d)[1..] == Printed(10, -d);
    }
  }
}
