/** Four acceptors of unsigned 256-bit decimals, written apart from each other, accept one language. */
module Uint256 {
  import opened Outcomes
  import opened Numerals

  /** The greatest 256-bit unsigned integer in decimal. */
  const UINT256_MAX: string :=
    "115792089237316195" + "423570985008687907" + "853269984665640564" + "039457584007913129" + "639935"

  /** `^(0|[1-9]\\d*)$`: decimal digits without a leading zero. */
  predicate Canonical(s: string) {
    s == "0" || (s != "" && '1' <= s[0] <= '9' && InBase(10, s))
  }

  /** The language all four are meant to accept. */
  predicate Uint256Text(s: string) {
    Canonical(s) && Value(10, s) < TWO_256
  }

  /** The order of strings by their first difference; a proper prefix comes first. */
  predicate TextLess(s: string, t: string) {
    exists k :: 0 <= k <= |s| && k < |t| && s[..k] == t[..k] && (k == |s| || s[k] < t[k])
  }

  // ---------------------------------------------------------------------------
  // Text order is numeric order
  // ---------------------------------------------------------------------------

  lemma {:induction false} TextOrderIsNumeric(s: string, t: string)
    requires |s| == |t| && InBase(10, s) && InBase(10, t)
    ensures TextLess(s, t) <==> Value(10, s) < Value(10, t)
    decreases |s|
  {
    if s != "" {
      var n := |s| - 1;
      TextOrderIsNumeric(s[..n], t[..n]);
      TextLessStep(s, t);
      if Value(10, s[..n]) == Value(10, t[..n]) {
        DigitsAreLower(s[..n]);
        DigitsAreLower(t[..n]);
        ValueUnique(10, s[..n], t[..n]);
        DigitOrder(s[n], t[n]);
      } else if Value(10, s[..n]) < Value(10, t[..n]) {
        Carry(10, Value(10, s[..n]), Value(10, t[..n]));
      } else {
        Carry(10, Value(10, t[..n]), Value(10, s[..n]));
      }
    }
  }

  lemma DigitsAreLower(s: string)
    requires InBase(10, s)
    ensures LowerDigits(s)
  {
  }

  lemma DigitOrder(c: char, d: char)
    requires DigitOf(c) < 10 && DigitOf(d) < 10
    ensures c < d <==> DigitOf(c) < DigitOf(d)
  {
  }

  /** Of two strings of one length, the earlier difference decides, and the last characters only when all else
      agrees. */
  lemma TextLessStep(s: string, t: string)
    requires |s| == |t| && s != ""
    ensures var n := |s| - 1;
      TextLess(s, t) <==> TextLess(s[..n], t[..n]) || (s[..n] == t[..n] && s[n] < t[n])
  {
    var n := |s| - 1;
    var s', t' := s[..n], t[..n];
    if TextLess(s, t) {
      var k :| 0 <= k < |s| && s[..k] == t[..k] && s[k] < t[k];
      if k < n {
        assert s'[..k] == s[..k] && t'[..k] == t[..k];
      }
    }
    if TextLess(s', t') {
      var k :| 0 <= k < n && s'[..k] == t'[..k] && s'[k] < t'[k];
      assert s'[..k] == s[..k] && t'[..k] == t[..k];
    }
  }

  // ---------------------------------------------------------------------------
  // The greatest value and shorter texts
  // ---------------------------------------------------------------------------

  function SixValue(t: string): nat
    requires |t| == 6
  {
    100000 * DigitOf(t[0]) + 10000 * DigitOf(t[1]) + 1000 * DigitOf(t[2]) + 100 * DigitOf(t[3]) + 10 * DigitOf(t[4])
      + DigitOf(t[5])
  }

  lemma LastDigit(front: string, c: char)
    ensures Value(10, front + [c]) == 10 * Value(10, front) + DigitOf(c)
  {
    assert (front + [c])[..|front|] == front;
  }

  lemma SixMore(front: string, t: string)
    requires |t| == 6
    ensures Value(10, front + t) == 1000000 * Value(10, front) + SixValue(t)
  {
    hide Value;
    LastDigit(front, t[0]);
    LastDigit(front + [t[0]], t[1]);
    LastDigit(front + [t[0]] + [t[1]], t[2]);
    LastDigit(front + [t[0]] + [t[1]] + [t[2]], t[3]);
    LastDigit(front + [t[0]] + [t[1]] + [t[2]] + [t[3]], t[4]);
    LastDigit(front + [t[0]] + [t[1]] + [t[2]] + [t[3]] + [t[4]], t[5]);
    assert front + t == front + [t[0]] + [t[1]] + [t[2]] + [t[3]] + [t[4]] + [t[5]];
  }

  lemma EighteenMore(front: string, t: string)
    requires |t| == 18
    ensures Value(10, front + t) ==
      1000000000000000000 * Value(10, front) + 1000000000000 * SixValue(t[..6]) + 1000000 * SixValue(t[6..12])
        + SixValue(t[12..])
  {
    hide Value, SixValue;
    SixMore(front, t[..6]);
    SixMore(front + t[..6], t[6..12]);
    SixMore(front + t[..6] + t[6..12], t[12..]);
    InSixes(front, t);
  }

  lemma InSixes(front: string, t: string)
    requires |t| == 18
    ensures front + t == front + t[..6] + t[6..12] + t[12..]
  {
  }

  lemma Part1(front: string)
    ensures Value(10, front + "115792089237316195") == 1000000000000000000 * Value(10, front) + 115792089237316195
  {
    var t := "115792089237316195";
    assert SixValue(t[..6]) == 115792 && SixValue(t[6..12]) == 89237 && SixValue(t[12..]) == 316195;
    EighteenMore(front, t);
  }

  lemma Part2(front: string)
    ensures Value(10, front + "423570985008687907") == 1000000000000000000 * Value(10, front) + 423570985008687907
  {
    var t := "423570985008687907";
    assert SixValue(t[..6]) == 423570 && SixValue(t[6..12]) == 985008 && SixValue(t[12..]) == 687907;
    EighteenMore(front, t);
  }

  lemma Part3(front: string)
    ensures Value(10, front + "853269984665640564") == 1000000000000000000 * Value(10, front) + 853269984665640564
  {
    var t := "853269984665640564";
    assert SixValue(t[..6]) == 853269 && SixValue(t[6..12]) == 984665 && SixValue(t[12..]) == 640564;
    EighteenMore(front, t);
  }

  lemma Part4(front: string)
    ensures Value(10, front + "039457584007913129") == 1000000000000000000 * Value(10, front) + 39457584007913129
  {
    var t := "039457584007913129";
    assert SixValue(t[..6]) == 39457 && SixValue(t[6..12]) == 584007 && SixValue(t[12..]) == 913129;
    EighteenMore(front, t);
  }

  lemma MaxValue()
    ensures Value(10, UINT256_MAX) == TWO_256 - 1
  {
    var m1 := "" + "115792089237316195";
    var m2 := m1 + "423570985008687907";
    var m3 := m2 + "853269984665640564";
    var m4 := m3 + "039457584007913129";
    Part1("");
    Part2(m1);
    Part3(m2);
    Part4(m3);
    assert SixValue("639935") == 639935;
    SixMore(m4, "639935");
    assert UINT256_MAX == m4 + "639935";
  }

  lemma {:induction false} LeadingDigit(s: string)
    requires s != "" && InBase(10, s) && s[0] != '0'
    ensures Pow(10, |s| - 1) <= Value(10, s)
    decreases |s|
  {
    if |s| == 1 {
      assert s[..0] == "" && Value(10, "") == 0;
    } else {
      LeadingDigit(s[..|s| - 1]);
    }
  }

  /** A shorter text first, then text order: how three of the acceptors compare with the greatest value. */
  predicate FitsByText(s: string, max: string) {
    |s| < |max| || (|s| == |max| && !TextLess(max, s))
  }

  lemma FitsIsNumeric(s: string, max: string)
    requires Canonical(s) && |max| >= 2 && InBase(10, max) && max[0] != '0'
    ensures FitsByText(s, max) <==> Value(10, s) <= Value(10, max)
  {
    hide TextLess;
    LeadingDigit(max);
    ValueBound(10, s);
    ValueBound(10, max);
    if |s| < |max| {
      PowMonotone(10, |s|, |max| - 1);
    } else if |s| == |max| {
      TextOrderIsNumeric(max, s);
    } else {
      LeadingDigit(s);
      PowMonotone(10, |max|, |s| - 1);
    }
  }

  // ---------------------------------------------------------------------------
  // The acceptors
  // ---------------------------------------------------------------------------

  /** The intent schema's `TokenApprovalAmount`. */
  predicate TokenApprovalAmount(s: string) {
    Canonical(s) && (|s| < |UINT256_MAX| || (|s| == |UINT256_MAX| && (s == UINT256_MAX || TextLess(s, UINT256_MAX))))
  }

  /** The signer's `UnsignedDecimal`: at most 78 digits, then compared as a big integer. */
  predicate UnsignedDecimal(s: string) {
    (s == "0" || (1 <= |s| <= 78 && '1' <= s[0] <= '9' && InBase(10, s))) && Value(10, s) <= TWO_256 - 1
  }

  const UNBOUNDED_APPROVAL_ALIASES: set<string> := {"unlimited", "max", "uint256.max", "maxuint256"}

  /** The guardrail's `parseApprovalMetadata`. */
  function ParseApprovalMetadata(value: Option<string>): Option<nat> {
    match value
    case None => None
    case Some(s) =>
      if Lower(s) in UNBOUNDED_APPROVAL_ALIASES then Some(Value(10, UINT256_MAX))
      else if !Canonical(s) then None
      else if |s| > |UINT256_MAX| then None
      else if |s| == |UINT256_MAX| && TextLess(UINT256_MAX, s) then None
      else Some(Value(10, s))
  }

  /** One same-length alternative of the generated pattern: a prefix, a digit up to `top`, and `tail` free digits. */
  datatype Alternative = Alternative(prefix: string, top: char, tail: nat)

  predicate MatchesAlternative(a: Alternative, s: string) {
    var k := |a.prefix|;
    && |s| == k + 1 + a.tail && s[..k] == a.prefix
    && '0' <= s[k] <= a.top && InBase(10, s[k + 1..])
  }

  /** The map and filter of `uint256DecimalPattern`: one alternative for each nonzero digit after the first. */
  function Alternatives(max: string, index: nat): seq<Alternative>
    requires InBase(10, max) && index <= |max|
    decreases |max| - index
  {
    if index == |max| then []
    else if index == 0 || max[index] == '0' then Alternatives(max, index + 1)
    else [Alternative(max[..index], (max[index] as int - 1) as char, |max| - index - 1)] + Alternatives(max, index + 1)
  }

  predicate SomeMatches(alternatives: seq<Alternative>, s: string) {
    exists i :: 0 <= i < |alternatives| && MatchesAlternative(alternatives[i], s)
  }

  /** `^(0|[1-9][0-9]{0,n-2}|alternatives|max)$` for an `n`-digit greatest value. */
  predicate PatternAccepts(max: string, s: string)
    requires InBase(10, max)
  {
    || s == "0"
    || (1 <= |s| <= |max| - 1 && '1' <= s[0] <= '9' && InBase(10, s))
    || SomeMatches(Alternatives(max, 0), s)
    || s == max
  }

  // ---------------------------------------------------------------------------
  // The pattern
  // ---------------------------------------------------------------------------

  /** Within digits, `s` agrees with `max` before `k` and is smaller at `k`. */
  predicate DiffersAt(max: string, s: string, k: nat) {
    |s| == |max| && InBase(10, s) && k < |s| && s[..k] == max[..k] && s[k] < max[k]
  }

  /** Some position from `index` on, not the first, is where `s` becomes smaller. */
  predicate DiffersFrom(max: string, s: string, index: nat) {
    exists k :: index <= k < |max| && 0 < k && DiffersAt(max, s, k)
  }

  lemma OneMoreAlternative(a: Alternative, rest: seq<Alternative>, s: string)
    ensures SomeMatches([a] + rest, s) <==> MatchesAlternative(a, s) || SomeMatches(rest, s)
  {
    hide MatchesAlternative;
    var all := [a] + rest;
    assert all[0] == a && forall i :: 0 <= i < |rest| ==> all[i + 1] == rest[i];
    if SomeMatches(rest, s) {
      var i :| 0 <= i < |rest| && MatchesAlternative(rest[i], s);
      assert MatchesAlternative(all[i + 1], s);
    }
  }

  lemma OneMorePosition(max: string, s: string, index: nat)
    requires index < |max|
    ensures DiffersFrom(max, s, index) <==> (0 < index && DiffersAt(max, s, index)) || DiffersFrom(max, s, index + 1)
  {
    hide DiffersAt;
  }

  lemma {:induction false} AlternativesMatch(max: string, index: nat, s: string)
    requires InBase(10, max) && index <= |max|
    ensures SomeMatches(Alternatives(max, index), s) <==> DiffersFrom(max, s, index)
    decreases |max| - index
  {
    if index < |max| {
      hide MatchesAlternative, SomeMatches, DiffersFrom, InBase;
      AlternativesMatch(max, index + 1, s);
      OneMorePosition(max, s, index);
      if index != 0 && max[index] != '0' {
        AlternativeIsDifference(max, index, s);
        OneMoreAlternative(Alternative(max[..index], (max[index] as int - 1) as char, |max| - index - 1),
                           Alternatives(max, index + 1), s);
      } else if index != 0 {
        NothingBelowZero(max, s, index);
      }
    }
  }

  lemma NothingBelowZero(max: string, s: string, k: nat)
    requires k < |max| && max[k] == '0'
    ensures !DiffersAt(max, s, k)
  {
    assert |s| == |max| && InBase(10, s) ==> DigitOf(s[k]) < 10;
  }

  lemma AlternativeIsDifference(max: string, k: nat, s: string)
    requires InBase(10, max) && 0 < k < |max| && max[k] != '0'
    ensures MatchesAlternative(Alternative(max[..k], (max[k] as int - 1) as char, |max| - k - 1), s) <==>
      DiffersAt(max, s, k)
  {
    if |s| == |max| && s[..k] == max[..k] {
      assert s == s[..k] + [s[k]] + s[k + 1..];
      assert forall i :: 0 <= i < k ==> s[i] == s[..k][i] == max[..k][i] == max[i];
      assert forall i :: k < i < |s| ==> s[i] == s[k + 1..][i - k - 1];
      assert InBase(10, s) ==> forall i :: k < i < |s| ==> DigitOf(s[i]) < 10;
    }
  }

  /** For every greatest value that starts with 1, the pattern accepts exactly the canonical texts that fit. */
  lemma PatternIsFits(max: string, s: string)
    requires InBase(10, max) && |max| >= 2 && max[0] == '1'
    ensures PatternAccepts(max, s) <==> Canonical(s) && FitsByText(s, max)
  {
    AlternativesMatch(max, 0, s);
    if PatternAccepts(max, s) {
      if DiffersFrom(max, s, 0) {
        var k :| 0 <= k < |max| && 0 < k && DiffersAt(max, s, k);
        assert s[0] == s[..k][0] == max[..k][0];
        LessIsNotGreater(s, max, k);
      } else if s == max {
        SelfFits(max);
      }
    }
    if Canonical(s) && FitsByText(s, max) && |s| == |max| && s != max {
      var k := FirstDifference(s, max);
      assert !(max[..k] == s[..k] && max[k] < s[k]);
      assert DiffersAt(max, s, k);
    }
  }

  lemma LessIsNotGreater(s: string, max: string, k: nat)
    requires |s| == |max| && k < |s| && s[..k] == max[..k] && s[k] < max[k]
    ensures !TextLess(max, s)
  {
    forall j | 0 <= j < |s| ensures !(max[..j] == s[..j] && max[j] < s[j]) {
      if j < k {
        assert s[..k][j] == s[j] && max[..k][j] == max[j];
      } else if k < j {
        assert s[..j][k] == s[k] && max[..j][k] == max[k];
      }
    }
  }

  lemma SelfFits(max: string)
    ensures !TextLess(max, max)
  {
  }

  lemma {:induction false} FirstDifference(s: string, t: string) returns (k: nat)
    requires |s| == |t| && s != t
    ensures k < |s| && s[..k] == t[..k] && s[k] != t[k]
    decreases |s|
  {
    var n := |s| - 1;
    if s[..n] == t[..n] {
      k := n;
      assert s == s[..n] + [s[n]] && t == t[..n] + [t[n]];
    } else {
      k := FirstDifference(s[..n], t[..n]);
      assert s[..n][..k] == s[..k] && t[..n][..k] == t[..k];
    }
  }

  // ---------------------------------------------------------------------------
  // One language
  // ---------------------------------------------------------------------------

  lemma MaxIsDigits()
    ensures |UINT256_MAX| == 78 && UINT256_MAX[0] == '1' && InBase(10, UINT256_MAX)
  {
    MaxValue();
    assert forall i :: 0 <= i < 78 ==> '0' <= UINT256_MAX[i] <= '9';
  }

  /** The generated pattern at its one use. */
  predicate Uint256PatternAccepts(s: string) {
    MaxIsDigits();
    PatternAccepts(UINT256_MAX, s)
  }

  /** All four acceptors accept exactly the canonical decimals below two to the 256th, and the one that parses returns
      the number the text denotes. */
  lemma AcceptorsAgree(s: string)
    ensures TokenApprovalAmount(s) <==> Uint256Text(s)
    ensures UnsignedDecimal(s) <==> Uint256Text(s)
    ensures Uint256PatternAccepts(s) <==> Uint256Text(s)
    ensures Lower(s) !in UNBOUNDED_APPROVAL_ALIASES ==>
      ParseApprovalMetadata(Some(s)) == if Uint256Text(s) then Some(Value(10, s)) else None
  {
    hide InBase, Lower;
    MaxIsDigits();
    MaxValue();
    PatternIsFits(UINT256_MAX, s);
    if Canonical(s) {
      FitsIsNumeric(s, UINT256_MAX);
      if |s| == 78 {
        TextOrderTotal(s, UINT256_MAX);
      }
    }
  }

  lemma TextOrderTotal(s: string, t: string)
    requires |s| == |t|
    ensures !TextLess(t, s) <==> s == t || TextLess(s, t)
  {
    if s == t {
      SelfFits(t);
    } else {
      var k := FirstDifference(s, t);
      if s[k] < t[k] {
        LessIsNotGreater(s, t, k);
      } else {
        LessIsNotGreater(t, s, k);
      }
    }
  }

  /** An alias means the greatest value. */
  lemma AliasesAreUnbounded(s: string)
    requires Lower(s) in UNBOUNDED_APPROVAL_ALIASES
    ensures ParseApprovalMetadata(Some(s)) == Some(TWO_256 - 1)
  {
    MaxValue();
  }
}
