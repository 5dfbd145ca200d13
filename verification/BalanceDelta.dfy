/** Simulated balance changes against the expected ranges, and what a passed comparison says about the diff. */
module BalanceDelta {
  import opened Outcomes
  import opened Numerals
  import opened StateDiffs
  import opened TraceBalances

  datatype Expected = Expected(address: string, asset: string, minDelta: string, maxDelta: string)

  datatype Mismatch = Mismatch(address: string, asset: string, reason: string)

  predicate IsBalanceChange(c: Change) {
    c.address != "" && c.asset != ""
  }

  predicate Matches(e: Expected, c: Change) {
    Lower(e.address) == Lower(c.address) && Lower(e.asset) == Lower(c.asset)
  }

  /** The change is well formed, and zero unless some range expects it. */
  predicate ChangeExpected(expected: seq<Expected>, c: Change) {
    IsBalanceChange(c)
      && ((exists i :: 0 <= i < |expected| && Matches(expected[i], c)) || ParseDelta(c.delta) == Some(0))
  }

  predicate Counts(e: Expected, c: Change) {
    IsBalanceChange(c) && Matches(e, c)
  }

  /** The total of the changes a range counts; unreadable deltas count nothing. */
  function Total(e: Expected, changes: seq<Change>): int {
    if changes == [] then 0
    else
      var c := changes[|changes| - 1];
      Total(e, changes[..|changes| - 1])
      + if Counts(e, c) && ParseDelta(c.delta).Some? then ParseDelta(c.delta).value else 0
  }

  /** The range counts some change, everything is readable, and the total lies inside it. */
  predicate RangeMet(changes: seq<Change>, e: Expected) {
    && (exists i :: 0 <= i < |changes| && Counts(e, changes[i]))
    && (forall i :: 0 <= i < |changes| && Counts(e, changes[i]) ==> ParseDelta(changes[i].delta).Some?)
    && ParseDelta(e.minDelta).Some? && ParseDelta(e.maxDelta).Some?
    && ParseDelta(e.minDelta).value <= Total(e, changes) <= ParseDelta(e.maxDelta).value
  }

  predicate Passes(changes: seq<Change>, expected: seq<Expected>) {
    && (forall i :: 0 <= i < |changes| ==> ChangeExpected(expected, changes[i]))
    && forall i :: 0 <= i < |expected| ==> RangeMet(changes, expected[i])
  }

  lemma WhenExpected(expected: seq<Expected>, c: Change)
    ensures ChangeExpected(expected, c) <==>
      && IsBalanceChange(c)
      && ((exists i :: 0 <= i < |expected| && Matches(expected[i], c)) || ParseDelta(c.delta) == Some(0))
  {
  }

  method CompareEvmBalanceDeltas(changes: seq<Change>, expected: seq<Expected>) returns (reasons: seq<Mismatch>)
    ensures reasons == [] <==> Passes(changes, expected)
    ensures (exists i :: 0 <= i < |changes| && (changes[i].address == "" || changes[i].asset == "")) ==> reasons != []
  {
    hide IsBalanceChange, Matches, ParseDelta, ChangeExpected, RangeMet;
    reasons := [];
    for i := 0 to |changes|
      invariant reasons == [] <==> forall k :: 0 <= k < i ==> ChangeExpected(expected, changes[k])
    {
      var c := changes[i];
      WhenExpected(expected, c);
      if !IsBalanceChange(c) {
        reasons := reasons
          + [Mismatch("", "", "Simulation balance change entries must use address-based integer entries.")];
        continue;
      }
      if !(exists k :: 0 <= k < |expected| && Matches(expected[k], c)) && ParseDelta(c.delta) != Some(0) {
        reasons := reasons + [Mismatch(c.address, c.asset, "Simulation included an unexpected balance change.")];
      }
    }
    for i := 0 to |expected|
      invariant reasons == [] <==>
        && (forall k :: 0 <= k < |changes| ==> ChangeExpected(expected, changes[k]))
        && forall k :: 0 <= k < i ==> RangeMet(changes, expected[k])
    {
      var reason := RangeReason(changes, expected[i]);
      if reason.Some? {
        reasons := reasons + [reason.value];
      }
    }
    NamedWhenPassed(changes, expected);
  }

  lemma NamedWhenPassed(changes: seq<Change>, expected: seq<Expected>)
    ensures Passes(changes, expected) ==>
      forall i :: 0 <= i < |changes| ==> changes[i].address != "" && changes[i].asset != ""
  {
    forall i | 0 <= i < |changes| && Passes(changes, expected)
      ensures changes[i].address != "" && changes[i].asset != ""
    {
      assert ChangeExpected(expected, changes[i]);
    }
  }

  /** One turn of the second loop: the changes the range counts, and their total. */
  method RangeReason(changes: seq<Change>, e: Expected) returns (r: Option<Mismatch>)
    ensures r.None? <==> RangeMet(changes, e)
  {
    hide Lower, ParseDelta;
    var any, readable, actual := false, true, 0;
    for i := 0 to |changes|
      invariant any <==> exists k :: 0 <= k < i && Counts(e, changes[k])
      invariant readable <==> forall k :: 0 <= k < i && Counts(e, changes[k]) ==> ParseDelta(changes[k].delta).Some?
      invariant actual == Total(e, changes[..i])
    {
      assert changes[..i + 1][..i] == changes[..i];
      if Counts(e, changes[i]) {
        any := true;
        var delta := ParseDelta(changes[i].delta);
        if delta.Some? {
          actual := actual + delta.value;
        } else {
          readable := false;
        }
      }
    }
    assert changes[..|changes|] == changes;
    if !any {
      return Some(Mismatch(e.address, e.asset, "Expected balance change was not present in simulation result."));
    }
    var minDelta, maxDelta := ParseDelta(e.minDelta), ParseDelta(e.maxDelta);
    if !readable || minDelta.None? || maxDelta.None? {
      return Some(Mismatch(e.address, e.asset, "Balance delta values must be integer strings."));
    }
    if actual < minDelta.value || actual > maxDelta.value {
      return Some(Mismatch(e.address, e.asset, "Delta is outside expected range."));
    }
    return None;
  }

  // ---------------------------------------------------------------------------
  // What a passed comparison guarantees
  // ---------------------------------------------------------------------------

  /** Some range expects the holding's change, and every range that matches it contains the change. */
  predicate InsideRanges(expected: seq<Expected>, address: string, asset: string, delta: int) {
    && (exists i :: 0 <= i < |expected| && Covers(expected[i], address, asset))
    && forall i :: 0 <= i < |expected| && Covers(expected[i], address, asset) ==>
         && ParseDelta(expected[i].minDelta).Some? && ParseDelta(expected[i].maxDelta).Some?
         && ParseDelta(expected[i].minDelta).value <= delta <= ParseDelta(expected[i].maxDelta).value
  }

  predicate Covers(e: Expected, address: string, asset: string) {
    Lower(e.address) == Lower(address) && Lower(e.asset) == Lower(asset)
  }

  /** The entries added for observed accounts without a change. */
  predicate ZeroEntries(zeros: seq<Change>) {
    forall i :: 0 <= i < |zeros| ==> zeros[i].delta == "0"
  }

  lemma {:induction false} TotalOfZeros(e: Expected, changes: seq<Change>)
    requires forall i :: 0 <= i < |changes| && Counts(e, changes[i]) ==> ParseDelta(changes[i].delta) == Some(0)
    ensures Total(e, changes) == 0
    decreases |changes|
  {
    if changes != [] {
      TotalOfZeros(e, changes[..|changes| - 1]);
    }
  }

  /** When all other counted changes are zero, the total is the one change. */
  lemma {:induction false} TotalOfOne(e: Expected, changes: seq<Change>, j: nat, delta: int)
    requires j < |changes| && Counts(e, changes[j]) && ParseDelta(changes[j].delta) == Some(delta)
    requires forall i :: 0 <= i < |changes| && i != j && Counts(e, changes[i]) ==>
      ParseDelta(changes[i].delta) == Some(0)
    ensures Total(e, changes) == delta
    decreases |changes|
  {
    hide ParseDelta, Counts;
    var front := changes[..|changes| - 1];
    if j == |changes| - 1 {
      TotalOfZeros(e, front);
    } else {
      TotalOfOne(e, front, j, delta);
    }
  }

  /** A passed comparison puts each change inside its ranges, provided no other nonzero entry matches those. */
  lemma PassedChangeIsInside(changes: seq<Change>, expected: seq<Expected>, j: nat, delta: int)
    requires Passes(changes, expected) && j < |changes| && ParseDelta(changes[j].delta) == Some(delta)
    requires forall i :: 0 <= i < |changes| && i != j && SameWhenLowered(changes[i], changes[j]) ==>
      ParseDelta(changes[i].delta) == Some(0)
    ensures delta == 0 || InsideRanges(expected, changes[j].address, changes[j].asset, delta)
  {
    hide ParseDelta, Lower;
    var c := changes[j];
    assert ChangeExpected(expected, c);
    if delta != 0 {
      var k :| 0 <= k < |expected| && Matches(expected[k], c);
      assert Covers(expected[k], c.address, c.asset);
      forall i | 0 <= i < |expected| && Covers(expected[i], c.address, c.asset)
        ensures RangeMet(changes, expected[i]) && Total(expected[i], changes) == delta
      {
        TotalOfOne(expected[i], changes, j, delta);
      }
    }
  }

  predicate SameWhenLowered(c: Change, e: Change) {
    Lower(c.address) == Lower(e.address) && Lower(c.asset) == Lower(e.asset)
  }

  /** The change lies inside the range, both bounds included. */
  predicate Allows(e: Expected, c: Change) {
    && Covers(e, c.address, c.asset)
    && var low, delta, high := ParseDelta(e.minDelta), ParseDelta(c.delta), ParseDelta(e.maxDelta);
       low.Some? && delta.Some? && high.Some? && low.value <= delta.value <= high.value
  }

  lemma RangeIsMetByOne(changes: seq<Change>, e: Expected)
    requires forall i, j :: 0 <= i < j < |changes| ==> !SameWhenLowered(changes[i], changes[j])
    requires forall i :: 0 <= i < |changes| ==> Readable(changes[i])
    ensures RangeMet(changes, e) <==> AllowsSome(e, changes)
  {
    hide ParseDelta, Lower;
    if j :| 0 <= j < |changes| && Counts(e, changes[j]) {
      forall i | 0 <= i < |changes| && i != j ensures !Counts(e, changes[i]) && !Allows(e, changes[i]) {
        assert !SameWhenLowered(changes[if i < j then i else j], changes[if i < j then j else i]);
      }
      TotalOfOne(e, changes, j, ParseDelta(changes[j].delta).value);
    }
  }

  predicate Readable(c: Change) {
    c.address != "" && c.asset != "" && ParseDelta(c.delta).Some?
  }

  /** Some range covers the change's holding. */
  predicate Foreseen(expected: seq<Expected>, c: Change) {
    exists k :: 0 <= k < |expected| && Covers(expected[k], c.address, c.asset)
  }

  predicate AllowsSome(e: Expected, changes: seq<Change>) {
    exists i :: 0 <= i < |changes| && Allows(e, changes[i])
  }

  lemma ExpectedWhenForeseen(expected: seq<Expected>, c: Change)
    requires Readable(c)
    ensures ChangeExpected(expected, c) <==> ParseDelta(c.delta) == Some(0) || Foreseen(expected, c)
  {
    hide ParseDelta, Lower;
    if k :| 0 <= k < |expected| && Covers(expected[k], c.address, c.asset) {
      assert Matches(expected[k], c);
    }
    if k :| 0 <= k < |expected| && Matches(expected[k], c) {
      assert Covers(expected[k], c.address, c.asset);
    }
  }

  /** Readable changes of different holdings pass exactly when every nonzero one is expected and every range is met by
      the change of its own holding: present, and inside the range with both its bounds. */
  lemma ComparisonIsExact(changes: seq<Change>, expected: seq<Expected>)
    requires forall i, j :: 0 <= i < j < |changes| ==> !SameWhenLowered(changes[i], changes[j])
    requires forall i :: 0 <= i < |changes| ==> Readable(changes[i])
    ensures Passes(changes, expected) <==>
      && (forall i :: 0 <= i < |changes| ==> ParseDelta(changes[i].delta) == Some(0) || Foreseen(expected, changes[i]))
      && forall k :: 0 <= k < |expected| ==> AllowsSome(expected[k], changes)
  {
    hide ParseDelta, ChangeExpected, Foreseen, RangeMet, AllowsSome;
    forall i | 0 <= i < |changes|
      ensures ChangeExpected(expected, changes[i]) <==>
        ParseDelta(changes[i].delta) == Some(0) || Foreseen(expected, changes[i])
    {
      ExpectedWhenForeseen(expected, changes[i]);
    }
    forall k | 0 <= k < |expected| ensures RangeMet(changes, expected[k]) <==> AllowsSome(expected[k], changes) {
      RangeIsMetByOne(changes, expected[k]);
    }
  }

  lemma ZeroReads()
    ensures ParseDelta("0") == Some(0)
  {
    assert Value(10, "0") == 0 by {
      assert "0"[..0] == "" && Value(10, "") == 0;
    }
  }

  // ---------------------------------------------------------------------------
  // Reported changes stay apart when lowered
  // ---------------------------------------------------------------------------

  lemma LowerTwice(s: string)
    ensures Lower(Lower(s)) == Lower(s)
  {
  }

  lemma NormalizedIsLower(s: string, address: string)
    requires NormalizeAddress(s) == Some(address)
    ensures Lower(address) == address
  {
    LowerTwice(s);
  }

  lemma {:induction false} ObservedAreLower(addresses: seq<string>)
    ensures forall account :: account in Observed(addresses) ==> Lower(account) == account
    decreases |addresses|
  {
    if addresses != [] {
      var last := addresses[|addresses| - 1];
      ObservedAreLower(addresses[..|addresses| - 1]);
      if NormalizeAddress(last).Some? {
        NormalizedIsLower(last, NormalizeAddress(last).value);
      }
    }
  }

  /** What `Reports` says of one entry's address and asset. */
  predicate Nameable(tokens: seq<Token>, c: Change) {
    Lower(c.address) == c.address
      && (c.asset == NATIVE_ASSET || exists k :: 0 <= k < |tokens| && tokens[k].asset == c.asset)
  }

  lemma ReportedIsNameable(hash: MappingHash, d: Diff, tokens: seq<Token>, addresses: seq<string>,
                           changes: seq<Change>, i: nat)
    requires Reports(hash, d, tokens, Observed(addresses), changes) && i < |changes|
    ensures Nameable(tokens, changes[i])
  {
    hide Lower, NormalizeAddress, Raws, SignedText, NativeTotal, TokenTotal, Observed;
    var c := changes[i];
    assert NativeChange(d, Raws(d), c) || TokenChange(hash, d, Raws(d), tokens, Observed(addresses), c);
    if TokenChange(hash, d, Raws(d), tokens, Observed(addresses), c) {
      ObservedAreLower(addresses);
      var k :| 0 <= k < |tokens| && TokenChangeOf(hash, d, Raws(d), tokens[k], c);
    } else {
      var k :| 0 <= k < |Raws(d)| && NormalizeAddress(Raws(d)[k]) == Some(c.address);
      NormalizedIsLower(Raws(d)[k], c.address);
    }
  }

  lemma AssetsApart(hash: MappingHash, tokens: seq<Token>, observed: seq<string>, a: string, b: string)
    requires TokensAccepted(hash, tokens, observed)
    requires a == NATIVE_ASSET || exists k :: 0 <= k < |tokens| && tokens[k].asset == a
    requires b == NATIVE_ASSET || exists k :: 0 <= k < |tokens| && tokens[k].asset == b
    ensures Lower(a) == Lower(b) ==> a == b
  {
    hide Lower, NormalizeAddress;
    if a != NATIVE_ASSET && b != NATIVE_ASSET {
      var i :| 0 <= i < |tokens| && tokens[i].asset == a;
      var k :| 0 <= k < |tokens| && tokens[k].asset == b;
      assert i != k ==> TokensDiffer(tokens[if i < k then i else k], tokens[if i < k then k else i]);
    } else if a != b {
      var i :| 0 <= i < |tokens| && tokens[i].asset == if a == NATIVE_ASSET then b else a;
      assert TokenAccepted(hash, tokens[i], observed);
    }
  }

  lemma ReportedStayApart(hash: MappingHash, d: Diff, tokens: seq<Token>, addresses: seq<string>,
                          changes: seq<Change>, i: nat, j: nat)
    requires TokensAccepted(hash, tokens, Observed(addresses)) && Reports(hash, d, tokens, Observed(addresses), changes)
    requires i < |changes| && j < |changes| && i != j
    ensures !SameWhenLowered(changes[i], changes[j])
  {
    hide Lower, TokensAccepted, Observed;
    ReportedIsNameable(hash, d, tokens, addresses, changes, i);
    ReportedIsNameable(hash, d, tokens, addresses, changes, j);
    AssetsApart(hash, tokens, Observed(addresses), changes[i].asset, changes[j].asset);
    assert !SameHolding(changes[if i < j then i else j], changes[if i < j then j else i]);
  }

  /** One reported entry, once the comparison has passed with any zero entries added. */
  lemma ReportedIsInside(hash: MappingHash, d: Diff, tokens: seq<Token>, addresses: seq<string>, changes: seq<Change>,
                         zeros: seq<Change>, expected: seq<Expected>, c: Change, delta: int)
    requires TokensAccepted(hash, tokens, Observed(addresses)) && Reports(hash, d, tokens, Observed(addresses), changes)
    requires ZeroEntries(zeros) && Passes(changes + zeros, expected) && Listed(changes, c)
      && c.delta == SignedText(delta)
    ensures delta == 0 || InsideRanges(expected, c.address, c.asset, delta)
  {
    hide Lower, ParseDelta, TokensAccepted, Reports, Observed, SignedText;
    var all := changes + zeros;
    var j :| 0 <= j < |changes| && changes[j] == c;
    SignedReads(delta);
    ZeroReads();
    forall i | 0 <= i < |all| && i != j && SameWhenLowered(all[i], all[j]) ensures ParseDelta(all[i].delta) == Some(0) {
      if i < |changes| {
        ReportedStayApart(hash, d, tokens, addresses, changes, i, j);
      }
    }
    PassedChangeIsInside(all, expected, j, delta);
  }

  /** When a diff is accepted and the comparison of its changes passes, every native and every configured-token
      balance change the diff implies is zero or inside every matching range, no other storage slot changed, and every
      account keeps its code. */
  lemma AcceptedEffectsAreExpected(hash: MappingHash, d: Diff, tokens: seq<Token>, addresses: seq<string>,
                                   changes: seq<Change>, zeros: seq<Change>, expected: seq<Expected>)
    requires Accepted(hash, d, tokens, addresses) && Reports(hash, d, tokens, Observed(addresses), changes)
    requires ZeroEntries(zeros) && Passes(changes + zeros, expected)
    ensures forall address ::
      var delta := NativeTotal(d, Raws(d), address);
      delta == 0 || InsideRanges(expected, address, NATIVE_ASSET, delta)
    ensures forall k, account :: 0 <= k < |tokens| && account in Observed(addresses) ==>
      var delta := TokenTotal(hash, d, Raws(d), tokens[k], account);
      delta == 0 || InsideRanges(expected, account, tokens[k].asset, delta)
    ensures forall i, slot :: 0 <= i < |Raws(d)| && SlotAt(d, Raws(d)[i], slot) != 0 ==>
      && NormalizeAddress(Raws(d)[i]).Some?
      && ClassifiedSlot(hash, tokens, Observed(addresses), NormalizeAddress(Raws(d)[i]).value, slot)
    ensures forall raw :: raw in Raws(d) ==> !CodeChanges(Before(d, raw), After(d, raw))
  {
    hide CodeChanges, Lower, TokensAccepted, Passes, InsideRanges, SlotAt, NormalizeAddress, ClassifiedSlot, Raws,
         Observed, SignedText, TokenTotal;
    forall address ensures
      var delta := NativeTotal(d, Raws(d), address);
      delta == 0 || InsideRanges(expected, address, NATIVE_ASSET, delta)
    {
      var delta := NativeTotal(d, Raws(d), address);
      if Touches(Raws(d), address) {
        ReportedIsInside(hash, d, tokens, addresses, changes, zeros, expected,
          Change(address, NATIVE_ASSET, SignedText(delta)), delta);
      } else {
        Untouched(d, Raws(d), address);
      }
    }
    forall k, account | 0 <= k < |tokens| && account in Observed(addresses)
      ensures
        var delta := TokenTotal(hash, d, Raws(d), tokens[k], account);
        delta == 0 || InsideRanges(expected, account, tokens[k].asset, delta)
    {
      var delta := TokenTotal(hash, d, Raws(d), tokens[k], account);
      if delta != 0 {
        ReportedIsInside(hash, d, tokens, addresses, changes, zeros, expected,
          Change(account, tokens[k].asset, SignedText(delta)), delta);
      }
    }
    forall i, slot | 0 <= i < |Raws(d)| && SlotAt(d, Raws(d)[i], slot) != 0
      ensures NormalizeAddress(Raws(d)[i]).Some?
        && ClassifiedSlot(hash, tokens, Observed(addresses), NormalizeAddress(Raws(d)[i]).value, slot)
    {
      assert AccountAccepted(hash, d, tokens, Observed(addresses), Raws(d)[i]);
    }
    forall raw | raw in Raws(d) ensures !CodeChanges(Before(d, raw), After(d, raw)) {
      AcceptedKeepsCode(hash, d, tokens, addresses, raw);
    }
  }

  lemma {:induction false} Untouched(d: Diff, raws: seq<string>, address: string)
    requires !Touches(raws, address)
    ensures NativeTotal(d, raws, address) == 0
    decreases |raws|
  {
    hide NormalizeAddress, NativeAt;
    if raws != [] {
      var front := raws[..|raws| - 1];
      assert raws == front + [raws[|raws| - 1]];
      TouchesOne(front, raws[|raws| - 1]);
      Untouched(d, front, address);
    }
  }
}
