/** The state overrides a probe call runs under, derived from the same diff as the balance changes. */
module StateOverrides {
  import opened Outcomes
  import opened Numerals
  import opened StateDiffs
  import opened TraceBalances

  /** Texts as the node receives them: a new balance, and new words by slot. */
  datatype Override = Override(balance: Option<string>, stateDiff: map<string, string>)

  const NO_OVERRIDE := Override(None, map[])

  // ---------------------------------------------------------------------------
  // Normal keys
  // ---------------------------------------------------------------------------

  ghost predicate Normalizable(r: Record<string, Entry>) {
    && (forall raw :: raw in r.at ==> NormalizeAddress(raw).Some? && r.at[raw].Snapshot?)
    && forall a, b :: a in r.at && b in r.at && NormalizeAddress(a) == NormalizeAddress(b) ==> a == b
  }

  /** Every key is a normalised address. */
  ghost predicate Normal(r: Record<string, Entry>) {
    forall raw :: raw in r.at ==> NormalizeAddress(raw) == Some(raw)
  }

  lemma NormalizeTwice(s: string)
    ensures NormalizeAddress(s).Some? ==> NormalizeAddress(NormalizeAddress(s).value) == NormalizeAddress(s)
  {
    if NormalizeAddress(s).Some? {
      var a := Lower(s);
      LowerKeepsValue(s[2..]);
      assert a[2..] == Lower(s[2..]) && a[..2] == "0x";
      assert Lower(a) == a;
    }
  }

  /** The first `n` keys, normalised, hold the same accounts. */
  ghost predicate NormalizedUpTo(r: Record<string, Entry>, n: nat, normalized: Record<string, Entry>) {
    && n <= |r.keys| && |normalized.keys| == n && WellFormed(normalized) && Normal(normalized)
    && forall k :: 0 <= k < n ==> NormalizedKey(r, r.keys[k], normalized, normalized.keys[k])
  }

  ghost predicate NormalizedKey(r: Record<string, Entry>, raw: string, normalized: Record<string, Entry>,
                                address: string) {
    && NormalizeAddress(raw) == Some(address) && raw in r.at && address in normalized.at
    && r.at[raw].Snapshot? && normalized.at[address] == r.at[raw]
  }

  method NormalizeAccounts(r: Record<string, Entry>) returns (n: Option<Record<string, Entry>>)
    requires WellFormed(r)
    ensures n.Some? <==> Normalizable(r)
    ensures n.Some? ==> NormalizedUpTo(r, |r.keys|, n.value)
  {
    hide NormalizeAddress, NormalizedUpTo, Normal;
    var normalized: Record<string, Entry> := Record([], map[]);
    NothingNormalized(r);
    for i := 0 to |r.keys|
      invariant NormalizedUpTo(r, i, normalized)
    {
      var key := r.keys[i];
      assert key in r.at;
      var account := NormalizeAddress(key);
      if account.None? {
        return None;
      }
      if account.value in normalized.at {
        KeyTwice(r, i, normalized, account.value);
        return None;
      }
      if r.at[key].Malformed? {
        return None;
      }
      NormalizeTwice(key);
      NormalizeOne(r, i, normalized, account.value);
      normalized := Record(normalized.keys + [account.value], normalized.at[account.value := r.at[key]]);
    }
    NormalizedAll(r, normalized);
    return Some(normalized);
  }

  lemma NothingNormalized(r: Record<string, Entry>)
    ensures NormalizedUpTo(r, 0, Record([], map[]))
  {
  }

  lemma KeyTwice(r: Record<string, Entry>, i: nat, normalized: Record<string, Entry>, address: string)
    requires WellFormed(r) && NormalizedUpTo(r, i, normalized) && i < |r.keys|
    requires NormalizeAddress(r.keys[i]) == Some(address) && address in normalized.at
    ensures !Normalizable(r)
  {
    hide NormalizeAddress, Normal;
    var k :| 0 <= k < i && normalized.keys[k] == address;
    assert NormalizedKey(r, r.keys[k], normalized, address) && r.keys[k] != r.keys[i];
  }

  lemma NormalizeOne(r: Record<string, Entry>, i: nat, normalized: Record<string, Entry>, address: string)
    requires WellFormed(r) && NormalizedUpTo(r, i, normalized) && i < |r.keys| && r.keys[i] in r.at
      && r.at[r.keys[i]].Snapshot?
    requires NormalizeAddress(r.keys[i]) == NormalizeAddress(address) == Some(address) && address !in normalized.at
    ensures NormalizedUpTo(r, i + 1, Record(normalized.keys + [address], normalized.at[address := r.at[r.keys[i]]]))
  {
    hide NormalizeAddress;
  }

  lemma NormalizedAll(r: Record<string, Entry>, normalized: Record<string, Entry>)
    requires WellFormed(r) && NormalizedUpTo(r, |r.keys|, normalized)
    ensures Normalizable(r)
  {
    hide NormalizeAddress, Normal;
    forall raw | raw in r.at ensures NormalizeAddress(raw).Some? && r.at[raw].Snapshot? {
      var k := KeyAt(r, normalized, raw);
    }
    forall a, b | a in r.at && b in r.at && NormalizeAddress(a) == NormalizeAddress(b) ensures a == b {
      var k := KeyAt(r, normalized, a);
      var l := KeyAt(r, normalized, b);
    }
  }

  lemma KeyAt(r: Record<string, Entry>, normalized: Record<string, Entry>, raw: string) returns (k: nat)
    requires WellFormed(r) && NormalizedUpTo(r, |r.keys|, normalized) && raw in r.at
    ensures k < |r.keys| == |normalized.keys| && r.keys[k] == raw
      && NormalizedKey(r, raw, normalized, normalized.keys[k])
  {
    k :| 0 <= k < |r.keys| && r.keys[k] == raw;
  }

  // ---------------------------------------------------------------------------
  // One account
  // ---------------------------------------------------------------------------

  function EntriesOf(s: Storage): Record<string, Unknown> {
    if s.Slots? then s.entries else Record([], map[])
  }

  function AfterOnly(at: map<string, Unknown>, keys: seq<string>): seq<string> {
    if keys == [] then []
    else if keys[0] in at then AfterOnly(at, keys[1..])
    else [keys[0]] + AfterOnly(at, keys[1..])
  }

  /** The keys of both storage maps, those before first. */
  function SlotKeys(pre: Storage, post: Storage): seq<string> {
    EntriesOf(pre).keys + AfterOnly(EntriesOf(pre).at, EntriesOf(post).keys)
  }

  /** The word written for a key: the one after, or zero when there is none. */
  function WordWritten(post: Storage, raw: string): Option<Word> {
    var at := EntriesOf(post).at;
    if raw !in at || at[raw].Missing? || at[raw].Null? then Some(0) else ParseQuantity(at[raw])
  }

  /** The slot a key is written under. */
  function SlotWritten(raw: string): Option<string> {
    if HexText(raw) && HexValue(raw) < TWO_256 then Some(Hex32(HexValue(raw))) else None
  }

  /** The override sets exactly the slots either side names, to their words after, and the balance to its value
      after. */
  ghost predicate Describes(pre: Option<Account>, post: Option<Account>, o: Override) {
    && BalanceDescribed(pre, post, o.balance)
    && forall slot :: SlotDescribed(StorageOf(pre), StorageOf(post), o.stateDiff, slot)
  }

  /** What the node reads is the balance before plus its change; without a text the balance does not change. */
  predicate BalanceDescribed(pre: Option<Account>, post: Option<Account>, balance: Option<string>) {
    match NativeDelta(pre, post)
    case None => false
    case Some((delta, before)) =>
      match balance
      case None => delta == 0
      case Some(text) => ParseQuantity(Text(text)).Some? && ParseQuantity(Text(text)).value == before + delta
  }

  ghost predicate SlotDescribed(pre: Storage, post: Storage, stateDiff: map<string, string>, slot: string) {
    && (slot in stateDiff <==> HasSlot(pre, slot) || HasSlot(post, slot))
    && (slot in stateDiff ==> ParseQuantity(Text(stateDiff[slot])) == Some(WordIn(post, slot)))
  }

  /** One turn of the loop of `stateOverrides`; `None` when it throws. */
  method AccountOverride(pre: Option<Account>, post: Option<Account>) returns (r: Option<Override>)
    requires StorageOf(pre).Slots? ==> WellFormed(StorageOf(pre).entries)
    requires StorageOf(post).Slots? ==> WellFormed(StorageOf(post).entries)
    ensures NativeDelta(pre, post).Some? && Readable(StorageOf(pre)) && Readable(StorageOf(post)) ==>
      r.Some? && Describes(pre, post, r.value)
  {
    hide ParseQuantity, Readable, SlotDescribed, BalanceDescribed, Hex32, ToHex;
    var balance: Option<string> := None;
    if post.None? {
      balance := Some("0x0");
    } else if !post.value.balance.Missing? {
      var quantity := ParseQuantity(post.value.balance);
      if quantity.None? {
        assert NativeDelta(pre, post).None?;
        return None;
      }
      balance := Some(ToHex(quantity.value));
    }
    var before, after := StorageOf(pre), StorageOf(post);
    var stateDiff := WriteSlots(before, after);
    if stateDiff.None? {
      return None;
    }
    if NativeDelta(pre, post).Some? && Readable(before) && Readable(after) {
      BalanceReads(pre, post, balance);
    }
    return Some(Override(balance, stateDiff.value));
  }

  lemma BalanceReads(pre: Option<Account>, post: Option<Account>, balance: Option<string>)
    requires NativeDelta(pre, post).Some?
    requires balance == if post.None? then Some("0x0")
                        else if post.value.balance.Missing? || ParseQuantity(post.value.balance).None? then None
                        else Some(ToHex(ParseQuantity(post.value.balance).value))
    ensures BalanceDescribed(pre, post, balance)
  {
    hide ParseQuantity, ToHex;
    ZeroTextReads();
    if post.Some? && ParseQuantity(post.value.balance).Some? {
      QuantityReads(ParseQuantity(post.value.balance).value);
    }
  }

  lemma ZeroTextReads()
    ensures ParseQuantity(Text("0x0")) == Some(0)
  {
    QuantityReads(0);
    PrintedIsLong(16, 0);
    assert ToHex(0) == "0x0";
  }

  /** The loop over the slots. A slot spelled differently on the two sides is written twice, the word after last. */
  method WriteSlots(pre: Storage, post: Storage) returns (r: Option<map<string, string>>)
    requires (pre.Slots? ==> WellFormed(pre.entries)) && (post.Slots? ==> WellFormed(post.entries))
    ensures Readable(pre) && Readable(post) ==> r.Some? && forall slot :: SlotDescribed(pre, post, r.value, slot)
  {
    hide ParseQuantity, Hex32, Readable, SlotDescribed, NormalizeSlot;
    if pre.BadStorage? || post.BadStorage? {
      assert !(Readable(pre) && Readable(post)) by {
        BadIsUnreadable();
      }
      return None;
    }
    var keys := SlotKeys(pre, post);
    var stateDiff: map<string, string> := map[];
    for i := 0 to |keys|
      invariant Readable(pre) && Readable(post) ==> WrittenUpTo(pre, post, keys[..i], stateDiff)
    {
      var raw := keys[i];
      assert keys[..i + 1] == keys[..i] + [raw];
      var slot, word := SlotWritten(raw), WordWritten(post, raw);
      if Readable(pre) && Readable(post) {
        KeyIsWritable(pre, post, raw);
      }
      if slot.None? || word.None? {
        return None;
      }
      if Readable(pre) && Readable(post) {
        KeyOrder(pre, post, i);
        WriteOne(pre, post, keys[..i], stateDiff, raw);
      }
      stateDiff := stateDiff[slot.value := Hex32(word.value)];
    }
    assert keys[..|keys|] == keys;
    if Readable(pre) && Readable(post) {
      AllWritten(pre, post, stateDiff);
    }
    return Some(stateDiff);
  }

  lemma BadIsUnreadable()
    ensures !Readable(BadStorage)
  {
  }

  lemma {:induction false} AfterOnlyHas(at: map<string, Unknown>, keys: seq<string>)
    ensures forall raw :: raw in AfterOnly(at, keys) <==> raw in keys && raw !in at
  {
    if keys != [] {
      AfterOnlyHas(at, keys[1..]);
      assert keys == [keys[0]] + keys[1..];
    }
  }

  lemma SlotKeysHave(pre: Storage, post: Storage)
    requires (pre.Slots? ==> WellFormed(pre.entries)) && (post.Slots? ==> WellFormed(post.entries))
    ensures forall raw :: raw in SlotKeys(pre, post) <==> raw in EntriesOf(pre).at || raw in EntriesOf(post).at
  {
    AfterOnlyHas(EntriesOf(pre).at, EntriesOf(post).keys);
  }

  /** On readable storage the written slot is the normalised slot, and the written word exists. */
  lemma KeyIsWritable(pre: Storage, post: Storage, raw: string)
    requires (pre.Slots? ==> WellFormed(pre.entries)) && (post.Slots? ==> WellFormed(post.entries))
    requires Readable(pre) && Readable(post)
    ensures raw in SlotKeys(pre, post) ==>
      SlotWritten(raw).Some? && NormalizeSlot(raw) == SlotWritten(raw) && WordWritten(post, raw).Some?
  {
    hide NormalizeSlot, ParseQuantity, Hex32;
    SlotKeysHave(pre, post);
    if raw in SlotKeys(pre, post) {
      SlotTextsAgree(raw);
    }
  }

  lemma SlotTextsAgree(raw: string)
    requires NormalizeSlot(raw).Some?
    ensures SlotWritten(raw) == NormalizeSlot(raw)
  {
    NormalizedIsHex32(raw);
  }

  /** Each slot named so far holds the text of the last word written under it: the word after once its key after has
      come up, else zero. */
  ghost predicate WrittenUpTo(pre: Storage, post: Storage, done: seq<string>, stateDiff: map<string, string>) {
    && (forall slot :: slot in stateDiff <==> exists i :: 0 <= i < |done| && NormalizeSlot(done[i]) == Some(slot))
    && (forall i :: 0 <= i < |done| && NormalizeSlot(done[i]).Some? && done[i] in EntriesOf(post).at ==>
          NormalizeSlot(done[i]).value in stateDiff
            && stateDiff[NormalizeSlot(done[i]).value] == Hex32(WordIn(post, NormalizeSlot(done[i]).value)))
    && forall slot :: slot in stateDiff && !HasSlot(post, slot) ==> stateDiff[slot] == Hex32(0)
  }

  lemma WriteOne(pre: Storage, post: Storage, done: seq<string>, stateDiff: map<string, string>, raw: string)
    requires Readable(pre) && Readable(post) && WrittenUpTo(pre, post, done, stateDiff)
    requires SlotWritten(raw).Some? && NormalizeSlot(raw) == SlotWritten(raw) && WordWritten(post, raw).Some?
    requires raw !in EntriesOf(post).at ==>
      forall i :: 0 <= i < |done| && NormalizeSlot(done[i]) == NormalizeSlot(raw) ==> done[i] !in EntriesOf(post).at
    ensures WrittenUpTo(pre, post, done + [raw],
                        stateDiff[SlotWritten(raw).value := Hex32(WordWritten(post, raw).value)])
  {
    hide NormalizeSlot, Hex32, WordIn;
    var slot := SlotWritten(raw).value;
    var all, written := done + [raw], stateDiff[slot := Hex32(WordWritten(post, raw).value)];
    if raw in EntriesOf(post).at {
      assert NamesSlot(post, raw, slot);
      WordAt(post, raw, slot);
      assert WordWritten(post, raw).value == WordIn(post, slot);
    }
    assert all[|done|] == raw && forall i :: 0 <= i < |done| ==> all[i] == done[i];
    forall s ensures s in written <==> exists i :: 0 <= i < |all| && NormalizeSlot(all[i]) == Some(s) {
      if s in stateDiff {
        var i :| 0 <= i < |done| && NormalizeSlot(done[i]) == Some(s);
        assert NormalizeSlot(all[i]) == Some(s);
      }
    }
  }

  /** A key that only the side before has comes before every key of the other side that spells its slot differently. */
  lemma KeyOrder(pre: Storage, post: Storage, i: nat)
    requires (pre.Slots? ==> WellFormed(pre.entries)) && (post.Slots? ==> WellFormed(post.entries))
    requires Readable(pre) && i < |SlotKeys(pre, post)|
    ensures var keys := SlotKeys(pre, post);
      NormalizeSlot(keys[i]).Some? && keys[i] !in EntriesOf(post).at ==>
        forall k :: 0 <= k < i && NormalizeSlot(keys[k]) == NormalizeSlot(keys[i]) ==> keys[k] !in EntriesOf(post).at
  {
    hide NormalizeSlot, ParseQuantity;
    var keys, first := SlotKeys(pre, post), EntriesOf(pre).keys;
    OnlyPostKeysFollow(pre, post, i);
    if NormalizeSlot(keys[i]).Some? && i < |first| {
      forall k | 0 <= k < i && NormalizeSlot(keys[k]) == NormalizeSlot(keys[i]) ensures keys[k] == keys[i] {
        assert keys[k] == first[k] && keys[i] == first[i];
        assert first[k] in pre.entries.at && first[i] in pre.entries.at;
        assert NamesSlot(pre, first[k], NormalizeSlot(keys[i]).value)
          && NamesSlot(pre, first[i], NormalizeSlot(keys[i]).value);
      }
    }
  }

  lemma OnlyPostKeysFollow(pre: Storage, post: Storage, i: nat)
    requires (post.Slots? ==> WellFormed(post.entries)) && i < |SlotKeys(pre, post)|
    ensures |EntriesOf(pre).keys| <= i ==> SlotKeys(pre, post)[i] in EntriesOf(post).at
  {
    var rest := AfterOnly(EntriesOf(pre).at, EntriesOf(post).keys);
    AfterOnlyHas(EntriesOf(pre).at, EntriesOf(post).keys);
    if |EntriesOf(pre).keys| <= i {
      assert rest[i - |EntriesOf(pre).keys|] in rest;
    }
  }

  lemma AllWritten(pre: Storage, post: Storage, stateDiff: map<string, string>)
    requires (pre.Slots? ==> WellFormed(pre.entries)) && (post.Slots? ==> WellFormed(post.entries))
    requires Readable(pre) && Readable(post) && WrittenUpTo(pre, post, SlotKeys(pre, post), stateDiff)
    ensures forall slot :: SlotDescribed(pre, post, stateDiff, slot)
  {
    hide NormalizeSlot, ParseQuantity, Hex32, Readable, WordIn, SlotKeys;
    var keys := SlotKeys(pre, post);
    SlotKeysHave(pre, post);
    QuantityReads(0);
    forall slot ensures SlotDescribed(pre, post, stateDiff, slot) {
      if HasSlot(post, slot) {
        var raw :| NamesSlot(post, raw, slot);
        assert raw in EntriesOf(post).at && raw in keys;
        var i :| 0 <= i < |keys| && keys[i] == raw;
        QuantityReads(WordIn(post, slot));
      } else {
        OmittedIsZero(post, slot);
        if HasSlot(pre, slot) {
          var raw :| NamesSlot(pre, raw, slot);
          assert raw in EntriesOf(pre).at && raw in keys;
          var i :| 0 <= i < |keys| && keys[i] == raw;
        }
        if slot in stateDiff {
          var i :| 0 <= i < |keys| && NormalizeSlot(keys[i]) == Some(slot);
          assert NamesSlot(pre, keys[i], slot) || NamesSlot(post, keys[i], slot);
        }
      }
    }
  }

  lemma OmittedIsZero(s: Storage, slot: string)
    ensures !HasSlot(s, slot) ==> WordIn(s, slot) == 0
  {
  }

  // ---------------------------------------------------------------------------
  // The whole diff
  // ---------------------------------------------------------------------------

  function OverrideOf(overrides: map<string, Override>, address: string): Override {
    if address in overrides then overrides[address] else NO_OVERRIDE
  }

  /** Every key's override describes its account; nothing else is overridden. */
  ghost predicate Overrides(d: Diff, overrides: map<string, Override>) {
    && (forall address :: address in overrides ==> address in Raws(d))
    && forall i :: 0 <= i < |Raws(d)| ==>
       Describes(Before(d, Raws(d)[i]), After(d, Raws(d)[i]), OverrideOf(overrides, Raws(d)[i]))
  }

  /** The part of acceptance the overrides rely on. */
  ghost predicate AccountReadable(d: Diff, raw: string) {
    var pre, post := Before(d, raw), After(d, raw);
    && !MalformedAt(d.pre, raw) && !MalformedAt(d.post, raw)
    && NativeDelta(pre, post).Some? && Readable(StorageOf(pre)) && Readable(StorageOf(post))
  }

  /** `stateOverrides`; `None` when it throws. */
  method StateOverrides(d: Diff) returns (r: Option<map<string, Override>>)
    requires WellFormedDiff(d)
    ensures (forall i :: 0 <= i < |Raws(d)| ==> AccountReadable(d, Raws(d)[i])) ==> r.Some? && Overrides(d, r.value)
  {
    hide Describes, NativeDelta, Readable;
    var raws := Raws(d);
    RawsDistinct(d);
    var overrides: map<string, Override> := map[];
    ghost var readable := forall i :: 0 <= i < |raws| ==> AccountReadable(d, raws[i]);
    for i := 0 to |raws|
      invariant forall address :: address in overrides ==> address in raws[..i]
      invariant readable ==> forall k :: 0 <= k < i ==>
        Describes(Before(d, raws[k]), After(d, raws[k]), OverrideOf(overrides, raws[k]))
    {
      var raw := raws[i];
      if MalformedAt(d.pre, raw) || MalformedAt(d.post, raw) {
        return None;
      }
      var override := AccountOverride(Before(d, raw), After(d, raw));
      if override.None? {
        return None;
      }
      assert raws[i] !in raws[..i] && raws[..i + 1] == raws[..i] + [raws[i]];
      if override.value.stateDiff != map[] || override.value.balance.Some? {
        overrides := overrides[raw := override.value];
      }
    }
    assert raws[..|raws|] == raws;
    return Some(overrides);
  }

  lemma {:induction false} OthersDistinct(at: map<string, Entry>, keys: seq<string>)
    requires forall i, j :: 0 <= i < j < |keys| ==> keys[i] != keys[j]
    ensures forall i, j :: 0 <= i < j < |Others(at, keys)| ==> Others(at, keys)[i] != Others(at, keys)[j]
  {
    if keys != [] {
      OthersDistinct(at, keys[1..]);
      OthersHave(at, keys[1..]);
      assert keys[0] !in keys[1..];
    }
  }

  lemma RawsDistinct(d: Diff)
    requires WellFormedDiff(d)
    ensures forall i, j :: 0 <= i < j < |Raws(d)| ==> Raws(d)[i] != Raws(d)[j]
  {
    OthersDistinct(d.pre.at, d.post.keys);
    OthersHave(d.pre.at, d.post.keys);
    var first, rest := d.pre.keys, Others(d.pre.at, d.post.keys);
    forall i, j | 0 <= i < j < |Raws(d)| ensures Raws(d)[i] != Raws(d)[j] {
      if i < |first| <= j {
        assert first[i] in d.pre.at && rest[j - |first|] in rest;
      }
    }
  }

  // ---------------------------------------------------------------------------
  // The overridden state is the post-state
  // ---------------------------------------------------------------------------

  type Balances = string -> Word

  type Words = (string, string) -> Word

  function BalanceUnder(overrides: map<string, Override>, balances: Balances, address: string): Word {
    var o := OverrideOf(overrides, address);
    if o.balance.Some? && ParseQuantity(Text(o.balance.value)).Some? then ParseQuantity(Text(o.balance.value)).value
    else balances(address)
  }

  function WordUnder(overrides: map<string, Override>, words: Words, address: string, slot: string): Word {
    var o := OverrideOf(overrides, address);
    if slot in o.stateDiff && ParseQuantity(Text(o.stateDiff[slot])).Some?
      then ParseQuantity(Text(o.stateDiff[slot])).value
    else words(address, slot)
  }

  /** The chain before the transaction holds what the diff says it held. */
  ghost predicate PreState(d: Diff, balances: Balances, words: Words) {
    && (forall i :: 0 <= i < |Raws(d)| ==> BalanceBefore(d, Raws(d)[i], balances))
    && forall i, slot :: 0 <= i < |Raws(d)| ==> WordBefore(d, Raws(d)[i], words, slot)
  }

  predicate BalanceBefore(d: Diff, raw: string, balances: Balances) {
    Second(NativeDelta(Before(d, raw), After(d, raw))) == Some(balances(raw))
  }

  ghost predicate WordBefore(d: Diff, raw: string, words: Words, slot: string) {
    HasSlot(StorageOf(Before(d, raw)), slot) || HasSlot(StorageOf(After(d, raw)), slot) ==>
      words(raw, slot) == WordIn(StorageOf(Before(d, raw)), slot)
  }

  ghost predicate NormalDiff(d: Diff) {
    Normal(d.pre) && Normal(d.post)
  }

  /** With normal keys an address has at most one key, its own. */
  lemma {:induction false} TotalsOfNormalKeys(d: Diff, raws: seq<string>, address: string, slot: string)
    requires forall i :: 0 <= i < |raws| ==> NormalizeAddress(raws[i]) == Some(raws[i])
    requires forall i, j :: 0 <= i < j < |raws| ==> raws[i] != raws[j]
    ensures NativeTotal(d, raws, address) == if address in raws then NativeAt(d, address) else 0
    ensures SlotTotal(d, raws, address, slot) == if address in raws then SlotAt(d, address, slot) else 0
    decreases |raws|
  {
    hide NormalizeAddress, NativeAt, SlotAt;
    if raws != [] {
      var front, last := raws[..|raws| - 1], raws[|raws| - 1];
      TotalsOfNormalKeys(d, front, address, slot);
      assert raws == front + [last] && last !in front;
    }
  }

  /** Applied to the state before, the overrides give every balance plus its native delta and every slot plus its
      storage delta: the state the balance changes were derived from. */
  lemma OverridesGivePostState(d: Diff, overrides: map<string, Override>, balances: Balances, words: Words)
    requires WellFormedDiff(d) && NormalDiff(d) && Overrides(d, overrides) && PreState(d, balances, words)
    ensures forall address ::
      BalanceUnder(overrides, balances, address) == balances(address) + NativeTotal(d, Raws(d), address)
    ensures forall address, slot ::
      WordUnder(overrides, words, address, slot) == words(address, slot) + SlotTotal(d, Raws(d), address, slot)
  {
    hide NormalizeAddress, ParseQuantity, WordIn, Raws, NativeDelta, Overrides;
    NormalRaws(d);
    RawsDistinct(d);
    forall address
      ensures BalanceUnder(overrides, balances, address) == balances(address) + NativeTotal(d, Raws(d), address) {
      TotalsOfNormalKeys(d, Raws(d), address, "");
      OneAddress(d, overrides, balances, words, address, "");
    }
    forall address, slot
      ensures WordUnder(overrides, words, address, slot) == words(address, slot) + SlotTotal(d, Raws(d), address, slot)
    {
      TotalsOfNormalKeys(d, Raws(d), address, slot);
      OneAddress(d, overrides, balances, words, address, slot);
    }
  }

  lemma NormalRaws(d: Diff)
    requires WellFormedDiff(d) && NormalDiff(d)
    ensures forall i :: 0 <= i < |Raws(d)| ==> NormalizeAddress(Raws(d)[i]) == Some(Raws(d)[i])
  {
    hide NormalizeAddress;
    RawsHave(d);
    forall i | 0 <= i < |Raws(d)| ensures NormalizeAddress(Raws(d)[i]) == Some(Raws(d)[i]) {
      assert Raws(d)[i] in Raws(d);
    }
  }

  lemma OneAddress(d: Diff, overrides: map<string, Override>, balances: Balances, words: Words, address: string,
                   slot: string)
    requires Overrides(d, overrides) && PreState(d, balances, words)
    ensures BalanceUnder(overrides, balances, address)
         == balances(address) + if address in Raws(d) then NativeAt(d, address) else 0
    ensures WordUnder(overrides, words, address, slot)
         == words(address, slot) + if address in Raws(d) then SlotAt(d, address, slot) else 0
  {
    hide ParseQuantity, Raws, NativeDelta;
    if address in Raws(d) {
      var i :| 0 <= i < |Raws(d)| && Raws(d)[i] == address;
      assert BalanceBefore(d, Raws(d)[i], balances) && WordBefore(d, Raws(d)[i], words, slot);
      assert Describes(Before(d, address), After(d, address), OverrideOf(overrides, address));
      assert SlotDescribed(StorageOf(Before(d, address)), StorageOf(After(d, address)),
        OverrideOf(overrides, address).stateDiff, slot);
    }
  }

  /** A balance probed before and under the overrides differs by exactly the change that was extracted for it. */
  lemma ProbesSeeTheReportedDelta(hash: MappingHash, d: Diff, overrides: map<string, Override>, balances: Balances,
                                  words: Words,
                                  t: Token, account: string, token: string, slot: Word)
    requires WellFormedDiff(d) && NormalDiff(d) && Overrides(d, overrides) && PreState(d, balances, words)
    requires NormalizeAddress(t.address) == Some(token) && ParseQuantity(t.balanceSlot) == Some(slot)
    ensures var own := BalanceSlot(hash, account, slot);
      WordUnder(overrides, words, token, own) - words(token, own) == TokenTotal(hash, d, Raws(d), t, account)
  {
    hide NormalizeAddress, ParseQuantity, Raws, WordUnder, Overrides, PreState;
    OverridesGivePostState(d, overrides, balances, words);
  }
}
