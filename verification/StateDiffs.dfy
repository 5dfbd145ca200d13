/** The two halves of reading a pre/post state diff: which storage slots the tokens configure, and how one account
    changed. The mapping-slot hash is a parameter; where it must not collide, that is a condition on the slots the
    tokens configure. */
module StateDiffs {
  import opened Outcomes
  import opened Numerals

  const NATIVE_ASSET := "ETH"

  /** A record with its keys in insertion order. */
  datatype Record<K, V> = Record(keys: seq<K>, at: map<K, V>)

  ghost predicate WellFormed<K(!new), V>(r: Record<K, V>) {
    && (forall i, j :: 0 <= i < j < |r.keys| ==> r.keys[i] != r.keys[j])
    && forall k :: k in r.keys <==> k in r.at
  }

  datatype Storage = NoStorage | BadStorage | Slots(entries: Record<string, Unknown>)

  datatype Account = Account(balance: Unknown, code: Unknown, storage: Storage)

  /** What a trace holds under an address. */
  datatype Entry = Malformed | Snapshot(account: Account)

  datatype Diff = Diff(pre: Record<string, Entry>, post: Record<string, Entry>)

  ghost predicate WellFormedEntry(e: Entry) {
    e.Snapshot? && e.account.storage.Slots? ==> WellFormed(e.account.storage.entries)
  }

  ghost predicate WellFormedDiff(d: Diff) {
    && WellFormed(d.pre) && WellFormed(d.post)
    && (forall k :: k in d.pre.at ==> WellFormedEntry(d.pre.at[k]))
    && forall k :: k in d.post.at ==> WellFormedEntry(d.post.at[k])
  }

  datatype Token = Token(address: string, asset: string, balanceSlot: Unknown, allowanceSlot: Unknown,
    totalSupplySlot: Unknown)

  /** `0x` and forty hexadecimal digits, lowered. */
  function NormalizeAddress(s: string): Option<string> {
    if |s| == 42 && HexText(s) then Some(Lower(s)) else None
  }

  // ---------------------------------------------------------------------------
  // The slots tokens configure
  // ---------------------------------------------------------------------------

  /** The hash of a mapping key and a slot number. */
  type MappingHash = (string, Word) -> Word

  datatype SlotKind = BalanceOf(asset: string, account: string) | Allowance | Supply

  /** What is known of one token's slots, and of all tokens' slots by address. */
  type SlotKinds = map<string, SlotKind>

  type SlotIndex = map<string, SlotKinds>

  predicate Configured(v: Unknown) {
    v != Missing && v != Null && v != Text("")
  }

  function BalanceSlot(hash: MappingHash, account: string, slot: Word): string {
    Hex32(hash(account, slot))
  }

  function AllowanceSlot(hash: MappingHash, owner: string, spender: string, slot: Word): string {
    Hex32(hash(spender, hash(owner, slot)))
  }

  ghost predicate IsBalanceSlot(hash: MappingHash, t: Token, account: string, slot: string) {
    ParseQuantity(t.balanceSlot).Some? && slot == BalanceSlot(hash, account, ParseQuantity(t.balanceSlot).value)
  }

  ghost predicate IsAllowanceSlot(hash: MappingHash, t: Token, observed: seq<string>, slot: string) {
    && Configured(t.allowanceSlot) && ParseQuantity(t.allowanceSlot).Some?
    && exists owner, spender :: owner in observed && spender in observed
         && slot == AllowanceSlot(hash, owner, spender, ParseQuantity(t.allowanceSlot).value)
  }

  ghost predicate IsSupplySlot(t: Token, slot: string) {
    && Configured(t.totalSupplySlot) && ParseQuantity(t.totalSupplySlot).Some?
    && slot == Hex32(ParseQuantity(t.totalSupplySlot).value)
  }

  ghost predicate IsSomeBalanceSlot(hash: MappingHash, t: Token, observed: seq<string>, slot: string) {
    exists account :: account in observed && IsBalanceSlot(hash, t, account, slot)
  }

  ghost predicate ConfiguredSlot(hash: MappingHash, t: Token, observed: seq<string>, slot: string) {
    IsSomeBalanceSlot(hash, t, observed, slot) || IsAllowanceSlot(hash, t, observed, slot) || IsSupplySlot(t, slot)
  }

  /** What the configuration of one token must satisfy on its own. */
  ghost predicate TokenAccepted(hash: MappingHash, t: Token, observed: seq<string>) {
    && NormalizeAddress(t.address).Some?
    && t.asset != "" && Lower(t.asset) != Lower(NATIVE_ASSET)
    && Configured(t.balanceSlot) && ParseQuantity(t.balanceSlot).Some?
    && (Configured(t.allowanceSlot) ==> ParseQuantity(t.allowanceSlot).Some?)
    && (Configured(t.totalSupplySlot) ==>
          && ParseQuantity(t.totalSupplySlot).Some?
          && var supply := Hex32(ParseQuantity(t.totalSupplySlot).value);
             !IsSomeBalanceSlot(hash, t, observed, supply) && !IsAllowanceSlot(hash, t, observed, supply))
  }

  ghost predicate TokensDiffer(s: Token, t: Token) {
    NormalizeAddress(s.address) != NormalizeAddress(t.address) && Lower(s.asset) != Lower(t.asset)
  }

  ghost predicate TokensAccepted(hash: MappingHash, tokens: seq<Token>, observed: seq<string>) {
    && (forall i :: 0 <= i < |tokens| ==> TokenAccepted(hash, tokens[i], observed))
    && forall i, j :: 0 <= i < j < |tokens| ==> TokensDiffer(tokens[i], tokens[j])
  }

  /** The hash keeps the token's own slots apart. */
  ghost predicate SlotsApart(hash: MappingHash, t: Token, observed: seq<string>) {
    && (forall slot, a, b ::
         a in observed && b in observed && IsBalanceSlot(hash, t, a, slot) && IsBalanceSlot(hash, t, b, slot) ==>
           a == b)
    && forall slot, a :: a in observed && IsBalanceSlot(hash, t, a, slot) ==> !IsAllowanceSlot(hash, t, observed, slot)
  }

  ghost predicate NoCollisions(hash: MappingHash, tokens: seq<Token>, observed: seq<string>) {
    forall i :: 0 <= i < |tokens| ==> SlotsApart(hash, tokens[i], observed)
  }

  ghost predicate SlotIndexed(hash: MappingHash, t: Token, observed: seq<string>, slots: SlotKinds, slot: string) {
    && (slot in slots <==> ConfiguredSlot(hash, t, observed, slot))
    && (slot in slots && slots[slot].BalanceOf? ==>
          slots[slot].asset == t.asset && slots[slot].account in observed
            && IsBalanceSlot(hash, t, slots[slot].account, slot))
    && (IsSomeBalanceSlot(hash, t, observed, slot) && !IsAllowanceSlot(hash, t, observed, slot) ==>
          slot in slots && slots[slot].BalanceOf?)
  }

  /** The index of one token holds exactly its configured slots, each balance under its own account and asset. */
  ghost predicate IndexesToken(hash: MappingHash, t: Token, observed: seq<string>, slots: SlotKinds) {
    forall slot :: SlotIndexed(hash, t, observed, slots, slot)
  }

  ghost predicate TokenIndexed(hash: MappingHash, t: Token, observed: seq<string>, index: SlotIndex) {
    var address := NormalizeAddress(t.address);
    address.Some? && address.value in index && IndexesToken(hash, t, observed, index[address.value])
  }

  ghost predicate HasToken(tokens: seq<Token>, address: string) {
    exists i :: 0 <= i < |tokens| && NormalizeAddress(tokens[i].address) == Some(address)
  }

  ghost predicate Indexes(hash: MappingHash, tokens: seq<Token>, observed: seq<string>, index: SlotIndex) {
    && (forall address :: address in index ==> HasToken(tokens, address))
    && forall i :: 0 <= i < |tokens| ==> TokenIndexed(hash, tokens[i], observed, index)
  }

  method BalanceSlots(hash: MappingHash, t: Token, observed: seq<string>, slot: Word) returns (slots: SlotKinds)
    requires ParseQuantity(t.balanceSlot) == Some(slot)
    ensures forall s :: s in slots <==> IsSomeBalanceSlot(hash, t, observed, s)
    ensures forall s :: s in slots ==>
      slots[s].BalanceOf? && slots[s].asset == t.asset && slots[s].account in observed
        && IsBalanceSlot(hash, t, slots[s].account, s)
  {
    slots := map[];
    for i := 0 to |observed|
      invariant forall s :: s in slots <==> IsSomeBalanceSlot(hash, t, observed[..i], s)
      invariant forall s :: s in slots ==>
        slots[s].BalanceOf? && slots[s].asset == t.asset && slots[s].account in observed
          && IsBalanceSlot(hash, t, slots[s].account, s)
    {
      slots := slots[BalanceSlot(hash, observed[i], slot) := BalanceOf(t.asset, observed[i])];
      OneMoreAccount(hash, t, observed[..i], observed[i]);
      assert observed[..i + 1] == observed[..i] + [observed[i]];
    }
    assert observed[..|observed|] == observed;
  }

  /** Every pair of observed accounts gets its allowance slot, over whatever was indexed there. */
  method AllowanceSlots(hash: MappingHash, observed: seq<string>, slot: Word, slots: SlotKinds)
    returns (r: SlotKinds)
    ensures forall s :: s in r <==> s in slots || IsAllowance(hash, observed, observed, slot, s)
    ensures forall s :: s in r ==>
      r[s] == if IsAllowance(hash, observed, observed, slot, s) then Allowance else slots[s]
  {
    r := slots;
    for i := 0 to |observed|
      invariant forall s :: s in r <==> s in slots || IsAllowance(hash, observed[..i], observed, slot, s)
      invariant forall s :: s in r ==>
        r[s] == if IsAllowance(hash, observed[..i], observed, slot, s) then Allowance else slots[s]
    {
      ghost var was := r;
      for j := 0 to |observed|
        invariant forall s :: s in r <==> s in was || IsAllowance(hash, [observed[i]], observed[..j], slot, s)
        invariant forall s :: s in r ==>
          r[s] == if IsAllowance(hash, [observed[i]], observed[..j], slot, s) then Allowance else was[s]
      {
        r := r[AllowanceSlot(hash, observed[i], observed[j], slot) := Allowance];
        OneMoreSpender(hash, observed[i], observed[..j], observed[j], slot);
        assert observed[..j + 1] == observed[..j] + [observed[j]];
      }
      assert observed[..|observed|] == observed;
      OneMoreOwner(hash, observed[..i], observed[i], observed, slot);
      assert observed[..i + 1] == observed[..i] + [observed[i]];
    }
    assert observed[..|observed|] == observed;
  }

  ghost predicate IsAllowance(hash: MappingHash, owners: seq<string>, spenders: seq<string>, slot: Word, s: string) {
    exists owner, spender :: owner in owners && spender in spenders && s == AllowanceSlot(hash, owner, spender, slot)
  }

  lemma OneMoreOwner(hash: MappingHash, owners: seq<string>, owner: string, spenders: seq<string>, slot: Word)
    ensures forall s ::
      IsAllowance(hash, owners + [owner], spenders, slot, s) <==>
        IsAllowance(hash, owners, spenders, slot, s) || IsAllowance(hash, [owner], spenders, slot, s)
  {
  }

  lemma OneMoreSpender(hash: MappingHash, owner: string, spenders: seq<string>, spender: string, slot: Word)
    ensures forall s ::
      IsAllowance(hash, [owner], spenders + [spender], slot, s) <==>
        IsAllowance(hash, [owner], spenders, slot, s) || s == AllowanceSlot(hash, owner, spender, slot)
  {
    assert owner in [owner] && spender in spenders + [spender];
  }

  lemma OneMoreAccount(hash: MappingHash, t: Token, observed: seq<string>, account: string)
    ensures forall s ::
      IsSomeBalanceSlot(hash, t, observed + [account], s) <==>
        IsSomeBalanceSlot(hash, t, observed, s) || IsBalanceSlot(hash, t, account, s)
  {
  }

  /** The balance and allowance slots of one token. */
  method MappingSlots(hash: MappingHash, t: Token, observed: seq<string>) returns (r: Option<SlotKinds>)
    ensures r.Some? <==>
      && Configured(t.balanceSlot) && ParseQuantity(t.balanceSlot).Some?
      && (Configured(t.allowanceSlot) ==> ParseQuantity(t.allowanceSlot).Some?)
    ensures r.Some? ==> forall s :: s in r.value <==>
      IsSomeBalanceSlot(hash, t, observed, s) || IsAllowanceSlot(hash, t, observed, s)
    ensures r.Some? ==> forall s :: s in r.value ==>
      if IsAllowanceSlot(hash, t, observed, s) then r.value[s].Allowance?
      else r.value[s].BalanceOf? && r.value[s].asset == t.asset && r.value[s].account in observed
           && IsBalanceSlot(hash, t, r.value[s].account, s)
  {
    if !Configured(t.balanceSlot) {
      return None;
    }
    var balanceSlot := ParseQuantity(t.balanceSlot);
    if balanceSlot.None? {
      return None;
    }
    var slots := BalanceSlots(hash, t, observed, balanceSlot.value);
    if Configured(t.allowanceSlot) {
      var allowanceSlot := ParseQuantity(t.allowanceSlot);
      if allowanceSlot.None? {
        return None;
      }
      slots := AllowanceSlots(hash, observed, allowanceSlot.value, slots);
    }
    return Some(slots);
  }

  /** All slots of one token: the turn of the loop of `buildSlotIndex` after its uniqueness checks. */
  method TokenSlots(hash: MappingHash, t: Token, observed: seq<string>) returns (r: Option<SlotKinds>)
    requires NormalizeAddress(t.address).Some? && t.asset != "" && Lower(t.asset) != Lower(NATIVE_ASSET)
    ensures r.Some? <==> TokenAccepted(hash, t, observed)
    ensures r.Some? ==> IndexesToken(hash, t, observed, r.value)
  {
    var mapped := MappingSlots(hash, t, observed);
    if mapped.None? {
      return None;
    }
    var slots := mapped.value;
    if Configured(t.totalSupplySlot) {
      var number := ParseQuantity(t.totalSupplySlot);
      if number.None? {
        return None;
      }
      var supplySlot := NormalizeSlot(ToHex(number.value));
      SupplyText(number.value);
      if supplySlot.None? || supplySlot.value in slots {
        return None;
      }
      slots := slots[supplySlot.value := Supply];
    }
    forall s ensures SlotIndexed(hash, t, observed, slots, s) {
    }
    return Some(slots);
  }

  lemma SupplyText(n: Word)
    ensures NormalizeSlot(ToHex(n)) == Some(Hex32(n))
  {
    PrintedFits(n);
    assert ToHex(n)[2..] == Printed(16, n);
    NormalizedIsHex32(ToHex(n));
  }

  function AssetNames(tokens: seq<Token>): set<string> {
    {Lower(NATIVE_ASSET)} + set i | 0 <= i < |tokens| :: Lower(tokens[i].asset)
  }

  /** In an accepted configuration no earlier token has the address or the asset. */
  lemma TokenIsNew(hash: MappingHash, tokens: seq<Token>, i: nat, observed: seq<string>, address: string)
    requires i < |tokens|
    ensures TokensAccepted(hash, tokens, observed) ==>
      && TokenAccepted(hash, tokens[i], observed)
      && NormalizeAddress(tokens[i].address).Some? && tokens[i].asset != ""
      && Lower(tokens[i].asset) !in AssetNames(tokens[..i])
      && (NormalizeAddress(tokens[i].address) == Some(address) ==> !HasToken(tokens[..i], address))
  {
    assert forall k :: 0 <= k < i ==> tokens[..i][k] == tokens[k];
  }

  lemma NewTokenDiffers(tokens: seq<Token>, i: nat, address: string)
    requires i < |tokens| && NormalizeAddress(tokens[i].address) == Some(address)
    requires !HasToken(tokens[..i], address) && Lower(tokens[i].asset) !in AssetNames(tokens[..i])
    ensures forall k :: 0 <= k < i ==> TokensDiffer(tokens[k], tokens[i])
    ensures Lower(tokens[i].asset) != Lower(NATIVE_ASSET)
    ensures AssetNames(tokens[..i + 1]) == AssetNames(tokens[..i]) + {Lower(tokens[i].asset)}
  {
    hide NormalizeAddress, Lower;
    forall k | 0 <= k < i ensures TokensDiffer(tokens[k], tokens[i]) {
      assert tokens[..i][k] == tokens[k];
    }
    var all := tokens[..i + 1];
    assert all[i] == tokens[i] && forall k :: 0 <= k < i ==> all[k] == tokens[..i][k];
  }

  ghost predicate IndexedUpTo(hash: MappingHash, tokens: seq<Token>, n: nat, observed: seq<string>, index: SlotIndex)
    requires n <= |tokens|
  {
    TokensAccepted(hash, tokens[..n], observed) && Indexes(hash, tokens[..n], observed, index)
  }

  lemma IndexOne(hash: MappingHash, tokens: seq<Token>, i: nat, observed: seq<string>, index: SlotIndex,
                 address: string, slots: SlotKinds)
    requires i < |tokens| && IndexedUpTo(hash, tokens, i, observed, index)
    requires TokenAccepted(hash, tokens[i], observed) && IndexesToken(hash, tokens[i], observed, slots)
    requires NormalizeAddress(tokens[i].address) == Some(address) && address !in index
    requires forall k :: 0 <= k < i ==> TokensDiffer(tokens[k], tokens[i])
    ensures IndexedUpTo(hash, tokens, i + 1, observed, index[address := slots])
  {
    hide NormalizeAddress, Lower, IndexesToken, TokenAccepted;
    var all, index' := tokens[..i + 1], index[address := slots];
    assert all == tokens[..i] + [tokens[i]];
    OneMoreToken(tokens[..i], tokens[i]);
    forall k | 0 <= k < |all|
      ensures TokenAccepted(hash, all[k], observed) && TokenIndexed(hash, all[k], observed, index') {
      assert k < i ==> all[k] == tokens[..i][k] && TokenIndexed(hash, tokens[..i][k], observed, index);
    }
  }

  method BuildSlotIndex(hash: MappingHash, tokens: seq<Token>, observed: seq<string>)
    returns (r: Option<SlotIndex>)
    ensures r.Some? <==> TokensAccepted(hash, tokens, observed)
    ensures r.Some? ==> Indexes(hash, tokens, observed, r.value)
  {
    hide NormalizeAddress, Lower, IndexesToken, TokenAccepted, AssetNames, TokensDiffer;
    var index: SlotIndex := map[];
    var assets := {Lower(NATIVE_ASSET)};
    NoTokens();
    for i := 0 to |tokens|
      invariant IndexedUpTo(hash, tokens, i, observed, index)
      invariant assets == AssetNames(tokens[..i])
    {
      var t := tokens[i];
      var tokenAddress := NormalizeAddress(t.address);
      TokenIsNew(hash, tokens, i, observed, if tokenAddress.Some? then tokenAddress.value else "");
      if tokenAddress.None? {
        return None;
      }
      if tokenAddress.value in index || t.asset == "" || Lower(t.asset) in assets {
        return None;
      }
      IndexHasAddress(hash, tokens[..i], observed, index, tokenAddress.value);
      NewTokenDiffers(tokens, i, tokenAddress.value);
      assets := assets + {Lower(t.asset)};
      var slots := TokenSlots(hash, t, observed);
      if slots.None? {
        return None;
      }
      IndexOne(hash, tokens, i, observed, index, tokenAddress.value, slots.value);
      index := index[tokenAddress.value := slots.value];
    }
    assert tokens[..|tokens|] == tokens;
    return Some(index);
  }

  lemma NoTokens()
    ensures AssetNames([]) == {Lower(NATIVE_ASSET)}
  {
  }

  lemma IndexHasAddress(hash: MappingHash, tokens: seq<Token>, observed: seq<string>, index: SlotIndex, address: string)
    requires Indexes(hash, tokens, observed, index)
    ensures address in index <==> HasToken(tokens, address)
  {
    hide NormalizeAddress, IndexesToken;
    if HasToken(tokens, address) {
      var i :| 0 <= i < |tokens| && NormalizeAddress(tokens[i].address) == Some(address);
      assert TokenIndexed(hash, tokens[i], observed, index);
    }
  }

  lemma OneMoreToken(tokens: seq<Token>, t: Token)
    ensures forall address :: HasToken(tokens + [t], address) <==>
      HasToken(tokens, address) || NormalizeAddress(t.address) == Some(address)
  {
    forall address | HasToken(tokens, address) ensures HasToken(tokens + [t], address) {
      var i :| 0 <= i < |tokens| && NormalizeAddress(tokens[i].address) == Some(address);
      assert (tokens + [t])[i] == tokens[i];
    }
    assert (tokens + [t])[|tokens|] == t;
  }

  // ---------------------------------------------------------------------------
  // One account of the diff
  // ---------------------------------------------------------------------------

  /** The change of the native balance and the balance before; `None` for a missing or malformed balance. */
  function NativeDelta(pre: Option<Account>, post: Option<Account>): Option<(int, Word)> {
    if pre.None? && post.Some? then
      match (if post.value.balance.Missing? then Some(0) else ParseQuantity(post.value.balance))
      case None => None
      case Some(after) => Some((after, 0))
    else if pre.None? || pre.value.balance.Missing? then None
    else
      match ParseQuantity(pre.value.balance)
      case None => None
      case Some(before) =>
        if post.None? then Some((0 - before as int, before))
        else if post.value.balance.Missing? then Some((0, before))
        else
          match ParseQuantity(post.value.balance)
          case None => None
          case Some(after) => Some((after - before, before))
  }

  function ParseCode(v: Unknown): Option<string> {
    match v
    case Missing => Some("0x")
    case Text(s) => if s == "0x" || (HexText(s) && |s| % 2 == 0) then Some(Lower(s)) else None
    case _ => None
  }

  function CodeOf(a: Option<Account>): Unknown {
    if a.None? then Missing else a.value.code
  }

  /** No code is created, removed or replaced. */
  predicate CodeKept(pre: Option<Account>, post: Option<Account>) {
    var before, after := ParseCode(CodeOf(pre)), ParseCode(CodeOf(post));
    && before.Some? && after.Some?
    && if pre.None? && post.Some? then after.value == "0x"
       else if pre.Some? && post.None? then before.value == "0x"
       else CodeOf(post).Missing? || (!CodeOf(pre).Missing? && before == after)
  }

  /** The account's code after is not its code before: another text where both are named, up to the case of their
      digits, a text where there was none, or a text on either side of a creation or a destruction. */
  predicate CodeChanges(pre: Option<Account>, post: Option<Account>) {
    match (pre, post)
    case (None, None) => false
    case (None, Some(after)) => !NoCode(after.code)
    case (Some(before), None) => !NoCode(before.code)
    case (Some(before), Some(after)) => !after.code.Missing? && !SameText(before.code, after.code)
  }

  predicate NoCode(v: Unknown) {
    v == Missing || v == Text("0x")
  }

  predicate SameText(v: Unknown, w: Unknown) {
    v.Text? && w.Text? && Lower(v.s) == Lower(w.s)
  }

  /** A code that a trace may name: none, or pairs of hexadecimal digits after `0x`. */
  predicate NamesCode(v: Unknown) {
    || v == Missing
    || (&& v.Text? && |v.s| >= 2 && |v.s| % 2 == 0 && v.s[0] == '0' && v.s[1] == 'x'
        && forall i :: 2 <= i < |v.s| ==> DigitOf(v.s[i]) < 16)
  }

  lemma ReadableCode(v: Unknown)
    ensures ParseCode(v).Some? <==> NamesCode(v)
    ensures NamesCode(v) ==> (ParseCode(v) == Some("0x") <==> NoCode(v))
    ensures v.Text? && NamesCode(v) ==> ParseCode(v) == Some(Lower(v.s))
  {
    if v.Text? && |v.s| >= 2 && v.s[0] == '0' && v.s[1] == 'x' {
      assert v.s[..2] == "0x";
      assert forall i :: 2 <= i < |v.s| ==> v.s[i] == v.s[2..][i - 2];
      assert |v.s| == 2 ==> v.s == "0x" == Lower("0x");
    }
  }

  /** An account is accepted for its code exactly when both sides' codes read and neither changes, appears nor goes. */
  lemma CodeIsKeptExactlyWhenUnchanged(pre: Option<Account>, post: Option<Account>)
    ensures CodeKept(pre, post) <==>
      && (pre.Some? ==> NamesCode(pre.value.code)) && (post.Some? ==> NamesCode(post.value.code))
      && !CodeChanges(pre, post)
  {
    hide ParseCode, Lower;
    ReadableCode(CodeOf(pre));
    ReadableCode(CodeOf(post));
    ReadableCode(Missing);
  }

  function StorageOf(a: Option<Account>): Storage {
    if a.None? then NoStorage else a.value.storage
  }

  /** `raw` is a key of the storage map that names the slot. */
  predicate NamesSlot(s: Storage, raw: string, slot: string) {
    s.Slots? && raw in s.entries.at && NormalizeSlot(raw) == Some(slot)
  }

  ghost predicate HasSlot(s: Storage, slot: string) {
    exists raw :: NamesSlot(s, raw, slot)
  }

  /** Every key names a slot of its own and every value is a word. */
  ghost predicate Readable(s: Storage) {
    match s
    case NoStorage => true
    case BadStorage => false
    case Slots(entries) =>
      && (forall raw :: raw in entries.at ==> NormalizeSlot(raw).Some? && ParseQuantity(entries.at[raw]).Some?)
      && forall a, b, slot :: NamesSlot(s, a, slot) && NamesSlot(s, b, slot) ==> a == b
  }

  /** The word a storage map gives a slot; slots it omits are zero. */
  ghost function WordIn(s: Storage, slot: string): Word {
    if HasSlot(s, slot) then
      var raw :| NamesSlot(s, raw, slot);
      if ParseQuantity(s.entries.at[raw]).Some? then ParseQuantity(s.entries.at[raw]).value else 0
    else 0
  }

  lemma WordAt(s: Storage, raw: string, slot: string)
    requires Readable(s) && NamesSlot(s, raw, slot)
    ensures HasSlot(s, slot) && WordIn(s, slot) == ParseQuantity(s.entries.at[raw]).value
  {
  }

  ghost function SlotDelta(pre: Storage, post: Storage, slot: string): int {
    WordIn(post, slot) - WordIn(pre, slot)
  }

  /** The parsed words: one for every slot the storage map names, in the order it names them. */
  ghost predicate Holds(s: Storage, words: Record<string, Word>) {
    WellFormed(words) && forall slot :: HeldRight(s, words, slot)
  }

  ghost predicate HeldRight(s: Storage, words: Record<string, Word>, slot: string) {
    (slot in words.at <==> HasSlot(s, slot)) && (slot in words.at ==> words.at[slot] == WordIn(s, slot))
  }

  method ParseStorageMap(s: Storage) returns (r: Option<Record<string, Word>>)
    requires s.Slots? ==> WellFormed(s.entries)
    ensures r.Some? <==> Readable(s)
    ensures r.Some? ==> Holds(s, r.value)
  {
    hide NormalizeSlot, ParseQuantity, WordIn;
    var words: Record<string, Word> := Record([], map[]);
    if s.NoStorage? {
      return Some(words);
    }
    if s.BadStorage? {
      return None;
    }
    var keys, at := s.entries.keys, s.entries.at;
    for i := 0 to |keys|
      invariant ParsedUpTo(s.entries, i, words)
    {
      var raw := keys[i];
      assert raw in at;
      var slot := NormalizeSlot(raw);
      var parsed := ParseQuantity(at[raw]);
      if slot.None? || parsed.None? {
        return None;
      }
      if slot.value in words.at {
        SlotTwice(s, i, words);
        return None;
      }
      words := Record(words.keys + [slot.value], words.at[slot.value := parsed.value]);
    }
    ParsedHolds(s, words);
    return Some(words);
  }

  ghost predicate ParsedUpTo(entries: Record<string, Unknown>, n: nat, words: Record<string, Word>) {
    && n <= |entries.keys| && n == |words.keys| && WellFormed(words)
    && forall k :: 0 <= k < n ==> ParsedKey(entries, entries.keys[k], words, words.keys[k])
  }

  ghost predicate ParsedKey(entries: Record<string, Unknown>, raw: string, words: Record<string, Word>, slot: string) {
    && raw in entries.at && slot in words.at
    && NormalizeSlot(raw) == Some(slot) && ParseQuantity(entries.at[raw]) == Some(words.at[slot])
  }

  lemma SlotTwice(s: Storage, i: nat, words: Record<string, Word>)
    requires s.Slots? && WellFormed(s.entries) && ParsedUpTo(s.entries, i, words) && i < |s.entries.keys|
    ensures NormalizeSlot(s.entries.keys[i]).Some? && NormalizeSlot(s.entries.keys[i]).value in words.at ==>
      !Readable(s)
  {
    hide NormalizeSlot, ParseQuantity;
    var keys, slot := s.entries.keys, NormalizeSlot(s.entries.keys[i]);
    assert keys[i] in s.entries.at;
    if slot.Some? && slot.value in words.at {
      var k :| 0 <= k < i && words.keys[k] == slot.value;
      assert ParsedKey(s.entries, keys[k], words, words.keys[k]);
      assert NamesSlot(s, keys[k], slot.value) && NamesSlot(s, keys[i], slot.value) && keys[k] != keys[i];
    }
  }

  lemma ParsedAt(s: Storage, words: Record<string, Word>, raw: string) returns (k: nat)
    requires s.Slots? && WellFormed(s.entries) && ParsedUpTo(s.entries, |s.entries.keys|, words) && raw in s.entries.at
    ensures k < |words.keys| && s.entries.keys[k] == raw && ParsedKey(s.entries, raw, words, words.keys[k])
  {
    k :| 0 <= k < |s.entries.keys| && s.entries.keys[k] == raw;
  }

  lemma ParsedReadable(s: Storage, words: Record<string, Word>)
    requires s.Slots? && WellFormed(s.entries) && ParsedUpTo(s.entries, |s.entries.keys|, words)
    ensures Readable(s)
  {
    hide NormalizeSlot, ParseQuantity;
    forall raw | raw in s.entries.at ensures NormalizeSlot(raw).Some? && ParseQuantity(s.entries.at[raw]).Some? {
      var k := ParsedAt(s, words, raw);
    }
    forall a, b, slot | NamesSlot(s, a, slot) && NamesSlot(s, b, slot) ensures a == b {
      var k := ParsedAt(s, words, a);
      var l := ParsedAt(s, words, b);
    }
  }

  lemma ParsedHolds(s: Storage, words: Record<string, Word>)
    requires s.Slots? && WellFormed(s.entries) && ParsedUpTo(s.entries, |s.entries.keys|, words)
    ensures Readable(s) && Holds(s, words)
  {
    ParsedReadable(s, words);
    forall slot ensures HeldRight(s, words, slot) {
      ParsedSlot(s, words, slot);
    }
  }

  lemma ParsedSlot(s: Storage, words: Record<string, Word>, slot: string)
    requires s.Slots? && WellFormed(s.entries) && ParsedUpTo(s.entries, |s.entries.keys|, words) && Readable(s)
    ensures HeldRight(s, words, slot)
  {
    hide NormalizeSlot, ParseQuantity, Readable;
    if HasSlot(s, slot) {
      var raw :| NamesSlot(s, raw, slot);
      var k := ParsedAt(s, words, raw);
      WordAt(s, raw, slot);
    }
    if slot in words.at {
      var k :| 0 <= k < |words.keys| && words.keys[k] == slot;
      assert ParsedKey(s.entries, s.entries.keys[k], words, slot);
      assert NamesSlot(s, s.entries.keys[k], slot);
    }
  }

  datatype SlotChange = SlotChange(slot: string, pre: Word, delta: int)

  /** The changes name each changed slot once, with its word before and its delta. */
  ghost predicate ListsChanges(pre: Storage, post: Storage, changes: seq<SlotChange>) {
    && (forall i, j :: 0 <= i < j < |changes| ==> changes[i].slot != changes[j].slot)
    && (forall i :: 0 <= i < |changes| ==> ListedRight(pre, post, changes[i]))
    && forall slot :: SlotDelta(pre, post, slot) != 0 ==> Lists(changes, slot)
  }

  ghost predicate ListedRight(pre: Storage, post: Storage, c: SlotChange) {
    c.pre == WordIn(pre, c.slot) && c.delta == SlotDelta(pre, post, c.slot) != 0
  }

  predicate Lists(changes: seq<SlotChange>, slot: string) {
    exists i :: 0 <= i < |changes| && changes[i].slot == slot
  }

  lemma ListsMore(changes: seq<SlotChange>, c: SlotChange)
    ensures forall slot :: Lists(changes + [c], slot) <==> Lists(changes, slot) || slot == c.slot
  {
    var all := changes + [c];
    assert all[|changes|] == c;
    forall slot | Lists(changes, slot) ensures Lists(all, slot) {
      var i :| 0 <= i < |changes| && changes[i].slot == slot;
      assert all[i].slot == slot;
    }
  }

  /** The changes are listed for the slots looked at so far. */
  ghost predicate ListedFor(pre: Storage, post: Storage, slots: seq<string>, changes: seq<SlotChange>) {
    && (forall i, j :: 0 <= i < j < |changes| ==> changes[i].slot != changes[j].slot)
    && (forall i :: 0 <= i < |changes| ==> ListedRight(pre, post, changes[i]) && changes[i].slot in slots)
    && forall slot :: slot in slots && SlotDelta(pre, post, slot) != 0 ==> Lists(changes, slot)
  }

  /** Appends the change of one slot, if it changed. */
  function ListIf(changes: seq<SlotChange>, slot: string, was: Word, now: Word): seq<SlotChange> {
    if was == now then changes else changes + [SlotChange(slot, was, now as int - was as int)]
  }

  lemma ListStep(pre: Storage, post: Storage, slots: seq<string>, changes: seq<SlotChange>, slot: string, was: Word,
                 now: Word)
    requires ListedFor(pre, post, slots, changes) && slot !in slots && was == WordIn(pre, slot)
      && now == WordIn(post, slot)
    ensures ListedFor(pre, post, slots + [slot], ListIf(changes, slot, was, now))
  {
    hide WordIn, Lists;
    var listed := ListIf(changes, slot, was, now);
    ListsMore(changes, SlotChange(slot, was, now as int - was as int));
    assert SlotDelta(pre, post, slot) == now as int - was as int;
    forall i | 0 <= i < |listed| ensures ListedRight(pre, post, listed[i]) && listed[i].slot in slots + [slot] {
      assert i < |changes| ==> listed[i] == changes[i];
    }
  }

  lemma ListAgain(pre: Storage, post: Storage, slots: seq<string>, changes: seq<SlotChange>, slot: string)
    requires ListedFor(pre, post, slots, changes) && slot in slots
    ensures ListedFor(pre, post, slots + [slot], changes)
  {
  }

  lemma WordHeld(s: Storage, words: Record<string, Word>, slot: string)
    requires Holds(s, words)
    ensures WordIn(s, slot) == if slot in words.at then words.at[slot] else 0
  {
    assert HeldRight(s, words, slot);
  }

  /** `diffStorage`; the post-state storage of a destroyed account is not looked at. */
  method DiffStorage(pre: Storage, post: Storage, destroyed: bool) returns (r: Option<seq<SlotChange>>)
    requires (pre.Slots? ==> WellFormed(pre.entries)) && (post.Slots? ==> WellFormed(post.entries))
    requires destroyed ==> post == NoStorage
    ensures r.Some? <==> Readable(pre) && Readable(post)
    ensures r.Some? ==> ListsChanges(pre, post, r.value)
  {
    hide Holds, Readable, ListsChanges;
    var before := ParseStorageMap(pre);
    if before.None? {
      return None;
    }
    if destroyed {
      NothingStored();
      var gone := Removed(pre, post, before.value, Record([], map[]), []);
      return Some(gone);
    }
    var after := ParseStorageMap(post);
    if after.None? {
      return None;
    }
    var changes := Written(pre, post, before.value, after.value);
    changes := Removed(pre, post, before.value, after.value, changes);
    return Some(changes);
  }

  lemma NothingStored()
    ensures Holds(NoStorage, Record([], map[])) && Readable(NoStorage)
    ensures forall pre :: ListedFor(pre, NoStorage, [], [])
  {
  }

  /** Lists the slots that the post-state holds with another word. */
  method Written(ghost pre: Storage, ghost post: Storage, before: Record<string, Word>, after: Record<string, Word>)
    returns (changes: seq<SlotChange>)
    requires Holds(pre, before) && Holds(post, after)
    ensures ListedFor(pre, post, after.keys, changes)
  {
    hide HeldRight, ListIf, WordIn, SlotDelta;
    changes := [];
    for i := 0 to |after.keys|
      invariant ListedFor(pre, post, after.keys[..i], changes)
    {
      var slot := after.keys[i];
      assert slot in after.at && after.keys[..i + 1] == after.keys[..i] + [slot];
      WordHeld(pre, before, slot);
      WordHeld(post, after, slot);
      var was := if slot in before.at then before.at[slot] else 0;
      ListStep(pre, post, after.keys[..i], changes, slot, was, after.at[slot]);
      changes := ListIf(changes, slot, was, after.at[slot]);
    }
    assert after.keys[..|after.keys|] == after.keys;
  }

  /** Appends the slots that the post-state omits. */
  method Removed(ghost pre: Storage, ghost post: Storage, before: Record<string, Word>, after: Record<string, Word>,
                 listed: seq<SlotChange>)
    returns (changes: seq<SlotChange>)
    requires Holds(pre, before) && Holds(post, after) && ListedFor(pre, post, after.keys, listed)
    ensures ListsChanges(pre, post, changes)
  {
    hide HeldRight, ListIf, WordIn, SlotDelta, ListedFor, ListsChanges;
    changes := listed;
    assert after.keys + before.keys[..0] == after.keys;
    for i := 0 to |before.keys|
      invariant ListedFor(pre, post, after.keys + before.keys[..i], changes)
    {
      var slot := before.keys[i];
      ghost var done := after.keys + before.keys[..i];
      assert slot in before.at && slot !in before.keys[..i];
      assert after.keys + before.keys[..i + 1] == done + [slot];
      WordHeld(pre, before, slot);
      WordHeld(post, after, slot);
      if slot in after.at {
        ListAgain(pre, post, done, changes, slot);
      } else {
        ListStep(pre, post, done, changes, slot, before.at[slot], 0);
        changes := ListIf(changes, slot, before.at[slot], 0);
      }
    }
    assert before.keys[..|before.keys|] == before.keys;
    AllListed(pre, post, before, after, changes);
  }

  lemma AllListed(pre: Storage, post: Storage, before: Record<string, Word>, after: Record<string, Word>,
                  changes: seq<SlotChange>)
    requires Holds(pre, before) && Holds(post, after) && ListedFor(pre, post, after.keys + before.keys, changes)
    ensures ListsChanges(pre, post, changes)
  {
    hide HeldRight, WordIn, Lists;
    forall slot | SlotDelta(pre, post, slot) != 0 ensures slot in after.keys + before.keys {
      WordHeld(pre, before, slot);
      WordHeld(post, after, slot);
    }
  }
}
