/** A pre/post state diff of a simulated transaction becomes balance changes, or is rejected. */
module TraceBalances {
  import opened Outcomes
  import opened Numerals
  import opened StateDiffs

  datatype Change = Change(address: string, asset: string, delta: string)

  datatype Probe = Probe(token: string, account: string, preBalance: Word)

  datatype NativeProbe = NativeProbe(address: string, preBalance: Word)

  datatype Extraction = Extraction(changes: seq<Change>, probes: seq<Probe>, nativeProbes: seq<NativeProbe>)

  function Before(d: Diff, raw: string): Option<Account> {
    if raw in d.pre.at && d.pre.at[raw].Snapshot? then Some(d.pre.at[raw].account) else None
  }

  function After(d: Diff, raw: string): Option<Account> {
    if raw in d.post.at && d.post.at[raw].Snapshot? then Some(d.post.at[raw].account) else None
  }

  /** The keys of both sides: those before, then those only after. */
  function Raws(d: Diff): seq<string> {
    d.pre.keys + Others(d.pre.at, d.post.keys)
  }

  function Others(at: map<string, Entry>, keys: seq<string>): seq<string> {
    if keys == [] then []
    else if keys[0] in at then Others(at, keys[1..])
    else [keys[0]] + Others(at, keys[1..])
  }

  lemma {:induction false} OthersHave(at: map<string, Entry>, keys: seq<string>)
    ensures forall raw :: raw in Others(at, keys) <==> raw in keys && raw !in at
  {
    if keys != [] {
      OthersHave(at, keys[1..]);
      assert keys == [keys[0]] + keys[1..];
    }
  }

  lemma RawsHave(d: Diff)
    requires WellFormedDiff(d)
    ensures forall raw :: raw in Raws(d) <==> raw in d.pre.at || raw in d.post.at
  {
    OthersHave(d.pre.at, d.post.keys);
  }

  // ---------------------------------------------------------------------------
  // What the diff implies
  // ---------------------------------------------------------------------------

  function NativeAt(d: Diff, raw: string): int {
    match NativeDelta(Before(d, raw), After(d, raw))
    case None => 0
    case Some((delta, _)) => delta
  }

  ghost function SlotAt(d: Diff, raw: string, slot: string): int {
    SlotDelta(StorageOf(Before(d, raw)), StorageOf(After(d, raw)), slot)
  }

  /** The native change of an address: keys that spell the same address add up. */
  function NativeTotal(d: Diff, raws: seq<string>, address: string): int {
    if raws == [] then 0
    else
      var raw := raws[|raws| - 1];
      NativeTotal(d, raws[..|raws| - 1], address)
        + if NormalizeAddress(raw) == Some(address) then NativeAt(d, raw) else 0
  }

  /** The change of one storage slot of an address. */
  ghost function SlotTotal(d: Diff, raws: seq<string>, address: string, slot: string): int {
    if raws == [] then 0
    else
      var raw := raws[|raws| - 1];
      SlotTotal(d, raws[..|raws| - 1], address, slot)
        + if NormalizeAddress(raw) == Some(address) then SlotAt(d, raw, slot) else 0
  }

  /** The change of an account's balance of a token. */
  ghost function TokenTotal(hash: MappingHash, d: Diff, raws: seq<string>, t: Token, account: string): int {
    match (NormalizeAddress(t.address), ParseQuantity(t.balanceSlot))
    case (Some(address), Some(slot)) => SlotTotal(d, raws, address, BalanceSlot(hash, account, slot))
    case _ => 0
  }

  /** The slot is configured by the token at that address. */
  ghost predicate ClassifiedSlot(hash: MappingHash, tokens: seq<Token>, observed: seq<string>, address: string,
                                 slot: string) {
    exists i :: 0 <= i < |tokens| && NormalizeAddress(tokens[i].address) == Some(address)
      && ConfiguredSlot(hash, tokens[i], observed, slot)
  }

  predicate MalformedAt(r: Record<string, Entry>, raw: string) {
    raw in r.at && r.at[raw].Malformed?
  }

  /** What must hold of every key: well-formed accounts, balances and storage, kept code, and no change of a slot
      that no token configures. */
  ghost predicate AccountAccepted(hash: MappingHash, d: Diff, tokens: seq<Token>, observed: seq<string>, raw: string) {
    var pre, post := Before(d, raw), After(d, raw);
    && NormalizeAddress(raw).Some?
    && !MalformedAt(d.pre, raw) && !MalformedAt(d.post, raw)
    && NativeDelta(pre, post).Some? && CodeKept(pre, post)
    && Readable(StorageOf(pre)) && Readable(StorageOf(post))
    && forall slot :: SlotAt(d, raw, slot) != 0 ==>
       ClassifiedSlot(hash, tokens, observed, NormalizeAddress(raw).value, slot)
  }

  /** The observed addresses, normalised, each once. */
  function Observed(addresses: seq<string>): seq<string> {
    if addresses == [] then []
    else
      var front, last := Observed(addresses[..|addresses| - 1]), NormalizeAddress(addresses[|addresses| - 1]);
      if last.None? || last.value in front then front else front + [last.value]
  }

  ghost predicate Accepted(hash: MappingHash, d: Diff, tokens: seq<Token>, addresses: seq<string>) {
    && (forall i :: 0 <= i < |addresses| ==> NormalizeAddress(addresses[i]).Some?)
    && TokensAccepted(hash, tokens, Observed(addresses))
    && forall i :: 0 <= i < |Raws(d)| ==> AccountAccepted(hash, d, tokens, Observed(addresses), Raws(d)[i])
  }

  /** Accounts of an accepted diff keep their code: a code changed, created or removed under any key rejects it. */
  lemma AcceptedKeepsCode(hash: MappingHash, d: Diff, tokens: seq<Token>, addresses: seq<string>, raw: string)
    requires Accepted(hash, d, tokens, addresses) && raw in Raws(d)
    ensures !CodeChanges(Before(d, raw), After(d, raw))
  {
    hide NormalizeAddress, TokensAccepted, CodeKept, CodeChanges;
    var i :| 0 <= i < |Raws(d)| && Raws(d)[i] == raw;
    assert AccountAccepted(hash, d, tokens, Observed(addresses), Raws(d)[i]);
    CodeIsKeptExactlyWhenUnchanged(Before(d, raw), After(d, raw));
  }

  ghost predicate Touches(raws: seq<string>, address: string) {
    exists i :: 0 <= i < |raws| && NormalizeAddress(raws[i]) == Some(address)
  }

  function Get<K>(at: map<K, int>, key: K): int {
    if key in at then at[key] else 0
  }

  /** The native deltas so far: one for each address touched. */
  ghost predicate NativesTallied(d: Diff, raws: seq<string>, eth: Record<string, int>) {
    && WellFormed(eth)
    && forall address ::
         && (address in eth.at <==> Touches(raws, address))
         && Get(eth.at, address) == NativeTotal(d, raws, address)
  }

  type Holder = (string, string)

  ghost predicate OfSomeToken(tokens: seq<Token>, observed: seq<string>, h: Holder) {
    h.0 in observed && exists i :: 0 <= i < |tokens| && tokens[i].asset == h.1
  }

  /** The token deltas so far: nothing but observed accounts' holdings, each its balance slot's change. */
  ghost predicate TokensTallied(hash: MappingHash, d: Diff, tokens: seq<Token>, observed: seq<string>,
                                raws: seq<string>, held: Record<Holder, int>) {
    && WellFormed(held)
    && (forall h :: h in held.at ==> OfSomeToken(tokens, observed, h))
    && (NoCollisions(hash, tokens, observed) ==>
          forall i, account :: 0 <= i < |tokens| && account in observed ==>
            Get(held.at, (account, tokens[i].asset)) == TokenTotal(hash, d, raws, tokens[i], account))
  }

  // ---------------------------------------------------------------------------
  // Tallying
  // ---------------------------------------------------------------------------

  function Added<K>(r: Record<K, int>, key: K, delta: int): Record<K, int> {
    if key in r.at then Record(r.keys, r.at[key := r.at[key] + delta])
    else Record(r.keys + [key], r.at[key := delta])
  }

  lemma AddedKeeps<K(!new)>(r: Record<K, int>, key: K, delta: int)
    requires WellFormed(r)
    ensures WellFormed(Added(r, key, delta))
    ensures forall k :: k in Added(r, key, delta).at <==> k in r.at || k == key
    ensures forall k :: Get(Added(r, key, delta).at, k) == Get(r.at, k) + if k == key then delta else 0
  {
  }

  lemma TouchesOne(raws: seq<string>, raw: string)
    ensures forall address :: Touches(raws + [raw], address) <==>
      Touches(raws, address) || NormalizeAddress(raw) == Some(address)
  {
    hide NormalizeAddress;
    var all := raws + [raw];
    assert all[|raws|] == raw;
    forall address | Touches(raws, address) ensures Touches(all, address) {
      var i :| 0 <= i < |raws| && NormalizeAddress(raws[i]) == Some(address);
      assert all[i] == raws[i];
    }
  }

  lemma TallyNative(d: Diff, raws: seq<string>, raw: string, eth: Record<string, int>, address: string)
    requires NativesTallied(d, raws, eth) && NormalizeAddress(raw) == Some(address)
    ensures NativesTallied(d, raws + [raw], Added(eth, address, NativeAt(d, raw)))
  {
    hide NormalizeAddress, NativeAt, Added;
    AddedKeeps(eth, address, NativeAt(d, raw));
    TouchesOne(raws, raw);
    assert (raws + [raw])[..|raws|] == raws;
    forall a
      ensures NativeTotal(d, raws + [raw], a)
           == NativeTotal(d, raws, a) + if a == address then NativeAt(d, raw) else 0 {
    }
  }

  /** The total of the changes classified as a holder's balance. */
  function Charged(slots: SlotKinds, changes: seq<SlotChange>, h: Holder): int {
    if changes == [] then 0
    else
      var c := changes[|changes| - 1];
      Charged(slots, changes[..|changes| - 1], h)
        + if c.slot in slots && slots[c.slot] == BalanceOf(h.1, h.0) then c.delta else 0
  }

  ghost predicate HolderIn(slots: SlotKinds, observed: seq<string>, h: Holder) {
    h.0 in observed && exists slot :: slot in slots && slots[slot] == BalanceOf(h.1, h.0)
  }

  predicate ChangeClassified(slots: SlotKinds, observed: seq<string>, c: SlotChange) {
    c.delta != 0 ==> c.slot in slots && (slots[c.slot].BalanceOf? ==> slots[c.slot].account in observed)
  }

  /** The probe belongs to a changed balance slot and holds its word before. */
  ghost predicate ProbeOf(address: string, slots: SlotKinds, c: SlotChange, p: Probe) {
    && c.slot in slots && slots[c.slot].BalanceOf?
    && p == Probe(address, slots[c.slot].account, c.pre)
  }

  ghost predicate ProbeOfSome(address: string, slots: SlotKinds, changes: seq<SlotChange>, p: Probe) {
    exists i :: 0 <= i < |changes| && ProbeOf(address, slots, changes[i], p)
  }

  /** The inner loop of `classifyAndExtract`. */
  method ClassifyChanges(address: string, slots: SlotKinds, changes: seq<SlotChange>, observed: seq<string>,
                         was: Record<Holder, int>, before: seq<Probe>)
    returns (r: Option<(Record<Holder, int>, seq<Probe>)>)
    requires WellFormed(was)
    ensures r.Some? <==> forall i :: 0 <= i < |changes| ==> ChangeClassified(slots, observed, changes[i])
    ensures r.Some? ==>
      && WellFormed(r.value.0)
      && (forall h :: Get(r.value.0.at, h) == Get(was.at, h) + Charged(slots, changes, h))
      && (forall h :: h in r.value.0.at ==> h in was.at || HolderIn(slots, observed, h))
    ensures r.Some? ==> before <= r.value.1
    ensures r.Some? ==> forall j :: |before| <= j < |r.value.1| ==> ProbeOfSome(address, slots, changes, r.value.1[j])
  {
    var held, probes := was, before;
    for i := 0 to |changes|
      invariant WellFormed(held) && before <= probes
      invariant forall k :: 0 <= k < i ==> ChangeClassified(slots, observed, changes[k])
      invariant forall h :: Get(held.at, h) == Get(was.at, h) + Charged(slots, changes[..i], h)
      invariant forall h :: h in held.at ==> h in was.at || HolderIn(slots, observed, h)
      invariant forall j :: |before| <= j < |probes| ==> ProbeOfSome(address, slots, changes, probes[j])
    {
      hide Added;
      var c := changes[i];
      assert changes[..i + 1][..i] == changes[..i];
      if c.delta == 0 {
        continue;
      }
      if c.slot !in slots {
        return None;
      }
      var classified := slots[c.slot];
      if !classified.BalanceOf? {
        continue;
      }
      if classified.account !in observed {
        return None;
      }
      AddedKeeps(held, (classified.account, classified.asset), c.delta);
      held := Added(held, (classified.account, classified.asset), c.delta);
      if forall j :: 0 <= j < |probes| ==> probes[j].token != address || probes[j].account != classified.account {
        var probe := Probe(address, classified.account, c.pre);
        assert ProbeOf(address, slots, c, probe);
        probes := probes + [probe];
      }
    }
    assert changes[..|changes|] == changes;
    return Some((held, probes));
  }

  /** With no colliding slots an account's balance change is exactly its own slot's change. */
  lemma {:induction false} ChargedIsOwnSlot(hash: MappingHash, t: Token, observed: seq<string>, slots: SlotKinds,
                                            pre: Storage, post: Storage, changes: seq<SlotChange>, n: nat,
                                            account: string, own: string)
    requires IndexesToken(hash, t, observed, slots) && SlotsApart(hash, t, observed) && account in observed
    requires IsBalanceSlot(hash, t, account, own) && ListsChanges(pre, post, changes) && n <= |changes|
    ensures Charged(slots, changes[..n], (account, t.asset))
         == if Lists(changes[..n], own) then SlotDelta(pre, post, own) else 0
    decreases n
  {
    hide SlotDelta, IsBalanceSlot, IsAllowanceSlot, WordIn;
    if n > 0 {
      var front, c := changes[..n - 1], changes[n - 1];
      ChargedIsOwnSlot(hash, t, observed, slots, pre, post, changes, n - 1, account, own);
      assert changes[..n] == front + [c] && changes[..n][..n - 1] == front;
      ListsMore(front, c);
      assert SlotIndexed(hash, t, observed, slots, own) && SlotIndexed(hash, t, observed, slots, c.slot);
      OwnSlot(hash, t, observed, slots, account, own, c.slot);
      assert ListedRight(pre, post, c);
      if c.slot == own {
        assert !Lists(front, own);
      }
    }
  }

  lemma OwnSlot(hash: MappingHash, t: Token, observed: seq<string>, slots: SlotKinds, account: string, own: string,
                slot: string)
    requires SlotIndexed(hash, t, observed, slots, own) && SlotIndexed(hash, t, observed, slots, slot)
    requires SlotsApart(hash, t, observed) && account in observed && IsBalanceSlot(hash, t, account, own)
    ensures slot in slots && slots[slot] == BalanceOf(t.asset, account) <==> slot == own
  {
    hide IsAllowanceSlot;
  }

  lemma {:induction false} ChargedNothing(slots: SlotKinds, changes: seq<SlotChange>, h: Holder)
    requires forall slot :: slot in slots ==> slots[slot] != BalanceOf(h.1, h.0)
    ensures Charged(slots, changes, h) == 0
    decreases |changes|
  {
    if changes != [] {
      ChargedNothing(slots, changes[..|changes| - 1], h);
    }
  }

  function SlotsOf(index: SlotIndex, address: string): SlotKinds {
    if address in index then index[address] else map[]
  }

  lemma SlotsAtAddress(hash: MappingHash, tokens: seq<Token>, observed: seq<string>, index: SlotIndex,
                       address: string, slot: string)
    requires Indexes(hash, tokens, observed, index)
    ensures slot in SlotsOf(index, address) <==> ClassifiedSlot(hash, tokens, observed, address, slot)
  {
    hide NormalizeAddress, ConfiguredSlot;
    if ClassifiedSlot(hash, tokens, observed, address, slot) {
      var i :| 0 <= i < |tokens| && NormalizeAddress(tokens[i].address) == Some(address)
        && ConfiguredSlot(hash, tokens[i], observed, slot);
      assert TokenIndexed(hash, tokens[i], observed, index);
      assert SlotIndexed(hash, tokens[i], observed, index[address], slot);
    }
    if slot in SlotsOf(index, address) {
      var i :| 0 <= i < |tokens| && NormalizeAddress(tokens[i].address) == Some(address);
      assert TokenIndexed(hash, tokens[i], observed, index);
      assert SlotIndexed(hash, tokens[i], observed, index[address], slot);
    }
  }

  /** What the slots at an address charge to a holder of a token: the token's own slot's change, or nothing. */
  lemma ChargedToHolder(hash: MappingHash, tokens: seq<Token>, observed: seq<string>, index: SlotIndex,
                        address: string, pre: Storage, post: Storage, changes: seq<SlotChange>, i: nat,
                        account: string, own: string)
    requires TokensAccepted(hash, tokens, observed) && NoCollisions(hash, tokens, observed)
      && Indexes(hash, tokens, observed, index)
    requires ListsChanges(pre, post, changes) && i < |tokens| && account in observed
      && IsBalanceSlot(hash, tokens[i], account, own)
    ensures Charged(SlotsOf(index, address), changes, (account, tokens[i].asset))
         == if NormalizeAddress(tokens[i].address) == Some(address) then SlotDelta(pre, post, own) else 0
  {
    hide NormalizeAddress, SlotDelta, SlotsApart, TokenAccepted, IsBalanceSlot, Lower;
    var t, slots := tokens[i], SlotsOf(index, address);
    assert TokenIndexed(hash, t, observed, index);
    if NormalizeAddress(t.address) == Some(address) {
      ChargedIsOwnSlot(hash, t, observed, slots, pre, post, changes, |changes|, account, own);
      assert changes[..|changes|] == changes;
    } else {
      forall slot | slot in slots ensures slots[slot] != BalanceOf(t.asset, account) {
        var k :| 0 <= k < |tokens| && NormalizeAddress(tokens[k].address) == Some(address);
        assert TokenIndexed(hash, tokens[k], observed, index) && SlotIndexed(hash, tokens[k], observed, slots, slot);
        assert TokensDiffer(tokens[if i < k then i else k], tokens[if i < k then k else i]);
      }
      ChargedNothing(slots, changes, (account, t.asset));
    }
  }

  lemma SlotTotalOne(hash: MappingHash, d: Diff, raws: seq<string>, raw: string, t: Token, account: string,
                     address: string, own: string)
    requires NormalizeAddress(t.address).Some? && IsBalanceSlot(hash, t, account, own)
      && NormalizeAddress(raw) == Some(address)
    ensures TokenTotal(hash, d, raws + [raw], t, account)
         == TokenTotal(hash, d, raws, t, account)
            + if NormalizeAddress(t.address) == Some(address) then SlotAt(d, raw, own) else 0
  {
    hide NormalizeAddress, SlotAt;
    assert (raws + [raw])[..|raws|] == raws;
  }

  lemma TallyTokens(hash: MappingHash, d: Diff, tokens: seq<Token>, observed: seq<string>, index: SlotIndex,
                    raws: seq<string>, raw: string, address: string, changes: seq<SlotChange>,
                    was: Record<Holder, int>, held: Record<Holder, int>)
    requires TokensAccepted(hash, tokens, observed) && Indexes(hash, tokens, observed, index)
    requires TokensTallied(hash, d, tokens, observed, raws, was) && NormalizeAddress(raw) == Some(address)
    requires ListsChanges(StorageOf(Before(d, raw)), StorageOf(After(d, raw)), changes)
    requires WellFormed(held)
      && forall h :: Get(held.at, h) == Get(was.at, h) + Charged(SlotsOf(index, address), changes, h)
    requires forall h :: h in held.at ==> h in was.at || HolderIn(SlotsOf(index, address), observed, h)
    ensures TokensTallied(hash, d, tokens, observed, raws + [raw], held)
  {
    hide NormalizeAddress, ListsChanges, TokenTotal, Charged, Get, TokensAccepted, Indexes;
    forall h | h in held.at ensures OfSomeToken(tokens, observed, h) {
      if h !in was.at {
        KnownHolder(hash, tokens, observed, index, address, h);
      }
    }
    if NoCollisions(hash, tokens, observed) {
      forall i, account | 0 <= i < |tokens| && account in observed
        ensures Get(held.at, (account, tokens[i].asset)) == TokenTotal(hash, d, raws + [raw], tokens[i], account)
      {
        TallyHolder(hash, d, tokens, observed, index, raws, raw, address, changes, i, account);
      }
    }
  }

  lemma KnownHolder(hash: MappingHash, tokens: seq<Token>, observed: seq<string>, index: SlotIndex, address: string,
                    h: Holder)
    requires Indexes(hash, tokens, observed, index) && HolderIn(SlotsOf(index, address), observed, h)
    ensures OfSomeToken(tokens, observed, h)
  {
    hide Indexes;
    var slots := SlotsOf(index, address);
    var slot :| slot in slots && slots[slot] == BalanceOf(h.1, h.0);
    HolderOfToken(hash, tokens, observed, index, address, slot);
  }

  /** What one key adds to a holding is what its slots charge to it. */
  lemma TallyHolder(hash: MappingHash, d: Diff, tokens: seq<Token>, observed: seq<string>, index: SlotIndex,
                    raws: seq<string>, raw: string, address: string, changes: seq<SlotChange>, i: nat, account: string)
    requires TokensAccepted(hash, tokens, observed) && NoCollisions(hash, tokens, observed)
    requires Indexes(hash, tokens, observed, index) && NormalizeAddress(raw) == Some(address)
    requires ListsChanges(StorageOf(Before(d, raw)), StorageOf(After(d, raw)), changes)
    requires i < |tokens| && account in observed
    ensures TokenTotal(hash, d, raws + [raw], tokens[i], account)
         == TokenTotal(hash, d, raws, tokens[i], account)
            + Charged(SlotsOf(index, address), changes, (account, tokens[i].asset))
  {
    hide NormalizeAddress, ListsChanges, TokenTotal, Charged, Indexes, NoCollisions;
    assert TokenAccepted(hash, tokens[i], observed);
    var pre, post := StorageOf(Before(d, raw)), StorageOf(After(d, raw));
    var own := BalanceSlot(hash, account, ParseQuantity(tokens[i].balanceSlot).value);
    SlotTotalOne(hash, d, raws, raw, tokens[i], account, address, own);
    ChargedToHolder(hash, tokens, observed, index, address, pre, post, changes, i, account, own);
  }

  lemma HolderOfToken(hash: MappingHash, tokens: seq<Token>, observed: seq<string>, index: SlotIndex,
                      address: string, slot: string)
    requires Indexes(hash, tokens, observed, index) && slot in SlotsOf(index, address)
      && SlotsOf(index, address)[slot].BalanceOf?
    ensures OfSomeToken(tokens, observed, (SlotsOf(index, address)[slot].account, SlotsOf(index, address)[slot].asset))
  {
    hide NormalizeAddress, ConfiguredSlot;
    var i :| 0 <= i < |tokens| && NormalizeAddress(tokens[i].address) == Some(address);
    assert TokenIndexed(hash, tokens[i], observed, index)
      && SlotIndexed(hash, tokens[i], observed, index[address], slot);
  }

  // ---------------------------------------------------------------------------
  // Extraction
  // ---------------------------------------------------------------------------

  datatype Tally = Tally(eth: Record<string, int>, held: Record<Holder, int>, probes: seq<Probe>,
    nativeProbes: seq<NativeProbe>)

  /** The probe asks for a balance slot of a configured token and expects the word before. */
  ghost predicate ProbeRight(hash: MappingHash, d: Diff, tokens: seq<Token>, raws: seq<string>, p: Probe) {
    exists i, k, slot :: 0 <= i < |raws| && 0 <= k < |tokens| && ProbeRightAt(hash, d, tokens[k], raws[i], slot, p)
  }

  ghost predicate ProbeRightAt(hash: MappingHash, d: Diff, t: Token, raw: string, slot: string, p: Probe) {
    && NormalizeAddress(raw) == NormalizeAddress(t.address) == Some(p.token)
    && IsBalanceSlot(hash, t, p.account, slot) && p.preBalance == WordIn(StorageOf(Before(d, raw)), slot)
  }

  /** The probe expects the balance that some key of its address had before. */
  ghost predicate NativeProbeRight(d: Diff, raws: seq<string>, p: NativeProbe) {
    exists i :: 0 <= i < |raws| && NativeProbeAt(d, raws[i], p)
  }

  predicate NativeProbeAt(d: Diff, raw: string, p: NativeProbe) {
    NormalizeAddress(raw) == Some(p.address) && Some(p.preBalance) == Second(NativeDelta(Before(d, raw), After(d, raw)))
  }

  function Second(r: Option<(int, Word)>): Option<Word> {
    match r
    case None => None
    case Some((_, w)) => Some(w)
  }

  ghost predicate Probes(nativeProbes: seq<NativeProbe>, address: string) {
    exists j :: 0 <= j < |nativeProbes| && nativeProbes[j].address == address
  }

  ghost predicate ProbesRight(hash: MappingHash, d: Diff, tokens: seq<Token>, raws: seq<string>, probes: seq<Probe>,
                              nativeProbes: seq<NativeProbe>) {
    && (forall j :: 0 <= j < |probes| ==> ProbeRight(hash, d, tokens, raws, probes[j]))
    && (forall j :: 0 <= j < |nativeProbes| ==> NativeProbeRight(d, raws, nativeProbes[j]))
    && forall address :: Touches(raws, address) ==> Probes(nativeProbes, address)
  }

  ghost predicate Tallied(hash: MappingHash, d: Diff, tokens: seq<Token>, observed: seq<string>, raws: seq<string>,
                          t: Tally) {
    && NativesTallied(d, raws, t.eth)
    && TokensTallied(hash, d, tokens, observed, raws, t.held)
    && ProbesRight(hash, d, tokens, raws, t.probes, t.nativeProbes)
  }

  lemma MoreProbes(hash: MappingHash, d: Diff, tokens: seq<Token>, observed: seq<string>, index: SlotIndex,
                   raws: seq<string>, raw: string, address: string, changes: seq<SlotChange>,
                   probes: seq<Probe>, probes': seq<Probe>, nativeProbes: seq<NativeProbe>,
                   nativeProbes': seq<NativeProbe>)
    requires Indexes(hash, tokens, observed, index) && NormalizeAddress(raw) == Some(address)
    requires ProbesRight(hash, d, tokens, raws, probes, nativeProbes)
    requires ListsChanges(StorageOf(Before(d, raw)), StorageOf(After(d, raw)), changes)
    requires probes <= probes' && nativeProbes <= nativeProbes' && Probes(nativeProbes', address)
    requires forall j :: |probes| <= j < |probes'| ==>
      ProbeOfSome(address, SlotsOf(index, address), changes, probes'[j])
    requires forall j :: |nativeProbes| <= j < |nativeProbes'| ==> NativeProbeAt(d, raw, nativeProbes'[j])
    ensures ProbesRight(hash, d, tokens, raws + [raw], probes', nativeProbes')
  {
    hide NormalizeAddress, NativeProbeAt, ProbeRightAt, ListsChanges;
    var all := raws + [raw];
    assert all[|raws|] == raw && forall i :: 0 <= i < |raws| ==> all[i] == raws[i];
    forall j | 0 <= j < |probes'| ensures ProbeRight(hash, d, tokens, all, probes'[j]) {
      if j < |probes| {
        assert ProbeRight(hash, d, tokens, raws, probes[j]);
        var i, k, slot :| 0 <= i < |raws| && 0 <= k < |tokens|
          && ProbeRightAt(hash, d, tokens[k], raws[i], slot, probes[j]);
        assert ProbeRightAt(hash, d, tokens[k], all[i], slot, probes'[j]);
      } else {
        var k, slot := NewProbe(hash, d, tokens, observed, index, raw, address, changes, probes'[j]);
        assert ProbeRightAt(hash, d, tokens[k], all[|raws|], slot, probes'[j]);
      }
    }
    forall j | 0 <= j < |nativeProbes'| ensures NativeProbeRight(d, all, nativeProbes'[j]) {
      if j < |nativeProbes| {
        assert NativeProbeRight(d, raws, nativeProbes[j]);
        var i :| 0 <= i < |raws| && NativeProbeAt(d, raws[i], nativeProbes[j]);
        assert NativeProbeAt(d, all[i], nativeProbes'[j]);
      } else {
        assert NativeProbeAt(d, all[|raws|], nativeProbes'[j]);
      }
    }
    TouchesOne(raws, raw);
    forall a | Touches(all, a) ensures Probes(nativeProbes', a) {
      if a != address {
        var j :| 0 <= j < |nativeProbes| && nativeProbes[j].address == a;
        assert nativeProbes'[j].address == a;
      }
    }
  }

  lemma NewProbe(hash: MappingHash, d: Diff, tokens: seq<Token>, observed: seq<string>, index: SlotIndex,
                 raw: string, address: string, changes: seq<SlotChange>, p: Probe) returns (k: nat, slot: string)
    requires Indexes(hash, tokens, observed, index) && NormalizeAddress(raw) == Some(address)
    requires ListsChanges(StorageOf(Before(d, raw)), StorageOf(After(d, raw)), changes)
    requires ProbeOfSome(address, SlotsOf(index, address), changes, p)
    ensures k < |tokens| && ProbeRightAt(hash, d, tokens[k], raw, slot, p)
  {
    hide NormalizeAddress, ConfiguredSlot, IsBalanceSlot;
    var i :| 0 <= i < |changes| && ProbeOf(address, SlotsOf(index, address), changes[i], p);
    slot := changes[i].slot;
    k :| 0 <= k < |tokens| && NormalizeAddress(tokens[k].address) == Some(address);
    assert TokenIndexed(hash, tokens[k], observed, index)
      && SlotIndexed(hash, tokens[k], observed, index[address], slot);
    assert ListedRight(StorageOf(Before(d, raw)), StorageOf(After(d, raw)), changes[i]);
  }

  /** One turn of the main loop: everything about one key, or a rejection. */
  method ReadAccount(hash: MappingHash, d: Diff, tokens: seq<Token>, observed: seq<string>, index: SlotIndex,
                     ghost raws: seq<string>, raw: string, was: Tally) returns (r: Option<Tally>)
    requires WellFormedDiff(d) && TokensAccepted(hash, tokens, observed) && Indexes(hash, tokens, observed, index)
    requires Tallied(hash, d, tokens, observed, raws, was)
    ensures r.Some? <==> AccountAccepted(hash, d, tokens, observed, raw)
    ensures r.Some? ==> Tallied(hash, d, tokens, observed, raws + [raw], r.value)
  {
    hide NormalizeAddress, NativeDelta, CodeKept, Readable, ListsChanges, TokensAccepted, Indexes, NativesTallied,
         TokensTallied,
         ProbesRight, WordIn, ClassifiedSlot, Added, SlotDelta;
    var normalized := NormalizeAddress(raw);
    if normalized.None? {
      return None;
    }
    var address := normalized.value;
    if MalformedAt(d.pre, raw) || MalformedAt(d.post, raw) {
      return None;
    }
    var pre, post := Before(d, raw), After(d, raw);
    var native := NativeDelta(pre, post);
    if native.None? {
      return None;
    }
    TallyNative(d, raws, raw, was.eth, address);
    var nativeProbes := was.nativeProbes;
    if forall j :: 0 <= j < |nativeProbes| ==> nativeProbes[j].address != address {
      nativeProbes := nativeProbes + [NativeProbe(address, native.value.1)];
      assert nativeProbes[|was.nativeProbes|].address == address;
    }
    if !CodeKept(pre, post) {
      return None;
    }
    var changes := DiffStorage(StorageOf(pre), StorageOf(post), pre.Some? && post.None?);
    if changes.None? {
      return None;
    }
    assert NativesTallied(d, raws, was.eth) && TokensTallied(hash, d, tokens, observed, raws, was.held);
    HeldWellFormed(hash, d, tokens, observed, raws, was.held);
    var classified := ClassifyChanges(address, SlotsOf(index, address), changes.value, observed, was.held, was.probes);
    AllClassified(hash, d, tokens, observed, index, raw, address, changes.value);
    if classified.None? {
      return None;
    }
    TallyTokens(hash, d, tokens, observed, index, raws, raw, address, changes.value, was.held, classified.value.0);
    MoreProbes(hash, d, tokens, observed, index, raws, raw, address, changes.value,
               was.probes, classified.value.1, was.nativeProbes, nativeProbes);
    return Some(Tally(Added(was.eth, address, native.value.0), classified.value.0, classified.value.1, nativeProbes));
  }

  lemma HeldWellFormed(hash: MappingHash, d: Diff, tokens: seq<Token>, observed: seq<string>, raws: seq<string>,
                       held: Record<Holder, int>)
    requires TokensTallied(hash, d, tokens, observed, raws, held)
    ensures WellFormed(held)
  {
  }

  /** The inner loop accepts exactly when every changed slot is configured. */
  lemma AllClassified(hash: MappingHash, d: Diff, tokens: seq<Token>, observed: seq<string>, index: SlotIndex,
                      raw: string, address: string, changes: seq<SlotChange>)
    requires Indexes(hash, tokens, observed, index)
    requires ListsChanges(StorageOf(Before(d, raw)), StorageOf(After(d, raw)), changes)
    ensures (forall i :: 0 <= i < |changes| ==> ChangeClassified(SlotsOf(index, address), observed, changes[i])) <==>
      forall slot :: SlotAt(d, raw, slot) != 0 ==> ClassifiedSlot(hash, tokens, observed, address, slot)
  {
    hide NormalizeAddress, WordIn, ClassifiedSlot, Indexes, SlotDelta;
    var slots := SlotsOf(index, address);
    forall slot ensures slot in slots <==> ClassifiedSlot(hash, tokens, observed, address, slot) {
      SlotsAtAddress(hash, tokens, observed, index, address, slot);
    }
    forall slot | slot in slots && slots[slot].BalanceOf? ensures slots[slot].account in observed {
      HolderOfToken(hash, tokens, observed, index, address, slot);
    }
    forall i | 0 <= i < |changes| ensures ListedRight(StorageOf(Before(d, raw)), StorageOf(After(d, raw)), changes[i]) {
    }
    if forall i :: 0 <= i < |changes| ==> ChangeClassified(slots, observed, changes[i]) {
      forall slot | SlotAt(d, raw, slot) != 0 ensures slot in slots {
        assert Lists(changes, slot);
        var i :| 0 <= i < |changes| && changes[i].slot == slot;
        assert ChangeClassified(slots, observed, changes[i]);
      }
    }
  }

  predicate SameHolding(c: Change, e: Change) {
    c.address == e.address && c.asset == e.asset
  }

  predicate Listed(changes: seq<Change>, c: Change) {
    exists i :: 0 <= i < |changes| && changes[i] == c
  }

  predicate FromTally(eth: Record<string, int>, held: Record<Holder, int>, c: Change) {
    if c.asset == NATIVE_ASSET then c.address in eth.at && c.delta == SignedText(eth.at[c.address])
    else
      && (c.address, c.asset) in held.at && held.at[(c.address, c.asset)] != 0
      && c.delta == SignedText(held.at[(c.address, c.asset)])
  }

  /** The changes list every native delta and every nonzero token delta, one entry for each holding. */
  ghost predicate ListsTally(eth: Record<string, int>, held: Record<Holder, int>, changes: seq<Change>) {
    && (forall i, j :: 0 <= i < j < |changes| ==> !SameHolding(changes[i], changes[j]))
    && (forall i :: 0 <= i < |changes| ==> FromTally(eth, held, changes[i]))
    && (forall address :: address in eth.at ==>
         Listed(changes, Change(address, NATIVE_ASSET, SignedText(eth.at[address]))))
    && forall h :: h in held.at && held.at[h] != 0 ==> Listed(changes, Change(h.0, h.1, SignedText(held.at[h])))
  }

  lemma ListedAfter(changes: seq<Change>, c: Change)
    ensures Listed(changes + [c], c) && forall e :: Listed(changes, e) ==> Listed(changes + [c], e)
  {
    assert (changes + [c])[|changes|] == c;
    forall e | Listed(changes, e) ensures Listed(changes + [c], e) {
      var k :| 0 <= k < |changes| && changes[k] == e;
      assert (changes + [c])[k] == e;
    }
  }

  /** After the natives, the nonzero token deltas of the holders seen so far. */
  ghost predicate ListsUpTo(eth: Record<string, int>, held: Record<Holder, int>, natives: seq<Change>,
                            changes: seq<Change>, seen: seq<Holder>) {
    && natives <= changes
    && (forall k :: 0 <= k < |natives| ==> natives[k].asset == NATIVE_ASSET)
    && (forall k :: |natives| <= k < |changes| ==> (changes[k].address, changes[k].asset) in seen)
    && (forall k :: 0 <= k < |changes| ==> FromTally(eth, held, changes[k]))
    && (forall k, l :: 0 <= k < l < |changes| ==> !SameHolding(changes[k], changes[l]))
    && forall h :: h in seen && h in held.at && held.at[h] != 0 ==>
         Listed(changes, Change(h.0, h.1, SignedText(held.at[h])))
  }

  lemma ListsOneMore(eth: Record<string, int>, held: Record<Holder, int>, natives: seq<Change>, changes: seq<Change>,
                     seen: seq<Holder>, h: Holder)
    requires ListsUpTo(eth, held, natives, changes, seen) && h in held.at && h !in seen && h.1 != NATIVE_ASSET
    ensures var c := Change(h.0, h.1, SignedText(held.at[h]));
      ListsUpTo(eth, held, natives, if held.at[h] == 0 then changes else changes + [c], seen + [h])
  {
    hide SignedText, Listed;
    ListedAfter(changes, Change(h.0, h.1, SignedText(held.at[h])));
  }

  lemma NativesListed(eth: Record<string, int>, natives: seq<Change>, changes: seq<Change>)
    requires WellFormed(eth) && natives <= changes && |natives| == |eth.keys|
    requires forall k :: 0 <= k < |natives| ==>
      natives[k] == Change(eth.keys[k], NATIVE_ASSET, SignedText(eth.at[eth.keys[k]]))
    ensures forall address :: address in eth.at ==>
      Listed(changes, Change(address, NATIVE_ASSET, SignedText(eth.at[address])))
  {
    hide SignedText;
    forall address | address in eth.at
      ensures Listed(changes, Change(address, NATIVE_ASSET, SignedText(eth.at[address]))) {
      var k :| 0 <= k < |eth.keys| && eth.keys[k] == address;
      assert changes[k] == natives[k];
    }
  }

  /** The two loops that fill `changes`; the locale sort after them is not modelled. */
  method ListBalances(eth: Record<string, int>, held: Record<Holder, int>) returns (changes: seq<Change>)
    requires WellFormed(eth) && WellFormed(held) && forall h :: h in held.at ==> h.1 != NATIVE_ASSET
    ensures ListsTally(eth, held, changes)
  {
    hide SignedText, Listed;
    changes := [];
    for i := 0 to |eth.keys|
      invariant |changes| == i
      invariant forall k :: 0 <= k < i ==>
        changes[k] == Change(eth.keys[k], NATIVE_ASSET, SignedText(eth.at[eth.keys[k]]))
    {
      var address := eth.keys[i];
      assert address in eth.at;
      changes := changes + [Change(address, NATIVE_ASSET, SignedText(eth.at[address]))];
    }
    ghost var natives := changes;
    for i := 0 to |held.keys|
      invariant ListsUpTo(eth, held, natives, changes, held.keys[..i])
    {
      var h := held.keys[i];
      assert h in held.at && h !in held.keys[..i] && held.keys[..i + 1] == held.keys[..i] + [h];
      ListsOneMore(eth, held, natives, changes, held.keys[..i], h);
      if held.at[h] == 0 {
        continue;
      }
      changes := changes + [Change(h.0, h.1, SignedText(held.at[h]))];
    }
    NativesListed(eth, natives, changes);
    assert held.keys[..|held.keys|] == held.keys;
  }

  ghost predicate NativeChange(d: Diff, raws: seq<string>, c: Change) {
    c.asset == NATIVE_ASSET && Touches(raws, c.address) && c.delta == SignedText(NativeTotal(d, raws, c.address))
  }

  ghost predicate TokenChange(hash: MappingHash, d: Diff, raws: seq<string>, tokens: seq<Token>,
                              observed: seq<string>, c: Change) {
    c.address in observed && exists k :: 0 <= k < |tokens| && TokenChangeOf(hash, d, raws, tokens[k], c)
  }

  ghost predicate TokenChangeOf(hash: MappingHash, d: Diff, raws: seq<string>, t: Token, c: Change) {
    var total := TokenTotal(hash, d, raws, t, c.address);
    c.asset == t.asset && total != 0 && c.delta == SignedText(total)
  }

  /** The changes are exactly what the diff implies: one native entry for each address it touches, and one entry for
      each observed account and token whose balance slot changed. */
  ghost predicate Reports(hash: MappingHash, d: Diff, tokens: seq<Token>, observed: seq<string>, changes: seq<Change>) {
    var raws := Raws(d);
    && (forall i, j :: 0 <= i < j < |changes| ==> !SameHolding(changes[i], changes[j]))
    && (forall i :: 0 <= i < |changes| ==>
          NativeChange(d, raws, changes[i]) || TokenChange(hash, d, raws, tokens, observed, changes[i]))
    && (forall address :: Touches(raws, address) ==>
          Listed(changes, Change(address, NATIVE_ASSET, SignedText(NativeTotal(d, raws, address)))))
    && forall k, account ::
       0 <= k < |tokens| && account in observed && TokenTotal(hash, d, raws, tokens[k], account) != 0 ==>
         Listed(changes, Change(account, tokens[k].asset, SignedText(TokenTotal(hash, d, raws, tokens[k], account))))
  }

  lemma TallyReports(hash: MappingHash, d: Diff, tokens: seq<Token>, observed: seq<string>, eth: Record<string, int>,
                     held: Record<Holder, int>, changes: seq<Change>)
    requires NoCollisions(hash, tokens, observed)
    requires NativesTallied(d, Raws(d), eth) && TokensTallied(hash, d, tokens, observed, Raws(d), held)
    requires ListsTally(eth, held, changes)
    ensures Reports(hash, d, tokens, observed, changes)
  {
    hide SignedText, Raws, NativeTotal, TokenTotal, NoCollisions, Touches;
    var raws := Raws(d);
    forall i | 0 <= i < |changes|
      ensures NativeChange(d, raws, changes[i]) || TokenChange(hash, d, raws, tokens, observed, changes[i]) {
      var c := changes[i];
      assert FromTally(eth, held, c);
      if c.asset != NATIVE_ASSET {
        assert OfSomeToken(tokens, observed, (c.address, c.asset));
        var k :| 0 <= k < |tokens| && tokens[k].asset == c.asset;
        assert Get(held.at, (c.address, tokens[k].asset)) == TokenTotal(hash, d, raws, tokens[k], c.address);
        assert TokenChangeOf(hash, d, raws, tokens[k], c);
      }
    }
    forall k, account | 0 <= k < |tokens| && account in observed && TokenTotal(hash, d, raws, tokens[k], account) != 0
      ensures Listed(changes,
        Change(account, tokens[k].asset, SignedText(TokenTotal(hash, d, raws, tokens[k], account))))
    {
      var h := (account, tokens[k].asset);
      assert Get(held.at, h) == TokenTotal(hash, d, raws, tokens[k], account);
      assert h in held.at && held.at[h] != 0;
    }
  }

  lemma NothingTallied(hash: MappingHash, d: Diff, tokens: seq<Token>, observed: seq<string>)
    ensures Tallied(hash, d, tokens, observed, [], Tally(Record([], map[]), Record([], map[]), [], []))
  {
  }

  lemma HeldNotNative(hash: MappingHash, d: Diff, tokens: seq<Token>, observed: seq<string>, raws: seq<string>,
                      held: Record<Holder, int>)
    requires TokensTallied(hash, d, tokens, observed, raws, held) && TokensAccepted(hash, tokens, observed)
    ensures forall h :: h in held.at ==> h.1 != NATIVE_ASSET
  {
    forall h | h in held.at ensures h.1 != NATIVE_ASSET {
      assert OfSomeToken(tokens, observed, h);
      var i :| 0 <= i < |tokens| && tokens[i].asset == h.1;
      assert TokenAccepted(hash, tokens[i], observed);
    }
  }

  /** `classifyAndExtract`: it accepts exactly the diffs with well-formed accounts, kept code and no change outside
      the configured slots, and then reports exactly the balance changes the diff implies. */
  method ClassifyAndExtract(hash: MappingHash, d: Diff, tokens: seq<Token>,
                            addresses: seq<string>) returns (r: Option<Extraction>)
    requires WellFormedDiff(d)
    ensures r.Some? <==> Accepted(hash, d, tokens, addresses)
    ensures r.Some? && NoCollisions(hash, tokens, Observed(addresses)) ==>
      Reports(hash, d, tokens, Observed(addresses), r.value.changes)
    ensures r.Some? ==> ProbesRight(hash, d, tokens, Raws(d), r.value.probes, r.value.nativeProbes)
    ensures (exists raw :: raw in Raws(d) && CodeChanges(Before(d, raw), After(d, raw))) ==> r.None?
  {
    hide NormalizeAddress, CodeChanges, AccountAccepted, TokensAccepted, Indexes, Raws, NativesTallied, TokensTallied,
         ListsTally, ProbesRight, Reports, NoCollisions;
    var observed: seq<string> := [];
    for i := 0 to |addresses|
      invariant observed == Observed(addresses[..i])
      invariant forall k :: 0 <= k < i ==> NormalizeAddress(addresses[k]).Some?
    {
      assert addresses[..i + 1][..i] == addresses[..i];
      var normalized := NormalizeAddress(addresses[i]);
      if normalized.None? {
        return None;
      }
      if normalized.value !in observed {
        observed := observed + [normalized.value];
      }
    }
    assert addresses[..|addresses|] == addresses;
    var index := BuildSlotIndex(hash, tokens, observed);
    if index.None? {
      return None;
    }
    var raws := Raws(d);
    var tally := Tally(Record([], map[]), Record([], map[]), [], []);
    NothingTallied(hash, d, tokens, observed);
    for i := 0 to |raws|
      invariant forall k :: 0 <= k < i ==> AccountAccepted(hash, d, tokens, observed, raws[k])
      invariant Tallied(hash, d, tokens, observed, raws[..i], tally)
    {
      assert raws[..i + 1] == raws[..i] + [raws[i]];
      var next := ReadAccount(hash, d, tokens, observed, index.value, raws[..i], raws[i], tally);
      if next.None? {
        return None;
      }
      tally := next.value;
    }
    assert raws[..|raws|] == raws;
    TalliesWellFormed(hash, d, tokens, observed, raws, tally);
    HeldNotNative(hash, d, tokens, observed, raws, tally.held);
    var changes := ListBalances(tally.eth, tally.held);
    if NoCollisions(hash, tokens, observed) {
      TallyReports(hash, d, tokens, observed, tally.eth, tally.held, changes);
    }
    forall raw | raw in Raws(d) ensures !CodeChanges(Before(d, raw), After(d, raw)) {
      AcceptedKeepsCode(hash, d, tokens, addresses, raw);
    }
    return Some(Extraction(changes, tally.probes, tally.nativeProbes));
  }

  lemma TalliesWellFormed(hash: MappingHash, d: Diff, tokens: seq<Token>, observed: seq<string>, raws: seq<string>,
                          t: Tally)
    requires Tallied(hash, d, tokens, observed, raws, t)
    ensures WellFormed(t.eth) && WellFormed(t.held)
  {
  }
}
