/** Spot losses by weighted-average cost. Amounts are exact reals: rounding is not modelled. The comparison
    tolerance keeps the source's form, with its scale `eps` as a parameter; zero means exact comparison. */
module CostBasis {
  import opened Outcomes

  datatype Side = Buy | Sell

  datatype Trade = Trade(
    symbol: string, id: nat, side: Side, quantity: real, quoteQuantity: real, price: real,
    commission: real, commissionAsset: string, time: nat)

  const MAX_COLLECTION_AGE_MS: nat := 30000

  predicate Stable(asset: string) {
    asset == "USDT" || asset == "USDC"
  }

  predicate AssetChar(c: char) {
    'A' <= c <= 'Z' || '0' <= c <= '9'
  }

  /** `assetPair`: the base of BASE-USDT or BASE-USDC. */
  function Base(symbol: string): Option<string> {
    var n := |symbol| - 5;
    if n <= 0 || (symbol[n..] != "-USDT" && symbol[n..] != "-USDC") then None
    else if exists i :: 0 <= i < n && !AssetChar(symbol[i]) then None
    else if Stable(symbol[..n]) then None
    else Some(symbol[..n])
  }

  /** A pair is accepted exactly when it spells a base of capitals and digits, itself no stable asset, against one. */
  lemma BaseSplitsPairs(symbol: string, base: string)
    ensures Base(symbol) == Some(base) <==>
      && (symbol == base + "-USDT" || symbol == base + "-USDC")
      && base != "" && base != "USDT" && base != "USDC"
      && forall i :: 0 <= i < |base| ==> 'A' <= base[i] <= 'Z' || '0' <= base[i] <= '9'
  {
    var n := |symbol| - 5;
    if n > 0 {
      assert symbol == symbol[..n] + symbol[n..];
      assert forall i :: 0 <= i < n ==> symbol[..n][i] == symbol[i];
    }
    if symbol == base + "-USDT" || symbol == base + "-USDC" {
      assert symbol[..n] == base;
    }
  }

  function Abs(x: real): real {
    if x < 0.0 then -x else x
  }

  function Max(x: real, y: real): real {
    if x < y then y else x
  }

  function Tolerance(eps: real, l: real, r: real): real {
    eps * Max(1.0, Max(Abs(l), Abs(r)))
  }

  // ---------------------------------------------------------------------------
  // One trade
  // ---------------------------------------------------------------------------

  datatype Lot = Lot(quantity: real, cost: real)

  datatype Books = Books(lots: map<string, Lot>, loss: real)

  const NO_LOT := Lot(0.0, 0.0)

  function LotOf(b: Books, base: string): Lot {
    if base in b.lots then b.lots[base] else NO_LOT
  }

  function BaseFee(t: Trade, base: string): real {
    if t.commissionAsset == base then t.commission else 0.0
  }

  function QuoteFee(t: Trade): real {
    if Stable(t.commissionAsset) then t.commission else 0.0
  }

  predicate FeeSupported(t: Trade, base: string) {
    t.commission > 0.0 ==> BaseFee(t, base) != 0.0 || QuoteFee(t) != 0.0
  }

  function Spent(t: Trade, base: string): real {
    t.quantity + BaseFee(t, base)
  }

  /** The cost a sell takes out of its lot, at the lot's average. */
  function Charge(lot: Lot, spent: real): real
    requires lot.quantity > 0.0
  {
    lot.cost * (spent / lot.quantity)
  }

  function AfterSell(lot: Lot, spent: real): Lot
    requires lot.quantity > 0.0
  {
    if lot.quantity - spent <= 0.0 then NO_LOT else Lot(lot.quantity - spent, lot.cost - Charge(lot, spent))
  }

  /** What one trade does to its lot, and the loss it realises today; `None` when the source throws. */
  function Trading(eps: real, dayStart: nat, lot: Lot, t: Trade, base: string): Option<(Lot, real)> {
    if !FeeSupported(t, base) then None
    else if t.side.Buy? then
      var bought := t.quantity - BaseFee(t, base);
      var lot' := Lot(lot.quantity + bought, lot.cost + (t.quoteQuantity + QuoteFee(t)));
      if bought <= 0.0 || lot'.quantity < 0.0 || lot'.cost < 0.0 then None else Some((lot', 0.0))
    else
      var spent := Spent(t, base);
      if lot.quantity <= 0.0 || spent - lot.quantity > Tolerance(eps, spent, lot.quantity) then None
      else
        var shortfall := Charge(lot, spent) - (t.quoteQuantity - QuoteFee(t));
        var lot' := AfterSell(lot, spent);
        if lot'.quantity < 0.0 || lot'.cost < 0.0 then None
        else Some((lot', if t.time >= dayStart then Max(0.0, shortfall) else 0.0))
  }

  /** One turn of the loop. */
  function Book(eps: real, dayStart: nat, b: Books, t: Trade): Option<Books> {
    match Base(t.symbol)
    case None => None
    case Some(base) =>
      match Trading(eps, dayStart, LotOf(b, base), t, base)
      case None => None
      case Some((lot, loss)) => Some(Books(b.lots[base := lot], b.loss + loss))
  }

  function BookAll(eps: real, dayStart: nat, b: Option<Books>, trades: seq<Trade>): Option<Books>
    decreases |trades|
  {
    if b.None? || trades == [] then b
    else BookAll(eps, dayStart, Book(eps, dayStart, b.value, trades[0]), trades[1..])
  }

  lemma {:induction false} BookAllAppend(eps: real, dayStart: nat, b: Option<Books>, s: seq<Trade>, t: seq<Trade>)
    ensures BookAll(eps, dayStart, b, s + t) == BookAll(eps, dayStart, BookAll(eps, dayStart, b, s), t)
    decreases |s|
  {
    if s == [] {
      assert s + t == t;
    } else if b.Some? {
      assert (s + t)[1..] == s[1..] + t;
      BookAllAppend(eps, dayStart, Book(eps, dayStart, b.value, s[0]), s[1..], t);
    }
  }

  // ---------------------------------------------------------------------------
  // What the trades must satisfy, and their order
  // ---------------------------------------------------------------------------

  predicate ValidTrade(t: Trade, symbols: set<string>, now: nat) {
    && t.symbol in symbols
    && t.quantity > 0.0 && t.quoteQuantity > 0.0 && t.price > 0.0 && t.commission >= 0.0
    && (t.commission > 0.0 ==> t.commissionAsset != "")
    && t.time <= now
  }

  predicate SameRecord(s: Trade, t: Trade) {
    s.symbol == t.symbol && s.id == t.id
  }

  predicate DistinctRecords(trades: seq<Trade>) {
    forall i, j :: 0 <= i < j < |trades| ==> !SameRecord(trades[i], trades[j])
  }

  predicate ValidTrades(trades: seq<Trade>, symbols: set<string>, now: nat) {
    && DistinctRecords(trades)
    && forall i :: 0 <= i < |trades| ==> ValidTrade(trades[i], symbols, now)
  }

  /** The sort key: time, then numeric id. Trades of different symbols may tie. */
  predicate NotAfter(s: Trade, t: Trade) {
    s.time < t.time || (s.time == t.time && s.id <= t.id)
  }

  ghost predicate Sorted(trades: seq<Trade>) {
    forall i, j :: 0 <= i < j < |trades| ==> NotAfter(trades[i], trades[j])
  }

  function Insert(t: Trade, trades: seq<Trade>): seq<Trade> {
    if trades == [] then [t]
    else if NotAfter(t, trades[0]) then [t] + trades
    else [trades[0]] + Insert(t, trades[1..])
  }

  /** The runtime's sort: a permutation in key order, ties in input order. */
  function Sort(trades: seq<Trade>): seq<Trade> {
    if trades == [] then [] else Insert(trades[0], Sort(trades[1..]))
  }

  lemma {:induction false} InsertPermutes(t: Trade, trades: seq<Trade>)
    ensures multiset(Insert(t, trades)) == multiset(trades) + multiset{t}
  {
    if trades != [] && !NotAfter(t, trades[0]) {
      assert trades == [trades[0]] + trades[1..];
      InsertPermutes(t, trades[1..]);
    }
  }

  lemma {:induction false} InsertSorts(t: Trade, trades: seq<Trade>)
    requires Sorted(trades)
    ensures Sorted(Insert(t, trades))
  {
    if trades != [] && !NotAfter(t, trades[0]) {
      var rest := trades[1..];
      InsertSorts(t, rest);
      InsertPermutes(t, rest);
      var r := Insert(t, rest);
      hide Insert;
      forall i | 0 <= i < |r| ensures NotAfter(trades[0], r[i]) {
        assert r[i] in multiset(r);
        assert r[i] == t || r[i] in rest;
      }
      FirstSorts(trades[0], r);
    } else if trades != [] {
      forall i | 0 <= i < |trades| ensures NotAfter(t, trades[i]) {
        assert i > 0 ==> NotAfter(trades[0], trades[i]);
      }
      FirstSorts(t, trades);
    }
  }

  lemma FirstSorts(t: Trade, trades: seq<Trade>)
    requires Sorted(trades) && forall i :: 0 <= i < |trades| ==> NotAfter(t, trades[i])
    ensures Sorted([t] + trades)
  {
  }

  lemma {:induction false} SortPermutes(trades: seq<Trade>)
    ensures multiset(Sort(trades)) == multiset(trades) && Sorted(Sort(trades))
    ensures var s := Sort(trades);
      forall i, j :: 0 <= i < j < |s| ==> s[i].time < s[j].time || (s[i].time == s[j].time && s[i].id <= s[j].id)
  {
    if trades != [] {
      assert trades == [trades[0]] + trades[1..];
      SortPermutes(trades[1..]);
      InsertPermutes(trades[0], Sort(trades[1..]));
      InsertSorts(trades[0], Sort(trades[1..]));
    }
  }

  // ---------------------------------------------------------------------------
  // Trades of different bases commute
  // ---------------------------------------------------------------------------

  ghost predicate OtherBase(s: Trade, t: Trade) {
    Base(s.symbol) != Base(t.symbol)
  }

  function Then(eps: real, dayStart: nat, b: Option<Books>, t: Trade): Option<Books> {
    if b.None? then None else Book(eps, dayStart, b.value, t)
  }

  lemma Commute(eps: real, dayStart: nat, b: Option<Books>, s: Trade, t: Trade)
    requires OtherBase(s, t)
    ensures Then(eps, dayStart, Then(eps, dayStart, b, s), t) == Then(eps, dayStart, Then(eps, dayStart, b, t), s)
  {
    var st, ts := Then(eps, dayStart, Then(eps, dayStart, b, s), t), Then(eps, dayStart, Then(eps, dayStart, b, t), s);
    if st.Some? && ts.Some? {
      assert st.value.lots == ts.value.lots;
    }
  }

  lemma BookAllStep(eps: real, dayStart: nat, b: Option<Books>, trades: seq<Trade>)
    requires trades != []
    ensures BookAll(eps, dayStart, b, trades) == BookAll(eps, dayStart, Then(eps, dayStart, b, trades[0]), trades[1..])
  {
  }

  /** A trade moves to the front past trades of other bases. */
  lemma {:induction false} MoveToFront(eps: real, dayStart: nat, b: Option<Books>, pre: seq<Trade>, t: Trade)
    requires forall i :: 0 <= i < |pre| ==> OtherBase(pre[i], t)
    ensures BookAll(eps, dayStart, b, pre + [t]) == BookAll(eps, dayStart, Then(eps, dayStart, b, t), pre)
    decreases |pre|
  {
    if pre == [] {
      assert pre + [t] == [t];
      BookAllStep(eps, dayStart, b, [t]);
    } else {
      assert (pre + [t])[1..] == pre[1..] + [t];
      BookAllStep(eps, dayStart, b, pre + [t]);
      MoveToFront(eps, dayStart, Then(eps, dayStart, b, pre[0]), pre[1..], t);
      Commute(eps, dayStart, b, pre[0], t);
      BookAllStep(eps, dayStart, Then(eps, dayStart, b, t), pre);
    }
  }

  /** No two different trades share symbol and id, and each base trades under one symbol. */
  ghost predicate Unambiguous(trades: multiset<Trade>) {
    && (forall t :: t in trades ==> trades[t] == 1)
    && (forall s, t :: s in trades && t in trades && SameRecord(s, t) ==> s == t)
    && (forall s, t :: s in trades && t in trades && Base(s.symbol) == Base(t.symbol) ==> s.symbol == t.symbol)
  }

  lemma TiesAreOfOtherBases(trades: multiset<Trade>, s: Trade, t: Trade)
    requires Unambiguous(trades) && s in trades && t in trades && s != t && NotAfter(s, t) && NotAfter(t, s)
    ensures OtherBase(s, t)
  {
  }

  function Without(t: seq<Trade>, i: nat): seq<Trade>
    requires i < |t|
  {
    t[..i] + t[i + 1..]
  }

  lemma WithoutMultiset(t: seq<Trade>, i: nat)
    requires i < |t|
    ensures multiset(t) == multiset(Without(t, i)) + multiset{t[i]}
  {
    assert t == t[..i] + [t[i]] + t[i + 1..];
  }

  lemma WithoutSorted(t: seq<Trade>, i: nat)
    requires i < |t| && Sorted(t)
    ensures Sorted(Without(t, i))
  {
  }

  lemma FewerAreUnambiguous(more: multiset<Trade>, fewer: multiset<Trade>)
    requires Unambiguous(more) && fewer <= more
    ensures Unambiguous(fewer)
  {
  }

  lemma MemberAt(s: seq<Trade>, x: Trade) returns (i: nat)
    requires x in multiset(s)
    ensures i < |s| && s[i] == x
  {
    i :| 0 <= i < |s| && s[i] == x;
  }

  lemma AppearsOnce(t: seq<Trade>, i: nat, j: nat)
    requires j < i < |t| && multiset(t)[t[i]] == 1
    ensures t[j] != t[i]
  {
    WithoutMultiset(t, i);
    assert t[j] == Without(t, i)[j];
    assert t[j] in multiset(Without(t, i));
  }

  /** What precedes the smallest trade in another sorted order ties with it, so it has another base. */
  lemma EarlierAreOfOtherBases(s: seq<Trade>, t: seq<Trade>, i: nat, j: nat)
    requires Sorted(s) && Sorted(t) && multiset(s) == multiset(t) && Unambiguous(multiset(t))
    requires s != [] && j < i < |t| && t[i] == s[0]
    ensures OtherBase(t[j], t[i])
  {
    var k := MemberAt(s, t[j]) by {
      assert t[j] in multiset(t);
    }
    assert t[i] in multiset(t) && t[j] in multiset(t);
    AppearsOnce(t, i, j);
    assert NotAfter(s[0], s[k]);
    TiesAreOfOtherBases(multiset(t), t[j], t[i]);
  }

  lemma FrontAgrees(eps: real, dayStart: nat, b: Option<Books>, t: seq<Trade>, i: nat)
    requires i < |t| && forall j :: 0 <= j < i ==> OtherBase(t[j], t[i])
    ensures BookAll(eps, dayStart, b, t) == BookAll(eps, dayStart, Then(eps, dayStart, b, t[i]), Without(t, i))
  {
    assert t == (t[..i] + [t[i]]) + t[i + 1..];
    BookAllAppend(eps, dayStart, b, t[..i] + [t[i]], t[i + 1..]);
    MoveToFront(eps, dayStart, b, t[..i], t[i]);
    BookAllAppend(eps, dayStart, Then(eps, dayStart, b, t[i]), t[..i], t[i + 1..]);
  }

  /** Two sorted orders of the same trades leave the same books, or both fail. */
  lemma {:induction false} SortedOrdersAgree(eps: real, dayStart: nat, b: Option<Books>, s: seq<Trade>, t: seq<Trade>)
    requires Sorted(s) && Sorted(t) && multiset(s) == multiset(t) && Unambiguous(multiset(t))
    ensures BookAll(eps, dayStart, b, s) == BookAll(eps, dayStart, b, t)
    decreases |s|
  {
    assert |s| == |multiset(s)| && |t| == |multiset(t)|;
    if s != [] {
      assert s[0] in multiset(s);
      var i := MemberAt(t, s[0]);
      forall j | 0 <= j < i ensures OtherBase(t[j], t[i]) {
        EarlierAreOfOtherBases(s, t, i, j);
      }
      FrontAgrees(eps, dayStart, b, t, i);
      FrontAgrees(eps, dayStart, b, s, 0);
      WithoutMultiset(s, 0);
      WithoutMultiset(t, i);
      WithoutSorted(s, 0);
      WithoutSorted(t, i);
      FewerAreUnambiguous(multiset(t), multiset(Without(t, i)));
      SortedOrdersAgree(eps, dayStart, Then(eps, dayStart, b, s[0]), Without(s, 0), Without(t, i));
    }
  }

  // ---------------------------------------------------------------------------
  // The reported loss
  // ---------------------------------------------------------------------------

  /** What the provider was built for and observed: symbols by base, the held quantity per base, and the times. */
  datatype Observation = Observation(
    baseSymbols: map<string, string>, held: map<string, real>, dayStart: nat,
    snapshotTime: nat, historyTime: nat, futuresIncome: nat)

  function Held(o: Observation, base: string): real {
    if base in o.held then o.held[base] else 0.0
  }

  predicate Reconciled(eps: real, o: Observation, b: Books, base: string) {
    var reconstructed := LotOf(b, base).quantity;
    Abs(reconstructed - Held(o, base)) <= Tolerance(eps, reconstructed, Held(o, base))
  }

  predicate Reconciles(eps: real, o: Observation, b: Books) {
    forall base :: base in o.baseSymbols ==> Reconciled(eps, o, b, base)
  }

  predicate ObservedTogether(o: Observation) {
    && o.futuresIncome == 0
    && o.snapshotTime - o.historyTime <= MAX_COLLECTION_AGE_MS
    && o.historyTime - o.snapshotTime <= MAX_COLLECTION_AGE_MS
  }

  const NO_BOOKS := Books(map[], 0.0)

  /** `spotLoss` on validated trades; `None` when it throws. */
  function SpotLoss(eps: real, o: Observation, trades: seq<Trade>): Option<real> {
    if !ObservedTogether(o) then None
    else
      match BookAll(eps, o.dayStart, Some(NO_BOOKS), Sort(trades))
      case None => None
      case Some(b) => if Reconciles(eps, o, b) then Some(b.loss) else None
  }

  /** Validation and loss together, as `calculateDailyStats` runs them for a spot account. */
  function RealizedLoss(eps: real, o: Observation, trades: seq<Trade>): Option<real> {
    if !ValidTrades(trades, o.baseSymbols.Values, o.historyTime) then None else SpotLoss(eps, o, trades)
  }

  /** The constructor's rule: every covered symbol is the one symbol of its own base. */
  predicate Covers(baseSymbols: map<string, string>) {
    forall base :: base in baseSymbols ==> Base(baseSymbols[base]) == Some(base)
  }

  /** The constructor's walk over the configured symbols. It accepts exactly a nonempty list of supported symbols,
      no two of which share a base, and then covers exactly those symbols. */
  method CoverUniverse(symbols: seq<string>) returns (r: Option<map<string, string>>)
    ensures r.Some? <==>
      && symbols != []
      && (forall i :: 0 <= i < |symbols| ==> Base(symbols[i]).Some?)
      && (forall i, j :: 0 <= i < j < |symbols| ==> Base(symbols[i]) != Base(symbols[j]))
    ensures r.Some? ==> Covers(r.value) && r.value.Values == set s | s in symbols
  {
    hide Base;
    if symbols == [] || exists i, j :: 0 <= i < j < |symbols| && symbols[i] == symbols[j] {
      return None;
    }
    var baseSymbols: map<string, string> := map[];
    for i := 0 to |symbols|
      invariant Covers(baseSymbols)
      invariant forall k :: 0 <= k < i ==> Base(symbols[k]).Some?
      invariant forall k :: 0 <= k < i ==>
        (Base(symbols[k]).value in baseSymbols && baseSymbols[Base(symbols[k]).value] == symbols[k])
      invariant forall base :: base in baseSymbols ==> baseSymbols[base] in symbols[..i]
      invariant forall k, l :: 0 <= k < l < i ==> Base(symbols[k]) != Base(symbols[l])
    {
      var base := Base(symbols[i]);
      if base.None? {
        return None;
      }
      if base.value in baseSymbols {
        return None;
      }
      baseSymbols := baseSymbols[base.value := symbols[i]];
    }
    forall s | s in symbols ensures s in baseSymbols.Values {
      var k :| 0 <= k < |symbols| && symbols[k] == s;
      assert baseSymbols[Base(symbols[k]).value] == s;
    }
    return Some(baseSymbols);
  }

  /** `validateTrades` for a spot account. */
  method ValidateTrades(trades: seq<Trade>, symbols: set<string>, now: nat) returns (ok: bool)
    ensures ok <==> ValidTrades(trades, symbols, now)
  {
    var seen: set<(string, nat)> := {};
    for i := 0 to |trades|
      invariant forall k :: 0 <= k < i ==> ValidTrade(trades[k], symbols, now)
      invariant forall k :: 0 <= k < i ==> (trades[k].symbol, trades[k].id) in seen
      invariant forall key :: key in seen ==> exists k :: 0 <= k < i && (trades[k].symbol, trades[k].id) == key
      invariant DistinctRecords(trades[..i])
    {
      var key := (trades[i].symbol, trades[i].id);
      if key in seen {
        assert exists k :: 0 <= k < i && SameRecord(trades[k], trades[i]);
        return false;
      }
      seen := seen + {key};
      if !ValidTrade(trades[i], symbols, now) {
        return false;
      }
      assert trades[..i + 1] == trades[..i] + [trades[i]];
    }
    assert trades[..|trades|] == trades;
    return true;
  }

  /** The body of the loop of `spotLoss` on the trade's own lot. */
  method TradeOnLot(eps: real, dayStart: nat, held: Lot, t: Trade, base: string) returns (r: Option<(Lot, real)>)
    ensures r == Trading(eps, dayStart, held, t, base)
  {
    var lot, loss := held, 0.0;
    var baseFee := BaseFee(t, base);
    var quoteFee := QuoteFee(t);
    if t.commission > 0.0 && baseFee == 0.0 && quoteFee == 0.0 {
      return None;
    }
    if t.side.Buy? {
      if t.quantity - baseFee <= 0.0 {
        return None;
      }
      lot := Lot(lot.quantity + (t.quantity - baseFee), lot.cost + (t.quoteQuantity + quoteFee));
    } else {
      var spent := t.quantity + baseFee;
      if lot.quantity <= 0.0 || spent - lot.quantity > Tolerance(eps, spent, lot.quantity) {
        return None;
      }
      var cost := lot.cost * (spent / lot.quantity);
      assert spent == Spent(t, base) && cost == Charge(held, spent);
      if t.time >= dayStart {
        loss := loss + Max(0.0, cost - (t.quoteQuantity - quoteFee));
      }
      lot := Lot(lot.quantity - spent, lot.cost - cost);
      if lot.quantity <= 0.0 {
        lot := NO_LOT;
      }
    }
    if lot.quantity < 0.0 || lot.cost < 0.0 {
      return None;
    }
    return Some((lot, loss));
  }

  /** The loop of `spotLoss` over `lots` and `loss`, then the reconciliation with the held quantities. */
  method RunSpotLoss(eps: real, o: Observation, trades: seq<Trade>) returns (r: Option<real>)
    ensures r == SpotLoss(eps, o, trades)
    ensures r.Some? ==> r.value == TodaysLosses(eps, o.dayStart, NO_BOOKS, Sort(trades))
    ensures r.Some? && (forall t :: t in trades ==> t.time < o.dayStart) ==> r.value == 0.0
  {
    hide Trading, Base, Sort, Tolerance, Reconciled;
    if !ObservedTogether(o) {
      return None;
    }
    var sorted := Sort(trades);
    var lots: map<string, Lot> := map[];
    var loss := 0.0;
    for i := 0 to |sorted|
      invariant BookAll(eps, o.dayStart, Some(NO_BOOKS), sorted)
             == BookAll(eps, o.dayStart, Some(Books(lots, loss)), sorted[i..])
    {
      var t := sorted[i];
      BookAllStep(eps, o.dayStart, Some(Books(lots, loss)), sorted[i..]);
      assert sorted[i..][1..] == sorted[i + 1..];
      var base := Base(t.symbol);
      if base.None? {
        return None;
      }
      var lot := if base.value in lots then lots[base.value] else NO_LOT;
      var traded := TradeOnLot(eps, o.dayStart, lot, t, base.value);
      if traded.None? {
        return None;
      }
      loss := loss + traded.value.1;
      lots := lots[base.value := traded.value.0];
    }
    var bases := o.baseSymbols.Keys;
    while bases != {}
      invariant bases <= o.baseSymbols.Keys
      invariant Reconciles(eps, o, Books(lots, loss))
        <==> forall base :: base in bases ==> Reconciled(eps, o, Books(lots, loss), base)
      decreases |bases|
    {
      var base :| base in bases;
      if !Reconciled(eps, o, Books(lots, loss), base) {
        return None;
      }
      bases := bases - {base};
    }
    ReportedLoss(eps, o, trades);
    return Some(loss);
  }

  lemma ValidAppearsOnce(trades: seq<Trade>, t: Trade)
    requires DistinctRecords(trades) && t in multiset(trades)
    ensures multiset(trades)[t] == 1
  {
    var i := MemberAt(trades, t);
    WithoutMultiset(trades, i);
    forall j | 0 <= j < |Without(trades, i)| ensures Without(trades, i)[j] != t {
      assert Without(trades, i)[j] == trades[if j < i then j else j + 1];
    }
  }

  lemma ValidRecordsDiffer(trades: seq<Trade>, s: Trade, t: Trade)
    requires DistinctRecords(trades) && s in multiset(trades) && t in multiset(trades) && SameRecord(s, t)
    ensures s == t
  {
    var i := MemberAt(trades, s);
    var j := MemberAt(trades, t);
  }

  lemma ValidBasesDiffer(trades: seq<Trade>, o: Observation, s: Trade, t: Trade)
    requires Covers(o.baseSymbols) && ValidTrades(trades, o.baseSymbols.Values, o.historyTime)
    requires s in multiset(trades) && t in multiset(trades) && Base(s.symbol) == Base(t.symbol)
    ensures s.symbol == t.symbol
  {
    hide Base, DistinctRecords;
    var i := MemberAt(trades, s);
    var j := MemberAt(trades, t);
    var bs :| bs in o.baseSymbols && o.baseSymbols[bs] == s.symbol;
    var bt :| bt in o.baseSymbols && o.baseSymbols[bt] == t.symbol;
  }

  lemma ValidIsUnambiguous(trades: seq<Trade>, o: Observation)
    requires Covers(o.baseSymbols) && ValidTrades(trades, o.baseSymbols.Values, o.historyTime)
    ensures Unambiguous(multiset(trades))
  {
    hide Base, DistinctRecords, Covers;
    forall t | t in multiset(trades) ensures multiset(trades)[t] == 1 {
      ValidAppearsOnce(trades, t);
    }
    forall s, t | s in multiset(trades) && t in multiset(trades) && SameRecord(s, t) ensures s == t {
      ValidRecordsDiffer(trades, s, t);
    }
    forall s, t | s in multiset(trades) && t in multiset(trades) && Base(s.symbol) == Base(t.symbol)
      ensures s.symbol == t.symbol
    {
      ValidBasesDiffer(trades, o, s, t);
    }
  }

  lemma ValidityIgnoresOrder(s: seq<Trade>, t: seq<Trade>, o: Observation)
    requires Covers(o.baseSymbols) && multiset(s) == multiset(t)
    requires ValidTrades(s, o.baseSymbols.Values, o.historyTime)
    ensures ValidTrades(t, o.baseSymbols.Values, o.historyTime)
  {
    ValidIsUnambiguous(s, o);
    forall i | 0 <= i < |t| ensures ValidTrade(t[i], o.baseSymbols.Values, o.historyTime) {
      assert t[i] in multiset(t);
      var k := MemberAt(s, t[i]);
    }
    forall i, j | 0 <= i < j < |t| ensures !SameRecord(t[i], t[j]) {
      assert t[i] in multiset(t) && t[j] in multiset(t);
      AppearsOnce(t, j, i);
    }
  }

  /** The order in which the exchange lists trades changes nothing: every permutation is accepted or rejected
      alike and reports the same loss. */
  lemma LossIgnoresOrder(eps: real, o: Observation, s: seq<Trade>, t: seq<Trade>)
    requires Covers(o.baseSymbols) && multiset(s) == multiset(t)
    ensures RealizedLoss(eps, o, s) == RealizedLoss(eps, o, t)
  {
    if ValidTrades(s, o.baseSymbols.Values, o.historyTime) {
      ValidityIgnoresOrder(s, t, o);
      SortPermutes(s);
      SortPermutes(t);
      ValidIsUnambiguous(t, o);
      SortedOrdersAgree(eps, o.dayStart, Some(NO_BOOKS), Sort(s), Sort(t));
    } else if ValidTrades(t, o.baseSymbols.Values, o.historyTime) {
      ValidityIgnoresOrder(t, s, o);
    }
  }

  // ---------------------------------------------------------------------------
  // Conservation of cost
  // ---------------------------------------------------------------------------

  /** Neither amount is negative, and a lot has cost exactly when it has quantity. */
  predicate SoundLot(l: Lot) {
    l.quantity >= 0.0 && l.cost >= 0.0 && (l.quantity == 0.0 <==> l.cost == 0.0)
  }

  ghost predicate SoundBooks(b: Books) {
    forall base :: base in b.lots ==> SoundLot(b.lots[base])
  }

  predicate PositiveTrade(t: Trade) {
    t.quantity > 0.0 && t.quoteQuantity > 0.0 && t.commission >= 0.0
  }

  /** The cost one trade adds to its lot. */
  function BuyCost(t: Trade): real {
    if t.side.Buy? then t.quoteQuantity + QuoteFee(t) else 0.0
  }

  /** The cost one trade charges. */
  function SellCost(lot: Lot, t: Trade, base: string): real {
    if t.side.Sell? && lot.quantity > 0.0 then Charge(lot, Spent(t, base)) else 0.0
  }

  /** What a sell charges beyond its lot's cost when the tolerance lets it spend beyond the lot's quantity. */
  function Excess(lot: Lot, t: Trade, base: string): real {
    if t.side.Sell? && lot.quantity > 0.0 && Spent(t, base) > lot.quantity
    then Charge(lot, Spent(t, base)) - lot.cost else 0.0
  }

  lemma Proportion(cost: real, quantity: real, spent: real)
    requires cost > 0.0 && quantity > 0.0 && spent > 0.0
    ensures cost * (spent / quantity) > 0.0
    ensures cost * (spent / quantity) * quantity == cost * spent
    ensures spent < quantity <==> cost * (spent / quantity) < cost
    ensures spent > quantity <==> cost * (spent / quantity) > cost
  {
    var share := spent / quantity;
    assert share * quantity == spent && share > 0.0;
    Scales(share, 1.0, quantity);
    Scales(share, 1.0, cost);
  }

  lemma Scales(x: real, y: real, factor: real)
    requires factor > 0.0
    ensures x < y <==> x * factor < y * factor
    ensures x > y <==> x * factor > y * factor
  {
    assert x < y ==> (y - x) * factor > 0.0;
    assert x > y ==> (x - y) * factor > 0.0;
  }

  /** A sell that leaves something leaves the unit cost as it was. */
  lemma SellKeepsUnitCost(lot: Lot, spent: real)
    requires SoundLot(lot) && 0.0 < spent < lot.quantity
    ensures var rest := AfterSell(lot, spent);
      SoundLot(rest) && rest.quantity > 0.0 && rest.cost / rest.quantity == lot.cost / lot.quantity
  {
    Proportion(lot.cost, lot.quantity, spent);
    var rest := AfterSell(lot, spent);
    var unit := lot.cost / lot.quantity;
    assert unit * lot.quantity == lot.cost;
    UnitCost(unit, lot.quantity, spent, lot.cost);
    assert rest.cost == unit * rest.quantity;
    QuotientIsUnit(unit, rest.quantity);
  }

  lemma UnitCost(unit: real, quantity: real, spent: real, cost: real)
    requires quantity > 0.0 && unit * quantity == cost
    ensures cost - cost * (spent / quantity) == unit * (quantity - spent)
  {
    var share := spent / quantity;
    assert share * quantity == spent;
    assert cost * share == (unit * quantity) * share == unit * (quantity * share);
  }

  lemma QuotientIsUnit(unit: real, quantity: real)
    requires quantity > 0.0
    ensures (unit * quantity) / quantity == unit
  {
  }

  /** One trade on its lot: what was there and what came in equals what was charged, less the excess, and what is
      left. */
  lemma TradeConserves(eps: real, dayStart: nat, lot: Lot, t: Trade, base: string)
    requires SoundLot(lot) && PositiveTrade(t) && Trading(eps, dayStart, lot, t, base).Some?
    ensures var lot' := Trading(eps, dayStart, lot, t, base).value.0;
      && SoundLot(lot')
      && lot.cost + BuyCost(t) + Excess(lot, t, base) == SellCost(lot, t, base) + lot'.cost
    ensures Excess(lot, t, base) >= 0.0
    ensures Excess(lot, t, base) == 0.0 <==> !(t.side.Sell? && Spent(t, base) > lot.quantity)
  {
    if t.side.Sell? {
      Proportion(lot.cost, lot.quantity, Spent(t, base));
    }
  }

  /** Folding a quantity of each trade and its lot over a run, for one base. */
  function Total(f: (Lot, Trade, string) -> real, eps: real, dayStart: nat, b: Books, trades: seq<Trade>,
                 base: string): real
    decreases |trades|
  {
    if trades == [] || Book(eps, dayStart, b, trades[0]).None? then 0.0
    else
      (if Base(trades[0].symbol) == Some(base) then f(LotOf(b, base), trades[0], base) else 0.0)
      + Total(f, eps, dayStart, Book(eps, dayStart, b, trades[0]).value, trades[1..], base)
  }

  const PAID := (lot: Lot, t: Trade, base: string) => BuyCost(t)
  const CHARGED := (lot: Lot, t: Trade, base: string) => SellCost(lot, t, base)
  const EXCESS := (lot: Lot, t: Trade, base: string) => Excess(lot, t, base)

  /** Some sell of the base spends more than its lot holds. */
  predicate Oversells(eps: real, dayStart: nat, b: Books, trades: seq<Trade>, base: string)
    decreases |trades|
  {
    trades != [] && Book(eps, dayStart, b, trades[0]).Some? &&
      (|| (Base(trades[0].symbol) == Some(base) && trades[0].side.Sell?
            && Spent(trades[0], base) > LotOf(b, base).quantity)
       || Oversells(eps, dayStart, Book(eps, dayStart, b, trades[0]).value, trades[1..], base))
  }

  /** Every accepted run, for each base: what was in the lot plus all buy costs equals all charged costs plus what
      is left, up to the excess of oversells. The excess is never negative and is zero exactly without oversells.
      Lots stay non-negative throughout. */
  lemma {:induction false} RunConserves(eps: real, dayStart: nat, b: Books, trades: seq<Trade>, base: string)
    requires SoundBooks(b) && (forall i :: 0 <= i < |trades| ==> PositiveTrade(trades[i]))
    requires BookAll(eps, dayStart, Some(b), trades).Some?
    ensures var final := BookAll(eps, dayStart, Some(b), trades).value;
      && SoundBooks(final)
      && LotOf(b, base).cost + Total(PAID, eps, dayStart, b, trades, base)
         + Total(EXCESS, eps, dayStart, b, trades, base)
         == Total(CHARGED, eps, dayStart, b, trades, base) + LotOf(final, base).cost
    ensures Total(EXCESS, eps, dayStart, b, trades, base) >= 0.0
    ensures Total(EXCESS, eps, dayStart, b, trades, base) == 0.0 <==> !Oversells(eps, dayStart, b, trades, base)
    decreases |trades|
  {
    if trades != [] {
      var t := trades[0];
      var own := Base(t.symbol).value;
      TradeConserves(eps, dayStart, LotOf(b, own), t, own);
      RunConserves(eps, dayStart, Book(eps, dayStart, b, t).value, trades[1..], base);
    }
  }

  lemma {:induction false} ExactRunsNeverOversell(dayStart: nat, b: Books, trades: seq<Trade>, base: string)
    ensures !Oversells(0.0, dayStart, b, trades, base)
    decreases |trades|
  {
    if trades != [] && Book(0.0, dayStart, b, trades[0]).Some? {
      ExactRunsNeverOversell(dayStart, Book(0.0, dayStart, b, trades[0]).value, trades[1..], base);
    }
  }

  /** With exact comparison nothing is created or lost: per base, buy costs equal charged costs plus remaining cost. */
  lemma CostIsConserved(dayStart: nat, trades: seq<Trade>, base: string)
    requires forall i :: 0 <= i < |trades| ==> PositiveTrade(trades[i])
    requires BookAll(0.0, dayStart, Some(NO_BOOKS), trades).Some?
    ensures var final := BookAll(0.0, dayStart, Some(NO_BOOKS), trades).value;
      && SoundBooks(final)
      && Total(PAID, 0.0, dayStart, NO_BOOKS, trades, base)
         == Total(CHARGED, 0.0, dayStart, NO_BOOKS, trades, base) + LotOf(final, base).cost
  {
    RunConserves(0.0, dayStart, NO_BOOKS, trades, base);
    ExactRunsNeverOversell(dayStart, NO_BOOKS, trades, base);
  }

  /** With any tolerance there are accepted trades that charge more than was ever paid. */
  lemma ToleranceBreaksConservation(eps: real)
    requires eps > 0.0
    ensures exists trades ::
      && BookAll(eps, 0, Some(NO_BOOKS), trades).Some?
      && Total(CHARGED, eps, 0, NO_BOOKS, trades, "BTC") > Total(PAID, eps, 0, NO_BOOKS, trades, "BTC")
  {
    hide Sort;
    var buy := Trade("BTC-USDT", 0, Buy, 1.0, 100.0, 100.0, 0.0, "", 0);
    var sell := Trade("BTC-USDT", 1, Sell, 1.0 + eps, 100.0, 100.0, 0.0, "", 1);
    var trades := [buy, sell];
    assert "BTC-USDT"[3..] == "-USDT" && "BTC-USDT"[..3] == "BTC";
    assert Base("BTC-USDT") == Some("BTC");
    var b := Books(map["BTC" := Lot(1.0, 100.0)], 0.0);
    assert Book(eps, 0, NO_BOOKS, buy) == Some(b);
    assert trades[1..] == [sell] && [sell][1..] == [];
    assert Book(eps, 0, b, sell).Some?;
    BookAllStep(eps, 0, Some(NO_BOOKS), trades);
    BookAllStep(eps, 0, Some(b), [sell]);
    assert Charge(Lot(1.0, 100.0), 1.0 + eps) == 100.0 * (1.0 + eps);
    var none := Book(eps, 0, b, sell).value;
    assert Total(CHARGED, eps, 0, none, [], "BTC") == 0.0 && Total(PAID, eps, 0, none, [], "BTC") == 0.0;
    assert Total(CHARGED, eps, 0, b, [sell], "BTC") == 100.0 * (1.0 + eps);
    assert Total(PAID, eps, 0, b, [sell], "BTC") == 0.0;
    assert Total(CHARGED, eps, 0, NO_BOOKS, trades, "BTC") == 100.0 * (1.0 + eps);
    assert Total(PAID, eps, 0, NO_BOOKS, trades, "BTC") == 100.0;
  }

  // ---------------------------------------------------------------------------
  // What the loss is, what a trade needs, and what is left
  // ---------------------------------------------------------------------------

  /** The positive part of what a sell of today charges beyond its net proceeds. */
  function TodaysShortfall(dayStart: nat, lot: Lot, t: Trade, base: string): real {
    var shortfall := SellCost(lot, t, base) - (t.quoteQuantity - QuoteFee(t));
    if t.side.Sell? && t.time >= dayStart && shortfall > 0.0 then shortfall else 0.0
  }

  /** Summed over the trades, each on the lot that the trades before it left. */
  function TodaysLosses(eps: real, dayStart: nat, b: Books, trades: seq<Trade>): real
    decreases |trades|
  {
    if trades == [] then 0.0
    else
      var n := |trades| - 1;
      TodaysLosses(eps, dayStart, b, trades[..n])
      + match (BookAll(eps, dayStart, Some(b), trades[..n]), Base(trades[n].symbol))
        case (Some(before), Some(base)) => TodaysShortfall(dayStart, LotOf(before, base), trades[n], base)
        case _ => 0.0
  }

  lemma BookLoses(eps: real, dayStart: nat, b: Books, t: Trade)
    requires Book(eps, dayStart, b, t).Some?
    ensures Base(t.symbol).Some?
    ensures Book(eps, dayStart, b, t).value.loss
         == b.loss + TodaysShortfall(dayStart, LotOf(b, Base(t.symbol).value), t, Base(t.symbol).value)
  {
    hide Base, Charge, AfterSell, Tolerance;
  }

  /** The loss of an accepted run is exactly today's shortfalls: sells before today and gains never enter it. */
  lemma {:induction false} LossIsTodaysLosses(eps: real, dayStart: nat, b: Books, trades: seq<Trade>)
    requires BookAll(eps, dayStart, Some(b), trades).Some?
    ensures BookAll(eps, dayStart, Some(b), trades).value.loss == b.loss + TodaysLosses(eps, dayStart, b, trades)
    decreases |trades|
  {
    hide Base, Book, TodaysShortfall;
    if trades != [] {
      var n := |trades| - 1;
      var before := BookAll(eps, dayStart, Some(b), trades[..n]);
      assert trades == trades[..n] + [trades[n]];
      BookAllAppend(eps, dayStart, Some(b), trades[..n], [trades[n]]);
      BookAllStep(eps, dayStart, before, [trades[n]]);
      LossIsTodaysLosses(eps, dayStart, b, trades[..n]);
      BookLoses(eps, dayStart, before.value, trades[n]);
    }
  }

  lemma {:induction false} NoLossBeforeToday(eps: real, dayStart: nat, b: Books, trades: seq<Trade>)
    requires forall i :: 0 <= i < |trades| ==> trades[i].time < dayStart
    ensures TodaysLosses(eps, dayStart, b, trades) == 0.0
    decreases |trades|
  {
    if trades != [] {
      NoLossBeforeToday(eps, dayStart, b, trades[..|trades| - 1]);
    }
  }

  /** The reported loss, and none at all when nothing was traded today. */
  lemma ReportedLoss(eps: real, o: Observation, trades: seq<Trade>)
    ensures SpotLoss(eps, o, trades).Some? ==>
      && SpotLoss(eps, o, trades).value == TodaysLosses(eps, o.dayStart, NO_BOOKS, Sort(trades))
      && ((forall t :: t in trades ==> t.time < o.dayStart) ==> SpotLoss(eps, o, trades).value == 0.0)
  {
    if SpotLoss(eps, o, trades).Some? {
      LossIsTodaysLosses(eps, o.dayStart, NO_BOOKS, Sort(trades));
      SortPermutes(trades);
      if forall t :: t in trades ==> t.time < o.dayStart {
        forall i | 0 <= i < |Sort(trades)| ensures Sort(trades)[i].time < o.dayStart {
          assert Sort(trades)[i] in multiset(Sort(trades));
        }
        NoLossBeforeToday(eps, o.dayStart, NO_BOOKS, Sort(trades));
      }
    }
  }

  /** A buy is accepted exactly when its fee is charged in the base or in a stable asset and leaves something of what
      was bought. Base fees reduce the units, stable fees add to the cost. */
  lemma BuyAcceptedExactlyWhen(eps: real, dayStart: nat, lot: Lot, t: Trade, base: string)
    requires SoundLot(lot) && PositiveTrade(t) && t.side.Buy?
    ensures var paidInBase, paidInStable := t.commissionAsset == base, t.commissionAsset in {"USDT", "USDC"};
      Trading(eps, dayStart, lot, t, base) ==
        if (t.commission > 0.0 && !paidInBase && !paidInStable) || (paidInBase && t.quantity <= t.commission) then None
        else Some((Lot(lot.quantity + (t.quantity - if paidInBase then t.commission else 0.0),
                       lot.cost + (t.quoteQuantity + if paidInStable then t.commission else 0.0)), 0.0))
  {
  }

  /** A sell is accepted exactly when its fee is of such a kind and its lot holds all it spends, up to the tolerance.
      It leaves the lot's unit cost, or nothing. */
  lemma SellAcceptedExactlyWhen(eps: real, dayStart: nat, lot: Lot, t: Trade, base: string)
    requires SoundLot(lot) && PositiveTrade(t) && t.side.Sell?
    ensures var paidInBase, paidInStable := t.commissionAsset == base, t.commissionAsset in {"USDT", "USDC"};
      var spent := t.quantity + if paidInBase then t.commission else 0.0;
      && (Trading(eps, dayStart, lot, t, base).Some? <==>
            && (t.commission == 0.0 || paidInBase || paidInStable)
            && lot.quantity > 0.0 && spent - lot.quantity <= eps * Scale(spent, lot.quantity))
      && (match Trading(eps, dayStart, lot, t, base)
          case None => true
          case Some((rest, _)) =>
            if spent < lot.quantity
            then rest.quantity == lot.quantity - spent && rest.cost * lot.quantity == lot.cost * rest.quantity
            else rest == Lot(0.0, 0.0))
  {
    if lot.quantity > 0.0 {
      var spent := Spent(t, base);
      ToleranceScales(eps, spent, lot.quantity);
      hide Tolerance, Charge;
      PartChargesLess(lot, spent);
      LeftInProportion(lot, spent);
      assert FeeSupported(t, base) <==> t.commission == 0.0 || t.commissionAsset == base || Stable(t.commissionAsset);
    }
  }

  lemma PartChargesLess(lot: Lot, spent: real)
    requires SoundLot(lot) && lot.quantity > 0.0 && spent > 0.0
    ensures spent < lot.quantity ==> Charge(lot, spent) < lot.cost
  {
    Proportion(lot.cost, lot.quantity, spent);
  }

  /** What the tolerance is a share of. */
  function Scale(x: real, y: real): real {
    if x < 1.0 && y < 1.0 then 1.0 else if x < y then y else x
  }

  lemma ToleranceScales(eps: real, x: real, y: real)
    requires x >= 0.0 && y >= 0.0
    ensures Tolerance(eps, x, y) == eps * Scale(x, y)
  {
  }

  lemma LeftInProportion(lot: Lot, spent: real)
    requires lot.quantity > 0.0
    ensures (lot.cost - Charge(lot, spent)) * lot.quantity == lot.cost * (lot.quantity - spent)
  {
    var share := spent / lot.quantity;
    assert share * lot.quantity == spent;
    assert (lot.cost * share) * lot.quantity == lot.cost * (share * lot.quantity);
  }

  /** What a sell takes beyond its lot's quantity when the tolerance lets it. */
  function Oversold(lot: Lot, t: Trade, base: string): real {
    if t.side.Sell? && Spent(t, base) > lot.quantity then Spent(t, base) - lot.quantity else 0.0
  }

  const OVERSOLD := (lot: Lot, t: Trade, base: string) => Oversold(lot, t, base)

  /** The units of a base that trades leave: bought, less sold, less fees paid in the base. */
  function NetQuantity(trades: seq<Trade>, base: string): real {
    if trades == [] then 0.0
    else
      var t := trades[0];
      (if Base(t.symbol) != Some(base) then 0.0
       else (if t.side.Buy? then t.quantity else -t.quantity)
            - (if t.commissionAsset == base then t.commission else 0.0))
      + NetQuantity(trades[1..], base)
  }

  /** Every accepted run accounts for each unit: what a lot holds at the end is what it held, plus the net of the
      trades, plus what was oversold. */
  lemma {:induction false} QuantityIsConserved(eps: real, dayStart: nat, b: Books, trades: seq<Trade>, base: string)
    requires SoundBooks(b) && (forall i :: 0 <= i < |trades| ==> PositiveTrade(trades[i]))
    requires BookAll(eps, dayStart, Some(b), trades).Some?
    ensures LotOf(BookAll(eps, dayStart, Some(b), trades).value, base).quantity
         == LotOf(b, base).quantity + NetQuantity(trades, base) + Total(OVERSOLD, eps, dayStart, b, trades, base)
    decreases |trades|
  {
    hide Base, Tolerance, Trading;
    if trades != [] {
      var t := trades[0];
      var own := Base(t.symbol).value;
      TradeConserves(eps, dayStart, LotOf(b, own), t, own);
      if t.side.Buy? {
        BuyAcceptedExactlyWhen(eps, dayStart, LotOf(b, own), t, own);
      } else {
        SellAcceptedExactlyWhen(eps, dayStart, LotOf(b, own), t, own);
      }
      QuantityIsConserved(eps, dayStart, Book(eps, dayStart, b, t).value, trades[1..], base);
    }
  }

  lemma {:induction false} NothingOversold(dayStart: nat, b: Books, trades: seq<Trade>, base: string)
    ensures Total(OVERSOLD, 0.0, dayStart, b, trades, base) == 0.0
    decreases |trades|
  {
    if trades != [] && Book(0.0, dayStart, b, trades[0]).Some? {
      NothingOversold(dayStart, Book(0.0, dayStart, b, trades[0]).value, trades[1..], base);
    }
  }

  /** A loss is reported only for observations taken together and holdings that the trades account for, up to the
      tolerance; with exact comparison the held quantity of every covered base is just the trades' net. */
  lemma ReportedOnlyWhenReconciled(eps: real, o: Observation, trades: seq<Trade>, base: string)
    requires RealizedLoss(eps, o, trades).Some? && base in o.baseSymbols
    ensures o.futuresIncome == 0 && -30000 <= o.snapshotTime - o.historyTime <= 30000
    ensures var traded := NetQuantity(Sort(trades), base)
                        + Total(OVERSOLD, eps, o.dayStart, NO_BOOKS, Sort(trades), base);
      var held := if base in o.held then o.held[base] else 0.0;
      && Abs(traded - held) <= Tolerance(eps, traded, held)
      && (eps == 0.0 ==> held == NetQuantity(Sort(trades), base))
  {
    hide Sort, ValidTrade, Base;
    SortPermutes(trades);
    forall i | 0 <= i < |Sort(trades)| ensures PositiveTrade(Sort(trades)[i]) {
      assert Sort(trades)[i] in multiset(Sort(trades));
      var k := MemberAt(trades, Sort(trades)[i]);
      PositiveWhenValid(trades[k], o.baseSymbols.Values, o.historyTime);
    }
    QuantityIsConserved(eps, o.dayStart, NO_BOOKS, Sort(trades), base);
    NothingOversold(o.dayStart, NO_BOOKS, Sort(trades), base);
    assert Reconciled(eps, o, BookAll(eps, o.dayStart, Some(NO_BOOKS), Sort(trades)).value, base);
  }

  /** A trade that the history may hold. */
  predicate Admissible(t: Trade, o: Observation) {
    && t.symbol in o.baseSymbols.Values && t.time <= o.historyTime
    && t.quantity > 0.0 && t.quoteQuantity > 0.0 && t.price > 0.0
    && (t.commission == 0.0 || (t.commission > 0.0 && t.commissionAsset != ""))
  }

  lemma ValidExactlyWhenAdmissible(trades: seq<Trade>, o: Observation)
    ensures ValidTrades(trades, o.baseSymbols.Values, o.historyTime) <==>
      && (forall t :: t in trades ==> Admissible(t, o))
      && forall i, j :: 0 <= i < j < |trades| && trades[i].id == trades[j].id ==> trades[i].symbol != trades[j].symbol
  {
    forall t ensures Admissible(t, o) <==> ValidTrade(t, o.baseSymbols.Values, o.historyTime) {
    }
    hide Admissible, ValidTrade;
    assert (forall i :: 0 <= i < |trades| ==> ValidTrade(trades[i], o.baseSymbols.Values, o.historyTime))
      <==> forall t :: t in trades ==> Admissible(t, o);
    assert forall i, j :: 0 <= i < j < |trades| ==>
      (SameRecord(trades[i], trades[j]) <==> trades[i].id == trades[j].id && trades[i].symbol == trades[j].symbol);
  }

  /** A loss is reported exactly when the history is sound, it and the snapshot are no further apart than thirty
      seconds, every trade finds its inventory, and what is left of every covered base is what the account holds. */
  lemma ReportedExactlyWhen(eps: real, o: Observation, trades: seq<Trade>)
    ensures RealizedLoss(eps, o, trades).Some? <==>
      && (forall t :: t in trades ==> Admissible(t, o))
      && (forall i, j :: 0 <= i < j < |trades| && trades[i].id == trades[j].id ==> trades[i].symbol != trades[j].symbol)
      && o.futuresIncome == 0 && -30000 <= o.snapshotTime - o.historyTime <= 30000
      && var books := BookAll(eps, o.dayStart, Some(NO_BOOKS), Sort(trades));
         && books.Some?
         && forall base :: base in o.baseSymbols ==>
              var left := LotOf(books.value, base).quantity;
              var held := if base in o.held then o.held[base] else 0.0;
              Abs(left - held) <= Tolerance(eps, left, held)
  {
    hide Sort, Base, BookAll, Tolerance, Abs, ValidTrades, Admissible;
    ValidExactlyWhenAdmissible(trades, o);
    var books := BookAll(eps, o.dayStart, Some(NO_BOOKS), Sort(trades));
    if books.Some? {
      forall base | base in o.baseSymbols
        ensures Reconciled(eps, o, books.value, base) <==>
          var left := LotOf(books.value, base).quantity;
          var held := if base in o.held then o.held[base] else 0.0;
          Abs(left - held) <= Tolerance(eps, left, held)
      {
      }
    }
  }

  lemma PositiveWhenValid(t: Trade, symbols: set<string>, now: nat)
    requires ValidTrade(t, symbols, now)
    ensures PositiveTrade(t)
  {
  }

  /** Today's charged cost less today's proceeds, over all bases. */
  function NetToday(eps: real, dayStart: nat, b: Books, trades: seq<Trade>): real
    decreases |trades|
  {
    if trades == [] || Base(trades[0].symbol).None? || Book(eps, dayStart, b, trades[0]).None? then 0.0
    else
      var t, base := trades[0], Base(trades[0].symbol).value;
      (if t.side.Sell? && t.time >= dayStart then SellCost(LotOf(b, base), t, base) - (t.quoteQuantity - QuoteFee(t))
        else 0.0)
      + NetToday(eps, dayStart, Book(eps, dayStart, b, t).value, trades[1..])
  }

  /** Gains never offset losses: the reported loss is never negative and covers today's net shortfall. */
  lemma {:induction false} LossCoversNet(eps: real, dayStart: nat, b: Books, trades: seq<Trade>)
    requires BookAll(eps, dayStart, Some(b), trades).Some?
    ensures var final := BookAll(eps, dayStart, Some(b), trades).value;
      final.loss >= b.loss && final.loss - b.loss >= NetToday(eps, dayStart, b, trades)
    decreases |trades|
  {
    if trades != [] {
      LossCoversNet(eps, dayStart, Book(eps, dayStart, b, trades[0]).value, trades[1..]);
    }
  }
}
