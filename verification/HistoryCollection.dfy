/** Collecting complete exchange history from an API that caps every page: bisection of saturated time
    windows, and a cursor over trade ids. */
module HistoryCollection {
  import opened Outcomes

  const PAGE_SIZE: nat := 1000

  datatype Record = Record(time: nat, body: string)

  datatype CollectError = Invalid | Incomplete

  // ---------------------------------------------------------------------------
  // Time windows
  // ---------------------------------------------------------------------------

  /** One request: the records the server answers for an inclusive window. */
  type WindowServer = (nat, nat) -> seq<Record>

  predicate AllWithin(rs: seq<Record>, start: nat, end: nat) {
    forall i :: 0 <= i < |rs| ==> start <= rs[i].time <= end
  }

  /** `timeWindow`: split a full page in the middle; a full page of one millisecond cannot be split. */
  function TimeWindow(ask: WindowServer, start: nat, end: nat): Result<seq<Record>, CollectError>
    decreases if end < start then 0 else end - start + 1
  {
    if end < start then Ok([])
    else
      var page := ask(start, end);
      if |page| > PAGE_SIZE then Err(Invalid)
      else if !AllWithin(page, start, end) then Err(Invalid)
      else if |page| < PAGE_SIZE then Ok(page)
      else if start == end then Err(Incomplete)
      else
        var middle := start + (end - start) / 2;
        var left := TimeWindow(ask, start, middle);
        if left.Err? then left
        else
          var right := TimeWindow(ask, middle + 1, end);
          if right.Err? then right else Ok(left.value + right.value)
  }

  /** The records of a history inside a window. */
  function Within(history: seq<Record>, start: nat, end: nat): (r: seq<Record>)
    ensures forall x :: x in r <==> x in history && start <= x.time <= end
  {
    if history == [] then []
    else
      var rest := Within(history[1..], start, end);
      assert forall x :: x in history <==> x == history[0] || x in history[1..];
      if start <= history[0].time <= end then [history[0]] + rest else rest
  }

  /** The server holds `history`: it answers all records of a window when they do not fill a page, and some
      full page of them otherwise, in any order. */
  ghost predicate Serves(ask: WindowServer, history: seq<Record>) {
    forall start, end :: Answers(ask, history, start, end)
  }

  ghost predicate Answers(ask: WindowServer, history: seq<Record>, start: nat, end: nat) {
    ServesWindow(ask(start, end), history, start, end)
  }

  ghost predicate ServesWindow(page: seq<Record>, history: seq<Record>, start: nat, end: nat) {
    var all := Within(history, start, end);
    if |all| < PAGE_SIZE then multiset(page) == multiset(all)
    else |page| == PAGE_SIZE && multiset(page) <= multiset(all)
  }

  /** Some millisecond of the window holds a full page or more, so no split can separate it. */
  ghost predicate Crowded(history: seq<Record>, start: nat, end: nat) {
    exists t: nat :: start <= t <= end && |Within(history, t, t)| >= PAGE_SIZE
  }

  lemma {:induction false} WithinSplits(history: seq<Record>, start: nat, middle: nat, end: nat)
    requires start <= middle <= end
    ensures multiset(Within(history, start, end))
      == multiset(Within(history, start, middle)) + multiset(Within(history, middle + 1, end))
    ensures |Within(history, start, end)| == |Within(history, start, middle)| + |Within(history, middle + 1, end)|
  {
    if history != [] {
      WithinSplits(history[1..], start, middle, end);
    }
  }

  lemma {:induction false} NarrowerIsShorter(history: seq<Record>, start: nat, end: nat, t: nat)
    requires start <= t <= end
    ensures |Within(history, t, t)| <= |Within(history, start, end)|
  {
    if history != [] {
      NarrowerIsShorter(history[1..], start, end, t);
    }
  }

  lemma PageWithin(page: seq<Record>, history: seq<Record>, start: nat, end: nat)
    requires ServesWindow(page, history, start, end)
    ensures AllWithin(page, start, end) && |page| <= PAGE_SIZE
    ensures |page| < PAGE_SIZE <==> |Within(history, start, end)| < PAGE_SIZE
  {
    var all := Within(history, start, end);
    forall i | 0 <= i < |page| ensures start <= page[i].time <= end {
      assert page[i] in multiset(page);
      assert page[i] in multiset(all);
      assert page[i] in all;
    }
    assert |page| == |multiset(page)| && |all| == |multiset(all)|;
  }

  lemma {:induction false} NothingWithin(history: seq<Record>, start: nat, end: nat)
    requires end < start
    ensures Within(history, start, end) == []
  {
    if history != [] {
      NothingWithin(history[1..], start, end);
    }
  }

  /** One unfolding of the recursion, on a page the server may give. */
  lemma WindowStep(ask: WindowServer, history: seq<Record>, start: nat, end: nat)
    requires Serves(ask, history) && start <= end
    ensures var page, r, middle := ask(start, end), TimeWindow(ask, start, end), start + (end - start) / 2;
      var full := |Within(history, start, end)| >= PAGE_SIZE;
      && (!full ==> r == Ok(page) && multiset(page) == multiset(Within(history, start, end)))
      && (full && start == end ==> r == Err(Incomplete))
      && (full && start < end ==>
            var left, right := TimeWindow(ask, start, middle), TimeWindow(ask, middle + 1, end);
            r == if left.Err? then left else if right.Err? then right else Ok(left.value + right.value))
  {
    assert Answers(ask, history, start, end);
    PageWithin(ask(start, end), history, start, end);
  }

  lemma {:induction false} WindowContents(ask: WindowServer, history: seq<Record>, start: nat, end: nat)
    requires Serves(ask, history)
    ensures Exact(ask, history, start, end)
    decreases if end < start then 0 else end - start + 1
  {
    if end < start {
      NothingWithin(history, start, end);
    } else {
      hide TimeWindow, Within, Serves, Exact;
      if start < end {
        var middle := start + (end - start) / 2;
        WindowContents(ask, history, start, middle);
        WindowContents(ask, history, middle + 1, end);
      }
      ExactFromHalves(ask, history, start, end);
    }
  }

  /** A window that is collected at all is collected exactly. */
  ghost predicate Exact(ask: WindowServer, history: seq<Record>, start: nat, end: nat) {
    var r := TimeWindow(ask, start, end);
    r.Ok? ==> multiset(r.value) == multiset(Within(history, start, end))
  }

  lemma ExactFromHalves(ask: WindowServer, history: seq<Record>, start: nat, end: nat)
    requires Serves(ask, history) && start <= end
    requires var middle := start + (end - start) / 2;
      start < end ==> Exact(ask, history, start, middle) && Exact(ask, history, middle + 1, end)
    ensures Exact(ask, history, start, end)
  {
    hide TimeWindow, Within, Serves;
    WindowStep(ask, history, start, end);
    if start < end {
      WithinSplits(history, start, start + (end - start) / 2, end);
    }
  }

  lemma {:induction false} WindowThrows(ask: WindowServer, history: seq<Record>, start: nat, end: nat)
    requires Serves(ask, history)
    ensures TimeWindow(ask, start, end).Err? <==> Crowded(history, start, end)
    ensures TimeWindow(ask, start, end).Err? ==> TimeWindow(ask, start, end).error == Incomplete
    decreases if end < start then 0 else end - start + 1
  {
    if start <= end {
      WindowStep(ask, history, start, end);
      if |Within(history, start, end)| < PAGE_SIZE {
        forall t | start <= t <= end ensures |Within(history, t, t)| < PAGE_SIZE {
          NarrowerIsShorter(history, start, end, t);
        }
      } else if start < end {
        var middle := start + (end - start) / 2;
        WindowThrows(ask, history, start, middle);
        WindowThrows(ask, history, middle + 1, end);
        CrowdedSplits(history, start, middle, end);
      }
    }
  }

  /** Completeness, against every server that serves the history: the collection returns every record of the
      window, each as often as the history holds it, and throws exactly when some millisecond of the window
      holds a full page. */
  lemma WindowIsComplete(ask: WindowServer, history: seq<Record>, start: nat, end: nat)
    requires Serves(ask, history)
    ensures match TimeWindow(ask, start, end)
            case Ok(rs) => multiset(rs) == multiset(Within(history, start, end)) && !Crowded(history, start, end)
            case Err(e) => e == Incomplete && Crowded(history, start, end)
  {
    WindowThrows(ask, history, start, end);
    if TimeWindow(ask, start, end).Ok? {
      WindowContents(ask, history, start, end);
    }
  }

  lemma CrowdedSplits(history: seq<Record>, start: nat, middle: nat, end: nat)
    requires start <= middle < end
    ensures Crowded(history, start, end) <==> Crowded(history, start, middle) || Crowded(history, middle + 1, end)
  {
  }

  /** Against any server at all, a returned list holds only records of the window. */
  lemma {:induction false} WindowIsSound(ask: WindowServer, start: nat, end: nat)
    requires TimeWindow(ask, start, end).Ok?
    ensures AllWithin(TimeWindow(ask, start, end).value, start, end)
    decreases if end < start then 0 else end - start + 1
  {
    if start < end && |ask(start, end)| == PAGE_SIZE {
      var middle := start + (end - start) / 2;
      WindowIsSound(ask, start, middle);
      WindowIsSound(ask, middle + 1, end);
    }
  }

  // ---------------------------------------------------------------------------
  // Trades by cursor
  // ---------------------------------------------------------------------------

  datatype Trade = Trade(id: nat, time: nat, body: string)

  /** One request: the page the server answers from a cursor. */
  type TradeServer = nat -> seq<Trade>

  /** The trades with an id at or after the cursor. */
  function From(history: seq<Trade>, cursor: nat): seq<Trade> {
    if history == [] then []
    else if history[0].id >= cursor then history
    else From(history[1..], cursor)
  }

  function FirstPage(trades: seq<Trade>): seq<Trade> {
    if |trades| <= PAGE_SIZE then trades else trades[..PAGE_SIZE]
  }

  /** Ids strictly increase and times never go back. */
  ghost predicate Ordered(history: seq<Trade>) {
    && (forall i, j :: 0 <= i < j < |history| ==> history[i].id < history[j].id)
    && (forall i, j :: 0 <= i < j < |history| ==> history[i].time <= history[j].time)
  }

  /** The trades of the history up to the cutoff, in order. */
  function UpTo(history: seq<Trade>, cutoff: nat): seq<Trade> {
    if history == [] then []
    else (if history[0].time <= cutoff then [history[0]] else []) + UpTo(history[1..], cutoff)
  }

  lemma Regroup(a: seq<Trade>, b: seq<Trade>, c: seq<Trade>)
    ensures a + (b + c) == (a + b) + c
  {
  }

  lemma {:induction false} UpToAppend(s: seq<Trade>, t: seq<Trade>, cutoff: nat)
    ensures UpTo(s + t, cutoff) == UpTo(s, cutoff) + UpTo(t, cutoff)
  {
    if s == [] {
      assert s + t == t;
    } else {
      var first := if s[0].time <= cutoff then [s[0]] else [];
      assert (s + t)[1..] == s[1..] + t;
      UpToAppend(s[1..], t, cutoff);
      Regroup(first, UpTo(s[1..], cutoff), UpTo(t, cutoff));
    }
  }

  lemma {:induction false} NothingUpTo(s: seq<Trade>, cutoff: nat)
    requires forall i :: 0 <= i < |s| ==> s[i].time > cutoff
    ensures UpTo(s, cutoff) == []
  {
    if s != [] {
      NothingUpTo(s[1..], cutoff);
    }
  }

  lemma {:induction false} FromSplits(history: seq<Trade>, n: nat, cursor: nat)
    requires Ordered(history) && n <= |history|
    requires forall i :: 0 <= i < n ==> history[i].id < cursor
    requires forall i :: n <= i < |history| ==> history[i].id >= cursor
    ensures From(history, cursor) == history[n..]
  {
    if n > 0 {
      FromSplits(history[1..], n - 1, cursor);
    }
  }

  /** The id that the next one must exceed. */
  function Before(page: seq<Trade>, cursor: nat, i: nat): int
    requires i <= |page|
  {
    if i == 0 then cursor - 1 else page[i - 1].id
  }

  predicate Advances(page: seq<Trade>, cursor: nat) {
    AdvancesUpTo(page, cursor, |page|)
  }

  predicate AdvancesUpTo(page: seq<Trade>, cursor: nat, n: nat)
    requires n <= |page|
  {
    forall i :: 0 <= i < n ==> page[i].id > Before(page, cursor, i)
  }

  lemma AdvancesStep(page: seq<Trade>, cursor: nat, n: nat)
    requires n < |page| && AdvancesUpTo(page, cursor, n)
    ensures AdvancesUpTo(page, cursor, n + 1) <==> page[n].id > Before(page, cursor, n)
    ensures Advances(page, cursor) ==> AdvancesUpTo(page, cursor, n + 1)
    ensures Before(page, cursor, n + 1) == page[n].id
  {
  }

  lemma UpToStep(page: seq<Trade>, n: nat, cutoff: nat)
    requires n < |page|
    ensures UpTo(page[..n + 1], cutoff) == UpTo(page[..n], cutoff) + if page[n].time <= cutoff then [page[n]] else []
  {
    assert page[..n + 1] == page[..n] + [page[n]];
    UpToAppend(page[..n], [page[n]], cutoff);
  }

  predicate SomeBeyond(page: seq<Trade>, n: nat, cutoff: nat)
    requires n <= |page|
  {
    exists i :: 0 <= i < n && page[i].time > cutoff
  }

  lemma SomeBeyondStep(page: seq<Trade>, n: nat, cutoff: nat)
    requires n < |page|
    ensures SomeBeyond(page, n + 1, cutoff) <==> SomeBeyond(page, n, cutoff) || page[n].time > cutoff
  {
  }

  /** A page is taken exactly when its ids increase from the cursor on; the next cursor follows its last id. */
  lemma AdvancesExactlyWhenIncreasing(page: seq<Trade>, cursor: nat)
    ensures Advances(page, cursor) <==>
      && (page != [] ==> cursor <= page[0].id)
      && forall i :: 0 < i < |page| ==> page[i - 1].id < page[i].id
    ensures Before(page, cursor, |page|) == if page == [] then cursor - 1 else page[|page| - 1].id
  {
    forall i | 0 < i < |page| ensures Before(page, cursor, i) == page[i - 1].id {
    }
    assert page != [] ==> Before(page, cursor, 0) == cursor - 1;
  }

  /** Reads one page: keeps trades up to the cutoff, moves the cursor, and notes a trade beyond it. */
  method ReadPage(page: seq<Trade>, cursor: nat, cutoff: nat)
    returns (kept: seq<Trade>, previous: int, beyondCutoff: bool, ok: bool)
    ensures ok <==> Advances(page, cursor)
    ensures ok ==> kept == UpTo(page, cutoff)
    ensures ok ==> previous == Before(page, cursor, |page|)
    ensures ok ==> (beyondCutoff <==> SomeBeyond(page, |page|, cutoff))
  {
    kept, previous, beyondCutoff, ok := [], cursor - 1, false, true;
    assert kept == UpTo(page[..0], cutoff) && !SomeBeyond(page, 0, cutoff);
    assert AdvancesUpTo(page, cursor, 0) && previous == Before(page, cursor, 0);
    hide UpTo, SomeBeyond, AdvancesUpTo, Before;
    var n := 0;
    while n < |page|
      invariant 0 <= n <= |page|
      invariant AdvancesUpTo(page, cursor, n)
      invariant kept == UpTo(page[..n], cutoff)
      invariant previous == Before(page, cursor, n)
      invariant beyondCutoff <==> SomeBeyond(page, n, cutoff)
    {
      AdvancesStep(page, cursor, n);
      if page[n].id <= previous {
        return kept, previous, beyondCutoff, false;
      }
      previous := page[n].id;
      UpToStep(page, n, cutoff);
      SomeBeyondStep(page, n, cutoff);
      if page[n].time <= cutoff {
        kept := kept + [page[n]];
      } else {
        beyondCutoff := true;
      }
      n := n + 1;
    }
    assert page[..n] == page;
  }

  /** The cursor separates the first `n` trades from the rest. */
  ghost predicate Separates(history: seq<Trade>, n: nat, cursor: nat) {
    && n <= |history|
    && (forall i :: 0 <= i < n ==> history[i].id < cursor)
    && (forall i :: n <= i < |history| ==> history[i].id >= cursor)
  }

  /** The page is the next stretch of the history, all of it when it is not full. */
  lemma PageIsStretch(history: seq<Trade>, n: nat, cursor: nat, page: seq<Trade>)
    requires Ordered(history) && Separates(history, n, cursor) && page == FirstPage(From(history, cursor))
    ensures |page| <= PAGE_SIZE && n + |page| <= |history| && page == history[n..n + |page|]
    ensures |page| < PAGE_SIZE ==> n + |page| == |history|
  {
    FromSplits(history, n, cursor);
    hide Ordered, From;
  }

  lemma StretchAdvances(history: seq<Trade>, n: nat, cursor: nat, m: nat)
    requires Ordered(history) && Separates(history, n, cursor) && n <= m <= |history|
    ensures Advances(history[n..m], cursor)
    ensures n < m ==> Separates(history, m, history[m - 1].id + 1)
  {
    var page := history[n..m];
    forall i | 0 <= i < |page| ensures page[i].id > Before(page, cursor, i) {
      assert page[i] == history[n + i] && (i > 0 ==> page[i - 1] == history[n + i - 1]);
    }
  }

  lemma PageFromCursor(history: seq<Trade>, n: nat, cursor: nat, page: seq<Trade>, cutoff: nat)
    requires Ordered(history) && Separates(history, n, cursor) && page == FirstPage(From(history, cursor))
    ensures |page| <= PAGE_SIZE && n + |page| <= |history| && Advances(page, cursor)
    ensures |page| < PAGE_SIZE ==> n + |page| == |history|
    ensures page != [] ==> Separates(history, n + |page|, page[|page| - 1].id + 1)
    ensures UpTo(history[..n + |page|], cutoff) == UpTo(history[..n], cutoff) + UpTo(page, cutoff)
    ensures (exists i :: 0 <= i < |page| && page[i].time > cutoff) ==>
        exists i :: 0 <= i < n + |page| && history[i].time > cutoff
  {
    hide UpTo, Ordered, From, FirstPage, Advances, Separates;
    PageIsStretch(history, n, cursor, page);
    StretchAdvances(history, n, cursor, n + |page|);
    assert history[..n + |page|] == history[..n] + page;
    UpToAppend(history[..n], page, cutoff);
    assert forall i :: 0 <= i < |page| ==> page[i] == history[n + i];
  }

  lemma RestIsBeyond(history: seq<Trade>, m: nat, cutoff: nat)
    requires Ordered(history) && m <= |history|
    requires m == |history| || exists i :: 0 <= i < m && history[i].time > cutoff
    ensures UpTo(history, cutoff) == UpTo(history[..m], cutoff)
  {
    assert history == history[..m] + history[m..];
    UpToAppend(history[..m], history[m..], cutoff);
    NothingUpTo(history[m..], cutoff);
  }

  /** `spotTrades`: against a server that pages such a history it terminates, never rejects a page, and returns
      every trade up to the cutoff exactly once, in id order. */
  method SpotTrades(ask: TradeServer, cutoff: nat, ghost history: seq<Trade>)
    returns (result: Result<seq<Trade>, CollectError>)
    requires Ordered(history)
    requires forall cursor :: ask(cursor) == FirstPage(From(history, cursor))
    ensures result == Ok(UpTo(history, cutoff))
  {
    var trades: seq<Trade> := [];
    var fromId: nat := 0;
    ghost var n := 0;
    while true
      invariant Separates(history, n, fromId)
      invariant trades == UpTo(history[..n], cutoff)
      decreases |history| - n
    {
      var page := ask(fromId);
      PageFromCursor(history, n, fromId, page, cutoff);
      if |page| > PAGE_SIZE {
        return Err(Invalid);
      }
      var kept, previous, beyondCutoff, ok := ReadPage(page, fromId, cutoff);
      if !ok {
        return Err(Invalid);
      }
      trades := trades + kept;
      n := n + |page|;
      if |page| < PAGE_SIZE || beyondCutoff {
        RestIsBeyond(history, n, cutoff);
        return Ok(trades);
      }
      fromId := previous + 1;
    }
  }
}
