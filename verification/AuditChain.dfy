/** The hash-chained audit table and the anchor file that holds its head.

    The HMAC (section 2 of RFC 2104) is idealised: it is injective in the previous digest and the sealed text,
    and it never yields the genesis value. One writer owns the chain and its anchor. */
module AuditChain {
  import opened Outcomes
  import Json = CanonicalJson

  datatype Digest = Text(text: string) | Mac(previous: Digest, sealed: string)

  const GENESIS := Text("0000000000000000000000000000000000000000000000000000000000000000")

  /** The hashed fields of a row, apart from the previous digest. Events arrive here already redacted. */
  datatype Fields = Fields(
    eventId: string, eventType: string, timestamp: string, correlationId: string, environment: string,
    intentId: Option<string>, principal: Option<string>, promptId: Option<string>, sessionId: Option<string>,
    inputRef: Option<string>, data: string)

  datatype Row = Row(fields: Fields, previousHash: Digest, eventHash: Option<Digest>)

  function Nullable(s: Option<string>): Json.Json {
    match s
    case None => Json.Null
    case Some(v) => Json.Str(v)
  }

  /** The text that is sealed: the fields as one JSON object in this order. */
  function SealedObject(f: Fields): Json.Json {
    Json.Obj([
      Json.Member("eventId", Json.Str(f.eventId)),
      Json.Member("eventType", Json.Str(f.eventType)),
      Json.Member("timestamp", Json.Str(f.timestamp)),
      Json.Member("correlationId", Json.Str(f.correlationId)),
      Json.Member("environment", Json.Str(f.environment)),
      Json.Member("intentId", Nullable(f.intentId)),
      Json.Member("principal", Nullable(f.principal)),
      Json.Member("promptId", Nullable(f.promptId)),
      Json.Member("sessionId", Nullable(f.sessionId)),
      Json.Member("inputRef", Nullable(f.inputRef)),
      Json.Member("data", Json.Str(f.data))])
  }

  function ComputeEventHash(previous: Digest, f: Fields): Digest {
    Mac(previous, Json.Print(SealedObject(f)))
  }

  function TextOf(v: Json.Json): string {
    if v.Str? then v.s else ""
  }

  function OptionalOf(v: Json.Json): Option<string> {
    if v.Str? then Some(v.s) else None
  }

  /** Reads the fields back from the sealed object. */
  function Unseal(ms: seq<Json.Member>): Fields
    requires |ms| == 11
  {
    Fields(TextOf(ms[0].value), TextOf(ms[1].value), TextOf(ms[2].value), TextOf(ms[3].value), TextOf(ms[4].value),
           OptionalOf(ms[5].value), OptionalOf(ms[6].value), OptionalOf(ms[7].value), OptionalOf(ms[8].value),
           OptionalOf(ms[9].value), TextOf(ms[10].value))
  }

  lemma UnsealSealed(f: Fields)
    ensures Unseal(SealedObject(f).members) == f
    ensures forall i :: 0 <= i < 11 ==> Json.Valid(SealedObject(f).members[i].value)
  {
  }

  /** The sealed text determines every field. */
  lemma SealedFieldsUnique(f: Fields, g: Fields)
    requires Json.Print(SealedObject(f)) == Json.Print(SealedObject(g))
    ensures f == g
  {
    UnsealSealed(f);
    UnsealSealed(g);
    var s, t := SealedObject(f).members, SealedObject(g).members;
    assert Json.Print(Json.Obj(s)) + "" == Json.Print(Json.Obj(s))
      && Json.Print(Json.Obj(t)) + "" == Json.Print(Json.Obj(t));
    Json.ObjUnique(s, t, "", "");
  }

  // ---------------------------------------------------------------------------
  // Accepting a chain
  // ---------------------------------------------------------------------------

  /** `recoverLastHash` on the rows in id order: the head, or a rejection. */
  function Recover(rows: seq<Row>): Result<Digest, string> {
    RecoverFrom(GENESIS, rows)
  }

  function RecoverFrom(previous: Digest, rows: seq<Row>): Result<Digest, string>
    decreases |rows|
  {
    if rows == [] then Ok(previous)
    else if rows[0].previousHash != previous then Err("Audit hash chain is broken.")
    else if rows[0].eventHash.None? then Err("Audit event hash is missing.")
    else if rows[0].eventHash.value != ComputeEventHash(previous, rows[0].fields) then Err("Audit event hash mismatch.")
    else RecoverFrom(rows[0].eventHash.value, rows[1..])
  }

  predicate Accepted(rows: seq<Row>) {
    Recover(rows).Ok?
  }

  function Head(rows: seq<Row>): Digest
    requires Accepted(rows)
  {
    Recover(rows).value
  }

  lemma {:induction false} RecoverAppend(previous: Digest, rows: seq<Row>, r: Row)
    ensures RecoverFrom(previous, rows + [r]).Ok? <==>
      && RecoverFrom(previous, rows).Ok?
      && r.previousHash == RecoverFrom(previous, rows).value
      && r.eventHash == Some(ComputeEventHash(r.previousHash, r.fields))
    ensures RecoverFrom(previous, rows + [r]).Ok? ==> r.eventHash == Some(RecoverFrom(previous, rows + [r]).value)
    decreases |rows|
  {
    if rows == [] {
      assert rows + [r] == [r] && [r][1..] == [];
    } else {
      assert (rows + [r])[1..] == rows[1..] + [r];
      if rows[0].previousHash == previous && rows[0].eventHash == Some(ComputeEventHash(previous, rows[0].fields)) {
        RecoverAppend(rows[0].eventHash.value, rows[1..], r);
      }
    }
  }

  lemma {:induction false} UnsealedIsRejected(previous: Digest, rows: seq<Row>, i: nat)
    requires i < |rows| && rows[i].eventHash.None?
    ensures RecoverFrom(previous, rows).Err?
    decreases |rows|
  {
    if i > 0 && rows[0].eventHash.Some? {
      UnsealedIsRejected(rows[0].eventHash.value, rows[1..], i - 1);
    }
  }

  /** The row's digest covers its fields and the digest before it. */
  predicate SealedOn(previous: Digest, r: Row) {
    r.previousHash == previous && r.eventHash == Some(Mac(previous, Json.Print(SealedObject(r.fields))))
  }

  predicate LinkedAt(first: Digest, rows: seq<Row>, i: nat)
    requires i < |rows|
  {
    if i == 0 then SealedOn(first, rows[0])
    else rows[i - 1].eventHash.Some? && SealedOn(rows[i - 1].eventHash.value, rows[i])
  }

  predicate Linked(first: Digest, rows: seq<Row>) {
    forall i :: 0 <= i < |rows| ==> LinkedAt(first, rows, i)
  }

  lemma LinkedStep(first: Digest, rows: seq<Row>)
    requires rows != []
    ensures Linked(first, rows) <==> SealedOn(first, rows[0]) && Linked(rows[0].eventHash.value, rows[1..])
  {
    hide SealedObject, Json.Print;
    if SealedOn(first, rows[0]) {
      var h, rest := rows[0].eventHash.value, rows[1..];
      forall i | 0 <= i < |rest| ensures LinkedAt(h, rest, i) <==> LinkedAt(first, rows, i + 1) {
      }
      forall i | 0 <= i < |rows| && Linked(h, rest) ensures LinkedAt(first, rows, i) {
        assert i > 0 ==> LinkedAt(h, rest, i - 1);
      }
    } else {
      assert !LinkedAt(first, rows, 0);
    }
  }

  /** The recovery loop accepts exactly the rows that are each sealed on the one before, and yields the last digest. */
  lemma {:induction false} RecoversExactlyLinked(previous: Digest, rows: seq<Row>)
    ensures RecoverFrom(previous, rows).Ok? <==> Linked(previous, rows)
    ensures Linked(previous, rows) ==>
      Some(RecoverFrom(previous, rows).value) == if rows == [] then Some(previous) else rows[|rows| - 1].eventHash
    decreases |rows|
  {
    hide SealedObject, Json.Print, Linked;
    if rows != [] {
      LinkedStep(previous, rows);
      if SealedOn(previous, rows[0]) {
        RecoversExactlyLinked(rows[0].eventHash.value, rows[1..]);
      }
    } else {
      NothingLinked(previous);
    }
  }

  lemma NothingLinked(first: Digest)
    ensures Linked(first, [])
  {
  }

  /** An accepted chain is empty exactly when its head is the genesis value. */
  lemma HeadIsGenesisOnlyWhenEmpty(rows: seq<Row>)
    requires Accepted(rows)
    ensures Head(rows) == GENESIS <==> rows == []
  {
    if rows != [] {
      var n := |rows| - 1;
      assert rows == rows[..n] + [rows[n]];
      RecoverAppend(GENESIS, rows[..n], rows[n]);
    }
  }

  /** Tamper evidence: one head fixes every hashed field of every row, their number and their order. */
  lemma {:induction false} HeadDeterminesRows(s: seq<Row>, t: seq<Row>)
    requires Accepted(s) && Accepted(t) && Head(s) == Head(t)
    ensures s == t
    decreases |s|
  {
    HeadIsGenesisOnlyWhenEmpty(s);
    HeadIsGenesisOnlyWhenEmpty(t);
    if s != [] {
      var m, n := |s| - 1, |t| - 1;
      assert s == s[..m] + [s[m]] && t == t[..n] + [t[n]];
      RecoverAppend(GENESIS, s[..m], s[m]);
      RecoverAppend(GENESIS, t[..n], t[n]);
      SealedFieldsUnique(s[m].fields, t[n].fields);
      HeadDeterminesRows(s[..m], t[..n]);
    }
  }

  /** Every prefix of an accepted chain is accepted, and a proper prefix has another head: rows cut off the end
      show against the anchor. */
  lemma TruncationChangesHead(rows: seq<Row>, n: nat)
    requires Accepted(rows) && n < |rows|
    ensures Accepted(rows[..n]) && Head(rows[..n]) != Head(rows)
  {
    PrefixAccepted(rows, n);
    if Head(rows[..n]) == Head(rows) {
      HeadDeterminesRows(rows[..n], rows);
    }
  }

  lemma {:induction false} PrefixAccepted(rows: seq<Row>, n: nat)
    requires Accepted(rows) && n <= |rows|
    ensures Accepted(rows[..n])
    decreases |rows|
  {
    if n < |rows| {
      var m := |rows| - 1;
      assert rows == rows[..m] + [rows[m]] && rows[..n] == rows[..m][..n];
      RecoverAppend(GENESIS, rows[..m], rows[m]);
      PrefixAccepted(rows[..m], n);
    } else {
      assert rows[..n] == rows;
    }
  }

  // ---------------------------------------------------------------------------
  // Sealing a legacy table
  // ---------------------------------------------------------------------------

  /** The rows that sealing from `previous` produces. */
  function SealFrom(previous: Digest, rows: seq<Row>): (r: seq<Row>)
    ensures |r| == |rows| && forall i :: 0 <= i < |rows| ==> r[i].fields == rows[i].fields
    decreases |rows|
  {
    if rows == [] then []
    else
      var h := ComputeEventHash(previous, rows[0].fields);
      [Row(rows[0].fields, previous, Some(h))] + SealFrom(h, rows[1..])
  }

  lemma {:induction false} SealedIsAccepted(previous: Digest, rows: seq<Row>)
    ensures RecoverFrom(previous, SealFrom(previous, rows)).Ok?
    decreases |rows|
  {
    if rows != [] {
      var h := ComputeEventHash(previous, rows[0].fields);
      var r := SealFrom(previous, rows);
      assert r[0] == Row(rows[0].fields, previous, Some(h)) && r[1..] == SealFrom(h, rows[1..]);
      SealedIsAccepted(h, rows[1..]);
    }
  }

  lemma {:induction false} SealAppend(previous: Digest, rows: seq<Row>, r: Row)
    ensures var s := SealFrom(previous, rows);
      && RecoverFrom(previous, s).Ok?
      && var h := RecoverFrom(previous, s).value;
         SealFrom(previous, rows + [r]) == s + [Row(r.fields, h, Some(ComputeEventHash(h, r.fields)))]
    decreases |rows|
  {
    SealedIsAccepted(previous, rows);
    if rows == [] {
      assert rows + [r] == [r] && [r][1..] == [];
    } else {
      var h := ComputeEventHash(previous, rows[0].fields);
      var s := SealFrom(previous, rows);
      assert (rows + [r])[1..] == rows[1..] + [r];
      assert s[0] == Row(rows[0].fields, previous, Some(h)) && s[1..] == SealFrom(h, rows[1..]);
      SealAppend(h, rows[1..], r);
      assert s == [s[0]] + s[1..];
    }
  }

  /** The first `n` rows are sealed in place, up to the hash of the last one. */
  ghost predicate SealedUpTo(rows: seq<Row>, n: nat, now: seq<Row>, previousHash: Digest) {
    && n <= |rows| && |SealFrom(GENESIS, rows[..n])| == n
    && RecoverFrom(GENESIS, SealFrom(GENESIS, rows[..n])) == Ok(previousHash)
    && now == SealFrom(GENESIS, rows[..n]) + rows[n..]
  }

  lemma NothingSealed(rows: seq<Row>)
    ensures SealedUpTo(rows, 0, rows, GENESIS)
  {
    assert rows[..0] == [] && [] + rows[0..] == rows;
  }

  /** Some rows are sealed and some are not, which every start refuses. */
  predicate Mixed(rows: seq<Row>) {
    && (exists i :: 0 <= i < |rows| && rows[i].eventHash.Some?)
    && (exists i :: 0 <= i < |rows| && rows[i].eventHash.None?)
  }

  lemma {:induction false} SealFromSeals(previous: Digest, rows: seq<Row>)
    ensures forall i :: 0 <= i < |rows| ==> SealFrom(previous, rows)[i].eventHash.Some?
    decreases |rows|
  {
    if rows != [] {
      SealFromSeals(ComputeEventHash(previous, rows[0].fields), rows[1..]);
    }
  }

  /** The backfill is no transaction. Stopped after `n` of a legacy table's rows, it leaves a table that every later
      start refuses, unless nothing was sealed yet, and the next start begins again, or everything, and it is
      accepted. */
  lemma InterruptedBackfill(rows: seq<Row>, n: nat)
    requires n <= |rows| && forall i :: 0 <= i < |rows| ==> rows[i].eventHash.None?
    ensures Mixed(SealFrom(GENESIS, rows[..n]) + rows[n..]) <==> 0 < n < |rows|
    ensures n == |rows| ==> Accepted(SealFrom(GENESIS, rows[..n]) + rows[n..])
  {
    var now := SealFrom(GENESIS, rows[..n]) + rows[n..];
    SealFromSeals(GENESIS, rows[..n]);
    assert forall i :: 0 <= i < n ==> now[i].eventHash.Some?;
    assert forall i :: n <= i < |rows| ==> now[i] == rows[i];
    assert 0 < n ==> now[0].eventHash.Some?;
    assert n < |rows| ==> now[n].eventHash.None?;
    if n == |rows| {
      assert now == SealFrom(GENESIS, rows[..n]);
      SealedIsAccepted(GENESIS, rows[..n]);
    }
  }

  lemma SealOne(rows: seq<Row>, n: nat, now: seq<Row>, previousHash: Digest)
    requires SealedUpTo(rows, n, now, previousHash) && n < |rows|
    ensures n < |now| && now[n] == rows[n]
    ensures var h := ComputeEventHash(previousHash, rows[n].fields);
      SealedUpTo(rows, n + 1, now[n := Row(rows[n].fields, previousHash, Some(h))], h)
  {
    hide ComputeEventHash;
    var sealed, h := SealFrom(GENESIS, rows[..n]), ComputeEventHash(previousHash, rows[n].fields);
    var row := Row(rows[n].fields, previousHash, Some(h));
    assert rows[..n + 1] == rows[..n] + [rows[n]];
    SealAppend(GENESIS, rows[..n], rows[n]);
    RecoverAppend(GENESIS, sealed, row);
    assert now[n := row] == sealed + [row] + rows[n + 1..];
  }

  // ---------------------------------------------------------------------------
  // Writing, as a value
  // ---------------------------------------------------------------------------

  /** The two durable cells and the hash whose anchor write is known to have failed. `anchored` says whether an
      anchor path is configured; without one the anchor is neither read nor written. */
  datatype Ledger = Ledger(rows: seq<Row>, anchor: Option<Digest>, anchored: bool, repair: Option<Digest>)

  function FindEvent(rows: seq<Row>, eventId: string): Option<Row>
    decreases |rows|
  {
    if rows == [] then None
    else if rows[0].fields.eventId == eventId then Some(rows[0])
    else FindEvent(rows[1..], eventId)
  }

  /** Every compared field; the timestamp is not compared. */
  predicate SameEvent(stored: Fields, event: Fields) {
    stored == event.(timestamp := stored.timestamp)
  }

  /** The anchor file, when there is one, must hold the head; when there is none the chain must be empty. */
  predicate AnchorAgrees(anchor: Option<Digest>, head: Digest) {
    match anchor
    case None => head == GENESIS
    case Some(d) => d == head
  }

  predicate Verified(l: Ledger) {
    l.anchored && Accepted(l.rows) ==> AnchorAgrees(l.anchor, Head(l.rows))
  }

  /** The anchor write after a commit, and what a failure leaves behind. */
  function Anchor(l: Ledger, hash: Digest, w: WriteOutcome): (Ledger, bool) {
    if !l.anchored then (l.(repair := if l.repair == Some(hash) then None else l.repair), true)
    else
      var l' := l.(anchor := if w.Lost? then l.anchor else Some(hash));
      if w.Done? then (l'.(repair := if l.repair == Some(hash) then None else l.repair), true)
      else (l'.(repair := Some(hash)), false)
  }

  function SealedRow(rows: seq<Row>, event: Fields): Row
    requires Accepted(rows)
  {
    Row(event, Head(rows), Some(ComputeEventHash(Head(rows), event)))
  }

  /** `write`; the flag says whether it returned. `commits` is false when the commit itself fails. */
  function Write(l: Ledger, event: Fields, commits: bool, w: WriteOutcome): (Ledger, bool) {
    if !Accepted(l.rows) then (l, false)
    else
      match FindEvent(l.rows, event.eventId)
      case Some(row) =>
        if !SameEvent(row.fields, event) then (l, false)
        else if row.eventHash != Some(Head(l.rows)) || l.repair != Some(Head(l.rows)) then
          (l, Verified(l) && commits)
        else if !commits then (l, false)
        else Anchor(l, Head(l.rows), w)
      case None =>
        if !Verified(l) || !commits then (l, false)
        else
          var row := SealedRow(l.rows, event);
          Anchor(l.(rows := l.rows + [row]), row.eventHash.value, w)
  }

  // ---------------------------------------------------------------------------
  // What each write keeps
  // ---------------------------------------------------------------------------

  ghost predicate EventIdsUnique(rows: seq<Row>) {
    forall i, j :: 0 <= i < j < |rows| ==> rows[i].fields.eventId != rows[j].fields.eventId
  }

  lemma {:induction false} FindEventFinds(rows: seq<Row>, eventId: string)
    ensures FindEvent(rows, eventId).Some? ==>
        FindEvent(rows, eventId).value in rows && FindEvent(rows, eventId).value.fields.eventId == eventId
    ensures FindEvent(rows, eventId).None? ==> forall i :: 0 <= i < |rows| ==> rows[i].fields.eventId != eventId
    decreases |rows|
  {
    if rows != [] && rows[0].fields.eventId != eventId {
      FindEventFinds(rows[1..], eventId);
      assert forall i :: 0 < i < |rows| ==> rows[i] == rows[1..][i - 1];
    }
  }

  /** The anchor holds the head or, after one failed anchor write that this writer remembers, the head before it. */
  ghost predicate AnchorNear(l: Ledger) {
    l.anchored && Accepted(l.rows) ==>
      || AnchorAgrees(l.anchor, Head(l.rows))
      || (l.repair == Some(Head(l.rows)) && Lags(l))
  }

  /** The anchor still holds the head of the chain without its last row. */
  ghost predicate Lags(l: Ledger) {
    && l.rows != [] && Accepted(l.rows) && Accepted(l.rows[..|l.rows| - 1])
    && AnchorAgrees(l.anchor, Head(l.rows[..|l.rows| - 1]))
  }

  ghost predicate Sound(l: Ledger) {
    Accepted(l.rows) && EventIdsUnique(l.rows) && AnchorNear(l)
  }

  lemma AppendAccepted(rows: seq<Row>, event: Fields)
    requires Accepted(rows)
    ensures var r := SealedRow(rows, event);
      && Accepted(rows + [r]) && r.eventHash == Some(Head(rows + [r]))
      && Head(rows + [r]) != Head(rows) && Head(rows + [r]) != GENESIS
  {
    var r := SealedRow(rows, event);
    RecoverAppend(GENESIS, rows, r);
    assert (rows + [r])[..|rows|] == rows;
    TruncationChangesHead(rows + [r], |rows|);
  }

  /** A write only ever extends the chain by its own row. With an anchor configured, a write that returns leaves
      the anchor equal to the head, and whatever happens the anchor is at most one row behind. */
  lemma WriteKeeps(l: Ledger, event: Fields, commits: bool, w: WriteOutcome)
    requires Sound(l)
    ensures var (l', ok) := Write(l, event, commits, w);
      && Sound(l')
      && (l'.rows == l.rows || l'.rows == l.rows + [SealedRow(l.rows, event)])
      && (ok ==> exists i :: 0 <= i < |l'.rows| && l'.rows[i].fields.eventId == event.eventId
                             && SameEvent(l'.rows[i].fields, event))
      && (ok && l.anchored ==> l'.anchor == Some(Head(l'.rows)))
  {
    hide ComputeEventHash, RecoverFrom, SameEvent;
    FindEventFinds(l.rows, event.eventId);
    HeadIsGenesisOnlyWhenEmpty(l.rows);
    AppendAccepted(l.rows, event);
    var (l', ok) := Write(l, event, commits, w);
    if l'.rows != l.rows {
      assert l'.rows[..|l'.rows| - 1] == l.rows;
    }
    if ok {
      ReturnedIsRecorded(l, event, commits, w);
    }
  }

  lemma ReturnedIsRecorded(l: Ledger, event: Fields, commits: bool, w: WriteOutcome)
    requires Sound(l) && Write(l, event, commits, w).1
    ensures var l' := Write(l, event, commits, w).0;
      exists i :: 0 <= i < |l'.rows| && l'.rows[i].fields.eventId == event.eventId
                  && SameEvent(l'.rows[i].fields, event)
  {
    hide ComputeEventHash, RecoverFrom, Head, AnchorNear;
    FindEventFinds(l.rows, event.eventId);
    var l' := Write(l, event, commits, w).0;
    match FindEvent(l.rows, event.eventId) {
      case None => assert l'.rows[|l.rows|] == SealedRow(l.rows, event);
      case Some(row) =>
        var i :| 0 <= i < |l.rows| && l.rows[i] == row;
        assert l'.rows[i].fields.eventId == event.eventId && SameEvent(l'.rows[i].fields, event);
    }
  }

  /** When a failed anchor write kept the old anchor, a write succeeds exactly when it repeats the last event and
      its own writes work. It then repairs the anchor and adds no row. */
  lemma OnlyTheLastEventRepairs(l: Ledger, event: Fields, commits: bool, w: WriteOutcome)
    requires Sound(l) && l.anchored && Lags(l)
    ensures var (l', ok) := Write(l, event, commits, w);
      var last := l.rows[|l.rows| - 1].fields;
      && (ok <==> event.eventId == last.eventId && SameEvent(last, event) && commits && w.Done?)
      && (ok ==> l' == l.(anchor := Some(Head(l.rows)), repair := None))
      && l'.rows == l.rows
  {
    var n := |l.rows| - 1;
    TruncationChangesHead(l.rows, n);
    HeadIsGenesisOnlyWhenEmpty(l.rows);
    FindEventFinds(l.rows, event.eventId);
    assert l.rows == l.rows[..n] + [l.rows[n]];
    RecoverAppend(GENESIS, l.rows[..n], l.rows[n]);
    if FindEvent(l.rows, event.eventId).Some? {
      var row := FindEvent(l.rows, event.eventId).value;
      var i :| 0 <= i < |l.rows| && l.rows[i] == row;
      if i != n {
        EarlierHashDiffers(l.rows, i);
      }
    }
  }

  /** The two agree on every field but the time of writing. */
  predicate Repeats(stored: Fields, event: Fields) {
    && stored.eventId == event.eventId && stored.eventType == event.eventType
    && stored.correlationId == event.correlationId && stored.environment == event.environment
    && stored.intentId == event.intentId && stored.principal == event.principal
    && stored.promptId == event.promptId && stored.sessionId == event.sessionId
    && stored.inputRef == event.inputRef && stored.data == event.data
  }

  /** A write of an id the chain has never adds a row. It returns only when the stored row repeats it field by field,
      the commit works, and the anchor holds the head, which only a repeat of the last row may restore. */
  lemma KnownIdMustRepeat(l: Ledger, event: Fields, commits: bool, w: WriteOutcome, i: nat)
    requires Sound(l) && i < |l.rows| && l.rows[i].fields.eventId == event.eventId
    ensures var (l', ok) := Write(l, event, commits, w);
      var restores := i == |l.rows| - 1 && l.repair == Some(Head(l.rows));
      && l'.rows == l.rows
      && (ok <==>
            && Repeats(l.rows[i].fields, event) && commits
            && (l.anchored ==> if restores then w.Done? else l.anchor == Some(Head(l.rows))))
      && (!Repeats(l.rows[i].fields, event) || !commits ==> l' == l)
  {
    hide ComputeEventHash, RecoverFrom;
    FindEventFinds(l.rows, event.eventId);
    HeadIsGenesisOnlyWhenEmpty(l.rows);
    var row := FindEvent(l.rows, event.eventId).value;
    assert row == l.rows[i];
    LastHashIsHead(l.rows);
    if i < |l.rows| - 1 {
      EarlierHashDiffers(l.rows, i);
    }
  }

  lemma LastHashIsHead(rows: seq<Row>)
    requires Accepted(rows) && rows != []
    ensures rows[|rows| - 1].eventHash == Some(Head(rows))
  {
    RecoversExactlyLinked(GENESIS, rows);
  }

  /** A write of a new id returns exactly when the anchor held the head, the commit works and the new head reaches the
      anchor; it is in the chain, sealed on the head, as soon as it committed. */
  lemma NewIdIsAppended(l: Ledger, event: Fields, commits: bool, w: WriteOutcome)
    requires Sound(l) && forall i :: 0 <= i < |l.rows| ==> l.rows[i].fields.eventId != event.eventId
    ensures var (l', ok) := Write(l, event, commits, w);
      var before := !l.anchored || l.anchor == (if l.rows == [] then None else Some(Head(l.rows)))
                    || (l.rows == [] && l.anchor == Some(GENESIS));
      && (ok <==> before && commits && (l.anchored ==> w.Done?))
      && (before && commits ==>
            && |l'.rows| == |l.rows| + 1 && l'.rows[..|l.rows|] == l.rows && l'.rows[|l.rows|].fields == event
            && l'.anchor == if !l.anchored || w.Lost? then l.anchor else l'.rows[|l.rows|].eventHash)
      && (!before || !commits ==> l' == l)
  {
    hide ComputeEventHash, RecoverFrom;
    FindEventFinds(l.rows, event.eventId);
    HeadIsGenesisOnlyWhenEmpty(l.rows);
  }

  lemma EarlierHashDiffers(rows: seq<Row>, i: nat)
    requires Accepted(rows) && i < |rows| - 1
    ensures rows[i].eventHash != Some(Head(rows))
  {
    PrefixAccepted(rows, i + 1);
    assert rows[..i + 1] == rows[..i] + [rows[i]];
    RecoverAppend(GENESIS, rows[..i], rows[i]);
    TruncationChangesHead(rows, i + 1);
  }

  // ---------------------------------------------------------------------------
  // Whole runs: writes, and restarts that may repair
  // ---------------------------------------------------------------------------

  datatype Step =
    | StepWrite(event: Fields, commits: bool, w: WriteOutcome)
    | StepRestart(mayRepair: bool, w: WriteOutcome)

  /** A restart forgets the failed hash. It yields a working writer only when the anchor agrees or is repaired. */
  function Restart(l: Ledger, mayRepair: bool, w: WriteOutcome): (Ledger, bool) {
    if !Accepted(l.rows) then (l.(repair := None), false)
    else if Verified(l) then (l.(repair := None), true)
    else if !mayRepair then (l.(repair := None), false)
    else (l.(repair := None, anchor := if w.Lost? then l.anchor else Some(Head(l.rows))), w.Done?)
  }

  /** The ledger after one step, and whether a writer is running on it. */
  function StepOnce(l: Ledger, live: bool, step: Step): (Ledger, bool) {
    match step
    case StepWrite(event, commits, w) => (if live then Write(l, event, commits, w).0 else l, live)
    case StepRestart(mayRepair, w) => Restart(l, mayRepair, w)
  }

  function RunSteps(l: Ledger, live: bool, steps: seq<Step>): (Ledger, bool)
    decreases |steps|
  {
    if steps == [] then (l, live)
    else
      var (l', live') := StepOnce(l, live, steps[0]);
      RunSteps(l', live', steps[1..])
  }

  lemma {:induction false} RunAppend(l: Ledger, live: bool, steps: seq<Step>, step: Step)
    ensures var (l', live') := RunSteps(l, live, steps);
      RunSteps(l, live, steps + [step]) == StepOnce(l', live', step)
    decreases |steps|
  {
    hide Write, Restart;
    if steps == [] {
      assert [] + [step] == [step] && [step][1..] == [];
      var (l', live') := StepOnce(l, live, step);
      assert RunSteps(l', live', []) == (l', live');
    } else {
      assert (steps + [step])[1..] == steps[1..] + [step];
      var (l', live') := StepOnce(l, live, steps[0]);
      RunAppend(l', live', steps[1..], step);
    }
  }

  /** Between writers the anchor may lag without anyone remembering. */
  ghost predicate Resting(l: Ledger) {
    && Accepted(l.rows) && EventIdsUnique(l.rows)
    && (l.anchored ==> AnchorAgrees(l.anchor, Head(l.rows)) || Lags(l))
  }

  lemma RestartKeeps(l: Ledger, mayRepair: bool, w: WriteOutcome)
    requires Resting(l)
    ensures var (l', ok) := Restart(l, mayRepair, w);
      Resting(l') && l'.rows == l.rows && (ok ==> Sound(l') && Verified(l'))
  {
    HeadIsGenesisOnlyWhenEmpty(l.rows);
  }

  /** A restart works exactly when the anchor holds the head, or may be rewritten and is. */
  lemma RestartWorksExactlyWhen(l: Ledger, mayRepair: bool, w: WriteOutcome)
    requires Resting(l)
    ensures var (l', ok) := Restart(l, mayRepair, w);
      var holds := !l.anchored || l.anchor == Some(Head(l.rows)) || (l.anchor.None? && l.rows == []);
      && (ok <==> holds || (mayRepair && w.Done?))
      && l' == l.(repair := None,
                  anchor := if !holds && mayRepair && !w.Lost? then Some(Head(l.rows)) else l.anchor)
  {
    HeadIsGenesisOnlyWhenEmpty(l.rows);
  }

  /** Over every run of writes, crashes, restarts and repairs by one writer at a time, the chain stays accepted,
      only grows, and is never more than one row ahead of its anchor. */
  lemma {:induction false} RunKeeps(l: Ledger, live: bool, steps: seq<Step>)
    requires Resting(l) && (live ==> Sound(l))
    ensures var (l', live') := RunSteps(l, live, steps);
      Resting(l') && l.rows <= l'.rows && (live' ==> Sound(l'))
    decreases |steps|
  {
    if steps != [] {
      match steps[0] {
        case StepWrite(event, commits, w) =>
          if live {
            WriteKeeps(l, event, commits, w);
            RunKeeps(Write(l, event, commits, w).0, live, steps[1..]);
          } else {
            RunKeeps(l, live, steps[1..]);
          }
        case StepRestart(mayRepair, w) =>
          RestartKeeps(l, mayRepair, w);
          var (l', ok) := Restart(l, mayRepair, w);
          RunKeeps(l', ok, steps[1..]);
      }
    }
  }

  // ---------------------------------------------------------------------------
  // The writer object
  // ---------------------------------------------------------------------------

  class AuditDatabase {
    var rows: seq<Row>

    constructor (rows: seq<Row>)
      ensures this.rows == rows
    {
      this.rows := rows;
    }
  }

  /** The anchor file: absent, or one digest. */
  class AnchorFile {
    var content: Option<Digest>

    constructor (content: Option<Digest>)
      ensures this.content == content
    {
      this.content := content;
    }
  }

  class AuditWriter {
    const database: AuditDatabase
    const anchorFile: AnchorFile
    const anchored: bool
    var lastHash: Digest
    var pendingAnchorRepairHash: Option<Digest>

    constructor (database: AuditDatabase, anchorFile: AnchorFile, anchored: bool)
      ensures this.database == database && this.anchorFile == anchorFile && this.anchored == anchored
      ensures lastHash == GENESIS && pendingAnchorRepairHash == None
    {
      this.database, this.anchorFile, this.anchored := database, anchorFile, anchored;
      lastHash, pendingAnchorRepairHash := GENESIS, None;
    }

    ghost function View(): Ledger
      reads this, database, anchorFile
    {
      Ledger(database.rows, anchorFile.content, anchored, pendingAnchorRepairHash)
    }

    /** The rest of the source's constructor: seal a legacy table, recover the head, check or repair the anchor. */
    method Open(mayRepair: bool, w: WriteOutcome) returns (ok: bool)
      modifies this, database, anchorFile
      requires pendingAnchorRepairHash.None?
      ensures ok ==> Accepted(database.rows) && lastHash == Head(database.rows) && Verified(View())
      ensures |database.rows| == |old(database.rows)|
      ensures forall i :: 0 <= i < |database.rows| ==> database.rows[i].fields == old(database.rows[i].fields)
      ensures (exists i :: 0 <= i < |old(database.rows)| && old(database.rows)[i].eventHash.Some?) ==>
          (View(), ok) == Restart(old(View()), mayRepair, w)
    {
      hide ComputeEventHash, RecoverFrom, SealFrom;
      ok := BackfillLegacyEventHashes();
      if !ok {
        var i :| 0 <= i < |database.rows| && database.rows[i].eventHash.None?;
        UnsealedIsRejected(GENESIS, database.rows, i);
        return;
      }
      ok := RecoverLastHash();
      if !ok {
        return;
      }
      ok := VerifyAnchoredHash(mayRepair, w);
    }

    /** Seals a table that has no sealed row; refuses one that mixes sealed and unsealed rows. */
    method BackfillLegacyEventHashes() returns (ok: bool)
      modifies database
      ensures !ok <==> Mixed(old(database.rows))
      ensures (exists i :: 0 <= i < |old(database.rows)| && old(database.rows)[i].eventHash.Some?) ==>
          database.rows == old(database.rows)
      ensures (forall i :: 0 <= i < |old(database.rows)| ==> old(database.rows)[i].eventHash.None?) ==>
          database.rows == SealFrom(GENESIS, old(database.rows)) && Accepted(database.rows)
    {
      var rows := database.rows;
      ok := true;
      if forall i :: 0 <= i < |rows| ==> rows[i].eventHash.Some? {
        return;
      }
      if exists i :: 0 <= i < |rows| && rows[i].eventHash.Some? {
        return false;
      }
      SealLegacyRows();
    }

    /** The loop of updates over a table without sealed rows. */
    method SealLegacyRows()
      modifies database
      ensures database.rows == SealFrom(GENESIS, old(database.rows)) && Accepted(database.rows)
    {
      hide ComputeEventHash, RecoverFrom, SealFrom;
      var rows := database.rows;
      var previousHash := GENESIS;
      var i := 0;
      NothingSealed(rows);
      while i < |rows|
        invariant SealedUpTo(rows, i, database.rows, previousHash)
      {
        SealOne(rows, i, database.rows, previousHash);
        var eventHash := ComputeEventHash(previousHash, rows[i].fields);
        database.rows := database.rows[i := Row(database.rows[i].fields, previousHash, Some(eventHash))];
        previousHash := eventHash;
        i := i + 1;
      }
      assert rows[..i] == rows && rows[i..] == [];
      assert SealFrom(GENESIS, rows) + [] == SealFrom(GENESIS, rows);
    }

    method RecoverLastHash() returns (ok: bool)
      modifies this`lastHash
      ensures ok <==> Accepted(database.rows)
      ensures lastHash == if ok then Head(database.rows) else old(lastHash)
    {
      var rows := database.rows;
      var previousHash := GENESIS;
      var i := 0;
      while i < |rows|
        invariant 0 <= i <= |rows|
        invariant RecoverFrom(previousHash, rows[i..]) == Recover(rows)
      {
        var row := rows[i];
        assert rows[i..][1..] == rows[i + 1..];
        if row.previousHash != previousHash || row.eventHash.None? {
          return false;
        }
        var eventHash := ComputeEventHash(row.previousHash, row.fields);
        if row.eventHash.value != eventHash {
          return false;
        }
        previousHash := eventHash;
        i := i + 1;
      }
      lastHash := previousHash;
      ok := true;
    }

    method VerifyAnchoredHash(mayRepair: bool, w: WriteOutcome) returns (ok: bool)
      modifies anchorFile
      ensures !anchored || AnchorAgrees(old(anchorFile.content), lastHash) ==>
        ok && anchorFile.content == old(anchorFile.content)
      ensures anchored && !AnchorAgrees(old(anchorFile.content), lastHash) ==>
        && (ok <==> mayRepair && w.Done?)
        && anchorFile.content == if mayRepair && !w.Lost? then Some(lastHash) else old(anchorFile.content)
    {
      if !anchored {
        return true;
      }
      if anchorFile.content.None? {
        if lastHash != GENESIS {
          if mayRepair {
            ok := WriteAnchoredHash(Some(lastHash), w);
            return;
          }
          return false;
        }
        return true;
      }
      if anchorFile.content.value != lastHash {
        if mayRepair {
          ok := WriteAnchoredHash(Some(lastHash), w);
          return;
        }
        return false;
      }
      ok := true;
    }

    method WriteAnchoredHash(hash: Option<Digest>, w: WriteOutcome) returns (ok: bool)
      modifies anchorFile
      ensures !anchored || hash.None? ==> ok && anchorFile.content == old(anchorFile.content)
      ensures anchored && hash.Some? ==>
        (ok <==> w.Done?) && anchorFile.content == if w.Lost? then old(anchorFile.content) else hash
    {
      if !anchored || hash.None? {
        return true;
      }
      if !w.Lost? {
        anchorFile.content := hash;
      }
      ok := w.Done?;
    }

    method WriteEvent(event: Fields, commits: bool, w: WriteOutcome) returns (ok: bool)
      modifies this, database, anchorFile
      ensures (View(), ok) == Write(old(View()), event, commits, w)
      ensures ok ==> Accepted(database.rows) && lastHash == Head(database.rows)
    {
      ghost var was := database.rows;
      var committedHash: Option<Digest>;
      ok, committedHash := Transaction(event, commits);
      if !ok {
        return;
      }
      AppendAccepted(was, event);
      ok := WriteAnchoredHash(committedHash, w);
      if ok {
        if committedHash.Some? && pendingAnchorRepairHash == committedHash {
          pendingAnchorRepairHash := None;
        }
      } else if committedHash.Some? {
        pendingAnchorRepairHash := committedHash;
      }
    }

    /** The immediate transaction of `write`: its hash to anchor, if it committed one. A failed commit rolls the
        inserted row back but not the writer's own `lastHash`, which the next write recovers again. */
    method Transaction(event: Fields, commits: bool) returns (ok: bool, committedHash: Option<Digest>)
      modifies this`lastHash, database
      ensures ok ==> Accepted(database.rows) && lastHash == Head(database.rows)
      ensures ok && committedHash.Some? ==> committedHash.value == Head(database.rows)
      ensures !ok ==> database.rows == old(database.rows)
      ensures var l := old(View());
        && (ok ==> commits && Accepted(l.rows))
        && match FindEvent(l.rows, event.eventId)
           case None =>
             && (ok <==> Accepted(l.rows) && Verified(l) && commits)
             && (ok ==> database.rows == l.rows + [SealedRow(l.rows, event)] && committedHash.Some?)
           case Some(row) =>
             && database.rows == l.rows
             && (Accepted(l.rows) ==>
                   var retry := row.eventHash == Some(Head(l.rows)) && l.repair == Some(Head(l.rows));
                   && (ok <==> SameEvent(row.fields, event) && (retry || Verified(l)) && commits)
                   && (ok ==> (committedHash.Some? <==> retry)))
    {
      committedHash := None;
      ok := RecoverLastHash();
      if !ok {
        return;
      }
      var existing := FindEvent(database.rows, event.eventId);
      if existing.Some? {
        if !SameEvent(existing.value.fields, event) {
          return false, None;
        }
        if existing.value.eventHash != Some(lastHash) || pendingAnchorRepairHash != Some(lastHash) {
          ok := VerifyAnchor();
          return ok && commits, None;
        }
        return commits, if commits then Some(lastHash) else None;
      }
      ok := VerifyAnchor();
      if !ok {
        return;
      }
      AppendAccepted(database.rows, event);
      var previousHash := lastHash;
      var eventHash := ComputeEventHash(previousHash, event);
      var inserted := database.rows + [Row(event, previousHash, Some(eventHash))];
      lastHash := eventHash;
      if !commits {
        return false, None;
      }
      database.rows := inserted;
      committedHash := Some(eventHash);
    }

    /** `verifyAnchoredHash(false)`: the check alone. */
    method VerifyAnchor() returns (ok: bool)
      ensures ok <==> !anchored || AnchorAgrees(anchorFile.content, lastHash)
    {
      if !anchored {
        return true;
      }
      ok := AnchorAgrees(anchorFile.content, lastHash);
    }
  }
}
