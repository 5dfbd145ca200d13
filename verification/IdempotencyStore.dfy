/** The broker's durable idempotency store: one locked file shared by every broker process, and in
    each process a map of reservations whose promises other callers may be waiting on.

    The digests `hashIntentPayload` and `hashPendingAudit` are idealised as collision-free, so the
    hashed value itself stands for the digest. */
module IdempotencyStore {
  import opened Outcomes
  import opened TradingIntents
  import Numerals

  // ---------------------------------------------------------------------------
  // Results, terminal audit events and their evidence
  // ---------------------------------------------------------------------------

  datatype OrderStatus = OrderStatus(
    orderId: string, symbol: string, side: string, status: string, executedQty: real, avgPrice: real)

  /** `reconciliation` stands for a record its schema accepts, `simulation` is the provider of a simulation. */
  datatype Evidence = Evidence(
    orderId: Option<string>, transactionHash: Option<string>, orderStatus: Option<OrderStatus>,
    reconciliation: Option<string>, simulation: Option<string>)

  datatype BrokerResult =
    | Rejected(intentId: string, idempotencyKey: string, reason: string)
    | Failed(intentId: string, idempotencyKey: string, revalidationPassed: bool, reason: string)
    | Executed(intentId: string, idempotencyKey: string, kind: Action, evidence: Evidence)

  datatype EventType = BrokerExecuted | BrokerFailed

  /** The data of a refusal, of a failure, and of an execution: its status with the evidence fields. */
  datatype EventData =
    | Refusal(message: string)
    | FailedData(rejectionReason: string, error: string)
    | ExecutedData(evidence: Evidence)

  datatype AuditEvent = AuditEvent(
    eventId: Option<string>, eventType: EventType, environment: string, intentId: string,
    principal: string, correlationId: string, data: EventData)

  /** The event that reports `result`: right type, right intent, and data that repeats its reason or evidence. */
  predicate Reports(e: AuditEvent, result: BrokerResult) {
    && e.intentId == result.intentId
    && match result
       case Rejected(_, _, reason) => e.eventType.BrokerFailed? && e.data == Refusal(reason)
       case Failed(_, _, _, reason) =>
         e.eventType.BrokerFailed? && e.data.FailedData? && e.data.rejectionReason == reason
       case Executed(_, _, _, evidence) => e.eventType.BrokerExecuted? && e.data == ExecutedData(evidence)
  }

  function ActionText(a: Action): string {
    match a
    case PlaceOrder => "cex.place_order"
    case CancelOrder => "cex.cancel_order"
    case GetOrderStatus => "cex.get_order_status"
    case RequestSignature => "onchain.request_signature"
    case SimulateTransaction => "onchain.simulate_transaction"
  }

  /** What follows the event type and the intent's id. */
  function IdTail(intent: Intent, correlationId: string): string {
    intent.idempotencyKey + ":" + (intent.principal + ":" + (ActionText(intent.action) + ":"
    + (intent.resource + ":" + correlationId)))
  }

  /** The text whose digest becomes the event id. Its fields are joined by colons that the fields may
      themselves contain, so different intents may share an id; nothing below assumes otherwise. */
  function TerminalEventId(intent: Intent, correlationId: string, t: EventType): string {
    (if t.BrokerExecuted? then "broker.executed" else "broker.failed") + ":"
    + (intent.intentId + ":" + IdTail(intent, correlationId))
  }

  predicate NoColon(s: string) {
    ':' !in s
  }

  lemma {:induction false} FirstColon(a: string, x: string, b: string, y: string)
    requires NoColon(a) && NoColon(b) && a + ":" + x == b + ":" + y
    ensures a == b && x == y
  {
    var s, t := a + ":" + x, b + ":" + y;
    assert s[|a|] == ':' && t[|b|] == ':';
    assert forall i :: 0 <= i < |a| ==> s[i] == a[i];
    assert forall i :: 0 <= i < |b| ==> t[i] == b[i];
    assert |a| == |b|;
    assert a == s[..|a|] && b == t[..|b|] && x == s[|a| + 1..] && y == t[|b| + 1..];
  }

  lemma LastColon(x: string, a: string, y: string, b: string)
    requires NoColon(a) && NoColon(b) && x + ":" + a == y + ":" + b
    ensures a == b && x == y
  {
    var s, t := x + ":" + a, y + ":" + b;
    assert s[|x|] == ':' && t[|y|] == ':';
    assert forall i :: |x| < i < |s| ==> s[i] == a[i - |x| - 1];
    assert forall i :: |y| < i < |t| ==> t[i] == b[i - |y| - 1];
    assert |x| == |y|;
    assert x == s[..|x|] && y == t[..|y|] && a == s[|x| + 1..] && b == t[|y| + 1..];
  }

  /** Where neither the intent's id, key and principal nor the correlation id holds a colon, a terminal id is that of
      one scope, intent, correlation and outcome only; the resource may hold any. */
  lemma TerminalIdsDetermineCalls(i: Intent, c: string, t: EventType, i': Intent, c': string, t': EventType)
    requires NoColon(i.intentId) && NoColon(i.idempotencyKey) && NoColon(i.principal) && NoColon(c)
    requires NoColon(i'.intentId) && NoColon(i'.idempotencyKey) && NoColon(i'.principal) && NoColon(c')
    requires TerminalEventId(i, c, t) == TerminalEventId(i', c', t')
    ensures t == t' && c == c' && i.intentId == i'.intentId && ScopeKey(i) == ScopeKey(i')
  {
    hide IdTail;
    var e, e' := if t.BrokerExecuted? then "broker.executed" else "broker.failed",
                 if t'.BrokerExecuted? then "broker.executed" else "broker.failed";
    FirstColon(e, i.intentId + ":" + IdTail(i, c), e', i'.intentId + ":" + IdTail(i', c'));
    FirstColon(i.intentId, IdTail(i, c), i'.intentId, IdTail(i', c'));
    TailsDetermineScopes(i, c, i', c');
  }

  lemma TailsDetermineScopes(i: Intent, c: string, i': Intent, c': string)
    requires NoColon(i.idempotencyKey) && NoColon(i.principal) && NoColon(c)
    requires NoColon(i'.idempotencyKey) && NoColon(i'.principal) && NoColon(c')
    requires IdTail(i, c) == IdTail(i', c')
    ensures c == c' && ScopeKey(i) == ScopeKey(i')
  {
    hide ActionText, NoColon;
    var s, s' := i.resource + ":" + c, i'.resource + ":" + c';
    var a, a' := ActionText(i.action) + ":" + s, ActionText(i'.action) + ":" + s';
    FirstColon(i.idempotencyKey, i.principal + ":" + a, i'.idempotencyKey, i'.principal + ":" + a');
    FirstColon(i.principal, a, i'.principal, a');
    ActionHasNoColon(i.action);
    ActionHasNoColon(i'.action);
    FirstColon(ActionText(i.action), s, ActionText(i'.action), s');
    ActionsDiffer(i.action, i'.action);
    LastColon(i.resource, c, i'.resource, c');
  }

  lemma ActionHasNoColon(a: Action)
    ensures NoColon(ActionText(a))
  {
    match a
    case PlaceOrder => assert NoColon("cex.place_order");
    case CancelOrder => assert NoColon("cex.cancel_order");
    case GetOrderStatus => assert NoColon("cex.get_order_status");
    case RequestSignature => assert NoColon("onchain.request_signature");
    case SimulateTransaction => assert NoColon("onchain.simulate_transaction");
  }

  lemma ActionsDiffer(a: Action, b: Action)
    requires |ActionText(a)| == |ActionText(b)|
    ensures a == b
  {
  }

  /** With colons in keys or principals it is not: two calls of different scopes then share one id. */
  lemma ColonsShareTerminalIds(i: Intent, correlationId: string, t: EventType)
    ensures var a := i.(idempotencyKey := "k:p", principal := "q");
      var b := i.(idempotencyKey := "k", principal := "p:q");
      ScopeKey(a) != ScopeKey(b) && TerminalEventId(a, correlationId, t) == TerminalEventId(b, correlationId, t)
  {
    var a, b := i.(idempotencyKey := "k:p", principal := "q"), i.(idempotencyKey := "k", principal := "p:q");
    ColonsRegroup(ActionText(i.action) + ":" + (i.resource + ":" + correlationId));
  }

  lemma ColonsRegroup(rest: string)
    ensures "k:p" + ":" + ("q" + ":" + rest) == "k" + ":" + ("p:q" + ":" + rest)
  {
    assert "k:p" + ":" + ("q" + ":" + rest) == "k:p:q:" + rest;
    assert "k" + ":" + ("p:q" + ":" + rest) == "k:p:q:" + rest;
  }

  /** `validateCachedResultEvidenceForIntent`. */
  predicate EvidenceReplayable(result: BrokerResult, intent: Intent) {
    var status := if result.Executed? then result.evidence.orderStatus else None;
    var orderId := if result.Executed? then result.evidence.orderId else None;
    && (result.Executed? ==> result.kind == intent.action)
    && (intent.action.CancelOrder? && orderId.Some? ==> orderId.value == intent.orderId)
    && (intent.action.GetOrderStatus? ==>
          && (orderId.Some? ==> orderId.value == intent.orderId)
          && status.Some? && status.value.orderId == intent.orderId && status.value.symbol == intent.symbol)
    && (intent.action.PlaceOrder? && status.Some? ==>
          && status.value.symbol == intent.symbol && Numerals.Lower(status.value.side) == intent.side
          && (orderId.Some? ==> status.value.orderId == orderId.value))
  }

  /** `validateCachedEntryForIntent`. */
  predicate Replayable(result: BrokerResult, pendingAudit: Option<AuditEvent>, intent: Intent) {
    && result.intentId == intent.intentId
    && result.idempotencyKey == intent.idempotencyKey
    && EvidenceReplayable(result, intent)
    && (pendingAudit.Some? ==>
          var e := pendingAudit.value;
          && e.environment == intent.environment
          && e.principal == intent.principal
          && e.eventId == Some(TerminalEventId(intent, e.correlationId, e.eventType)))
  }

  // ---------------------------------------------------------------------------
  // The store as a value
  // ---------------------------------------------------------------------------

  datatype Entry =
    | InProgress(hash: Intent)
    | Cached(hash: Intent, result: BrokerResult, pendingAudit: Option<AuditEvent>)

  /** A settled promise never changes again. */
  datatype Promise = Unsettled | Resolved(result: BrokerResult) | Broken

  datatype Reservation = Reservation(hash: Intent, promise: nat)

  type File = map<ScopedKey, Entry>

  datatype Store = Store(file: File, pending: map<ScopedKey, Reservation>, promises: map<nat, Promise>)

  datatype BeginReply =
    | Reserve
    | Replay(result: BrokerResult, pendingAudit: Option<AuditEvent>)
    | Join(promise: nat)
    | Orphaned
    | Conflict
    | Failure

  function Settle(promises: map<nat, Promise>, id: nat, p: Promise): map<nat, Promise> {
    if id in promises && promises[id].Unsettled? then promises[id := p] else promises
  }

  /** The locked read-update-write cycle: the update reaches the file unless the write is lost. */
  function Written(was: File, now: File, w: WriteOutcome): File {
    if w.Lost? then was else now
  }

  function Begin(s: Store, intent: Intent, promise: nat, w: WriteOutcome): (Store, BeginReply) {
    var k := ScopeKey(intent);
    if k in s.pending then
      (s, if s.pending[k].hash != intent then Conflict else Join(s.pending[k].promise))
    else if k !in s.file then
      var s' := s.(file := Written(s.file, s.file[k := InProgress(intent)], w));
      if w.Done? then
        (s'.(pending := s.pending[k := Reservation(intent, promise)],
             promises := s.promises[promise := Unsettled]), Reserve)
      else (s', Failure)
    else if !w.Done? then (s, Failure)
    else if s.file[k].hash != intent then (s, Conflict)
    else if s.file[k].InProgress? then (s, Orphaned)
    else if !Replayable(s.file[k].result, s.file[k].pendingAudit, intent) then (s, Failure)
    else (s, Replay(s.file[k].result, s.file[k].pendingAudit))
  }

  /** `true` when the store still holds the caller's own reservation. */
  predicate Holds(s: Store, intent: Intent) {
    ScopeKey(intent) in s.pending && s.pending[ScopeKey(intent)].hash == intent
  }

  /** `complete`; the flag says whether it threw. */
  function Complete(s: Store, intent: Intent, result: BrokerResult, pendingAudit: Option<AuditEvent>, w: WriteOutcome)
    : (Store, bool)
  {
    var k := ScopeKey(intent);
    if !Holds(s, intent) then (s, false)
    else
      var s' := s.(file := Written(s.file, s.file[k := Cached(intent, result, pendingAudit)], w));
      if !w.Done? then
        (s'.(pending := s.pending - {k}, promises := Settle(s.promises, s.pending[k].promise, Broken)), true)
      else if pendingAudit.None? then
        (s'.(pending := s.pending - {k}, promises := Settle(s.promises, s.pending[k].promise, Resolved(result))), false)
      else (s', false)
  }

  function ClearPendingAudit(f: File, k: ScopedKey, hash: Intent): File {
    if k in f && f[k].Cached? && f[k].hash == hash then f[k := f[k].(pendingAudit := None)] else f
  }

  /** The reserver's `completeAudit`. When its write fails the broken reservation stays in the process. */
  function CompleteAudit(s: Store, intent: Intent, w: WriteOutcome): (Store, bool) {
    var k := ScopeKey(intent);
    var s' := s.(file := Written(s.file, ClearPendingAudit(s.file, k, intent), w));
    if !w.Done? then
      (if Holds(s, intent) then s'.(promises := Settle(s.promises, s.pending[k].promise, Broken)) else s', true)
    else if !Holds(s, intent) then (s', false)
    else
      var outcome := if k in s.file && s.file[k].Cached? && s.file[k].hash == intent
                     then Resolved(s.file[k].result) else Broken;
      (s'.(pending := s.pending - {k}, promises := Settle(s.promises, s.pending[k].promise, outcome)), false)
  }

  /** The `completeAudit` of a replayed result. */
  function CompleteReplayedAudit(s: Store, intent: Intent, w: WriteOutcome): (Store, bool) {
    (s.(file := Written(s.file, ClearPendingAudit(s.file, ScopeKey(intent), intent), w)), !w.Done?)
  }

  function FailAudit(s: Store, intent: Intent): Store {
    var k := ScopeKey(intent);
    if !Holds(s, intent) then s
    else s.(pending := s.pending - {k}, promises := Settle(s.promises, s.pending[k].promise, Broken))
  }

  function Abort(s: Store, intent: Intent, w: WriteOutcome): (Store, bool) {
    var k := ScopeKey(intent);
    if !Holds(s, intent) then (s, false)
    else
      var freed := if k in s.file && s.file[k] == InProgress(intent) then s.file - {k} else s.file;
      (s.(file := Written(s.file, freed, w), pending := s.pending - {k},
          promises := Settle(s.promises, s.pending[k].promise, Broken)), !w.Done?)
  }

  // ---------------------------------------------------------------------------
  // The life of a reservation
  // ---------------------------------------------------------------------------

  /** Nothing is known of the intent's key. */
  predicate Free(s: Store, intent: Intent) {
    ScopeKey(intent) !in s.pending && ScopeKey(intent) !in s.file
  }

  /** While a reservation is held, the same call waits for its promise and another payload conflicts; and should its
      process crash, the key is orphaned for everybody. */
  lemma HeldKeyIsJoined(s: Store, intent: Intent, promise: nat, other: Intent, later: nat, w: WriteOutcome)
    requires Free(s, intent) && ScopeKey(other) == ScopeKey(intent)
    ensures var (held, reply) := Begin(s, intent, promise, Done);
      && reply == Reserve && Holds(held, intent)
      && held.promises == s.promises[promise := Unsettled]
      && Begin(held, other, later, w) == (held, if other == intent then Join(promise) else Conflict)
      && Begin(held.(pending := s.pending), other, later, Done)
         == (held.(pending := s.pending), if other == intent then Orphaned else Conflict)
  {
  }

  /** A key that could not be written is not reserved: its caller fails, and a later one may find it orphaned. */
  lemma FailedBeginReservesNothing(s: Store, intent: Intent, promise: nat, w: WriteOutcome)
    requires Free(s, intent) && !w.Done?
    ensures var (s', reply) := Begin(s, intent, promise, w);
      && reply == Failure && s'.pending == s.pending && s'.promises == s.promises
      && (w.Lost? ==> s'.file == s.file)
      && (w.Half? ==> Begin(s', intent, promise, Done) == (s', Orphaned))
  {
  }

  /** Aborting undoes beginning: the key is as free as before, in the file and in the process, and its waiters fail.
      When the abort's own write is lost, the file keeps the key, and it is orphaned. */
  lemma AbortUndoesBegin(s: Store, intent: Intent, promise: nat, w: WriteOutcome)
    requires Free(s, intent)
    ensures var held := Begin(s, intent, promise, Done).0;
      var (s', threw) := Abort(held, intent, w);
      && (threw <==> !w.Done?) && s'.pending == s.pending && s'.promises == s.promises[promise := Broken]
      && (!w.Lost? ==> s'.file == s.file)
      && (w.Lost? ==> s'.file == held.file && Begin(s', intent, promise, Done).1 == Orphaned)
  {
    assert s.file[ScopeKey(intent) := InProgress(intent)] - {ScopeKey(intent)} == s.file;
    assert s.pending[ScopeKey(intent) := Reservation(intent, promise)] - {ScopeKey(intent)} == s.pending;
  }

  /** A result stored without an audit to come settles the key: waiters get it, the process lets go, and retries with
      the same payload are given it if it passes the check. If its write throws, the waiters fail. */
  lemma CompletedIsReplayed(s: Store, intent: Intent, promise: nat, result: BrokerResult, w: WriteOutcome)
    requires Free(s, intent)
    ensures var held := Begin(s, intent, promise, Done).0;
      var (s', threw) := Complete(held, intent, result, None, w);
      && (threw <==> !w.Done?) && s'.pending == s.pending
      && s'.promises == s.promises[promise := if w.Done? then Resolved(result) else Broken]
      && s'.file == s.file[ScopeKey(intent) := if w.Lost? then InProgress(intent) else Cached(intent, result, None)]
      && Begin(s', intent, promise, Done).1 ==
           if w.Lost? then Orphaned else if Replayable(result, None, intent) then Replay(result, None) else Failure
  {
    hide Replayable;
    assert s.pending[ScopeKey(intent) := Reservation(intent, promise)] - {ScopeKey(intent)} == s.pending;
  }

  /** A result stored with an audit to come is in the file but stays held: its own process still waits for it, and
      another process is given it with the audit it must first write. */
  lemma StoredResultIsHeld(s: Store, intent: Intent, promise: nat, result: BrokerResult, e: AuditEvent, later: nat)
    requires Free(s, intent) && Replayable(result, Some(e), intent)
    ensures var held := Begin(s, intent, promise, Done).0;
      var (stored, threw) := Complete(held, intent, result, Some(e), Done);
      var elsewhere := stored.(pending := s.pending);
      && !threw && stored.pending == held.pending && stored.promises == held.promises
      && stored.file == s.file[ScopeKey(intent) := Cached(intent, result, Some(e))]
      && Begin(stored, intent, later, Done).1 == Join(promise)
      && Begin(elsewhere, intent, later, Done) == (elsewhere, Replay(result, Some(e)))
  {
    hide Replayable;
  }

  /** Its release gives it to the waiters and clears the audit; a failed audit gives them nothing and clears nothing;
      both let the process go. A release that throws breaks the promise and leaves the reservation behind. */
  lemma StoredResultIsReleased(s: Store, intent: Intent, promise: nat, result: BrokerResult, e: AuditEvent,
                               w: WriteOutcome)
    requires Free(s, intent)
    ensures var held := Begin(s, intent, promise, Done).0;
      var stored := Complete(held, intent, result, Some(e), Done).0;
      var (released, threw) := CompleteAudit(stored, intent, w);
      var k, given, failed := ScopeKey(intent), s.promises[promise := Resolved(result)], s.promises[promise := Broken];
      && (threw <==> !w.Done?)
      && released.file == s.file[k := Cached(intent, result, if w.Lost? then Some(e) else None)]
      && (w.Done? ==> released.pending == s.pending && released.promises == given)
      && (!w.Done? ==> released.pending == held.pending && released.promises == failed)
      && FailAudit(stored, intent) == Store(stored.file, s.pending, failed)
      && CompleteReplayedAudit(stored.(pending := s.pending), intent, w)
         == (Store(released.file, s.pending, stored.promises), threw)
  {
    assert s.pending[ScopeKey(intent) := Reservation(intent, promise)] - {ScopeKey(intent)} == s.pending;
  }

  /** A release without a reservation is a replayer's; one that finds no stored result of its payload gives its waiters
      none. */
  lemma ReleaseWithoutItsResult(s: Store, intent: Intent, w: WriteOutcome)
    ensures !Holds(s, intent) ==> CompleteAudit(s, intent, w) == CompleteReplayedAudit(s, intent, w)
    ensures Holds(s, intent) && (ScopeKey(intent) in s.file ==> s.file[ScopeKey(intent)] == InProgress(intent)) ==>
      var (s', threw) := CompleteAudit(s, intent, Done);
      var p := s.pending[ScopeKey(intent)].promise;
      && !threw && s'.file == s.file && s'.pending == s.pending - {ScopeKey(intent)}
      && (p in s.promises && s.promises[p].Unsettled? ==> s'.promises == s.promises[p := Broken])
  {
  }

  /** A file that cannot be locked, read and written back answers nothing. */
  lemma FailedReadAnswersNothing(s: Store, intent: Intent, promise: nat, w: WriteOutcome)
    requires ScopeKey(intent) !in s.pending && ScopeKey(intent) in s.file && !w.Done?
    ensures Begin(s, intent, promise, w) == (s, Failure)
  {
  }

  /** A call that does not hold the key's reservation, or holds it for another payload, changes nothing. */
  lemma OthersChangeNothing(s: Store, intent: Intent, result: BrokerResult, pendingAudit: Option<AuditEvent>,
                            w: WriteOutcome)
    requires ScopeKey(intent) in s.pending ==> s.pending[ScopeKey(intent)].hash != intent
    ensures Complete(s, intent, result, pendingAudit, w) == (s, false)
    ensures Abort(s, intent, w) == (s, false) && FailAudit(s, intent) == s
  {
  }

  /** A stored result passes the check on replay exactly when it speaks of the intent: its ids, its kind, and what its
      evidence says of the order; and its pending event, if any, is the one this intent's call would write. */
  lemma ReplayableExactlyWhen(result: BrokerResult, pendingAudit: Option<AuditEvent>, intent: Intent)
    ensures Replayable(result, pendingAudit, intent) <==>
      && result.intentId == intent.intentId && result.idempotencyKey == intent.idempotencyKey
      && (pendingAudit.Some? ==>
            var e := pendingAudit.value;
            && e.environment == intent.environment && e.principal == intent.principal
            && e.eventId == Some(TerminalEventId(intent, e.correlationId, e.eventType)))
      && (!result.Executed? ==> !intent.action.GetOrderStatus?)
      && (result.Executed? ==>
            var id, status := result.evidence.orderId, result.evidence.orderStatus;
            && result.kind == intent.action
            && match intent.action
               case PlaceOrder =>
                 status.Some? ==>
                   && status.value.symbol == intent.symbol && Numerals.Lower(status.value.side) == intent.side
                   && (id.Some? ==> id.value == status.value.orderId)
               case CancelOrder => id.Some? ==> id.value == intent.orderId
               case GetOrderStatus =>
                 && status.Some? && status.value.orderId == intent.orderId && status.value.symbol == intent.symbol
                 && (id.Some? ==> id.value == intent.orderId)
               case _ => true)
  {
  }

  // ---------------------------------------------------------------------------
  // The store objects
  // ---------------------------------------------------------------------------

  class StateFile {
    var entries: File

    constructor ()
      ensures entries == map[]
    {
      entries := map[];
    }
  }

  class FileBrokerIdempotencyStore {
    const file: StateFile
    var pending: map<ScopedKey, Reservation>
    var promises: map<nat, Promise>

    constructor (file: StateFile)
      ensures this.file == file && pending == map[] && promises == map[]
    {
      this.file := file;
      pending, promises := map[], map[];
    }

    ghost function View(): Store
      reads this, file
    {
      Store(file.entries, pending, promises)
    }

    /** Replaces the file under the lock; `false` when the replacement throws. */
    method WriteState(entries: File, w: WriteOutcome) returns (ok: bool)
      modifies file
      ensures file.entries == Written(old(file.entries), entries, w)
      ensures ok == w.Done?
    {
      if !w.Lost? {
        file.entries := entries;
      }
      ok := w.Done?;
    }

    method SettlePromise(id: nat, p: Promise)
      modifies this`promises
      ensures promises == Settle(old(promises), id, p)
    {
      if id in promises && promises[id].Unsettled? {
        promises := promises[id := p];
      }
    }

    method BeginReservation(intent: Intent, promise: nat, w: WriteOutcome) returns (reply: BeginReply)
      modifies this, file
      ensures (View(), reply) == Begin(old(View()), intent, promise, w)
    {
      var k := ScopeKey(intent);
      if k in pending {
        if pending[k].hash != intent {
          return Conflict;
        }
        return Join(pending[k].promise);
      }
      var existing := if k in file.entries then Some(file.entries[k]) else None;
      var entries := file.entries;
      if existing.None? {
        entries := entries[k := InProgress(intent)];
      }
      var ok := WriteState(entries, w);
      if !ok {
        return Failure;
      }
      if existing.Some? {
        if existing.value.hash != intent {
          return Conflict;
        }
        if existing.value.InProgress? {
          return Orphaned;
        }
        if !Replayable(existing.value.result, existing.value.pendingAudit, intent) {
          return Failure;
        }
        return Replay(existing.value.result, existing.value.pendingAudit);
      }
      promises := promises[promise := Unsettled];
      pending := pending[k := Reservation(intent, promise)];
      reply := Reserve;
    }

    method CompleteReservation(intent: Intent, result: BrokerResult, pendingAudit: Option<AuditEvent>, w: WriteOutcome)
      returns (threw: bool)
      modifies this, file
      ensures (View(), threw) == Complete(old(View()), intent, result, pendingAudit, w)
    {
      var k := ScopeKey(intent);
      if k !in pending || pending[k].hash != intent {
        return false;
      }
      var current := pending[k];
      var ok := WriteState(file.entries[k := Cached(intent, result, pendingAudit)], w);
      if !ok {
        pending := pending - {k};
        SettlePromise(current.promise, Broken);
        return true;
      }
      if pendingAudit.None? {
        pending := pending - {k};
        SettlePromise(current.promise, Resolved(result));
      }
      threw := false;
    }

    method CompleteReservationAudit(intent: Intent, w: WriteOutcome) returns (threw: bool)
      modifies this, file
      ensures (View(), threw) == CompleteAudit(old(View()), intent, w)
    {
      var k := ScopeKey(intent);
      var current := if k in pending then Some(pending[k]) else None;
      var result := None;
      var entries := file.entries;
      if k in entries && entries[k].Cached? && entries[k].hash == intent {
        result := Some(entries[k].result);
        entries := entries[k := entries[k].(pendingAudit := None)];
      }
      var ok := WriteState(entries, w);
      if !ok {
        if current.Some? && current.value.hash == intent {
          SettlePromise(current.value.promise, Broken);
        }
        return true;
      }
      if current.None? || current.value.hash != intent {
        return false;
      }
      pending := pending - {k};
      if result.Some? {
        SettlePromise(current.value.promise, Resolved(result.value));
      } else {
        SettlePromise(current.value.promise, Broken);
      }
      threw := false;
    }

    method CompleteReplay(intent: Intent, w: WriteOutcome) returns (threw: bool)
      modifies this, file
      ensures (View(), threw) == CompleteReplayedAudit(old(View()), intent, w)
    {
      var k := ScopeKey(intent);
      var entries := file.entries;
      if k in entries && entries[k].Cached? && entries[k].hash == intent {
        entries := entries[k := entries[k].(pendingAudit := None)];
      }
      var ok := WriteState(entries, w);
      threw := !ok;
    }

    method FailReservationAudit(intent: Intent)
      modifies this
      ensures View() == FailAudit(old(View()), intent)
    {
      var k := ScopeKey(intent);
      if k !in pending || pending[k].hash != intent {
        return;
      }
      var current := pending[k];
      pending := pending - {k};
      SettlePromise(current.promise, Broken);
    }

    method AbortReservation(intent: Intent, w: WriteOutcome) returns (threw: bool)
      modifies this, file
      ensures (View(), threw) == Abort(old(View()), intent, w)
    {
      var k := ScopeKey(intent);
      if k !in pending || pending[k].hash != intent {
        return false;
      }
      var current := pending[k];
      pending := pending - {k};
      var entries := file.entries;
      if k in entries && entries[k] == InProgress(intent) {
        entries := entries - {k};
      }
      var ok := WriteState(entries, w);
      SettlePromise(current.promise, Broken);
      threw := !ok;
    }
  }
}
