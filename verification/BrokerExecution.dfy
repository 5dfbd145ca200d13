/** What one broker execution reports: the connector's answer becomes a result and its terminal audit
    event, which are stored, audited and released in that order. */
module BrokerExecution {
  import opened Outcomes
  import opened TradingIntents
  import opened IdempotencyStore
  import Numerals

  /** An `execute` call: the validated intent and the decision that came with it. */
  datatype Order = Order(intent: Intent, correlationId: string, approvalId: Option<string>)

  datatype ConnectorAnswer =
    | Answered(evidence: Evidence)
    | Raised(revalidation: bool, error: string)

  /** `assertExecutionEvidenceMatchesIntent`. */
  predicate EvidenceMatches(intent: Intent, ev: Evidence) {
    && (intent.action.CancelOrder? ==> ev.orderId == Some(intent.orderId))
    && (intent.action.GetOrderStatus? ==>
          && (ev.orderId.Some? && ev.orderId.value != "" ==> ev.orderId.value == intent.orderId)
          && ev.orderStatus.Some?
          && ev.orderStatus.value.orderId == intent.orderId
          && ev.orderStatus.value.symbol == intent.symbol)
    && (intent.action.PlaceOrder? && ev.orderStatus.Some? ==>
          && ev.orderStatus.value.symbol == intent.symbol
          && Numerals.Lower(ev.orderStatus.value.side) == intent.side
          && (ev.orderId.Some? && ev.orderId.value != "" ==> ev.orderStatus.value.orderId == ev.orderId.value))
  }

  predicate NonEmpty(s: Option<string>) {
    s.Some? ==> s.value != ""
  }

  predicate StatusAccepted(s: OrderStatus) {
    && s.orderId != "" && s.symbol != "" && s.side != "" && s.status != ""
    && s.executedQty >= 0.0 && s.avgPrice >= 0.0
  }

  /** The executed members of the result schema: which evidence each kind of execution carries. */
  predicate SchemaAccepts(action: Action, ev: Evidence) {
    && NonEmpty(ev.orderId) && NonEmpty(ev.transactionHash) && NonEmpty(ev.simulation)
    && (ev.orderStatus.Some? ==> StatusAccepted(ev.orderStatus.value))
    && match action
       case PlaceOrder =>
         (ev.orderId.Some? || ev.orderStatus.Some?) && ev.transactionHash.None? && ev.simulation.None?
       case CancelOrder =>
         ev.orderId.Some? && ev.transactionHash.None? && ev.orderStatus.None? && ev.reconciliation.None?
           && ev.simulation.None?
       case GetOrderStatus =>
         ev.orderStatus.Some? && ev.transactionHash.None? && ev.reconciliation.None? && ev.simulation.None?
       case RequestSignature =>
         ev.transactionHash.Some? && ev.orderId.None? && ev.orderStatus.None? && ev.reconciliation.None?
           && ev.simulation.None?
       case SimulateTransaction =>
         ev.simulation.Some? && ev.orderId.None? && ev.transactionHash.None? && ev.orderStatus.None?
           && ev.reconciliation.None?
  }

  function Conclude(intent: Intent, answer: ConnectorAnswer): BrokerResult {
    match answer
    case Raised(revalidation, _) =>
      Failed(intent.intentId, intent.idempotencyKey, !revalidation,
             if revalidation then "Connector revalidation failed." else "Execution failed.")
    case Answered(ev) =>
      if EvidenceMatches(intent, ev) && SchemaAccepts(intent.action, ev)
      then Executed(intent.intentId, intent.idempotencyKey, intent.action, ev)
      else Failed(intent.intentId, intent.idempotencyKey, true, "Execution evidence validation failed.")
  }

  /** The connector's answer counts as executed exactly when its evidence is of the action's kind and speaks of the
      intent's own order; otherwise the call fails although the connector returned. */
  lemma ExecutesExactlyWhen(intent: Intent, ev: Evidence)
    ensures var result := Conclude(intent, Answered(ev));
      || result == Failed(intent.intentId, intent.idempotencyKey, true, "Execution evidence validation failed.")
      || result == Executed(intent.intentId, intent.idempotencyKey, intent.action, ev)
    ensures var id, hash, status, sim := ev.orderId, ev.transactionHash, ev.orderStatus, ev.simulation;
      Conclude(intent, Answered(ev)).Executed? <==>
        match intent.action
        case PlaceOrder =>
          && hash.None? && sim.None? && (id.Some? || status.Some?)
          && (id.Some? ==> id.value != "")
          && (status.Some? ==>
                var s := status.value;
                && s.orderId != "" && s.symbol != "" && s.side != "" && s.status != ""
                && s.executedQty >= 0.0 && s.avgPrice >= 0.0
                && s.symbol == intent.symbol && Numerals.Lower(s.side) == intent.side
                && (id.Some? ==> s.orderId == id.value))
        case CancelOrder =>
          && hash.None? && sim.None? && status.None? && ev.reconciliation.None?
          && id == Some(intent.orderId) && intent.orderId != ""
        case GetOrderStatus =>
          && hash.None? && sim.None? && ev.reconciliation.None?
          && status.Some?
          && var s := status.value;
             && s.orderId != "" && s.symbol != "" && s.side != "" && s.status != ""
             && s.executedQty >= 0.0 && s.avgPrice >= 0.0
             && s.orderId == intent.orderId && s.symbol == intent.symbol
             && (id.Some? ==> id.value == s.orderId)
        case RequestSignature =>
          && hash.Some? && hash.value != ""
          && id.None? && sim.None? && status.None? && ev.reconciliation.None?
        case SimulateTransaction =>
          && sim.Some? && sim.value != ""
          && id.None? && hash.None? && status.None? && ev.reconciliation.None?
  {
  }

  /** A connector that throws fails the call, and only a throw after its own revalidation says it was not passed. */
  lemma RaisedFails(intent: Intent, revalidation: bool, error: string)
    ensures Conclude(intent, Raised(revalidation, error)) ==
      if revalidation
      then Failed(intent.intentId, intent.idempotencyKey, false, "Connector revalidation failed.")
      else Failed(intent.intentId, intent.idempotencyKey, true, "Execution failed.")
  {
  }

  function TerminalEvent(order: Order, result: BrokerResult, error: string): AuditEvent
    requires !result.Rejected?
  {
    var t := if result.Executed? then BrokerExecuted else BrokerFailed;
    var data := if result.Executed? then ExecutedData(result.evidence) else FailedData(result.reason, error);
    AuditEvent(Some(TerminalEventId(order.intent, order.correlationId, t)), t, order.intent.environment,
               order.intent.intentId, order.intent.principal, order.correlationId, data)
  }

  function Refuse(intent: Intent, reason: string): BrokerResult {
    BrokerResult.Rejected(intent.intentId, intent.idempotencyKey, reason)
  }

  function RefusalEvent(order: Order, reason: string): AuditEvent {
    AuditEvent(None, BrokerFailed, order.intent.environment, order.intent.intentId, order.intent.principal,
               order.correlationId, Refusal(reason))
  }

  /** The results `execute` can leave in the store for an intent. */
  ghost predicate StoredFor(result: BrokerResult, intent: Intent) {
    || (result.Rejected? && exists reason :: result == Refuse(intent, reason))
    || exists answer :: result == Conclude(intent, answer)
  }

  /** A stored result passes the store's check on replay exactly when it executed or the intent is not an order-status
      query. What else a retry needs is BrokerReplays.RetryReplaysExactlyWhen. */
  lemma ReplayCheckPassesExactlyWhen(intent: Intent, result: BrokerResult)
    requires StoredFor(result, intent)
    ensures Replayable(result, None, intent) <==> (result.Executed? || !intent.action.GetOrderStatus?)
  {
    if !result.Rejected? {
      var answer :| result == Conclude(intent, answer);
    }
  }

  lemma FailedStatusQueryIsNeverReplayed()
    ensures exists intent, answer ::
      StoredFor(Conclude(intent, answer), intent) && !Replayable(Conclude(intent, answer), None, intent)
  {
    var intent := Intent("i", "k", "p", GetOrderStatus, "r", "dev", "7", "BTC-USDT", "buy", "");
    var answer := Raised(false, "timeout");
    assert StoredFor(Conclude(intent, answer), intent);
    assert !Replayable(Conclude(intent, answer), None, intent);
  }

  /** The event written for an answer reports that answer's result and passes the store's own check on replay. */
  lemma TerminalEventReports(order: Order, answer: ConnectorAnswer, error: string)
    ensures var result := Conclude(order.intent, answer);
      var e := TerminalEvent(order, result, error);
      && Reports(e, result) && e.correlationId == order.correlationId
      && (e.data.FailedData? ==> e.data.error == error)
      && (Replayable(result, Some(e), order.intent) <==> Replayable(result, None, order.intent))
  {
  }

  /** A refusal's event reports it to the same readers, and draws its id at random. */
  lemma RefusalEventReports(order: Order, reason: string)
    ensures var result, e := Refuse(order.intent, reason), RefusalEvent(order, reason);
      && result.Rejected? && result.intentId == order.intent.intentId
      && result.idempotencyKey == order.intent.idempotencyKey && result.reason == reason
      && Reports(e, result) && e.eventId.None? && e.environment == order.intent.environment
      && e.principal == order.intent.principal && e.correlationId == order.correlationId
  {
  }

  // ---------------------------------------------------------------------------
  // The audit log as the broker sees it (AuditChain models the writer itself)
  // ---------------------------------------------------------------------------

  type Log = seq<AuditEvent>

  predicate HasId(log: Log, id: string) {
    exists i :: 0 <= i < |log| && log[i].eventId == Some(id)
  }

  /** One write: a known id adds nothing and must repeat the stored content. */
  function WriteEvent(log: Log, e: AuditEvent, w: WriteOutcome): (Log, bool) {
    if e.eventId.Some? && HasId(log, e.eventId.value) then (log, e !in log || !w.Done?)
    else (if w.Lost? then log else log + [e], !w.Done?)
  }

  /** What a write leaves in the log and when it throws. */
  lemma WriteEventAdds(log: Log, e: AuditEvent, w: WriteOutcome)
    ensures var (log', threw) := WriteEvent(log, e, w);
      var known := e.eventId.Some? && exists row :: row in log && row.eventId == e.eventId;
      && (log' == log || log' == log + [e]) && (w.Lost? ==> log' == log)
      && (known ==> log' == log) && (!known && !w.Lost? ==> log' == log + [e])
      && (threw <==> !w.Done? || (known && e !in log))
  {
    if e.eventId.Some? && HasId(log, e.eventId.value) {
      var i :| 0 <= i < |log| && log[i].eventId == Some(e.eventId.value);
      assert log[i] in log;
    } else if e.eventId.Some? {
      forall row | row in log ensures row.eventId != e.eventId {
        var i :| 0 <= i < |log| && log[i] == row;
      }
    }
  }

  /** The terminal events a call may write are not in the log yet. */
  ghost predicate NothingTerminal(log: Log, order: Order) {
    forall e, t :: e in log ==> e.eventId != Some(TerminalEventId(order.intent, order.correlationId, t))
  }

  lemma TerminalEventIsAdded(log: Log, order: Order, result: BrokerResult, error: string)
    requires !result.Rejected? && NothingTerminal(log, order)
    ensures var e := TerminalEvent(order, result, error); WriteEvent(log, e, Done) == (log + [e], false)
  {
    WriteEventAdds(log, TerminalEvent(order, result, error), Done);
  }

  ghost predicate IdsUnique(log: Log) {
    forall i, j :: 0 <= i < j < |log| && log[i].eventId.Some? ==> log[i].eventId != log[j].eventId
  }

  ghost predicate Logged(log: Log, result: BrokerResult) {
    exists e :: e in log && Reports(e, result)
  }

  class AuditLog {
    var rows: Log

    constructor ()
      ensures rows == []
    {
      rows := [];
    }

    method Write(e: AuditEvent, w: WriteOutcome) returns (threw: bool)
      modifies this
      ensures (rows, threw) == WriteEvent(old(rows), e, w)
    {
      if e.eventId.Some? && HasId(rows, e.eventId.value) {
        return e !in rows || !w.Done?;
      }
      if !w.Lost? {
        rows := rows + [e];
      }
      threw := !w.Done?;
    }
  }

  // ---------------------------------------------------------------------------
  // finishExecutionWithAudit and flushPendingTerminalAudit
  // ---------------------------------------------------------------------------

  /** How the writes of one finishing or flushing call turn out. */
  datatype Faults = Faults(complete: WriteOutcome, audit: WriteOutcome, completeAudit: WriteOutcome)

  /** The store after finishing: the result is kept for a retry when the audit throws, and released when nothing
      does. */
  function Finished(s: Store, log: Log, intent: Intent, result: BrokerResult, event: AuditEvent, f: Faults): Store {
    var (kept, threw) := Complete(s, intent, result, Some(event), f.complete);
    if WriteEvent(log, event, f.audit).1 then FailAudit(kept, intent)
    else if threw then kept
    else CompleteAudit(kept, intent, f.completeAudit).0
  }

  class ExecutionBroker {
    const idempotency: FileBrokerIdempotencyStore
    const audit: AuditLog

    constructor (idempotency: FileBrokerIdempotencyStore, audit: AuditLog)
      ensures this.idempotency == idempotency && this.audit == audit
    {
      this.idempotency, this.audit := idempotency, audit;
    }

    /** A result comes back only once its event is in the log and every write before it took effect; the
        pending audit is then gone from the file and the waiters get the same result. Once the audit is
        written a failure leaves the result in the file for a retry whenever its write took effect. */
    method FinishExecutionWithAudit(order: Order, result: BrokerResult, event: AuditEvent, f: Faults)
      returns (reply: Result<BrokerResult, ()>)
      requires Reports(event, result)
      requires Holds(idempotency.View(), order.intent)
      modifies idempotency, idempotency.file, audit
      ensures idempotency.View() == Finished(old(idempotency.View()), old(audit.rows), order.intent, result, event, f)
      ensures var k := ScopeKey(order.intent);
        var was := old(idempotency.View());
        var now := idempotency.View();
        && (reply.Ok? <==> f.complete.Done? && !WriteEvent(old(audit.rows), event, f.audit).1 && f.completeAudit.Done?)
        && (reply.Ok? ==> reply.value == result && Logged(audit.rows, result))
        && audit.rows == WriteEvent(old(audit.rows), event, f.audit).0
        && (reply.Ok? ==>
              && now.file == was.file[k := Cached(order.intent, result, None)]
              && now.promises == Settle(was.promises, was.pending[k].promise, Resolved(result)))
        && (f.complete.Lost? ==> now.file == was.file)
        && (!f.complete.Lost? && WriteEvent(old(audit.rows), event, f.audit).1 ==>
              now.file == was.file[k := Cached(order.intent, result, Some(event))])
        && (reply.Err? ==> now.promises == Settle(was.promises, was.pending[k].promise, Broken))
    {
      var completionThrew := idempotency.CompleteReservation(order.intent, result, Some(event), f.complete);
      var auditThrew := audit.Write(event, f.audit);
      if auditThrew {
        idempotency.FailReservationAudit(order.intent);
        return Err(());
      }
      assert event in audit.rows;
      if completionThrew {
        return Err(());
      }
      var threw := idempotency.CompleteReservationAudit(order.intent, f.completeAudit);
      if threw {
        return Err(());
      }
      reply := Ok(result);
    }

    /** A replay releases the stored result only after its pending event is in the log. */
    method FlushPendingTerminalAudit(intent: Intent, result: BrokerResult, pendingAudit: Option<AuditEvent>, f: Faults)
      returns (threw: bool)
      requires ScopeKey(intent) in idempotency.file.entries
      requires idempotency.file.entries[ScopeKey(intent)] == Cached(intent, result, pendingAudit)
      modifies idempotency, idempotency.file, audit
      ensures pendingAudit.Some? ==>
        var failed := WriteEvent(old(audit.rows), pendingAudit.value, f.audit).1;
        idempotency.View() == if failed then old(idempotency.View())
          else CompleteReplayedAudit(old(idempotency.View()), intent, f.completeAudit).0
      ensures pendingAudit.None? ==>
        !threw && audit.rows == old(audit.rows) && idempotency.View() == old(idempotency.View())
      ensures pendingAudit.Some? ==>
          && audit.rows == WriteEvent(old(audit.rows), pendingAudit.value, f.audit).0
          && (threw <==> WriteEvent(old(audit.rows), pendingAudit.value, f.audit).1 || !f.completeAudit.Done?)
          && (!threw && Reports(pendingAudit.value, result) ==> Logged(audit.rows, result))
          && idempotency.pending == old(idempotency.pending) && idempotency.promises == old(idempotency.promises)
          && idempotency.file.entries == old(idempotency.file.entries)[ScopeKey(intent) :=
               Cached(intent, result,
                 if WriteEvent(old(audit.rows), pendingAudit.value, f.audit).1 || f.completeAudit.Lost?
                 then pendingAudit else None)]
    {
      if pendingAudit.None? {
        return false;
      }
      threw := audit.Write(pendingAudit.value, f.audit);
      if threw {
        return;
      }
      assert pendingAudit.value in audit.rows;
      threw := idempotency.CompleteReplay(intent, f.completeAudit);
    }
  }
}
