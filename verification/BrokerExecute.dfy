/** `execute` as one process runs it: its branches, flags and handlers make exactly the steps of the state machine. */
module BrokerExecute {
  import opened Outcomes
  import opened TradingIntents
  import opened IdempotencyStore
  import opened BrokerExecution
  import opened BrokerProtocol
  import Approvals = ApprovalStore

  /** How a check ends: it passes, refuses with a reason, refuses and releases the key, or throws. */
  datatype Check = Passes | Refuses(reason: string) | Releases(reason: string) | Throws

  /** Everything outside the broker's own state: the checks' verdicts, the clock, the connector and the writes. */
  datatype Circumstances = Circumstances(
    early: Option<string>, begin: WriteOutcome, required: Check, lookedUpAt: nat, checked: Check, consumedAt: nat,
    answer: ConnectorAnswer, error: string, refusal: WriteOutcome, keep: WriteOutcome, unwind: WriteOutcome,
    faults: Faults)

  datatype Reply = Replied(result: BrokerResult) | Awaits(promise: nat) | Threw

  /** A call taken through a list of steps with nothing in between. */
  function ActAll(v: World, id: nat, order: Order, phase: Phase, labels: seq<Label>): (World, Phase)
    decreases |labels|
  {
    if labels == [] then (v, phase)
    else
      var n := |labels| - 1;
      var (v', phase') := ActAll(v, id, order, phase, labels[..n]);
      Act(v', id, order, phase', labels[n])
  }

  ghost predicate At(v0: World, id: nat, order: Order, trace: seq<Label>, v: World, phase: Phase) {
    ActAll(v0, id, order, Arrived, trace) == (v, phase)
  }

  lemma Extend(v0: World, id: nat, order: Order, trace: seq<Label>, v: World, phase: Phase, l: Label)
    requires At(v0, id, order, trace, v, phase)
    ensures At(v0, id, order, trace + [l], Act(v, id, order, phase, l).0, Act(v, id, order, phase, l).1)
  {
    hide Act;
    assert (trace + [l])[..|trace|] == trace;
  }

  predicate Agrees(reply: Reply, phase: Phase) {
    match reply
    case Replied(result) => phase.Returned? && phase.result == result
    case Awaits(promise) => phase == Waiting(promise)
    case Threw => phase.Thrown?
  }

  /** The call went through the traced steps and ended as the reply says. */
  ghost predicate Ended(v0: World, id: nat, order: Order, trace: seq<Label>, v: World, reply: Reply) {
    exists phase :: At(v0, id, order, trace, v, phase) && Agrees(reply, phase)
  }

  /** Neither a check nor the approval stands in the way of a call that holds its reservation. */
  ghost predicate AllPass(v: World, order: Order, c: Circumstances) {
    && c.required.Passes? && c.checked.Passes?
    && (order.approvalId.Some? ==>
          && Grants(v.approvals, order, c.lookedUpAt)
          && c.consumedAt < v.approvals.rows[order.approvalId.value].facts.timeoutAt)
  }

  /** How a call is answered whose key is already reserved in its process, or known to the file. */
  ghost predicate AnswersKnownKey(v: World, order: Order, c: Circumstances, reply: Reply) {
    var k := ScopeKey(order.intent);
    if k in v.store.pending then
      if v.store.pending[k].hash == order.intent then reply == Awaits(v.store.pending[k].promise)
      else c.refusal.Done? ==> reply == Replied(Refuse(order.intent, "Idempotency key reused with different payload."))
    else if k in v.store.file then
      if !c.begin.Done? then reply == Threw
      else if v.store.file[k].hash != order.intent then
        c.refusal.Done? ==> reply == Replied(Refuse(order.intent, "Idempotency key reused with different payload."))
      else
        match v.store.file[k]
        case InProgress(_) => reply == Threw
        case Cached(_, result, pendingAudit) =>
          if !Replayable(result, pendingAudit, order.intent) then reply == Threw
          else if pendingAudit.None? then reply == Replied(result)
          else reply == if c.faults.completeAudit.Done? && !WriteEvent(v.log, pendingAudit.value, c.faults.audit).1
                        then Replied(result) else Threw
    else true
  }

  predicate NoneThrows(c: Circumstances) {
    !c.required.Throws? && !c.checked.Throws?
  }

  /** A refusal is kept for retries under its key, or leaves the key as if the call had never come. */
  ghost predicate ClosesKey(before: File, after: File, order: Order, reason: string, keep: bool) {
    var k := ScopeKey(order.intent);
    && (keep ==> after == before[k := Cached(order.intent, Refuse(order.intent, reason), None)])
    && (!keep && k in before && before[k] == InProgress(order.intent) ==> after == before - {k})
  }

  /** No write of the call fails, and its terminal event is new. */
  ghost predicate Undisturbed(v: World, order: Order, c: Circumstances) {
    c.faults == Faults(Done, Done, Done) && NothingTerminal(v.log, order)
  }

  /** What a call that passes every check and meets no fault makes of the world: one connector call, whose result is
      stored, logged and settled for its waiters, and one approval consumed if it needed one. */
  ghost predicate Accomplished(v: World, v': World, id: nat, order: Order, c: Circumstances) {
    var k, result := ScopeKey(order.intent), Conclude(order.intent, c.answer);
    && v'.calls == v.calls + [ConnectorCall(id, order)]
    && v'.store.file == v.store.file[k := Cached(order.intent, result, None)]
    && v'.log == v.log + [TerminalEvent(order, result, c.error)]
    && (order.approvalId.None? ==> v'.approvals == v.approvals)
    && (order.approvalId.Some? && order.approvalId.value in v.approvals.rows ==>
          var a := order.approvalId.value;
          v'.approvals.rows == v.approvals.rows[a := v.approvals.rows[a].(state := Approvals.Consumed)])
  }

  class Broker {
    const broker: ExecutionBroker
    const approvals: Approvals.ApprovalStore
    ghost var calls: seq<ConnectorCall>
    ghost var concluded: map<ScopedKey, AuditEvent>
    ghost var uses: seq<ApprovalUse>

    constructor (broker: ExecutionBroker, approvals: Approvals.ApprovalStore)
      ensures this.broker == broker && this.approvals == approvals && calls == [] && concluded == map[] && uses == []
    {
      this.broker, this.approvals := broker, approvals;
      calls, concluded, uses := [], map[], [];
    }

    ghost function View(): World
      reads this, broker.idempotency, broker.idempotency.file, broker.audit, approvals.database
    {
      World(broker.idempotency.View(), broker.audit.rows, approvals.database.table, calls, concluded, uses)
    }

    /** `reject`: the refusal is audited; `None` when that throws. */
    method Reject(order: Order, reason: string, w: WriteOutcome) returns (r: Option<BrokerResult>)
      modifies broker.audit
      ensures broker.audit.rows == WriteEvent(old(broker.audit.rows), RefusalEvent(order, reason), w).0
      ensures r == if WriteEvent(old(broker.audit.rows), RefusalEvent(order, reason), w).1 then None
        else Some(Refuse(order.intent, reason))
    {
      var threw := broker.audit.Write(RefusalEvent(order, reason), w);
      r := if threw then None else Some(Refuse(order.intent, reason));
    }

    /** Refusing before or without a reservation. */
    method RefuseFrom(id: nat, order: Order, reason: string, w: WriteOutcome, ghost v0: World,
                      ghost trace: seq<Label>, ghost phase: Phase)
      returns (reply: Reply, ghost trace': seq<Label>)
      requires At(v0, id, order, trace, View(), phase) && (phase.Arrived? || phase.Conflicted?)
      modifies broker.audit
      ensures Ended(v0, id, order, trace', View(), reply)
      ensures w.Done? ==> reply == Replied(Refuse(order.intent, reason))
    {
      var l := RefuseEarly(id, reason, w);
      Extend(v0, id, order, trace, View(), phase, l);
      ghost var step := Act(View(), id, order, phase, l);
      trace' := trace + [l];
      var r := Reject(order, reason, w);
      reply := if r.Some? then Replied(r.value) else Threw;
      assert View() == step.0 && Agrees(reply, step.1);
    }

    /** The handlers around the reservation: an exception releases it, and is thrown on. */
    method Abandon(id: nat, order: Order, w: WriteOutcome, ghost v0: World, ghost trace: seq<Label>)
      returns (reply: Reply, ghost trace': seq<Label>)
      requires At(v0, id, order, trace, View(), Collapsing)
      modifies broker.idempotency, broker.idempotency.file
      ensures Ended(v0, id, order, trace', View(), reply)
    {
      var l := Unwind(id, w);
      Extend(v0, id, order, trace, View(), Collapsing, l);
      ghost var step := Act(View(), id, order, Collapsing, l);
      trace' := trace + [l];
      var _ := broker.idempotency.AbortReservation(order.intent, w);
      reply := Threw;
      assert View() == step.0 && Agrees(reply, step.1);
    }

    /** Refusing with the reservation held: `finish` keeps the refusal for retries, otherwise the key is released.
        When either throws, the handler's own abort finds no reservation left. */
    method RefuseHeld(id: nat, order: Order, reason: string, keep: bool, c: Circumstances, ghost v0: World,
                      ghost trace: seq<Label>)
      returns (reply: Reply, ghost trace': seq<Label>)
      requires At(v0, id, order, trace, View(), Condemned(reason, keep))
      modifies broker.audit, broker.idempotency, broker.idempotency.file
      ensures Ended(v0, id, order, trace', View(), reply)
      ensures c.refusal.Done? && c.keep.Done? ==> reply == Replied(Refuse(order.intent, reason))
      ensures c.refusal.Done? && c.keep.Done? && Holds(old(broker.idempotency.View()), order.intent) ==>
        ClosesKey(old(broker.idempotency.file.entries), broker.idempotency.file.entries, order, reason, keep)
    {
      var audited := AuditRefusal(id, c.refusal);
      Extend(v0, id, order, trace, View(), Condemned(reason, keep), audited);
      ghost var step := Act(View(), id, order, Condemned(reason, keep), audited);
      trace' := trace + [audited];
      var r := Reject(order, reason, c.refusal);
      assert View() == step.0;
      if r.None? {
        reply, trace' := Abandon(id, order, c.unwind, v0, trace');
        return;
      }
      reply, trace' := CloseRefusal(id, order, r.value, keep, c, v0, trace');
    }

    method CloseRefusal(id: nat, order: Order, refused: BrokerResult, keep: bool, c: Circumstances, ghost v0: World,
                        ghost trace: seq<Label>)
      returns (reply: Reply, ghost trace': seq<Label>)
      requires At(v0, id, order, trace, View(), Refused(refused, keep))
      modifies broker.idempotency, broker.idempotency.file
      ensures Ended(v0, id, order, trace', View(), reply)
      ensures c.keep.Done? ==> reply == Replied(refused)
      ensures
        c.keep.Done? && Holds(old(broker.idempotency.View()), order.intent)
        && refused.Rejected? && refused == Refuse(order.intent, refused.reason) ==>
          ClosesKey(old(broker.idempotency.file.entries), broker.idempotency.file.entries, order, refused.reason, keep)
    {
      var l := if keep then KeepRefusal(id, c.keep) else ReleaseRefusal(id, c.keep);
      Extend(v0, id, order, trace, View(), Refused(refused, keep), l);
      ghost var step := Act(View(), id, order, Refused(refused, keep), l);
      trace' := trace + [l];
      var threw: bool;
      if keep {
        threw := broker.idempotency.CompleteReservation(order.intent, refused, None, c.keep);
      } else {
        threw := broker.idempotency.AbortReservation(order.intent, c.keep);
      }
      assert View() == step.0;
      if threw {
        var _ := broker.idempotency.AbortReservation(order.intent, c.unwind);
        assert View() == step.0;
      }
      reply := if threw then Threw else Replied(refused);
      assert Agrees(reply, step.1);
    }

    /** A check that refuses, releases or throws ends the call; one that passes changes nothing. */
    method Settle(id: nat, order: Order, check: Check, c: Circumstances, ghost v0: World, ghost trace: seq<Label>,
                  ghost phase: Phase)
      returns (reply: Reply, ghost trace': seq<Label>)
      requires At(v0, id, order, trace, View(), phase) && (phase.Reserved? || phase.Checked?) && !check.Passes?
      modifies broker.audit, broker.idempotency, broker.idempotency.file
      ensures Ended(v0, id, order, trace', View(), reply)
      ensures !check.Throws? && c.refusal.Done? && c.keep.Done? ==> reply == Replied(Refuse(order.intent, check.reason))
    {
      if check.Throws? {
        Extend(v0, id, order, trace, View(), phase, Collapse(id));
        reply, trace' := Abandon(id, order, c.unwind, v0, trace + [Collapse(id)]);
      } else {
        var keep := check.Refuses?;
        Extend(v0, id, order, trace, View(), phase, Condemn(id, check.reason, keep));
        reply, trace' := RefuseHeld(id, order, check.reason, keep, c, v0, trace + [Condemn(id, check.reason, keep)]);
      }
    }

    /** The checks of the approval row: `None` when the row allows the call. */
    method LookUpApproval(order: Order, now: nat) returns (r: Option<(string, bool)>)
      ensures match r
        case None => ExamineApproval(approvals.database.table, order, now) == Checked
        case Some((reason, keep)) => ExamineApproval(approvals.database.table, order, now) == Condemned(reason, keep)
    {
      if order.approvalId.None? {
        return None;
      }
      var request := approvals.Get(order.approvalId.value);
      if request.Some? && request.value.state.Consumed? {
        return Some(("Human approval has already been used.", true));
      }
      if request.None? || !request.value.state.Approved? {
        return Some(("Human approval is required before execution.", false));
      }
      if now > request.value.facts.timeoutAt {
        return Some(("Human approval has expired.", true));
      }
      if !request.value.facts.approvalType.OneTime? || !ApprovalMatches(request.value.facts, order) {
        return Some(("Human approval does not match the execution intent.", true));
      }
      return None;
    }

    /** Consuming the approval; `false` when another call took it first. */
    method TakeOneTimeApproval(id: nat, order: Order, now: nat, ghost v0: World, ghost trace: seq<Label>)
      returns (ok: bool, ghost trace': seq<Label>)
      requires At(v0, id, order, trace, View(), Checked)
      modifies approvals.database, `uses
      ensures At(v0, id, order, trace', View(),
                 if ok then Cleared else Condemned("Human approval has already been used.", true))
      ensures ok <==> order.approvalId.Some? ==>
        var a := order.approvalId.value;
        && a in old(approvals.database.table.rows)
        && var r := old(approvals.database.table.rows)[a];
           r.state.Approved? && r.facts.approvalType.OneTime? && now < r.facts.timeoutAt
      ensures !ok || order.approvalId.None? ==> approvals.database.table == old(approvals.database.table)
      ensures ok && order.approvalId.Some? ==>
        var a, rows := order.approvalId.value, old(approvals.database.table.rows);
        a in rows && approvals.database.table.rows == rows[a := rows[a].(state := Approvals.Consumed)]
    {
      var l := ConsumeApproval(id, now);
      Extend(v0, id, order, trace, View(), Checked, l);
      ghost var step := TakeApproval(View(), id, order, now);
      assert Act(View(), id, order, Checked, l) == step;
      trace' := trace + [l];
      if order.approvalId.None? {
        return true, trace';
      }
      var a := order.approvalId.value;
      ghost var rows := approvals.database.table.rows;
      var reply := approvals.ConsumeOneTime(a, now);
      ok := reply.Row?;
      if ok {
        uses := uses + [ApprovalUse(id, a, now, rows[a])];
      }
      assert View() == step.0;
    }

    /** The connector's answer becomes a result and its event, which `finishExecutionWithAudit` stores and audits. */
    method CallAndFinish(id: nat, order: Order, c: Circumstances, ghost v0: World, ghost trace: seq<Label>)
      returns (reply: Reply, ghost trace': seq<Label>)
      requires At(v0, id, order, trace, View(), Cleared) && Holds(broker.idempotency.View(), order.intent)
      modifies broker.audit, broker.idempotency, broker.idempotency.file, `calls, `concluded
      ensures Ended(v0, id, order, trace', View(), reply)
      ensures Undisturbed(old(View()), order, c) ==>
        && reply == Replied(Conclude(order.intent, c.answer))
        && calls == old(calls) + [ConnectorCall(id, order)]
        && broker.idempotency.file.entries == old(broker.idempotency.file.entries)[ScopeKey(order.intent) :=
             Cached(order.intent, Conclude(order.intent, c.answer), None)]
        && broker.audit.rows == old(broker.audit.rows)
             + [TerminalEvent(order, Conclude(order.intent, c.answer), c.error)]
    {
      hide Act, At, Ended, Holds, TerminalEvent, WriteEvent, Finished, Complete, CompleteAudit, FailAudit,
           IdempotencyStore.Settle, NothingTerminal;
      Extend(v0, id, order, trace, View(), Cleared, CallConnector(id));
      ConnectorStep(View(), id, order, c.answer, c.error);
      calls := calls + [ConnectorCall(id, order)];
      trace' := trace + [CallConnector(id)];
      var result := Conclude(order.intent, c.answer);
      var event := TerminalEvent(order, result, c.error);
      TerminalEventReports(order, c.answer, c.error);
      Extend(v0, id, order, trace', View(), Calling, Answer(id, c.answer, c.error));
      ConnectorStep(View(), id, order, c.answer, c.error);
      concluded := concluded[ScopeKey(order.intent) := event];
      trace' := trace' + [Answer(id, c.answer, c.error)];
      ghost var before := View();
      if NothingTerminal(before.log, order) {
        TerminalEventIsAdded(before.log, order, result, c.error);
      }
      var finished := broker.FinishExecutionWithAudit(order, result, event, c.faults);
      reply := if finished.Ok? then Replied(finished.value) else Threw;
      trace' := FinishTrace(v0, id, order, trace', before, result, event, c.faults, View(), reply);
    }

    /** From the reservation on. */
    method ExecuteHeld(id: nat, order: Order, c: Circumstances, ghost v0: World, ghost trace: seq<Label>)
      returns (reply: Reply, ghost trace': seq<Label>)
      requires At(v0, id, order, trace, View(), Reserved) && Holds(broker.idempotency.View(), order.intent)
      modifies broker.audit, broker.idempotency, broker.idempotency.file, approvals.database, `calls, `concluded, `uses
      ensures Ended(v0, id, order, trace', View(), reply)
      ensures AllPass(old(View()), order, c) && Undisturbed(old(View()), order, c) ==>
        reply == Replied(Conclude(order.intent, c.answer)) && Accomplished(old(View()), View(), id, order, c)
      ensures !AllPass(old(View()), order, c) ==> calls == old(calls)
      ensures !AllPass(old(View()), order, c) && NoneThrows(c) && c.refusal.Done? && c.keep.Done? ==>
        reply.Replied? && reply.result.Rejected?
    {
      hide Act, Holds, Ended, At, Conclude, TerminalEvent, NothingTerminal, Grants, ApprovalMatches;
      trace' := trace;
      if !c.required.Passes? {
        reply, trace' := Settle(id, order, c.required, c, v0, trace', Reserved);
        return;
      }
      ApprovalPassesExactlyWhen(approvals.database.table, order, c.lookedUpAt);
      Extend(v0, id, order, trace', View(), Reserved, Examine(id, c.lookedUpAt));
      ExamineStep(View(), id, order, c.lookedUpAt);
      trace' := trace' + [Examine(id, c.lookedUpAt)];
      var refused := LookUpApproval(order, c.lookedUpAt);
      if refused.Some? {
        reply, trace' := RefuseHeld(id, order, refused.value.0, refused.value.1, c, v0, trace');
        return;
      }
      if !c.checked.Passes? {
        reply, trace' := Settle(id, order, c.checked, c, v0, trace', Checked);
        return;
      }
      var taken: bool;
      taken, trace' := TakeOneTimeApproval(id, order, c.consumedAt, v0, trace');
      if !taken {
        reply, trace' := RefuseHeld(id, order, "Human approval has already been used.", true, c, v0, trace');
        return;
      }
      reply, trace' := CallAndFinish(id, order, c, v0, trace');
    }

    /** A replayed result is given out once its pending event is in the log and cleared. */
    method Replay(id: nat, order: Order, result: BrokerResult, pendingAudit: Option<AuditEvent>, c: Circumstances,
                  ghost v0: World, ghost trace: seq<Label>)
      returns (reply: Reply, ghost trace': seq<Label>)
      requires At(v0, id, order, trace, View(), AfterBegin(BeginReply.Replay(result, pendingAudit)))
      requires ScopeKey(order.intent) in broker.idempotency.file.entries
      requires broker.idempotency.file.entries[ScopeKey(order.intent)] == Cached(order.intent, result, pendingAudit)
      modifies broker.audit, broker.idempotency, broker.idempotency.file
      ensures Ended(v0, id, order, trace', View(), reply)
      ensures reply ==
        if pendingAudit.Some? && (!c.faults.completeAudit.Done?
             || WriteEvent(old(broker.audit.rows), pendingAudit.value, c.faults.audit).1)
        then Threw else Replied(result)
    {
      trace' := trace;
      ghost var before := View();
      var threw := broker.FlushPendingTerminalAudit(order.intent, result, pendingAudit, c.faults);
      reply := if threw then Threw else Replied(result);
      if pendingAudit.None? {
        assert At(v0, id, order, trace, View(), Returned(result, true));
      } else {
        trace' := FlushTrace(v0, id, order, trace, before, result, pendingAudit.value, c.faults, View(), reply);
      }
    }

    /** `execute`, alone in its process from start to end: what it did is a path of the state machine, whatever the
        checks, the clock, the connector and the writes made of it, so what holds of every run holds of it. */
    method Execute(id: nat, order: Order, c: Circumstances) returns (reply: Reply, ghost trace: seq<Label>)
      modifies this, broker.audit, broker.idempotency, broker.idempotency.file, approvals.database
      ensures Ended(old(View()), id, order, trace, View(), reply)
      ensures var v, k := old(View()), ScopeKey(order.intent);
        c.early.None? && c.begin.Done? && k !in v.store.pending && k !in v.store.file
        && AllPass(v, order, c) && Undisturbed(v, order, c) ==>
          reply == Replied(Conclude(order.intent, c.answer)) && Accomplished(v, View(), id, order, c)
      ensures !AllPass(old(View()), order, c) ==> calls == old(calls)
      ensures c.early.Some? && c.refusal.Done? ==> reply == Replied(Refuse(order.intent, c.early.value))
      ensures c.early.None? ==> AnswersKnownKey(old(View()), order, c, reply)
      ensures var v, k := old(View()), ScopeKey(order.intent);
        c.early.None? && c.begin.Done? && k !in v.store.pending && k !in v.store.file
        && !AllPass(v, order, c) && NoneThrows(c) && c.refusal.Done? && c.keep.Done? ==>
          reply.Replied? && reply.result.Rejected?
    {
      hide Act, AllPass, Undisturbed, Accomplished, AnswersKnownKey, Conclude, TerminalEvent, Replayable, Begin,
           WriteEvent;
      ghost var v0 := View();
      trace := [];
      if c.early.Some? {
        reply, trace := RefuseFrom(id, order, c.early.value, c.refusal, v0, trace, Arrived);
        return;
      }
      Extend(v0, id, order, trace, View(), Arrived, Begins(id, c.begin));
      BeginStep(View(), id, order, c.begin);
      trace := trace + [Begins(id, c.begin)];
      var begun := broker.idempotency.BeginReservation(order.intent, id, c.begin);
      Begun(v0, View(), id, order, c);
      match begun {
        case Conflict =>
          reply, trace := RefuseFrom(id, order, "Idempotency key reused with different payload.", c.refusal,
                                     v0, trace, Conflicted);
        case Failure => reply := Threw;
        case Orphaned => reply := Threw;
        case Join(promise) => reply := Awaits(promise);
        case Replay(result, pendingAudit) =>
          reply, trace := Replay(id, order, result, pendingAudit, c, v0, trace);
        case Reserve =>
          ghost var v1 := View();
          reply, trace := ExecuteHeld(id, order, c, v0, trace);
          BegunAccomplishes(v0, v1, View(), id, order, c);
      }
      KnownKeyAnswered(v0, id, order, c, reply);
    }
  }

  /** What beginning replies about a key that is reserved or in the file. */
  lemma KnownKeyBegins(s: Store, intent: Intent, promise: nat, w: WriteOutcome)
    ensures var k, reply := ScopeKey(intent), Begin(s, intent, promise, w).1;
      if k in s.pending then reply == if s.pending[k].hash == intent then Join(s.pending[k].promise) else Conflict
      else k in s.file ==>
        if !w.Done? then reply == Failure
        else if s.file[k].hash != intent then reply == Conflict
        else
          match s.file[k]
          case InProgress(_) => reply == Orphaned
          case Cached(_, result, pendingAudit) =>
            reply == if Replayable(result, pendingAudit, intent) then Replay(result, pendingAudit) else Failure
    ensures ScopeKey(intent) in s.pending || ScopeKey(intent) in s.file ==> Begin(s, intent, promise, w).0 == s
  {
    hide Replayable;
  }

  lemma KnownKeyAnswered(v: World, id: nat, order: Order, c: Circumstances, reply: Reply)
    requires match Begin(v.store, order.intent, id, c.begin).1
      case Conflict =>
        c.refusal.Done? ==> reply == Replied(Refuse(order.intent, "Idempotency key reused with different payload."))
      case Failure => reply == Threw
      case Orphaned => reply == Threw
      case Join(promise) => reply == Awaits(promise)
      case Replay(result, pendingAudit) =>
        reply ==
          if pendingAudit.Some? && (!c.faults.completeAudit.Done?
               || WriteEvent(v.log, pendingAudit.value, c.faults.audit).1)
          then Threw else Replied(result)
      case Reserve => true
    ensures AnswersKnownKey(v, order, c, reply)
  {
    hide Begin, Replayable, WriteEvent, Refuse;
    KnownKeyBegins(v.store, order.intent, id, c.begin);
  }

  /** Beginning leaves the checks' circumstances as they are, and reserves a free key. */
  lemma Begun(v: World, v1: World, id: nat, order: Order, c: Circumstances)
    requires v1 == v.(store := Begin(v.store, order.intent, id, c.begin).0)
    ensures AllPass(v1, order, c) == AllPass(v, order, c) && Undisturbed(v1, order, c) == Undisturbed(v, order, c)
    ensures c.begin.Done? && ScopeKey(order.intent) !in v.store.pending && ScopeKey(order.intent) !in v.store.file ==>
      && Begin(v.store, order.intent, id, c.begin).1 == Reserve
      && v1.store.file == v.store.file[ScopeKey(order.intent) := InProgress(order.intent)]
    ensures match Begin(v.store, order.intent, id, c.begin).1
      case Reserve => Holds(v1.store, order.intent)
      case Replay(result, pendingAudit) =>
        && ScopeKey(order.intent) in v1.store.file
        && v1.store.file[ScopeKey(order.intent)] == Cached(order.intent, result, pendingAudit)
      case _ => true
  {
    hide Replayable;
  }

  lemma BegunAccomplishes(v: World, v1: World, v': World, id: nat, order: Order, c: Circumstances)
    requires v1 == v.(store := v1.store)
    ensures v1.store.file == v.store.file[ScopeKey(order.intent) := InProgress(order.intent)] ==>
      Accomplished(v1, v', id, order, c) ==> Accomplished(v, v', id, order, c)
  {
    hide Conclude, TerminalEvent, ScopeKey;
  }

  lemma ExamineStep(v: World, id: nat, order: Order, now: nat)
    ensures Act(v, id, order, Reserved, Examine(id, now)) == (v, ExamineApproval(v.approvals, order, now))
  {
  }

  lemma BeginStep(v: World, id: nat, order: Order, w: WriteOutcome)
    ensures Act(v, id, order, Arrived, Begins(id, w))
         == (v.(store := Begin(v.store, order.intent, id, w).0), AfterBegin(Begin(v.store, order.intent, id, w).1))
  {
  }

  lemma FlushTrace(v0: World, id: nat, order: Order, trace: seq<Label>, v: World, result: BrokerResult,
                   event: AuditEvent,
                   f: Faults, after: World, reply: Reply) returns (trace': seq<Label>)
    requires At(v0, id, order, trace, v, Flushing(result, event))
    requires var failed := WriteEvent(v.log, event, f.audit).1;
      && after == v.(store := if failed then v.store
         else CompleteReplayedAudit(v.store, order.intent, f.completeAudit).0,
                     log := WriteEvent(v.log, event, f.audit).0)
      && reply == if failed || !f.completeAudit.Done? then Threw else Replied(result)
    ensures Ended(v0, id, order, trace', after, reply)
  {
    hide WriteEvent, CompleteReplayedAudit, CompleteAudit, Complete, FailAudit, Abort, Begin, ExamineApproval, At;
    FlushThrows(v.store, order.intent, f.completeAudit);
    Extend(v0, id, order, trace, v, Flushing(result, event), FlushAudit(id, f.audit));
    var v1 := v.(log := WriteEvent(v.log, event, f.audit).0);
    trace' := trace + [FlushAudit(id, f.audit)];
    if !WriteEvent(v.log, event, f.audit).1 {
      Extend(v0, id, order, trace', v1, Flushed(result), FlushRelease(id, f.completeAudit));
      trace' := trace' + [FlushRelease(id, f.completeAudit)];
    } else {
      assert At(v0, id, order, trace', after, Thrown);
    }
  }

  lemma ConnectorStep(v: World, id: nat, order: Order, answer: ConnectorAnswer, error: string)
    ensures Act(v, id, order, Cleared, CallConnector(id))
      == (v.(calls := v.calls + [ConnectorCall(id, order)]), Calling)
    ensures var result := Conclude(order.intent, answer);
      var event := TerminalEvent(order, result, error);
      Act(v, id, order, Calling, Answer(id, answer, error))
        == (v.(concluded := v.concluded[ScopeKey(order.intent) := event]), Concluded(result, event))
  {
  }

  lemma FinishSteps(v: World, id: nat, order: Order, result: BrokerResult, event: AuditEvent, f: Faults)
    ensures var (kept, threw) := Complete(v.store, order.intent, result, Some(event), f.complete);
      Act(v, id, order, Concluded(result, event), Persist(id, f.complete))
        == (v.(store := kept), Persisted(result, event, threw))
    ensures forall threw ::
      Act(v, id, order, Persisted(result, event, threw), AuditResult(id, f.audit))
        == WriteResult(v, order, Persisted(result, event, threw), f.audit)
    ensures var (released, threw) := CompleteAudit(v.store, order.intent, f.completeAudit);
      Act(v, id, order, Audited(result), Release(id, f.completeAudit))
        == (v.(store := released), if threw then Thrown else Returned(result, true))
  {
  }

  lemma EndsAs(v0: World, id: nat, order: Order, trace: seq<Label>, v: World, phase: Phase, reply: Reply)
    requires At(v0, id, order, trace, v, phase) && Agrees(reply, phase)
    ensures Ended(v0, id, order, trace, v, reply)
  {
  }

  /** Finishing is storing, auditing and releasing. */
  lemma FinishTrace(v0: World, id: nat, order: Order, trace: seq<Label>, v: World, result: BrokerResult,
                    event: AuditEvent,
                    f: Faults, after: World, reply: Reply) returns (trace': seq<Label>)
    requires At(v0, id, order, trace, v, Concluded(result, event))
    requires after == v.(store := Finished(v.store, v.log, order.intent, result, event, f),
                         log := WriteEvent(v.log, event, f.audit).0)
    requires Holds(v.store, order.intent)
    requires reply == if f.complete.Done? && !WriteEvent(v.log, event, f.audit).1 && f.completeAudit.Done?
      then Replied(result) else Threw
    ensures Ended(v0, id, order, trace', after, reply)
  {
    hide Act, At, Ended, WriteEvent, CompleteAudit, FailAudit, Complete;
    var (kept, threw) := Complete(v.store, order.intent, result, Some(event), f.complete);
    var (v1, p1) := (v.(store := kept), Persisted(result, event, threw));
    var (v2, p2) := WriteResult(v1, order, p1, f.audit);
    Extend(v0, id, order, trace, v, Concluded(result, event), Persist(id, f.complete));
    FinishSteps(v, id, order, result, event, f);
    trace' := trace + [Persist(id, f.complete)];
    Extend(v0, id, order, trace', v1, p1, AuditResult(id, f.audit));
    FinishSteps(v1, id, order, result, event, f);
    trace' := trace' + [AuditResult(id, f.audit)];
    CompleteThrows(v.store, order.intent, result, event, f.complete);
    if p2.Thrown? {
      EndsAs(v0, id, order, trace', after, Thrown, reply);
    } else {
      Extend(v0, id, order, trace', v2, p2, Release(id, f.completeAudit));
      FinishSteps(v2, id, order, result, event, f);
      ReleaseThrows(v2.store, order.intent, f.completeAudit);
      trace' := trace' + [Release(id, f.completeAudit)];
      EndsAs(v0, id, order, trace', after, if f.completeAudit.Done? then Returned(result, true) else Thrown, reply);
    }
  }

  lemma CompleteThrows(s: Store, intent: Intent, result: BrokerResult, event: AuditEvent, w: WriteOutcome)
    requires Holds(s, intent)
    ensures Complete(s, intent, result, Some(event), w).1 <==> !w.Done?
  {
  }

  lemma FlushThrows(s: Store, intent: Intent, w: WriteOutcome)
    ensures CompleteReplayedAudit(s, intent, w).1 <==> !w.Done?
  {
  }

  lemma ReleaseThrows(s: Store, intent: Intent, w: WriteOutcome)
    ensures CompleteAudit(s, intent, w).1 <==> !w.Done?
  {
  }
}
