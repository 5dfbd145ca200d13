/** Every broker process as one state machine. The processes share the idempotency file, the audit log and
    the approval table; each keeps its own reservations, and an `execute` call moves through its phases one
    durable or observable effect at a time, so any other call may step in between.

    Checks that only reject (schema, token, staleness, environment, preflight, kill switch, revalidation,
    dry run) are left open: any of them may reject, or throw, wherever the source performs one. */
module BrokerProtocol {
  import opened Outcomes
  import opened TradingIntents
  import opened IdempotencyStore
  import opened BrokerExecution
  import Approvals = ApprovalStore

  datatype Phase =
    | Arrived
    | Conflicted
    | Reserved                                        // holds the reservation, approval not examined
    | Checked                                         // approval examined, or none needed
    | Condemned(reason: string, keep: bool)           // will be refused; `keep` stores the refusal
    | Collapsing                                      // an exception is leaving; the reservation is aborted next
    | Refused(result: BrokerResult, keep: bool)       // the refusal is in the log
    | Cleared                                         // approval consumed, or none needed
    | Calling                                         // connector.execute has been called
    | Concluded(result: BrokerResult, event: AuditEvent)
    | Persisted(result: BrokerResult, event: AuditEvent, threw: bool)
    | Audited(result: BrokerResult)
    | Flushing(result: BrokerResult, event: AuditEvent)
    | Flushed(result: BrokerResult)
    | Waiting(promise: nat)
    | Returned(result: BrokerResult, stored: bool)
    | Thrown

  datatype Session = Session(process: nat, order: Order, phase: Phase)

  datatype ConnectorCall = ConnectorCall(session: nat, order: Order)

  /** A one-time approval taken: by whom, when, and the row as it was. */
  datatype ApprovalUse = ApprovalUse(session: nat, approvalId: string, at: nat, request: Approvals.Request)

  datatype State = State(
    file: File,
    reservations: map<nat, map<ScopedKey, Reservation>>,
    promises: map<nat, Promise>,
    sessions: map<nat, Session>,
    log: Log,
    approvals: Approvals.Table,
    calls: seq<ConnectorCall>,
    concluded: map<ScopedKey, AuditEvent>,
    uses: seq<ApprovalUse>)

  const INIT := State(map[], map[], map[], map[], [], Approvals.Table(map[], {}), [], map[], [])

  datatype Label =
    | Arrive(session: nat, process: nat, order: Order)
    | RefuseEarly(session: nat, reason: string, w: WriteOutcome)
    | Begins(session: nat, w: WriteOutcome)
    | Examine(session: nat, now: nat)
    | Condemn(session: nat, reason: string, keep: bool)
    | Collapse(session: nat)
    | AuditRefusal(session: nat, w: WriteOutcome)
    | KeepRefusal(session: nat, w: WriteOutcome)
    | ReleaseRefusal(session: nat, w: WriteOutcome)
    | Unwind(session: nat, w: WriteOutcome)
    | ConsumeApproval(session: nat, now: nat)
    | CallConnector(session: nat)
    | Answer(session: nat, answer: ConnectorAnswer, error: string)
    | Persist(session: nat, w: WriteOutcome)
    | AuditResult(session: nat, w: WriteOutcome)
    | Release(session: nat, w: WriteOutcome)
    | FlushAudit(session: nat, w: WriteOutcome)
    | FlushRelease(session: nat, w: WriteOutcome)
    | Resume(session: nat)
    | Crash(process: nat)
    | Operator(call: Approvals.Call)

  // ---------------------------------------------------------------------------
  // What one call sees and does
  // ---------------------------------------------------------------------------

  /** Everything a call running in one process can reach. */
  datatype World = World(
    store: Store, log: Log, approvals: Approvals.Table, calls: seq<ConnectorCall>,
    concluded: map<ScopedKey, AuditEvent>, uses: seq<ApprovalUse>)

  /** `approvalMatchesIntent` with the decision's correlation id. */
  predicate ApprovalMatches(facts: Approvals.Facts, order: Order) {
    && facts.intentId == order.intent.intentId
    && facts.principal == order.intent.principal
    && facts.action == ActionText(order.intent.action)
    && facts.resource == order.intent.resource
    && facts.environment == order.intent.environment
    && facts.correlationId == order.correlationId
    && facts.intentData == order.intent
  }

  function ExamineApproval(t: Approvals.Table, order: Order, now: nat): Phase {
    if order.approvalId.None? then Checked
    else
      var id := order.approvalId.value;
      if id in t.rows && t.rows[id].state.Consumed? then Condemned("Human approval has already been used.", true)
      else if id !in t.rows || !t.rows[id].state.Approved? then
        Condemned("Human approval is required before execution.", false)
      else if now > t.rows[id].facts.timeoutAt then Condemned("Human approval has expired.", true)
      else if !t.rows[id].facts.approvalType.OneTime? || !ApprovalMatches(t.rows[id].facts, order) then
        Condemned("Human approval does not match the execution intent.", true)
      else Checked
  }

  /** An approval lets a call pass exactly when it is one-time, approved, unexpired, and was asked for this very
      call. */
  lemma ApprovalPassesExactlyWhen(t: Approvals.Table, order: Order, now: nat)
    ensures ExamineApproval(t, order, now) == Checked <==> order.approvalId.None? || Grants(t, order, now)
    ensures order.approvalId.Some? && order.approvalId.value !in t.rows ==>
      ExamineApproval(t, order, now) == Condemned("Human approval is required before execution.", false)
    ensures order.approvalId.Some? && order.approvalId.value in t.rows ==>
      var row := t.rows[order.approvalId.value];
      match ExamineApproval(t, order, now)
      case Condemned(reason, keep) =>
        && (row.state.Consumed? <==> reason == "Human approval has already been used.")
        && (!row.state.Approved? && !row.state.Consumed?
            <==> reason == "Human approval is required before execution." && !keep)
        && (row.state.Approved? && row.facts.timeoutAt < now <==> reason == "Human approval has expired.")
        && (row.state.Approved? && now <= row.facts.timeoutAt
            <==> reason == "Human approval does not match the execution intent.")
        && (keep <==> row.state.Approved? || row.state.Consumed?)
      case _ => true
  {
  }

  /** The row is an approval of exactly this order. */
  predicate Grants(t: Approvals.Table, order: Order, now: nat) {
    && order.approvalId.Some? && order.approvalId.value in t.rows
    && var r, intent := t.rows[order.approvalId.value], order.intent;
       && r.state.Approved? && r.facts.approvalType.OneTime? && now <= r.facts.timeoutAt
       && r.facts.intentData == intent && r.facts.intentId == intent.intentId && r.facts.principal == intent.principal
       && r.facts.resource == intent.resource && r.facts.environment == intent.environment
       && r.facts.action == ActionText(intent.action) && r.facts.correlationId == order.correlationId
  }

  function AfterBegin(reply: BeginReply): Phase {
    match reply
    case Reserve => Reserved
    case Replay(result, None) => Returned(result, true)
    case Replay(result, Some(event)) => Flushing(result, event)
    case Join(promise) => Waiting(promise)
    case Orphaned => Thrown
    case Conflict => Conflicted
    case Failure => Thrown
  }

  function WriteRefusal(v: World, order: Order, reason: string, w: WriteOutcome, ok: Phase, failed: Phase)
    : (World, Phase)
  {
    var (log, threw) := WriteEvent(v.log, RefusalEvent(order, reason), w);
    (v.(log := log), if threw then failed else ok)
  }

  function TakeApproval(v: World, id: nat, order: Order, now: nat): (World, Phase) {
    if order.approvalId.None? then (v, Cleared)
    else
      var a := order.approvalId.value;
      var (t, reply) := Approvals.Consume(v.approvals, a, now);
      if reply.Row? && a in v.approvals.rows then
        (v.(approvals := t, uses := v.uses + [ApprovalUse(id, a, now, v.approvals.rows[a])]), Cleared)
      else (v, Condemned("Human approval has already been used.", true))
  }

  function TakeAnswer(v: World, order: Order, answer: ConnectorAnswer, error: string): (World, Phase) {
    var result := Conclude(order.intent, answer);
    var event := TerminalEvent(order, result, error);
    (v.(concluded := v.concluded[ScopeKey(order.intent) := event]), Concluded(result, event))
  }

  function WriteResult(v: World, order: Order, phase: Phase, w: WriteOutcome): (World, Phase)
    requires phase.Persisted?
  {
    var (log, threw) := WriteEvent(v.log, phase.event, w);
    if threw then (v.(log := log, store := FailAudit(v.store, order.intent)), Thrown)
    else (v.(log := log), if phase.threw then Thrown else Audited(phase.result))
  }

  function Stored(v: World, effect: (Store, bool), ok: Phase, failed: Phase): (World, Phase) {
    (v.(store := effect.0), if effect.1 then failed else ok)
  }

  /** One step of one call; a label that does not fit the phase changes nothing. When `complete` throws on a
      refusal, the abort that follows finds no reservation left, so that step ends the call at once. */
  function Act(v: World, id: nat, order: Order, phase: Phase, l: Label): (World, Phase) {
    match (phase, l)
    case (Arrived, Begins(_, w)) =>
      var (st, reply) := Begin(v.store, order.intent, id, w);
      (v.(store := st), AfterBegin(reply))
    case (Arrived, RefuseEarly(_, reason, w)) =>
      WriteRefusal(v, order, reason, w, Returned(Refuse(order.intent, reason), false), Thrown)
    case (Conflicted, RefuseEarly(_, reason, w)) =>
      WriteRefusal(v, order, reason, w, Returned(Refuse(order.intent, reason), false), Thrown)
    case (Reserved, Examine(_, now)) => (v, ExamineApproval(v.approvals, order, now))
    case (Reserved, Condemn(_, reason, keep)) => (v, Condemned(reason, keep))
    case (Checked, Condemn(_, reason, keep)) => (v, Condemned(reason, keep))
    case (Reserved, Collapse(_)) => (v, Collapsing)
    case (Checked, Collapse(_)) => (v, Collapsing)
    case (Condemned(reason, keep), AuditRefusal(_, w)) =>
      WriteRefusal(v, order, reason, w, Refused(Refuse(order.intent, reason), keep), Collapsing)
    case (Refused(result, true), KeepRefusal(_, w)) =>
      Stored(v, Complete(v.store, order.intent, result, None, w), Returned(result, true), Thrown)
    case (Refused(result, false), ReleaseRefusal(_, w)) =>
      Stored(v, Abort(v.store, order.intent, w), Returned(result, false), Thrown)
    case (Collapsing, Unwind(_, w)) => Stored(v, Abort(v.store, order.intent, w), Thrown, Thrown)
    case (Checked, ConsumeApproval(_, now)) => TakeApproval(v, id, order, now)
    case (Cleared, CallConnector(_)) => (v.(calls := v.calls + [ConnectorCall(id, order)]), Calling)
    case (Calling, Answer(_, answer, error)) => TakeAnswer(v, order, answer, error)
    case (Concluded(result, event), Persist(_, w)) =>
      Stored(v, Complete(v.store, order.intent, result, Some(event), w),
             Persisted(result, event, false), Persisted(result, event, true))
    case (Persisted(_, _, _), AuditResult(_, w)) => WriteResult(v, order, phase, w)
    case (Audited(result), Release(_, w)) =>
      Stored(v, CompleteAudit(v.store, order.intent, w), Returned(result, true), Thrown)
    case (Flushing(result, event), FlushAudit(_, w)) =>
      var (log, threw) := WriteEvent(v.log, event, w);
      (v.(log := log), if threw then Thrown else Flushed(result))
    case (Flushed(result), FlushRelease(_, w)) =>
      Stored(v, CompleteReplayedAudit(v.store, order.intent, w), Returned(result, true), Thrown)
    case (Waiting(promise), Resume(_)) =>
      if promise !in v.store.promises then (v, phase)
      else (v, match v.store.promises[promise]
               case Unsettled => phase
               case Resolved(result) => Returned(result, true)
               case Broken => Thrown)
    case _ => (v, phase)
  }

  /** A refusal is returned once it is logged and its key, if held, closed, whether kept or not, and throws when its
      last write does. */
  lemma HowRefusalsEnd(v: World, id: nat, order: Order, result: BrokerResult, keep: bool, reason: string,
                       w: WriteOutcome)
    requires Holds(v.store, order.intent)
    ensures var early := if w.Done? then Returned(Refuse(order.intent, reason), false) else Thrown;
      && Act(v, id, order, Arrived, RefuseEarly(id, reason, w)).1 == early
      && Act(v, id, order, Conflicted, RefuseEarly(id, reason, w)).1 == early
    ensures Act(v, id, order, Refused(result, keep), if keep then KeepRefusal(id, w) else ReleaseRefusal(id, w)).1
         == if w.Done? then Returned(result, keep) else Thrown
  {
  }

  /** A released and a replayed result are returned as stored, and throw when their last write does. */
  lemma HowResultsEnd(v: World, id: nat, order: Order, result: BrokerResult, w: WriteOutcome)
    ensures var end := if w.Done? then Returned(result, true) else Thrown;
      && Act(v, id, order, Audited(result), Release(id, w)).1 == end
      && Act(v, id, order, Flushed(result), FlushRelease(id, w)).1 == end
  {
    hide WriteEvent, Begin, ExamineApproval, TakeApproval, TakeAnswer, Complete, Abort, WriteRefusal;
  }

  /** A waiter is given what its promise resolves to, and fails when it breaks. */
  lemma HowWaitersEnd(v: World, id: nat, order: Order, promise: nat)
    requires promise in v.store.promises
    ensures Act(v, id, order, Waiting(promise), Resume(id)) ==
      (v, match v.store.promises[promise]
          case Unsettled => Waiting(promise)
          case Resolved(given) => Returned(given, true)
          case Broken => Thrown)
  {
  }

  /** Operators decide, expire, create and delete approvals; only brokers consume them. */
  lemma OperatorsMoveApprovals(s: State, call: Approvals.Call)
    ensures Next(s, Operator(call)) ==
      s.(approvals := if call.CallConsume? then s.approvals else Approvals.Apply(s.approvals, call))
  {
  }

  // ---------------------------------------------------------------------------
  // The whole system
  // ---------------------------------------------------------------------------

  function Pending(s: State, p: nat): map<ScopedKey, Reservation> {
    if p in s.reservations then s.reservations[p] else map[]
  }

  function See(s: State, p: nat): World {
    World(Store(s.file, Pending(s, p), s.promises), s.log, s.approvals, s.calls, s.concluded, s.uses)
  }

  function Put(s: State, id: nat, x: Session, v: World, phase: Phase): State {
    State(v.store.file, s.reservations[x.process := v.store.pending], v.store.promises,
          s.sessions[id := x.(phase := phase)], v.log, v.approvals, v.calls, v.concluded, v.uses)
  }

  /** A crash loses the process's memory and its unfinished calls; files, log and table stay. */
  function CrashStep(s: State, p: nat): State {
    s.(reservations := s.reservations[p := map[]],
       sessions := map id | id in s.sessions ::
         if s.sessions[id].process == p && !s.sessions[id].phase.Returned?
         then s.sessions[id].(phase := Thrown) else s.sessions[id])
  }

  function Next(s: State, l: Label): State {
    match l
    case Arrive(id, p, order) =>
      if id in s.sessions then s else s.(sessions := s.sessions[id := Session(p, order, Arrived)])
    case Crash(p) => CrashStep(s, p)
    case Operator(call) => if call.CallConsume? then s else s.(approvals := Approvals.Apply(s.approvals, call))
    case _ =>
      if l.session !in s.sessions then s
      else
        var x := s.sessions[l.session];
        var (v, phase) := Act(See(s, x.process), l.session, x.order, x.phase, l);
        Put(s, l.session, x, v, phase)
  }

  function Run(s: State, labels: seq<Label>): State
    decreases |labels|
  {
    if labels == [] then s else Run(Next(s, labels[0]), labels[1..])
  }
}
