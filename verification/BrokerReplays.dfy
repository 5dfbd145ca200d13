/** When a retry is given the stored result: exactly the conditions, over every reachable state. */
module BrokerReplays {
  import opened Outcomes
  import opened TradingIntents
  import opened IdempotencyStore
  import opened BrokerExecution
  import opened BrokerProtocol
  import opened BrokerSafety
  import opened BrokerResults
  import Approvals = ApprovalStore
  import Steps = BrokerExecute

  // ---------------------------------------------------------------------------
  // Where stored results come from
  // ---------------------------------------------------------------------------

  /** The terminal event some call on the intent wrote for the result. */
  ghost predicate EventOf(e: AuditEvent, intent: Intent, result: BrokerResult) {
    !result.Rejected? && exists order: Order, error ::
      order.intent == intent && e == TerminalEvent(order, result, error)
  }

  ghost predicate Origin(entry: Entry) {
    entry.Cached? ==>
      && StoredFor(entry.result, entry.hash)
      && (entry.pendingAudit.Some? ==> EventOf(entry.pendingAudit.value, entry.hash, entry.result))
  }

  ghost predicate Origins(f: File) {
    forall k :: k in f ==> Origin(f[k])
  }

  ghost predicate PhaseOrigin(intent: Intent, phase: Phase) {
    match phase
    case Refused(result, _) => exists reason :: result == Refuse(intent, reason)
    case Concluded(result, e) => StoredFor(result, intent) && EventOf(e, intent, result)
    case _ => true
  }

  lemma BeginOrigins(st: Store, intent: Intent, id: nat, w: WriteOutcome)
    requires Origins(st.file)
    ensures Origins(Begin(st, intent, id, w).0.file)
  {
    hide Replayable, ScopeKey;
  }

  lemma CompleteOrigins(st: Store, intent: Intent, result: BrokerResult, pendingAudit: Option<AuditEvent>,
                        w: WriteOutcome)
    requires Origins(st.file) && Origin(Cached(intent, result, pendingAudit))
    ensures Origins(Complete(st, intent, result, pendingAudit, w).0.file)
  {
    hide Origin, ScopeKey, IdempotencyStore.Settle;
  }

  lemma ReleaseOrigins(st: Store, intent: Intent, w: WriteOutcome)
    requires Origins(st.file)
    ensures Origins(CompleteReplayedAudit(st, intent, w).0.file) && Origins(CompleteAudit(st, intent, w).0.file)
    ensures Origins(Abort(st, intent, w).0.file) && Origins(FailAudit(st, intent).file)
  {
    hide ScopeKey, IdempotencyStore.Settle, StoredFor, EventOf;
  }

  lemma ConcludedOrigin(order: Order, answer: ConnectorAnswer, error: string)
    ensures var result := Conclude(order.intent, answer);
      PhaseOrigin(order.intent, Concluded(result, TerminalEvent(order, result, error)))
  {
  }

  /** A step of one call stores only results of its own intent. */
  lemma ActOrigins(v: World, id: nat, order: Order, phase: Phase, l: Label)
    requires Origins(v.store.file) && PhaseOrigin(order.intent, phase)
    ensures Origins(Act(v, id, order, phase, l).0.store.file)
  {
    hide Act, Origins, PhaseOrigin, BeforeCall;
    if BeforeCall(phase) {
      OpeningOrigins(v, id, order, phase, l);
    } else {
      ClosingOrigins(v, id, order, phase, l);
    }
  }

  lemma OpeningOrigins(v: World, id: nat, order: Order, phase: Phase, l: Label)
    requires Origins(v.store.file) && PhaseOrigin(order.intent, phase) && BeforeCall(phase)
    ensures Origins(Act(v, id, order, phase, l).0.store.file)
  {
    hide Origins, Origin, StoredFor, EventOf, Begin, Complete, CompleteAudit, CompleteReplayedAudit, Abort, FailAudit,
         WriteEvent, Conclude, TerminalEvent, Approvals.Consume, ExamineApproval, RefusalEvent, AfterBegin, Refuse;
    match (phase, l) {
      case (Refused(result, true), KeepRefusal(_, w)) =>
        RefusalOrigin(order.intent, result);
        CompleteOrigins(v.store, order.intent, result, None, w);
      case (Refused(_, false), ReleaseRefusal(_, w)) => ReleaseOrigins(v.store, order.intent, w);
      case (Collapsing, Unwind(_, w)) => ReleaseOrigins(v.store, order.intent, w);
      case _ =>
    }
  }

  lemma ClosingOrigins(v: World, id: nat, order: Order, phase: Phase, l: Label)
    requires Origins(v.store.file) && PhaseOrigin(order.intent, phase) && !BeforeCall(phase)
    ensures Origins(Act(v, id, order, phase, l).0.store.file)
  {
    hide Origins, Origin, StoredFor, EventOf, Begin, Complete, CompleteAudit, CompleteReplayedAudit, Abort, FailAudit,
         WriteEvent, Conclude, TerminalEvent, Approvals.Consume, ExamineApproval, RefusalEvent, AfterBegin, Refuse;
    match (phase, l) {
      case (Arrived, Begins(_, w)) => BeginOrigins(v.store, order.intent, id, w);
      case (Concluded(result, event), Persist(_, w)) =>
        ConclusionOrigin(order.intent, result, event);
        CompleteOrigins(v.store, order.intent, result, Some(event), w);
      case (Persisted(_, _, _), AuditResult(_, w)) => ReleaseOrigins(v.store, order.intent, w);
      case (Audited(_), Release(_, w)) => ReleaseOrigins(v.store, order.intent, w);
      case (Flushed(_), FlushRelease(_, w)) => ReleaseOrigins(v.store, order.intent, w);
      case _ =>
    }
  }

  lemma ConclusionOrigin(intent: Intent, result: BrokerResult, event: AuditEvent)
    requires PhaseOrigin(intent, Concluded(result, event))
    ensures Origin(Cached(intent, result, Some(event)))
  {
  }

  lemma ActPhaseOrigin(v: World, id: nat, order: Order, phase: Phase, l: Label)
    requires PhaseOrigin(order.intent, phase)
    ensures PhaseOrigin(order.intent, Act(v, id, order, phase, l).1)
  {
    hide StoredFor, EventOf, Begin, Complete, CompleteAudit, CompleteReplayedAudit, Abort, FailAudit, WriteEvent,
         Conclude, TerminalEvent, Approvals.Consume, RefusalEvent, AfterBegin, ApprovalMatches;
    if phase.Arrived? && l.Begins? {
      BeginPhase(v.store, order.intent, id, l.w);
    } else if phase.Calling? && l.Answer? {
      ConcludedOrigin(order, l.answer, l.error);
    }
  }

  lemma BeginPhase(st: Store, intent: Intent, id: nat, w: WriteOutcome)
    ensures var phase := AfterBegin(Begin(st, intent, id, w).1); !phase.Refused? && !phase.Concluded?
  {
    hide Replayable, ScopeKey;
  }

  lemma RefusalOrigin(intent: Intent, result: BrokerResult)
    requires exists reason :: result == Refuse(intent, reason)
    ensures Origin(Cached(intent, result, None))
  {
  }

  /** For a stored result the store's check on replay comes down to what executed and what was asked. */
  lemma OriginReplays(intent: Intent, result: BrokerResult, pendingAudit: Option<AuditEvent>)
    requires Origin(Cached(intent, result, pendingAudit))
    ensures Replayable(result, pendingAudit, intent) <==> (result.Executed? || !intent.action.GetOrderStatus?)
  {
    ReplayCheckPassesExactlyWhen(intent, result);
    if pendingAudit.Some? {
      var order: Order, error :| order.intent == intent && pendingAudit.value == TerminalEvent(order, result, error);
    }
  }

  // ---------------------------------------------------------------------------
  // Whom reservations belong to
  // ---------------------------------------------------------------------------

  /** One store operation: other keys' reservations are as they were, its own is kept or newly made, and a promise is
      resolved only as its reservation goes. */
  ghost predicate Moves(a: Store, b: Store, id: nat, intent: Intent) {
    var k := ScopeKey(intent);
    && (forall k' :: k' != k && k' in b.pending ==> k' in a.pending && b.pending[k'] == a.pending[k'])
    && (k in b.pending ==> (k in a.pending && b.pending[k] == a.pending[k]) || MadeBy(a, b, id, intent))
    && (forall j :: j in b.promises && b.promises[j].Resolved? ==>
          || (j in a.promises && a.promises[j].Resolved?)
          || (k in a.pending && j == a.pending[k].promise && k !in b.pending))
  }

  predicate MadeBy(a: Store, b: Store, id: nat, intent: Intent) {
    var k := ScopeKey(intent);
    k !in a.pending && k in b.pending && b.pending[k] == Reservation(intent, id) && id in b.promises
      && b.promises[id].Unsettled?
  }

  lemma BeginMoves(st: Store, intent: Intent, id: nat, w: WriteOutcome)
    ensures var (st', reply) := Begin(st, intent, id, w);
      Moves(st, st', id, intent) && (MadeBy(st, st', id, intent) ==> BeforeCall(AfterBegin(reply)))
  {
    hide Replayable, ScopeKey;
  }

  lemma CompleteMoves(st: Store, intent: Intent, id: nat, result: BrokerResult, pendingAudit: Option<AuditEvent>,
                      w: WriteOutcome)
    ensures var (st', threw) := Complete(st, intent, result, pendingAudit, w);
      && Moves(st, st', id, intent) && !MadeBy(st, st', id, intent)
      && (Holds(st, intent) && (threw || pendingAudit.None?) ==> ScopeKey(intent) !in st'.pending)
      && (!threw && pendingAudit.Some? ==> st'.pending == st.pending)
  {
    hide ScopeKey;
  }

  lemma AuditMoves(st: Store, intent: Intent, id: nat, w: WriteOutcome)
    ensures var st' := CompleteAudit(st, intent, w).0; Moves(st, st', id, intent) && !MadeBy(st, st', id, intent)
    ensures var st' := CompleteReplayedAudit(st, intent, w).0;
      Moves(st, st', id, intent) && !MadeBy(st, st', id, intent)
    ensures var st' := FailAudit(st, intent); Moves(st, st', id, intent) && !MadeBy(st, st', id, intent)
  {
    hide ScopeKey;
  }

  lemma AbortMoves(st: Store, intent: Intent, id: nat, w: WriteOutcome)
    ensures var st' := Abort(st, intent, w).0;
      && Moves(st, st', id, intent) && !MadeBy(st, st', id, intent)
      && (Holds(st, intent) ==> ScopeKey(intent) !in st'.pending)
  {
    hide ScopeKey;
  }

  lemma StayMoves(st: Store, id: nat, intent: Intent)
    ensures Moves(st, st, id, intent) && !MadeBy(st, st, id, intent)
  {
  }

  /** Stored without a throw and not released yet. */
  predicate InStore(p: Phase) {
    p.Audited? || (p.Persisted? && !p.threw)
  }

  /** What a call's step does to its key's reservation, by the phases it joins. */
  ghost predicate ReservationStep(a: Store, b: Store, id: nat, intent: Intent, phase: Phase, phase': Phase) {
    var k := ScopeKey(intent);
    && Moves(a, b, id, intent)
    && (MadeBy(a, b, id, intent) ==> BeforeCall(phase'))
    && (BeforeCall(phase) && !Holding(phase') ==> k !in b.pending)
    && (InStore(phase') ==> (DuringCall(phase) || InStore(phase)) && b.pending == a.pending)
  }

  lemma ActMoves(v: World, id: nat, order: Order, phase: Phase, l: Label)
    ensures var (v', phase') := Act(v, id, order, phase, l);
      && Moves(v.store, v'.store, id, order.intent)
      && (MadeBy(v.store, v'.store, id, order.intent) ==> BeforeCall(phase'))
  {
    hide Act, Moves, MadeBy, BeforeCall;
    if phase.Arrived? {
      ArrivedMoves(v, id, order, l);
    } else if BeforeCall(phase) {
      OpeningMoves(v, id, order, phase, l);
    } else {
      ClosingMoves(v, id, order, phase, l);
    }
  }

  lemma ArrivedMoves(v: World, id: nat, order: Order, l: Label)
    ensures var (v', phase') := Act(v, id, order, Arrived, l);
      && Moves(v.store, v'.store, id, order.intent)
      && (MadeBy(v.store, v'.store, id, order.intent) ==> BeforeCall(phase'))
  {
    hide WriteEvent, RefusalEvent, Refuse, Moves, MadeBy, Begin, AfterBegin, BeforeCall;
    StayMoves(v.store, id, order.intent);
    if l.Begins? {
      BeginMoves(v.store, order.intent, id, l.w);
    }
  }

  lemma OpeningMoves(v: World, id: nat, order: Order, phase: Phase, l: Label)
    requires BeforeCall(phase)
    ensures var store := Act(v, id, order, phase, l).0.store;
      Moves(v.store, store, id, order.intent) && !MadeBy(v.store, store, id, order.intent)
  {
    hide Act, Moves, MadeBy;
    if phase.Refused? {
      RefusedMoves(v, id, order, phase, l);
    } else if phase.Collapsing? {
      CollapsingMoves(v, id, order, l);
    } else {
      CheckingStays(v, id, order, phase, l);
      StayMoves(v.store, id, order.intent);
    }
  }

  /** The checks, the approval and the call itself leave the store alone. */
  lemma CheckingStays(v: World, id: nat, order: Order, phase: Phase, l: Label)
    requires phase.Reserved? || phase.Checked? || phase.Condemned? || phase.Cleared?
    ensures Act(v, id, order, phase, l).0.store == v.store
  {
    hide WriteEvent, Approvals.Consume, ExamineApproval, RefusalEvent, Refuse;
  }

  lemma RefusedMoves(v: World, id: nat, order: Order, phase: Phase, l: Label)
    requires phase.Refused?
    ensures var store := Act(v, id, order, phase, l).0.store;
      Moves(v.store, store, id, order.intent) && !MadeBy(v.store, store, id, order.intent)
  {
    hide Moves, MadeBy, Complete, Abort, Holds;
    StayMoves(v.store, id, order.intent);
    if phase.keep && l.KeepRefusal? {
      CompleteMoves(v.store, order.intent, id, phase.result, None, l.w);
    } else if l.ReleaseRefusal? {
      AbortMoves(v.store, order.intent, id, l.w);
    }
  }

  lemma CollapsingMoves(v: World, id: nat, order: Order, l: Label)
    ensures var store := Act(v, id, order, Collapsing, l).0.store;
      Moves(v.store, store, id, order.intent) && !MadeBy(v.store, store, id, order.intent)
  {
    hide Moves, MadeBy, Abort, Holds;
    StayMoves(v.store, id, order.intent);
    if l.Unwind? {
      AbortMoves(v.store, order.intent, id, l.w);
    }
  }

  lemma ClosingMoves(v: World, id: nat, order: Order, phase: Phase, l: Label)
    requires !BeforeCall(phase) && !phase.Arrived?
    ensures var store := Act(v, id, order, phase, l).0.store;
      Moves(v.store, store, id, order.intent) && !MadeBy(v.store, store, id, order.intent)
  {
    hide WriteEvent, Conclude, TerminalEvent, Approvals.Consume, ExamineApproval, RefusalEvent, Refuse, Moves, MadeBy,
         Begin, Complete, CompleteAudit, CompleteReplayedAudit, Abort, FailAudit, Holds, AfterBegin;
    StayMoves(v.store, id, order.intent);
    if phase.Concluded? && l.Persist? {
      CompleteMoves(v.store, order.intent, id, phase.result, Some(phase.event), l.w);
    } else if l.AuditResult? || l.Release? || l.FlushRelease? {
      AuditMoves(v.store, order.intent, id, l.w);
    }
  }

  lemma ActReleases(v: World, id: nat, order: Order, phase: Phase, l: Label)
    requires BeforeCall(phase) && Reserves(v.store, order.intent, id)
    ensures var (v', phase') := Act(v, id, order, phase, l);
      !Holding(phase') ==> ScopeKey(order.intent) !in v'.store.pending
  {
    hide WriteEvent, Conclude, TerminalEvent, Approvals.Consume, ApprovalMatches, RefusalEvent, Refuse, Begin, Complete,
         CompleteAudit, CompleteReplayedAudit, Abort, FailAudit, Moves, MadeBy, ScopeKey;
    if phase.Refused? && phase.keep && l.KeepRefusal? {
      CompleteMoves(v.store, order.intent, id, phase.result, None, l.w);
    } else if phase.Refused? && l.ReleaseRefusal? {
      AbortMoves(v.store, order.intent, id, l.w);
    } else if phase.Collapsing? && l.Unwind? {
      AbortMoves(v.store, order.intent, id, l.w);
    }
  }

  /** A call comes to be stored by its own conclusion, and stays so without a change to its reservations. */
  lemma ActStores(v: World, id: nat, order: Order, phase: Phase, l: Label)
    ensures var (v', phase') := Act(v, id, order, phase, l);
      InStore(phase') ==> (DuringCall(phase) || InStore(phase)) && v'.store.pending == v.store.pending
  {
    hide WriteEvent, Conclude, TerminalEvent, Approvals.Consume, ApprovalMatches, RefusalEvent, Refuse, Begin, Complete,
         CompleteAudit, CompleteReplayedAudit, Abort, FailAudit, Moves, MadeBy, ScopeKey;
    if phase.Concluded? && l.Persist? {
      CompleteMoves(v.store, order.intent, id, phase.result, Some(phase.event), l.w);
    }
  }

  lemma ActReservation(v: World, id: nat, order: Order, phase: Phase, l: Label)
    requires Holding(phase) ==> Reserves(v.store, order.intent, id)
    ensures ReservationStep(v.store, Act(v, id, order, phase, l).0.store, id, order.intent, phase,
                            Act(v, id, order, phase, l).1)
  {
    hide Act, Moves, MadeBy, Reserves;
    ActMoves(v, id, order, phase, l);
    ActStores(v, id, order, phase, l);
    if BeforeCall(phase) {
      ActReleases(v, id, order, phase, l);
    }
  }

  /** A reservation in a process was made by one of its own sessions, which still holds it or has called the connector,
      and its promise is not resolved. */
  ghost predicate ReservedBy(s: State, q: nat, k: ScopedKey)
    requires k in Pending(s, q)
  {
    var r := Pending(s, q)[k];
    && r.promise in s.sessions
    && var x := s.sessions[r.promise];
       && x.process == q && x.order.intent == r.hash && KeyOf(x) == k
       && (Holding(x.phase) || Called(s, r.promise))
       && (r.promise in s.promises ==> !s.promises[r.promise].Resolved?)
  }

  ghost predicate StoredKeptReserved(s: State, id: nat)
    requires id in s.sessions
  {
    var x := s.sessions[id];
    InStore(x.phase) ==>
      KeyOf(x) in Pending(s, x.process) && Pending(s, x.process)[KeyOf(x)] == Reservation(x.order.intent, id)
  }

  ghost predicate Traced(s: State) {
    && (forall q, k :: k in Pending(s, q) ==> ReservedBy(s, q, k))
    && (forall id :: id in s.sessions ==> StoredKeptReserved(s, id))
    && Origins(s.file)
    && forall id :: id in s.sessions ==> PhaseOrigin(s.sessions[id].order.intent, s.sessions[id].phase)
  }

  // ---------------------------------------------------------------------------
  // Every step keeps this
  // ---------------------------------------------------------------------------

  /** Calls on one key are one call, so whoever called it is its caller. */
  lemma SameCaller(s: State, i: nat, j: nat)
    requires Owned(s) && i in s.sessions && j in s.sessions && Called(s, i) && Called(s, j)
    requires KeyOf(s.sessions[i]) == KeyOf(s.sessions[j])
    ensures i == j
  {
    var c :| 0 <= c < |s.calls| && s.calls[c].session == i;
    var d :| 0 <= d < |s.calls| && s.calls[d].session == j;
    assert s.sessions[i].order == s.calls[c].order && s.sessions[j].order == s.calls[d].order;
  }

  lemma CalledStays(s: State, t: State, id: nat, j: nat)
    requires CallStep(s, t, id) && Called(s, j)
    ensures Called(t, j)
  {
    var c :| 0 <= c < |s.calls| && s.calls[c].session == j;
    assert t.calls[c] == s.calls[c];
  }

  /** What a call's step does, on the whole state: ownership's view and the reservation's view. */
  ghost predicate TracedStep(s: State, t: State, id: nat) {
    && CallStep(s, t, id)
    && var x := s.sessions[id];
       ReservationStep(See(s, x.process).store, See(t, x.process).store, id, x.order.intent, x.phase,
         t.sessions[id].phase)
  }

  /** A promise that another reservation holds is not resolved by this step. */
  lemma OthersUnresolved(s: State, t: State, id: nat, q: nat, k: ScopedKey)
    requires TracedStep(s, t, id) && k in Pending(s, q) && ReservedBy(s, q, k)
    requires var x := s.sessions[id];
      KeyOf(x) in Pending(s, x.process) ==> ReservedBy(s, x.process, KeyOf(x))
    requires q != s.sessions[id].process || k != KeyOf(s.sessions[id])
    ensures Pending(s, q)[k].promise in t.promises ==> !t.promises[Pending(s, q)[k].promise].Resolved?
  {
    hide Holding, BeforeCall;
  }

  lemma OtherReservation(s: State, t: State, id: nat, q: nat, k: ScopedKey)
    requires Traced(s) && TracedStep(s, t, id) && k in Pending(t, q)
    requires q != s.sessions[id].process || k != KeyOf(s.sessions[id])
    ensures ReservedBy(t, q, k)
  {
    hide Origins, PhaseOrigin, Called, MadeBy;
    assert k in Pending(s, q) && Pending(t, q)[k] == Pending(s, q)[k];
    assert ReservedBy(s, q, k);
    var j := Pending(s, q)[k].promise;
    OthersUnresolved(s, t, id, q, k);
    assert j != id;
    if Called(s, j) {
      CalledStays(s, t, id, j);
    }
  }

  lemma OwnReservation(s: State, t: State, id: nat)
    requires Owned(s) && Traced(s) && TracedStep(s, t, id)
      && KeyOf(s.sessions[id]) in Pending(t, s.sessions[id].process)
    ensures ReservedBy(t, s.sessions[id].process, KeyOf(s.sessions[id]))
  {
    hide Origins, PhaseOrigin, HoldersReserved, OneHolder, CalledKeysSpent, OneCallPerKey, StoredKeptReserved, Called;
    var x := s.sessions[id];
    var q, k := x.process, KeyOf(x);
    if !MadeBy(See(s, q).store, See(t, q).store, id, x.order.intent) {
      assert k in Pending(s, q) && Pending(t, q)[k] == Pending(s, q)[k];
      assert ReservedBy(s, q, k);
      var j := Pending(s, q)[k].promise;
      assert DuringCall(x.phase) ==> Called(s, id);
      if Called(s, j) {
        CalledStays(s, t, id, j);
      }
    }
  }

  lemma SteppedSession(s: State, t: State, id: nat)
    requires TracedStep(s, t, id)
    ensures id in s.sessions
  {
  }

  lemma ReservationsStep(s: State, t: State, id: nat)
    requires Owned(s) && Traced(s) && TracedStep(s, t, id)
    ensures forall q, k :: k in Pending(t, q) ==> ReservedBy(t, q, k)
  {
    hide Owned, Traced, CallStep, ReservationStep, ReservedBy;
    assert id in s.sessions by {
      SteppedSession(s, t, id);
    }
    forall q, k | k in Pending(t, q) ensures ReservedBy(t, q, k) {
      if q == s.sessions[id].process && k == KeyOf(s.sessions[id]) {
        OwnReservation(s, t, id);
      } else {
        OtherReservation(s, t, id, q, k);
      }
    }
  }

  lemma StoredStep(s: State, t: State, id: nat, j: nat)
    requires Owned(s) && Traced(s) && TracedStep(s, t, id) && j in t.sessions
    ensures StoredKeptReserved(t, j)
  {
    hide Origins, PhaseOrigin, ReservedBy, OneHolder, CallersCalled, OneCallPerKey, Moves, MadeBy;
    assert j in s.sessions && StoredKeptReserved(s, j);
    var x := s.sessions[id];
    if j != id && InStore(s.sessions[j].phase) && KeyOf(s.sessions[j]) == KeyOf(x) {
      StoredIsAlone(s, id, j);
    }
  }

  /** Beside a stored call on its key no session holds, stores or finishes. */
  lemma StoredIsAlone(s: State, id: nat, j: nat)
    requires Owned(s) && id in s.sessions && j in s.sessions && j != id && KeyOf(s.sessions[j]) == KeyOf(s.sessions[id])
    requires InStore(s.sessions[j].phase)
    ensures !Holding(s.sessions[id].phase) && !AfterCall(s.sessions[id].phase)
  {
    hide HoldersReserved, OneHolder;
    AfterCallHasNoHolder(s, j, id);
    assert Called(s, j);
    if AfterCall(s.sessions[id].phase) {
      assert Called(s, id);
      SameCaller(s, id, j);
    }
  }

  lemma TracedCallNext(s: State, l: Label)
    requires Owned(s) && Traced(s) && IsCallLabel(l) && l.session in s.sessions
    ensures Traced(Next(s, l))
  {
    var id, x := l.session, s.sessions[l.session];
    var v, t := See(s, x.process), Next(s, l);
    hide Act, CallStep, ReservationStep, HoldersReserved, OneHolder, CalledKeysSpent, CallersCalled, OneCallPerKey,
         Reserves;
    NextIsCallStep(s, l);
    HolderReserves(s, id);
    ActReservation(v, id, x.order, x.phase, l);
    ActOrigins(v, id, x.order, x.phase, l);
    ActPhaseOrigin(v, id, x.order, x.phase, l);
    var step := Act(v, id, x.order, x.phase, l);
    SeePut(s, id, step.0, step.1);
    hide Next, Put, See, Origins, PhaseOrigin;
    TracedParts(s, t, id, x);
  }

  lemma HolderReserves(s: State, id: nat)
    requires HoldersReserved(s) && id in s.sessions
    ensures var x := s.sessions[id]; Holding(x.phase) ==> Reserves(See(s, x.process).store, x.order.intent, id)
  {
  }

  lemma SeePut(s: State, id: nat, v: World, phase: Phase)
    requires id in s.sessions
    ensures var x := s.sessions[id]; See(Put(s, id, x, v, phase), x.process) == v
  {
  }

  lemma TracedParts(s: State, t: State, id: nat, x: Session)
    requires Owned(s) && Traced(s) && TracedStep(s, t, id) && x == s.sessions[id]
    requires Origins(t.file) && PhaseOrigin(x.order.intent, t.sessions[id].phase)
    ensures Traced(t)
  {
    hide Owned, TracedStep, ReservedBy, StoredKeptReserved, Origins, PhaseOrigin;
    ReservationsStep(s, t, id);
    forall j | j in t.sessions
      ensures StoredKeptReserved(t, j) && PhaseOrigin(t.sessions[j].order.intent, t.sessions[j].phase)
    {
      StoredStep(s, t, id, j);
      OtherSession(s, t, id, j);
    }
  }

  lemma OtherSession(s: State, t: State, id: nat, j: nat)
    requires TracedStep(s, t, id) && j in t.sessions
    ensures j in s.sessions && t.sessions[j].order == s.sessions[j].order
      && (j != id ==> t.sessions[j] == s.sessions[j])
  {
  }

  lemma TracedArrive(s: State, id: nat, p: nat, order: Order)
    requires Traced(s) && id !in s.sessions
    ensures Traced(s.(sessions := s.sessions[id := Session(p, order, Arrived)]))
  {
    hide Origins, Called;
    var t := s.(sessions := s.sessions[id := Session(p, order, Arrived)]);
    forall q, k | k in Pending(t, q) ensures ReservedBy(t, q, k) {
      assert ReservedBy(s, q, k);
      SameCalls(s, t, Pending(s, q)[k].promise);
    }
    forall j | j in t.sessions ensures StoredKeptReserved(t, j) {
      assert j != id ==> StoredKeptReserved(s, j);
    }
  }

  lemma SameCalls(s: State, t: State, j: nat)
    requires t.calls == s.calls
    ensures Called(s, j) <==> Called(t, j)
  {
  }

  lemma CrashReservation(s: State, p: nat, q: nat, k: ScopedKey)
    requires k in Pending(CrashStep(s, p), q)
    ensures q != p && k in Pending(s, q)
    ensures ReservedBy(s, q, k) ==> ReservedBy(CrashStep(s, p), q, k)
  {
    hide Called;
    SameCalls(s, CrashStep(s, p), Pending(s, q)[k].promise);
  }

  lemma CrashSession(s: State, p: nat, j: nat)
    requires j in s.sessions && StoredKeptReserved(s, j)
    ensures StoredKeptReserved(CrashStep(s, p), j)
  {
  }

  lemma TracedCrash(s: State, p: nat)
    requires Traced(s)
    ensures Traced(CrashStep(s, p))
  {
    hide Origins, Called, StoredKeptReserved, ReservedBy;
    var t := CrashStep(s, p);
    forall q, k | k in Pending(t, q) ensures ReservedBy(t, q, k) {
      CrashReservation(s, p, q, k);
    }
    forall j | j in t.sessions ensures StoredKeptReserved(t, j) {
      CrashSession(s, p, j);
    }
  }

  lemma TracedOperator(s: State, t: State)
    requires Traced(s) && t == s.(approvals := t.approvals)
    ensures Traced(t)
  {
    hide Origins, PhaseOrigin, Called;
    forall q, k | k in Pending(t, q) ensures ReservedBy(t, q, k) {
      assert ReservedBy(s, q, k);
      SameCalls(s, t, Pending(s, q)[k].promise);
    }
    forall j | j in t.sessions ensures StoredKeptReserved(t, j) {
      assert StoredKeptReserved(s, j);
    }
  }

  lemma TracedNext(s: State, l: Label)
    requires Owned(s) && Traced(s)
    ensures Traced(Next(s, l))
  {
    hide Act, Owned, Traced, Approvals.Apply;
    if IsCallLabel(l) {
      if l.session in s.sessions {
        TracedCallNext(s, l);
      }
    } else {
      match l {
        case Arrive(id, p, order) =>
          if id !in s.sessions {
            TracedArrive(s, id, p, order);
          }
        case Crash(p) => TracedCrash(s, p);
        case Operator(_) => TracedOperator(s, Next(s, l));
      }
    }
  }

  lemma {:induction false} TracedRun(s: State, labels: seq<Label>)
    requires Owned(s) && Traced(s)
    ensures Owned(Run(s, labels)) && Traced(Run(s, labels))
    decreases |labels|
  {
    hide Next, Owned, Traced;
    if labels != [] {
      OwnedNext(s, labels[0]);
      TracedNext(s, labels[0]);
      TracedRun(Next(s, labels[0]), labels[1..]);
    }
  }

  lemma TracedFromInit(labels: seq<Label>)
    ensures Owned(Run(INIT, labels)) && Traced(Run(INIT, labels))
  {
    TracedRun(INIT, labels);
  }

  // ---------------------------------------------------------------------------
  // A retry
  // ---------------------------------------------------------------------------

  /** A fresh call that takes all its own steps, every write of its own done and nothing in between. A label that does
      not fit the phase it meets changes nothing. */
  function Retry(p: nat, id: nat, order: Order): seq<Label> {
    [Arrive(id, p, order), Begins(id, Done), FlushAudit(id, Done), FlushRelease(id, Done), Resume(id)]
  }

  /** How the retry ends, run from a state. */
  function RetryEnds(s: State, p: nat, id: nat, order: Order): Phase {
    var t := Run(s, Retry(p, id, order));
    if id in t.sessions then t.sessions[id].phase else Thrown
  }

  /** The audit log takes the event or already holds it: its id is free or this very event's. */
  predicate Fits(log: Log, e: AuditEvent) {
    e.eventId.Some? && HasId(log, e.eventId.value) ==> e in log
  }

  /** One own step, seen on the world of the call's process. */
  function Own(v: World, id: nat, order: Order, phase: Phase, labels: seq<Label>): (World, Phase)
    decreases |labels|
  {
    if labels == [] then (v, phase)
    else
      var (v', phase') := Act(v, id, order, phase, labels[0]);
      Own(v', id, order, phase', labels[1..])
  }

  lemma {:induction false} OwnRun(s: State, id: nat, labels: seq<Label>)
    requires id in s.sessions && forall i :: 0 <= i < |labels| ==> IsCallLabel(labels[i]) && labels[i].session == id
    ensures var x, t := s.sessions[id], Run(s, labels);
      && t.sessions.Keys == s.sessions.Keys
         && See(t, x.process) == Own(See(s, x.process), id, x.order, x.phase, labels).0
      && t.sessions[id] == x.(phase := Own(See(s, x.process), id, x.order, x.phase, labels).1)
    decreases |labels|
  {
    hide Act;
    if labels != [] {
      var x, l := s.sessions[id], labels[0];
      var step := Act(See(s, x.process), id, x.order, x.phase, l);
      assert Next(s, l) == Put(s, id, x, step.0, step.1);
      SeePut(s, id, step.0, step.1);
      OwnRun(Next(s, l), id, labels[1..]);
    }
  }

  /** The retry on the world of its process. */
  lemma RetryOnWorld(s: State, p: nat, id: nat, order: Order)
    requires id !in s.sessions
    ensures var own := [Begins(id, Done), FlushAudit(id, Done), FlushRelease(id, Done), Resume(id)];
      RetryEnds(s, p, id, order) == Own(See(s, p), id, order, Arrived, own).1
  {
    hide Act, Own;
    var s1 := Next(s, Arrive(id, p, order));
    var own := [Begins(id, Done), FlushAudit(id, Done), FlushRelease(id, Done), Resume(id)];
    assert Retry(p, id, order)[1..] == own;
    assert Run(s, Retry(p, id, order)) == Run(s1, own);
    assert See(s1, p) == See(s, p);
    OwnRun(s1, id, own);
  }

  lemma OwnFour(v: World, id: nat, order: Order, phase: Phase, a: Label, b: Label, c: Label, d: Label)
    ensures var (v1, p1) := Act(v, id, order, phase, a);
      var (v2, p2) := Act(v1, id, order, p1, b);
      var (v3, p3) := Act(v2, id, order, p2, c);
      Own(v, id, order, phase, [a, b, c, d]) == Act(v3, id, order, p3, d)
  {
    hide Act;
    assert [a, b, c, d][1..] == [b, c, d] && [b, c, d][1..] == [c, d] && [c, d][1..] == [d] && [d][1..] == [];
    var (v1, p1) := Act(v, id, order, phase, a);
    var (v2, p2) := Act(v1, id, order, p1, b);
    var (v3, p3) := Act(v2, id, order, p2, c);
    var (v4, p4) := Act(v3, id, order, p3, d);
    assert Own(v4, id, order, p4, []) == (v4, p4);
    assert Own(v3, id, order, p3, [d]) == Own(v4, id, order, p4, []);
    assert Own(v2, id, order, p2, [c, d]) == Own(v3, id, order, p3, [d]);
    assert Own(v1, id, order, p1, [b, c, d]) == Own(v2, id, order, p2, [c, d]);
  }

  /** A retry that finds no reservation in its process: how it begins, and how it goes on. */
  lemma FreeRetryBegins(v: World, id: nat, order: Order, result: BrokerResult, pendingAudit: Option<AuditEvent>)
    requires ScopeKey(order.intent) !in v.store.pending && ScopeKey(order.intent) in v.store.file
    requires v.store.file[ScopeKey(order.intent)] == Cached(order.intent, result, pendingAudit)
    ensures Act(v, id, order, Arrived, Begins(id, Done)) ==
      (v, if !Replayable(result, pendingAudit, order.intent) then Thrown
          else if pendingAudit.None? then Returned(result, true) else Flushing(result, pendingAudit.value))
  {
    hide Replayable, ScopeKey;
    assert v.(store := v.store) == v;
  }

  lemma FlushingGoesOn(v: World, id: nat, order: Order, result: BrokerResult, e: AuditEvent)
    ensures var (v1, p1) := Act(v, id, order, Flushing(result, e), FlushAudit(id, Done));
      p1 == if Fits(v.log, e) then Flushed(result) else Thrown
    ensures Act(v, id, order, Flushed(result), FlushRelease(id, Done)).1 == Returned(result, true)
  {
  }

  lemma EndedStays(v: World, id: nat, order: Order, phase: Phase)
    requires phase.Returned? || phase.Thrown?
    ensures Act(v, id, order, phase, FlushAudit(id, Done)) == (v, phase)
    ensures Act(v, id, order, phase, FlushRelease(id, Done)) == (v, phase)
    ensures Act(v, id, order, phase, Resume(id)) == (v, phase)
  {
  }

  lemma FreeRetryEnds(v: World, id: nat, order: Order, result: BrokerResult, pendingAudit: Option<AuditEvent>)
    requires ScopeKey(order.intent) !in v.store.pending && ScopeKey(order.intent) in v.store.file
    requires v.store.file[ScopeKey(order.intent)] == Cached(order.intent, result, pendingAudit)
    ensures Own(v, id, order, Arrived, [Begins(id, Done), FlushAudit(id, Done), FlushRelease(id, Done), Resume(id)]).1
      == if Replayable(result, pendingAudit, order.intent) && (pendingAudit.Some? ==> Fits(v.log, pendingAudit.value))
         then Returned(result, true) else Thrown
  {
    hide Replayable, Act, Own, Fits;
    OwnFour(v, id, order, Arrived, Begins(id, Done), FlushAudit(id, Done), FlushRelease(id, Done), Resume(id));
    FreeRetryBegins(v, id, order, result, pendingAudit);
    EndedStays(v, id, order, Thrown);
    EndedStays(v, id, order, Returned(result, true));
    if Replayable(result, pendingAudit, order.intent) && pendingAudit.Some? {
      FlushingGoesOn(v, id, order, result, pendingAudit.value);
      var v1 := Act(v, id, order, Flushing(result, pendingAudit.value), FlushAudit(id, Done)).0;
      FlushingGoesOn(v1, id, order, result, pendingAudit.value);
      EndedStays(v1, id, order, Thrown);
      EndedStays(Act(v1, id, order, Flushed(result), FlushRelease(id, Done)).0, id, order, Returned(result, true));
    }
  }

  /** A retry that finds one: it waits on that reservation's promise, or its payload conflicts. */
  lemma JoinedRetryEnds(v: World, id: nat, order: Order)
    requires var k := ScopeKey(order.intent);
      k in v.store.pending && (v.store.pending[k].promise in v.store.promises ==>
        !v.store.promises[v.store.pending[k].promise].Resolved?)
    ensures var own := [Begins(id, Done), FlushAudit(id, Done), FlushRelease(id, Done), Resume(id)];
      !Own(v, id, order, Arrived, own).1.Returned?
  {
    hide Replayable, ExamineApproval, Conclude, TerminalEvent, Complete, CompleteAudit, Abort, FailAudit, WriteEvent;
    OwnFour(v, id, order, Arrived, Begins(id, Done), FlushAudit(id, Done), FlushRelease(id, Done), Resume(id));
  }

  /** In every reachable state with a stored result for the key, a retry with the stored payload in process `p`, its own
      writes done, is given exactly that result if and only if no reservation of the key is left in `p`, the result
      executed or the intent is not an order-status query, and the pending event, if any, has an id that is free in the
      log or its own. Otherwise it is given nothing at all. */
  lemma RetryReplaysExactlyWhen(labels: seq<Label>, p: nat, id: nat, order: Order)
    requires var s, k := Run(INIT, labels), ScopeKey(order.intent);
      id !in s.sessions && k in s.file && s.file[k].Cached? && s.file[k].hash == order.intent
    ensures var s, k := Run(INIT, labels), ScopeKey(order.intent);
      var entry, phase := s.file[k], RetryEnds(s, p, id, order);
      && (phase == Returned(entry.result, true) <==>
            && k !in Pending(s, p)
            && (entry.result.Executed? || !order.intent.action.GetOrderStatus?)
            && (entry.pendingAudit.Some? ==> Fits(s.log, entry.pendingAudit.value)))
      && (phase.Returned? ==> phase == Returned(entry.result, true))
  {
    hide Run, Own, Replayable, Owned, RetryEnds;
    TracedFromInit(labels);
    var s, k := Run(INIT, labels), ScopeKey(order.intent);
    var entry := s.file[k];
    RetryOnWorld(s, p, id, order);
    if k in Pending(s, p) {
      assert ReservedBy(s, p, k);
      JoinedRetryEnds(See(s, p), id, order);
    } else {
      FreeRetryEnds(See(s, p), id, order, entry.result, entry.pendingAudit);
      assert Origin(entry);
      OriginReplays(order.intent, entry.result, entry.pendingAudit);
    }
  }

  /** A retry that finds its key in progress with nobody to finish it fails, in whatever process, for good: the entry
      stays (BrokerSafety.OrphanIsNeverReserved). */
  lemma OrphanFailsRetries(s: State, p: nat, id: nat, order: Order)
    requires id !in s.sessions && ScopeKey(order.intent) !in Pending(s, p)
    requires ScopeKey(order.intent) in s.file && s.file[ScopeKey(order.intent)] == InProgress(order.intent)
    ensures RetryEnds(s, p, id, order) == Thrown
  {
    hide Own, RetryEnds, Act;
    var v := See(s, p);
    RetryOnWorld(s, p, id, order);
    OwnFour(v, id, order, Arrived, Begins(id, Done), FlushAudit(id, Done), FlushRelease(id, Done), Resume(id));
    OrphanThrows(v, id, order);
    EndedStays(v, id, order, Thrown);
  }

  lemma OrphanThrows(v: World, id: nat, order: Order)
    requires ScopeKey(order.intent) !in v.store.pending && ScopeKey(order.intent) in v.store.file
    requires v.store.file[ScopeKey(order.intent)] == InProgress(order.intent)
    ensures Act(v, id, order, Arrived, Begins(id, Done)) == (v, Thrown)
  {
    assert v.(store := v.store) == v;
  }

  /** Only the process of the call that stored the result can still hold a reservation of its key. */
  lemma OnlyTheCallersProcessBlocks(labels: seq<Label>, q: nat, k: ScopedKey)
    requires var s := Run(INIT, labels); k in s.file && s.file[k].Cached? && k in Pending(s, q)
    ensures var s := Run(INIT, labels);
      exists c :: 0 <= c < |s.calls| && CallOf(s, c, q, k)
  {
    hide Run, CalledKeysSpent, OneCallPerKey, Origins, PhaseOrigin, StoredKeptReserved;
    TracedFromInit(labels);
    var s := Run(INIT, labels);
    assert ReservedBy(s, q, k);
    var j := Pending(s, q)[k].promise;
    var c :| 0 <= c < |s.calls| && s.calls[c].session == j;
    assert CallOf(s, c, q, k);
  }

  predicate CallOf(s: State, c: nat, q: nat, k: ScopedKey)
    requires c < |s.calls|
  {
    && ScopeKey(s.calls[c].order.intent) == k
    && s.calls[c].session in s.sessions && s.sessions[s.calls[c].session].process == q
  }

  /** Over every run, a result given as stored is one of the caller's own intent: what some answer of the connector to
      that intent concluded, or a refusal of it. */
  lemma GivenResultsAreOwn(labels: seq<Label>, id: nat)
    requires var s := Run(INIT, labels);
      id in s.sessions && s.sessions[id].phase.Returned? && s.sessions[id].phase.stored
    ensures var x := Run(INIT, labels).sessions[id];
      var result, intent := x.phase.result, x.order.intent;
      || (exists answer :: result == Conclude(intent, answer))
      || (&& result.Rejected? && result.intentId == intent.intentId
          && result.idempotencyKey == intent.idempotencyKey)
  {
    hide Run, WorldsSound, ConcludedCalled, Owned, ReservedBy, StoredKeptReserved;
    TracedFromInit(labels);
    SoundFromInit(labels);
    var s := Run(INIT, labels);
    assert SessionSound(s, Intents(s), id, s.sessions[id]);
    assert Origin(s.file[KeyOf(s.sessions[id])]);
  }

  // ---------------------------------------------------------------------------
  // After a failed audit, and after a lost release
  // ---------------------------------------------------------------------------

  lemma {:induction false} RunAppend(s: State, labels: seq<Label>, l: Label)
    ensures Run(s, labels + [l]) == Next(Run(s, labels), l)
    decreases |labels|
  {
    hide Next;
    if labels == [] {
      assert [] + [l] == [l] && [l][1..] == [];
      assert Run(s, [l]) == Run(Next(s, l), []);
    } else {
      assert (labels + [l])[1..] == labels[1..] + [l];
      RunAppend(Next(s, labels[0]), labels[1..], l);
    }
  }

  /** A reservation of a stored call's key, in any process, is that call's own. */
  lemma StoredReservation(s: State, id: nat, q: nat)
    requires Owned(s) && Traced(s) && id in s.sessions && InStore(s.sessions[id].phase)
    requires KeyOf(s.sessions[id]) in Pending(s, q)
    ensures q == s.sessions[id].process
  {
    hide HoldersReserved, OneHolder, OneCallPerKey, Origins, PhaseOrigin, StoredKeptReserved;
    var k := KeyOf(s.sessions[id]);
    assert ReservedBy(s, q, k);
    var j := Pending(s, q)[k].promise;
    if j != id {
      StoredIsAlone(s, j, id);
      SameCaller(s, j, id);
    }
  }

  /** The step of a failed terminal audit on a stored result. */
  lemma FailedAuditStep(v: World, id: nat, order: Order, result: BrokerResult, e: AuditEvent, w: WriteOutcome)
    requires WriteEvent(v.log, e, w).1 && Holds(v.store, order.intent)
    ensures var (v', phase') := Act(v, id, order, Persisted(result, e, false), AuditResult(id, w));
      && phase' == Thrown && v'.store.file == v.store.file && v'.log == WriteEvent(v.log, e, w).0
      && ScopeKey(order.intent) !in v'.store.pending
  {
    hide WriteEvent, ScopeKey;
  }

  predicate PendingFits(f: File, k: ScopedKey, log: Log) {
    k in f && f[k].Cached? && (f[k].pendingAudit.Some? ==> Fits(log, f[k].pendingAudit.value))
  }

  /** When the terminal audit of a stored result throws, its key is free in every process, so every retry is given the
      first stored result, but for a failed status query or an id taken by another event. */
  lemma RetryAfterFailedAudit(labels: seq<Label>, id: nat, w: WriteOutcome, p: nat, retry: nat, order: Order)
    requires var s := Run(INIT, labels);
      && id in s.sessions && s.sessions[id].phase.Persisted? && !s.sessions[id].phase.threw
      && WriteEvent(s.log, s.sessions[id].phase.event, w).1
      && retry !in s.sessions && order.intent == s.sessions[id].order.intent
    ensures var s := Run(INIT, labels);
      var x, t := s.sessions[id], Next(s, AuditResult(id, w));
      RetryEnds(t, p, retry, order) == Returned(x.phase.result, true) <==>
        && (x.phase.result.Executed? || !order.intent.action.GetOrderStatus?)
        && PendingFits(t.file, ScopeKey(order.intent), t.log)
  {
    hide Run, Act, RetryEnds, Owned, Traced, Sound, WriteEvent;
    TracedFromInit(labels);
    SoundFromInit(labels);
    var s := Run(INIT, labels);
    var t := Next(s, AuditResult(id, w));
    RunAppend(INIT, labels, AuditResult(id, w));
    AuditFailureFrees(s, id, w);
    RetryReplaysExactlyWhen(labels + [AuditResult(id, w)], p, retry, order);
  }

  lemma AuditFailureFrees(s: State, id: nat, w: WriteOutcome)
    requires Owned(s) && Traced(s) && Sound(s) && id in s.sessions
    requires s.sessions[id].phase.Persisted? && !s.sessions[id].phase.threw
    requires WriteEvent(s.log, s.sessions[id].phase.event, w).1
    ensures var x, t := s.sessions[id], Next(s, AuditResult(id, w));
      && t.sessions.Keys == s.sessions.Keys && HasCached(t.file, x.order.intent, x.phase.result)
      && forall q :: KeyOf(x) !in Pending(t, q)
  {
    hide Next, Act, Owned, WriteEvent, Traced, Sound, Pending, Holds;
    var x := s.sessions[id];
    StoredFacts(s, id);
    FailedAuditStep(See(s, x.process), id, x.order, x.phase.result, x.phase.event, w);
    CallPut(s, AuditResult(id, w));
    forall q ensures q != x.process ==> KeyOf(x) !in Pending(s, q) {
      if KeyOf(x) in Pending(s, q) {
        StoredReservation(s, id, q);
      }
    }
  }

  /** A stored call still has its reservation and its result in the file. */
  lemma StoredFacts(s: State, id: nat)
    requires Traced(s) && Sound(s) && id in s.sessions && InStore(s.sessions[id].phase)
    ensures var x := s.sessions[id];
      && HasCached(s.file, x.order.intent, x.phase.result) && Holds(See(s, x.process).store, x.order.intent)
      && (x.phase.Audited? ==> Logged(s.log, x.phase.result))
  {
    hide Origins, PhaseOrigin, ReservedBy, WorldsSound, ConcludedCalled, Logged;
    assert StoredKeptReserved(s, id);
    assert SessionSound(s, Intents(s), id, s.sessions[id]);
  }

  /** One call's step on the whole state. */
  lemma CallPut(s: State, l: Label)
    requires IsCallLabel(l) && l.session in s.sessions
    ensures var id, x, t := l.session, s.sessions[l.session], Next(s, l);
      var step := Act(See(s, x.process), id, x.order, x.phase, l);
      && t.file == step.0.store.file && t.log == step.0.log
      && t.sessions == s.sessions[id := x.(phase := step.1)]
      && Pending(t, x.process) == step.0.store.pending
      && forall q :: q != x.process ==> Pending(t, q) == Pending(s, q)
  {
    hide Act;
  }

  /** When clearing a stored and audited result throws, the reservation stays behind with a broken promise: every later
      retry in that process fails, although the result is stored, logged and passes the check. */
  lemma LostReleaseBlocksItsProcess(labels: seq<Label>, id: nat, w: WriteOutcome, retry: nat, order: Order)
    requires var s := Run(INIT, labels);
      && id in s.sessions && s.sessions[id].phase.Audited? && !w.Done?
      && retry !in s.sessions && order.intent == s.sessions[id].order.intent
    ensures var s := Run(INIT, labels);
      var x, t := s.sessions[id], Next(s, Release(id, w));
      && HasCached(t.file, x.order.intent, x.phase.result) && Logged(t.log, x.phase.result)
      && !RetryEnds(t, x.process, retry, order).Returned?
  {
    hide Run, Act, RetryEnds, Owned, Traced, Sound;
    TracedFromInit(labels);
    SoundFromInit(labels);
    var s := Run(INIT, labels);
    RunAppend(INIT, labels, Release(id, w));
    LostReleaseStays(s, id, w);
    RetryReplaysExactlyWhen(labels + [Release(id, w)], s.sessions[id].process, retry, order);
  }

  lemma LostReleaseStep(v: World, id: nat, order: Order, result: BrokerResult, w: WriteOutcome)
    requires !w.Done? && HasCached(v.store.file, order.intent, result) && Holds(v.store, order.intent)
    ensures var (v', phase') := Act(v, id, order, Audited(result), Release(id, w));
      && phase' == Thrown && HasCached(v'.store.file, order.intent, result) && v'.log == v.log
      && (w.Lost? ==> v'.store.file == v.store.file)
      && ScopeKey(order.intent) in v'.store.pending
  {
    hide ScopeKey;
  }

  lemma LostReleaseStays(s: State, id: nat, w: WriteOutcome)
    requires Owned(s) && Traced(s) && Sound(s) && id in s.sessions && s.sessions[id].phase.Audited? && !w.Done?
    ensures var x, t := s.sessions[id], Next(s, Release(id, w));
      && t.sessions.Keys == s.sessions.Keys && HasCached(t.file, x.order.intent, x.phase.result)
      && Logged(t.log, x.phase.result) && KeyOf(x) in Pending(t, x.process)
      && t.log == s.log && (w.Lost? ==> t.file == s.file)
      && forall q :: q != x.process ==> Pending(t, q) == Pending(s, q)
  {
    hide Act, Owned, Traced, Sound, Logged;
    var x := s.sessions[id];
    StoredFacts(s, id);
    LostReleaseStep(See(s, x.process), id, x.order, x.phase.result, w);
    CallPut(s, Release(id, w));
  }

  // ---------------------------------------------------------------------------
  // One input
  // ---------------------------------------------------------------------------

  /** A signing request without an approval, answered with its transaction. */
  function SampleOrder(): Order {
    Order(Intent("intent", "key", "agent", RequestSignature, "wallet", "dev", "", "", "", ""), "correlation", None)
  }

  const SAMPLE_ANSWER := Answered(Evidence(None, Some("0x01"), None, None, None))

  function SampleCall(): seq<Label> {
    [Arrive(0, 0, SampleOrder())] + PlainCall(0, SAMPLE_ANSWER)
  }

  lemma RunStep(s: State, labels: seq<Label>)
    requires labels != []
    ensures Run(s, labels) == Run(Next(s, labels[0]), labels[1..])
  {
  }

  /** A call without an approval that meets a free key and no fault, up to its release. */
  function PlainCall(id: nat, answer: ConnectorAnswer): seq<Label> {
    [Begins(id, Done), Examine(id, 0), ConsumeApproval(id, 0), CallConnector(id), Answer(id, answer, ""),
     Persist(id, Done), AuditResult(id, Done)]
  }

  lemma OwnStep(v: World, id: nat, order: Order, phase: Phase, labels: seq<Label>)
    requires labels != []
    ensures var (v', phase') := Act(v, id, order, phase, labels[0]);
      Own(v, id, order, phase, labels) == Own(v', id, order, phase', labels[1..])
  {
  }

  lemma TakesNoApproval(v: World, id: nat, order: Order)
    requires order.approvalId.None?
    ensures Act(v, id, order, Checked, ConsumeApproval(id, 0)) == (v, Cleared)
    ensures ExamineApproval(v.approvals, order, 0) == Checked
  {
  }

  /** The world once the call has begun, called and concluded. */
  lemma PlainConcludes(v: World, id: nat, order: Order, answer: ConnectorAnswer)
    requires order.approvalId.None? && ScopeKey(order.intent) !in v.store.pending
      && ScopeKey(order.intent) !in v.store.file
    ensures var result := Conclude(order.intent, answer);
      var event := TerminalEvent(order, result, "");
      var v1 := v.(store := Begin(v.store, order.intent, id, Done).0, calls := v.calls + [ConnectorCall(id, order)],
                   concluded := v.concluded[ScopeKey(order.intent) := event]);
      && Own(v, id, order, Arrived, PlainCall(id, answer))
         == Own(v1, id, order, Concluded(result, event), [Persist(id, Done), AuditResult(id, Done)])
      && Holds(v1.store, order.intent)
  {
    hide Act, Own, Conclude, TerminalEvent, ExamineApproval;
    var ls := PlainCall(id, answer);
    var v1 := v.(store := Begin(v.store, order.intent, id, Done).0);
    OwnStep(v, id, order, Arrived, ls);
    Steps.BeginStep(v, id, order, Done);
    OwnStep(v1, id, order, Reserved, ls[1..]);
    Steps.ExamineStep(v1, id, order, 0);
    TakesNoApproval(v1, id, order);
    OwnStep(v1, id, order, Checked, ls[1..][1..]);
    OwnStep(v1, id, order, Cleared, ls[1..][1..][1..]);
    Steps.ConnectorStep(v1, id, order, answer, "");
    var v2 := v1.(calls := v1.calls + [ConnectorCall(id, order)]);
    OwnStep(v2, id, order, Calling, ls[1..][1..][1..][1..]);
    Steps.ConnectorStep(v2, id, order, answer, "");
    assert ls[1..][1..][1..][1..][1..] == [Persist(id, Done), AuditResult(id, Done)];
  }

  lemma PlainStores(v: World, id: nat, order: Order, result: BrokerResult, event: AuditEvent)
    requires Holds(v.store, order.intent) && event.eventId.Some? && !HasId(v.log, event.eventId.value)
    ensures var (v', phase') := Own(v, id, order, Concluded(result, event), [Persist(id, Done), AuditResult(id, Done)]);
      && phase' == Audited(result) && event in v'.log && ScopeKey(order.intent) in v'.store.file
      && v'.store.file[ScopeKey(order.intent)] == Cached(order.intent, result, Some(event))
  {
    hide Act, Own, ScopeKey;
    var ls := [Persist(id, Done), AuditResult(id, Done)];
    var f := Faults(Done, Done, Done);
    OwnStep(v, id, order, Concluded(result, event), ls);
    Steps.FinishSteps(v, id, order, result, event, f);
    var v1 := v.(store := Complete(v.store, order.intent, result, Some(event), Done).0);
    OwnStep(v1, id, order, Persisted(result, event, false), ls[1..]);
    Steps.FinishSteps(v1, id, order, result, event, f);
    var (v2, p2) := WriteResult(v1, order, Persisted(result, event, false), Done);
    assert ls[1..][1..] == [];
    OwnNothing(v2, id, order, p2);
  }

  lemma OwnNothing(v: World, id: nat, order: Order, phase: Phase)
    ensures Own(v, id, order, phase, []) == (v, phase)
  {
  }

  /** The sample call reaches its release with the result stored, logged and executed. */
  lemma SampleStored()
    ensures var s := Run(INIT, SampleCall());
      var order, result := SampleOrder(), Conclude(SampleOrder().intent, SAMPLE_ANSWER);
      var event := TerminalEvent(order, result, "");
      && s.sessions.Keys == {0} && s.sessions[0] == Session(0, order, Audited(result)) && result.Executed?
      && event in s.log && ScopeKey(order.intent) in s.file
      && s.file[ScopeKey(order.intent)] == Cached(order.intent, result, Some(event))
  {
    hide Act, Own, TerminalEvent, Run;
    var order, result := SampleOrder(), Conclude(SampleOrder().intent, SAMPLE_ANSWER);
    var s1 := Next(INIT, Arrive(0, 0, order));
    var own := PlainCall(0, SAMPLE_ANSWER);
    assert SampleCall()[1..] == own;
    RunStep(INIT, SampleCall());
    OwnRun(s1, 0, own);
    PlainConcludes(See(s1, 0), 0, order, SAMPLE_ANSWER);
    var event := TerminalEvent(order, result, "");
    var v1 := See(s1, 0).(store := Begin(See(s1, 0).store, order.intent, 0, Done).0,
                          calls := [] + [ConnectorCall(0, order)], concluded := map[][ScopeKey(order.intent) := event]);
    EventHasId(order, result);
    PlainStores(v1, 0, order, result, event);
  }

  lemma EventHasId(order: Order, result: BrokerResult)
    requires !result.Rejected?
    ensures TerminalEvent(order, result, "").eventId.Some?
  {
  }

  /** After the write that clears its pending event is lost, the sample's result is stored, logged and passes the
      replay check: a retry in its own process is still given nothing, and one in any other process is given it. */
  lemma LostReleaseInput(other: nat)
    requires other != 0
    ensures var order, result := SampleOrder(), Conclude(SampleOrder().intent, SAMPLE_ANSWER);
      var s := Run(INIT, SampleCall() + [Release(0, Lost)]);
      && HasCached(s.file, order.intent, result) && Logged(s.log, result) && Replayable(result, None, order.intent)
      && !RetryEnds(s, 0, 1, order).Returned?
      && RetryEnds(s, other, 1, order) == Returned(result, true)
  {
    hide Act, Own, TerminalEvent, Run, RetryEnds, Owned, Traced, Sound, Logged;
    var order, result := SampleOrder(), Conclude(SampleOrder().intent, SAMPLE_ANSWER);
    var labels := SampleCall();
    var s := Run(INIT, labels);
    SampleStored();
    TracedFromInit(labels);
    SoundFromInit(labels);
    RunAppend(INIT, labels, Release(0, Lost));
    LostReleaseBlocksItsProcess(labels, 0, Lost, 1, order);
    LostReleaseStays(s, 0, Lost);
    if KeyOf(s.sessions[0]) in Pending(s, other) {
      StoredReservation(s, 0, other);
    }
    RetryReplaysExactlyWhen(labels + [Release(0, Lost)], other, 1, order);
  }
}
