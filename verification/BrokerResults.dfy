/** No result leaves the broker before it is audited, and every attempt on a key gets the same one. */
module BrokerResults {
  import opened Outcomes
  import opened TradingIntents
  import opened IdempotencyStore
  import opened BrokerExecution
  import opened BrokerProtocol
  import opened BrokerSafety

  ghost predicate HasCached(f: File, intent: Intent, result: BrokerResult) {
    var k := ScopeKey(intent);
    k in f && f[k].Cached? && f[k].hash == intent && f[k].result == result
  }

  /** A pending terminal event is the one event its key's connector call produced. */
  ghost predicate Terminates(concluded: map<ScopedKey, AuditEvent>, k: ScopedKey, e: AuditEvent, result: BrokerResult) {
    Reports(e, result) && e.eventId.Some? && k in concluded && concluded[k] == e
  }

  ghost predicate EntrySound(v: World, k: ScopedKey) {
    k in v.store.file && v.store.file[k].Cached? ==>
      var c := v.store.file[k];
      && ScopeKey(c.hash) == k
      && match c.pendingAudit
         case None => Logged(v.log, c.result)
         case Some(e) => Terminates(v.concluded, k, e, c.result)
  }

  ghost predicate PromiseSound(v: World, intents: map<nat, Intent>, p: nat) {
    p in v.store.promises ==>
      && p in intents
      && (v.store.promises[p].Resolved? ==>
            var result := v.store.promises[p].result;
            Logged(v.log, result) && HasCached(v.store.file, intents[p], result))
  }

  ghost predicate ReservationSound(pending: map<ScopedKey, Reservation>, intents: map<nat, Intent>, k: ScopedKey) {
    k in pending ==>
      && ScopeKey(pending[k].hash) == k
      && pending[k].promise in intents && intents[pending[k].promise] == pending[k].hash
  }

  ghost predicate RowsSound(v: World) {
    && IdsUnique(v.log)
    && forall i :: 0 <= i < |v.log| && v.log[i].eventId.Some? ==> v.log[i] in v.concluded.Values
  }

  ghost predicate WorldSound(v: World, intents: map<nat, Intent>) {
    && (forall k :: k in v.store.file ==> EntrySound(v, k))
    && (forall p :: p in v.store.promises ==> PromiseSound(v, intents, p))
    && (forall k :: k in v.store.pending ==> ReservationSound(v.store.pending, intents, k))
    && RowsSound(v)
  }

  ghost predicate PhaseSound(v: World, intents: map<nat, Intent>, intent: Intent, phase: Phase) {
    match phase
    case Calling => ScopeKey(intent) !in v.concluded
    case Refused(result, _) => Logged(v.log, result)
    case Concluded(result, e) => Terminates(v.concluded, ScopeKey(intent), e, result)
    case Persisted(result, e, threw) =>
      Terminates(v.concluded, ScopeKey(intent), e, result) && (!threw ==> HasCached(v.store.file, intent, result))
    case Audited(result) => Logged(v.log, result) && HasCached(v.store.file, intent, result)
    case Flushing(result, e) =>
      Terminates(v.concluded, ScopeKey(intent), e, result) && HasCached(v.store.file, intent, result)
    case Flushed(result) => Logged(v.log, result) && HasCached(v.store.file, intent, result)
    case Returned(result, stored) => Logged(v.log, result) && (stored ==> HasCached(v.store.file, intent, result))
    case Waiting(p) => p in intents && intents[p] == intent
    case _ => true
  }

  /** Nothing recorded is ever taken back: rows, stored results and concluded calls only accumulate. */
  ghost predicate Grows(v: World, v': World) {
    && v.log <= v'.log
    && (forall k :: k in v.store.file && v.store.file[k].Cached? ==>
          && k in v'.store.file && v'.store.file[k].Cached?
          && v'.store.file[k].hash == v.store.file[k].hash && v'.store.file[k].result == v.store.file[k].result)
    && (forall k :: k in v.concluded ==> k in v'.concluded && v'.concluded[k] == v.concluded[k])
  }

  /** What a call may rely on when it takes a step. */
  ghost predicate Ready(v: World, intents: map<nat, Intent>, id: nat, order: Order, phase: Phase) {
    && WorldSound(v, intents)
    && PhaseSound(v, intents, order.intent, phase)
    && id in intents && intents[id] == order.intent
    && (Holding(phase) ==> Reserves(v.store, order.intent, id))
    && (BeforeCall(phase) ==> ScopeKey(order.intent) !in v.concluded)
    && (phase.Arrived? ==> id !in v.store.promises)
  }

  lemma LoggedStays(log: Log, log': Log, result: BrokerResult)
    requires log <= log' && Logged(log, result)
    ensures Logged(log', result)
  {
    var e :| e in log && Reports(e, result);
    assert e in log';
  }

  lemma PhaseSoundGrows(v: World, v': World, intents: map<nat, Intent>, intent: Intent, phase: Phase)
    requires PhaseSound(v, intents, intent, phase) && Grows(v, v')
    requires phase.Calling? ==> ScopeKey(intent) !in v'.concluded
    ensures PhaseSound(v', intents, intent, phase)
  {
    if phase.Refused? || phase.Audited? || phase.Flushed? || phase.Returned? {
      LoggedStays(v.log, v'.log, phase.result);
    }
  }

  // ---------------------------------------------------------------------------
  // Each kind of effect keeps the records sound
  // ---------------------------------------------------------------------------

  lemma LogStep(v: World, intents: map<nat, Intent>, e: AuditEvent, w: WriteOutcome)
    requires WorldSound(v, intents)
    requires e.eventId.Some? ==> e in v.concluded.Values
    ensures var (log, threw) := WriteEvent(v.log, e, w);
      && WorldSound(v.(log := log), intents)
      && v.log <= log
      && (!threw ==> e in log)
  {
    var log := WriteEvent(v.log, e, w).0;
    var v' := v.(log := log);
    forall k | k in v.store.file ensures EntrySound(v', k) {
      assert EntrySound(v, k);
      if v.store.file[k].Cached? && v.store.file[k].pendingAudit.None? {
        LoggedStays(v.log, log, v.store.file[k].result);
      }
    }
    forall p | p in v.store.promises ensures PromiseSound(v', intents, p) {
      assert PromiseSound(v, intents, p);
      if v.store.promises[p].Resolved? {
        LoggedStays(v.log, log, v.store.promises[p].result);
      }
    }
  }

  lemma ConcludedStep(v: World, intents: map<nat, Intent>, k: ScopedKey, e: AuditEvent)
    requires WorldSound(v, intents) && k !in v.concluded
    ensures WorldSound(v.(concluded := v.concluded[k := e]), intents)
  {
    var v' := v.(concluded := v.concluded[k := e]);
    forall k' | k' in v.store.file ensures EntrySound(v', k') {
      assert EntrySound(v, k');
    }
    forall p | p in v.store.promises ensures PromiseSound(v', intents, p) {
      assert PromiseSound(v, intents, p);
    }
    forall x | x in v.concluded.Values ensures x in v'.concluded.Values {
      var k' :| k' in v.concluded && v.concluded[k'] == x;
      assert v'.concluded[k'] == x;
    }
  }

  /** Store effects: what holds entry by entry, promise by promise and reservation by reservation. */
  lemma StoreStep(v: World, st: Store, intents: map<nat, Intent>)
    requires WorldSound(v, intents)
    requires forall k :: k in st.file ==>
      (k in v.store.file && st.file[k] == v.store.file[k]) || EntrySound(v.(store := st), k)
    requires forall p :: p in st.promises ==>
        (p in v.store.promises && st.promises[p] == v.store.promises[p]) || PromiseSound(v.(store := st), intents, p)
    requires forall k :: k in st.pending ==>
        (k in v.store.pending && st.pending[k] == v.store.pending[k]) || ReservationSound(st.pending, intents, k)
    requires Grows(v, v.(store := st))
    ensures WorldSound(v.(store := st), intents)
  {
    var v' := v.(store := st);
    forall k | k in st.file ensures EntrySound(v', k) {
      if k in v.store.file && st.file[k] == v.store.file[k] {
        assert EntrySound(v, k);
      }
    }
    forall p | p in st.promises ensures PromiseSound(v', intents, p) {
      if p in v.store.promises && st.promises[p] == v.store.promises[p] {
        assert PromiseSound(v, intents, p);
      }
    }
    forall k | k in st.pending ensures ReservationSound(st.pending, intents, k) {
      if k in v.store.pending && st.pending[k] == v.store.pending[k] {
        assert ReservationSound(v.store.pending, intents, k);
      }
    }
  }

  lemma BeginSound(v: World, intents: map<nat, Intent>, intent: Intent, id: nat, w: WriteOutcome)
    requires WorldSound(v, intents) && id in intents && intents[id] == intent && id !in v.store.promises
    ensures Grows(v, v.(store := Begin(v.store, intent, id, w).0))
    ensures WorldSound(v.(store := Begin(v.store, intent, id, w).0), intents)
  {
    var k, st := ScopeKey(intent), Begin(v.store, intent, id, w).0;
    if k in v.store.pending || k in v.store.file || w.Lost? {
      assert st == v.store && v.(store := st) == v;
    } else {
      assert st.file == v.store.file[k := InProgress(intent)];
      var v1 := v.(store := v.store.(file := st.file));
      StoreStep(v, v1.store, intents);
      if w.Done? {
        assert PromiseSound(v.(store := st), intents, id);
        StoreStep(v1, st, intents);
      }
    }
  }

  lemma BeginPhaseSound(v: World, intents: map<nat, Intent>, intent: Intent, id: nat, w: WriteOutcome)
    requires WorldSound(v, intents)
    ensures var (st, reply) := Begin(v.store, intent, id, w);
      PhaseSound(v.(store := st), intents, intent, AfterBegin(reply))
  {
    var k := ScopeKey(intent);
    if k in v.store.pending {
      assert ReservationSound(v.store.pending, intents, k);
    } else if k in v.store.file {
      assert EntrySound(v, k);
    }
  }

  lemma CompleteSound(v: World, intents: map<nat, Intent>, intent: Intent, id: nat, result: BrokerResult,
                      pendingAudit: Option<AuditEvent>, w: WriteOutcome)
    requires WorldSound(v, intents) && Reserves(v.store, intent, id)
    requires match pendingAudit
             case None => Logged(v.log, result)
             case Some(e) => Terminates(v.concluded, ScopeKey(intent), e, result)
    ensures var (st, threw) := Complete(v.store, intent, result, pendingAudit, w);
      && Grows(v, v.(store := st))
      && WorldSound(v.(store := st), intents)
      && (!threw ==> HasCached(st.file, intent, result))
  {
    var st := Complete(v.store, intent, result, pendingAudit, w).0;
    var k := ScopeKey(intent);
    assert ReservationSound(v.store.pending, intents, k);
    assert id in v.store.promises ==> PromiseSound(v, intents, id);
    StoreStep(v, st, intents);
  }

  lemma ClearSound(v: World, intents: map<nat, Intent>, intent: Intent, result: BrokerResult, w: WriteOutcome)
    requires WorldSound(v, intents) && HasCached(v.store.file, intent, result) && Logged(v.log, result)
    ensures var st := CompleteReplayedAudit(v.store, intent, w).0;
      Grows(v, v.(store := st)) && WorldSound(v.(store := st), intents) && HasCached(st.file, intent, result)
  {
    assert EntrySound(v, ScopeKey(intent));
    StoreStep(v, CompleteReplayedAudit(v.store, intent, w).0, intents);
  }

  lemma CompleteAuditSound(v: World, intents: map<nat, Intent>, intent: Intent, result: BrokerResult, w: WriteOutcome)
    requires WorldSound(v, intents) && HasCached(v.store.file, intent, result) && Logged(v.log, result)
    ensures var st := CompleteAudit(v.store, intent, w).0;
      Grows(v, v.(store := st)) && WorldSound(v.(store := st), intents) && HasCached(st.file, intent, result)
  {
    hide CompleteAudit, CompleteReplayedAudit, WorldSound, HasCached, Settles;
    ClearSound(v, intents, intent, result, w);
    var v1 := v.(store := CompleteReplayedAudit(v.store, intent, w).0);
    var st := CompleteAudit(v.store, intent, w).0;
    ReleaseSettles(v.store, intent, w);
    assert v1.(store := st) == v.(store := st);
    SettleSound(v1, st, intents, intent, result);
  }

  /** The same file, and at most the promise of the intent's own reservation is settled. */
  ghost predicate Settles(a: Store, b: Store, intent: Intent) {
    && b.file == a.file
    && (forall p :: p in b.promises ==>
          || (p in a.promises && b.promises[p] == a.promises[p])
          || (Holds(a, intent) && p == a.pending[ScopeKey(intent)].promise
              && (b.promises[p].Resolved? ==> HasCached(b.file, intent, b.promises[p].result))))
    && forall k :: k in b.pending ==> k in a.pending && b.pending[k] == a.pending[k]
  }

  /** Releasing a result clears its pending event as replay does, and then settles. */
  lemma ReleaseSettles(st: Store, intent: Intent, w: WriteOutcome)
    ensures Settles(CompleteReplayedAudit(st, intent, w).0, CompleteAudit(st, intent, w).0, intent)
  {
  }

  lemma SettleSound(v: World, st: Store, intents: map<nat, Intent>, intent: Intent, result: BrokerResult)
    requires WorldSound(v, intents) && Settles(v.store, st, intent)
    requires HasCached(v.store.file, intent, result) && Logged(v.log, result)
    ensures Grows(v, v.(store := st)) && WorldSound(v.(store := st), intents) && HasCached(st.file, intent, result)
  {
    hide EntrySound, RowsSound, Logged;
    HolderSound(v, intents, intent);
    StoreStep(v, st, intents);
  }

  lemma AbortSound(v: World, intents: map<nat, Intent>, intent: Intent, w: WriteOutcome)
    requires WorldSound(v, intents)
    ensures Grows(v, v.(store := Abort(v.store, intent, w).0))
      && WorldSound(v.(store := Abort(v.store, intent, w).0), intents)
  {
    HolderSound(v, intents, intent);
    StoreStep(v, Abort(v.store, intent, w).0, intents);
  }

  lemma FailAuditSound(v: World, intents: map<nat, Intent>, intent: Intent)
    requires WorldSound(v, intents)
    ensures Grows(v, v.(store := FailAudit(v.store, intent)))
      && WorldSound(v.(store := FailAudit(v.store, intent)), intents)
  {
    HolderSound(v, intents, intent);
    StoreStep(v, FailAudit(v.store, intent), intents);
  }

  lemma HolderSound(v: World, intents: map<nat, Intent>, intent: Intent)
    requires WorldSound(v, intents)
    ensures ScopeKey(intent) in v.store.pending ==>
      var p := v.store.pending[ScopeKey(intent)].promise;
      && (p in v.store.promises ==> PromiseSound(v, intents, p))
      && ReservationSound(v.store.pending, intents, ScopeKey(intent))
  {
  }

  lemma RefusalSound(v: World, intents: map<nat, Intent>, order: Order, reason: string, w: WriteOutcome, ok: Phase,
                     failed: Phase)
    requires WorldSound(v, intents)
    ensures var (v', phase) := WriteRefusal(v, order, reason, w, ok, failed);
      && Grows(v, v') && WorldSound(v', intents)
      && (phase == ok || phase == failed)
      && (phase == ok ==> ok == failed || Logged(v'.log, Refuse(order.intent, reason)))
  {
    LogStep(v, intents, RefusalEvent(order, reason), w);
    assert Reports(RefusalEvent(order, reason), Refuse(order.intent, reason));
  }

  ghost predicate Kept(v: World, intents: map<nat, Intent>, intent: Intent, step: (World, Phase)) {
    Grows(v, step.0) && WorldSound(step.0, intents) && PhaseSound(step.0, intents, intent, step.1)
  }

  lemma AnswerSound(v: World, intents: map<nat, Intent>, id: nat, order: Order, answer: ConnectorAnswer, error: string)
    requires Ready(v, intents, id, order, Calling)
    ensures Kept(v, intents, order.intent, TakeAnswer(v, order, answer, error))
  {
    var result := Conclude(order.intent, answer);
    ConcludedStep(v, intents, ScopeKey(order.intent), TerminalEvent(order, result, error));
    TerminalEventReports(order, answer, error);
  }

  lemma WriteResultSound(v: World, intents: map<nat, Intent>, id: nat, order: Order, phase: Phase, w: WriteOutcome)
    requires phase.Persisted? && Ready(v, intents, id, order, phase)
    ensures Kept(v, intents, order.intent, WriteResult(v, order, phase, w))
  {
    LogStep(v, intents, phase.event, w);
    var v1 := v.(log := WriteEvent(v.log, phase.event, w).0);
    FailAuditSound(v1, intents, order.intent);
  }

  /** Before the reservation. */
  lemma OpeningSound(v: World, intents: map<nat, Intent>, id: nat, order: Order, phase: Phase, l: Label)
    requires Ready(v, intents, id, order, phase) && (phase.Arrived? || phase.Conflicted?)
    ensures Kept(v, intents, order.intent, Act(v, id, order, phase, l))
  {
    hide Holding, WorldSound, WriteEvent, CompleteAudit, CompleteReplayedAudit, FailAudit, Complete, Abort,
         Approvals.Consume, ExamineApproval;
    if phase.Arrived? && l.Begins? {
      BeginSound(v, intents, order.intent, id, l.w);
      BeginPhaseSound(v, intents, order.intent, id, l.w);
    } else if l.RefuseEarly? {
      RefusalSound(v, intents, order, l.reason, l.w, Returned(Refuse(order.intent, l.reason), false), Thrown);
    }
  }

  /** Refusing while holding the reservation. */
  lemma RefusingSound(v: World, intents: map<nat, Intent>, id: nat, order: Order, phase: Phase, l: Label)
    requires Ready(v, intents, id, order, phase) && (phase.Condemned? || phase.Collapsing?)
    ensures Kept(v, intents, order.intent, Act(v, id, order, phase, l))
  {
    hide Holding, WorldSound, WriteEvent, CompleteAudit, CompleteReplayedAudit, FailAudit, Begin, Complete,
         Approvals.Consume, ExamineApproval;
    var intent := order.intent;
    if phase.Condemned? && l.AuditRefusal? {
      RefusalSound(v, intents, order, phase.reason, l.w, Refused(Refuse(intent, phase.reason), phase.keep), Collapsing);
    } else if l.Unwind? {
      AbortSound(v, intents, intent, l.w);
    }
  }

  lemma RefusedSound(v: World, intents: map<nat, Intent>, id: nat, order: Order, phase: Phase, l: Label)
    requires Ready(v, intents, id, order, phase) && phase.Refused?
    ensures Kept(v, intents, order.intent, Act(v, id, order, phase, l))
  {
    hide WorldSound, WriteEvent, CompleteAudit, CompleteReplayedAudit, FailAudit, Begin, Approvals.Consume,
         ExamineApproval;
    if phase.keep && l.KeepRefusal? {
      CompleteSound(v, intents, order.intent, id, phase.result, None, l.w);
    } else if l.ReleaseRefusal? {
      AbortSound(v, intents, order.intent, l.w);
    }
  }

  lemma SameRecords(v: World, v': World, intents: map<nat, Intent>)
    requires WorldSound(v, intents)
    requires v'.store == v.store && v'.log == v.log && v'.concluded == v.concluded
    ensures Grows(v, v') && WorldSound(v', intents)
  {
    forall k | k in v.store.file ensures EntrySound(v', k) { assert EntrySound(v, k); }
    forall p | p in v.store.promises ensures PromiseSound(v', intents, p) { assert PromiseSound(v, intents, p); }
  }

  /** Checks, the connector call itself, waiting and ended calls. */
  lemma CheckingSound(v: World, intents: map<nat, Intent>, id: nat, order: Order, phase: Phase, l: Label)
    requires Ready(v, intents, id, order, phase)
    requires phase.Reserved? || phase.Checked? || phase.Cleared? || phase.Returned? || phase.Thrown? || phase.Waiting?
    ensures Kept(v, intents, order.intent, Act(v, id, order, phase, l))
  {
    hide WorldSound, ApprovalMatches, Approvals.Consume, Reserves;
    SameRecords(v, Act(v, id, order, phase, l).0, intents);
    if phase.Waiting? {
      assert phase.promise in v.store.promises ==> PromiseSound(v, intents, phase.promise);
    } else if phase.Returned? {
      PhaseSoundGrows(v, Act(v, id, order, phase, l).0, intents, order.intent, phase);
    }
  }

  /** Concluding, storing and auditing. */
  lemma ConcludingSound(v: World, intents: map<nat, Intent>, id: nat, order: Order, phase: Phase, l: Label)
    requires Ready(v, intents, id, order, phase) && (phase.Calling? || phase.Concluded? || phase.Persisted?)
    ensures Kept(v, intents, order.intent, Act(v, id, order, phase, l))
  {
    hide WorldSound, WriteEvent, CompleteAudit, CompleteReplayedAudit, Abort, FailAudit, Begin, Approvals.Consume,
         ExamineApproval;
    if phase.Calling? && l.Answer? {
      AnswerSound(v, intents, id, order, l.answer, l.error);
    } else if phase.Concluded? && l.Persist? {
      CompleteSound(v, intents, order.intent, id, phase.result, Some(phase.event), l.w);
    } else if phase.Persisted? && l.AuditResult? {
      WriteResultSound(v, intents, id, order, phase, l.w);
    }
  }

  /** Releasing and replaying. */
  lemma ReleasingSound(v: World, intents: map<nat, Intent>, id: nat, order: Order, phase: Phase, l: Label)
    requires Ready(v, intents, id, order, phase) && (phase.Audited? || phase.Flushed?)
    ensures Kept(v, intents, order.intent, Act(v, id, order, phase, l))
  {
    hide Holding, BeforeCall, Reserves, WorldSound, HasCached, WriteEvent, Complete, CompleteAudit,
         CompleteReplayedAudit, Abort, FailAudit, Begin, Approvals.Consume, ExamineApproval;
    if phase.Audited? && l.Release? {
      CompleteAuditSound(v, intents, order.intent, phase.result, l.w);
    } else if phase.Flushed? && l.FlushRelease? {
      ClearSound(v, intents, order.intent, phase.result, l.w);
    }
  }

  lemma FlushingSound(v: World, intents: map<nat, Intent>, id: nat, order: Order, phase: Phase, l: Label)
    requires Ready(v, intents, id, order, phase) && phase.Flushing?
    ensures Kept(v, intents, order.intent, Act(v, id, order, phase, l))
  {
    hide Holding, BeforeCall, Reserves, WorldSound, HasCached, WriteEvent, Complete, CompleteAudit,
         CompleteReplayedAudit, Abort, FailAudit, Begin, Approvals.Consume, ExamineApproval;
    if l.FlushAudit? {
      LogStep(v, intents, phase.event, l.w);
    }
  }

  lemma ActSound(v: World, intents: map<nat, Intent>, id: nat, order: Order, phase: Phase, l: Label)
    requires Ready(v, intents, id, order, phase)
    ensures Kept(v, intents, order.intent, Act(v, id, order, phase, l))
  {
    if phase.Arrived? || phase.Conflicted? {
      OpeningSound(v, intents, id, order, phase, l);
    } else if phase.Condemned? || phase.Collapsing? {
      RefusingSound(v, intents, id, order, phase, l);
    } else if phase.Refused? {
      RefusedSound(v, intents, id, order, phase, l);
    } else if phase.Calling? || phase.Concluded? || phase.Persisted? {
      ConcludingSound(v, intents, id, order, phase, l);
    } else if phase.Audited? || phase.Flushed? {
      ReleasingSound(v, intents, id, order, phase, l);
    } else if phase.Flushing? {
      FlushingSound(v, intents, id, order, phase, l);
    } else {
      CheckingSound(v, intents, id, order, phase, l);
    }
  }

  lemma ActPromises(v: World, id: nat, order: Order, phase: Phase, l: Label)
    ensures var (v', phase') := Act(v, id, order, phase, l);
      && v'.store.promises.Keys <= v.store.promises.Keys + {id}
      && (phase'.Arrived? ==> phase.Arrived? && v'.store.promises.Keys <= v.store.promises.Keys)
  {
    hide WriteEvent, ApprovalMatches, Conclude, TerminalEvent, Refuse, Approvals.Consume, Replayable, ScopeKey;
  }

  lemma ActConcludes(v: World, id: nat, order: Order, phase: Phase, l: Label)
    ensures var (v', phase') := Act(v, id, order, phase, l);
      && v'.concluded.Keys <= v.concluded.Keys + {ScopeKey(order.intent)}
      && (v'.concluded == v.concluded || (phase.Calling? && phase'.Concluded?))
  {
    hide WriteEvent, ExamineApproval, Conclude, TerminalEvent, Refuse, Approvals.Consume, ScopeKey, Begin, Complete,
         CompleteAudit, CompleteReplayedAudit, Abort, FailAudit;
  }

  // ---------------------------------------------------------------------------
  // The whole system
  // ---------------------------------------------------------------------------

  function Intents(s: State): map<nat, Intent> {
    map id | id in s.sessions :: s.sessions[id].order.intent
  }

  ghost predicate ConcludedCalled(s: State) {
    forall k :: k in s.concluded ==> exists c :: 0 <= c < |s.calls| && ScopeKey(s.calls[c].order.intent) == k
  }

  ghost predicate WorldsSound(s: State) {
    forall q :: WorldSound(See(s, q), Intents(s))
  }

  ghost predicate SessionSound(s: State, intents: map<nat, Intent>, id: nat, x: Session) {
    && PhaseSound(See(s, x.process), intents, x.order.intent, x.phase)
    && (x.phase.Arrived? ==> id !in s.promises)
  }

  ghost predicate SessionsSound(s: State) {
    forall id :: id in s.sessions ==> SessionSound(s, Intents(s), id, s.sessions[id])
  }

  ghost predicate Sound(s: State) {
    WorldsSound(s) && SessionsSound(s) && ConcludedCalled(s)
  }

  lemma NotConcludedBeforeCall(s: State, id: nat)
    requires Owned(s) && ConcludedCalled(s) && id in s.sessions && BeforeCall(s.sessions[id].phase)
    ensures KeyOf(s.sessions[id]) !in s.concluded
  {
  }

  lemma SessionReady(s: State, id: nat)
    requires Owned(s) && Sound(s) && id in s.sessions
    ensures var x := s.sessions[id]; Ready(See(s, x.process), Intents(s), id, x.order, x.phase)
  {
    var x := s.sessions[id];
    var v, intents := See(s, x.process), Intents(s);
    assert WorldSound(v, intents) && SessionSound(s, intents, id, x);
    assert Holding(x.phase) ==> Reserves(v.store, x.order.intent, id) by {
      assert HoldersReserved(s);
    }
    assert BeforeCall(x.phase) ==> ScopeKey(x.order.intent) !in v.concluded by {
      if BeforeCall(x.phase) {
        NotConcludedBeforeCall(s, id);
      }
    }
  }

  /** A step seen from another process: same records, its own reservations. */
  lemma OtherProcess(v: World, v': World, o: World, intents: map<nat, Intent>)
    requires WorldSound(v', intents) && WorldSound(o, intents)
    ensures WorldSound(v'.(store := v'.store.(pending := o.store.pending)), intents)
  {
    var t := v'.(store := v'.store.(pending := o.store.pending));
    forall k | k in t.store.file ensures EntrySound(t, k) { assert EntrySound(v', k); }
    forall p | p in t.store.promises ensures PromiseSound(t, intents, p) { assert PromiseSound(v', intents, p); }
  }

  lemma RecordsOnly(v: World, t: World, intents: map<nat, Intent>)
    requires WorldSound(v, intents)
    requires t.store == v.store && t.log == v.log && t.concluded == v.concluded
    ensures WorldSound(t, intents)
  {
    SameRecords(v, t, intents);
  }

  lemma PutWorldSound(s: State, id: nat, v': World, phase': Phase, q: nat)
    requires id in s.sessions && WorldSound(v', Intents(s)) && WorldSound(See(s, q), Intents(s))
    ensures WorldSound(See(Put(s, id, s.sessions[id], v', phase'), q), Intents(s))
  {
    var x := s.sessions[id];
    var t := See(Put(s, id, x, v', phase'), q);
    if q == x.process {
      RecordsOnly(v', t, Intents(s));
    } else {
      OtherProcess(See(s, x.process), v', See(s, q), Intents(s));
      RecordsOnly(v'.(store := v'.store.(pending := Pending(s, q))), t, Intents(s));
    }
  }

  lemma PutWorldsSound(s: State, id: nat, v': World, phase': Phase)
    requires WorldsSound(s) && id in s.sessions && WorldSound(v', Intents(s))
    ensures WorldsSound(Put(s, id, s.sessions[id], v', phase'))
  {
    var t := Put(s, id, s.sessions[id], v', phase');
    assert Intents(t) == Intents(s);
    forall q ensures WorldSound(See(t, q), Intents(t)) {
      assert WorldSound(See(s, q), Intents(s));
      PutWorldSound(s, id, v', phase', q);
    }
  }

  lemma OthersStillCalling(s: State, id: nat, j: nat, concluded: map<ScopedKey, AuditEvent>)
    requires OneHolder(s) && id in s.sessions && j in s.sessions && j != id && s.sessions[j].phase.Calling?
    requires concluded == s.concluded
        || (s.sessions[id].phase.Calling? && concluded.Keys <= s.concluded.Keys + {KeyOf(s.sessions[id])})
    requires KeyOf(s.sessions[j]) !in s.concluded
    ensures KeyOf(s.sessions[j]) !in concluded
  {
  }

  lemma PutOthersSound(s: State, id: nat, v': World, phase': Phase, j: nat)
    requires id in s.sessions && j in s.sessions && j != id
    requires Grows(See(s, s.sessions[id].process), v')
    requires var y := s.sessions[j]; PhaseSound(See(s, y.process), Intents(s), y.order.intent, y.phase)
    requires s.sessions[j].phase.Calling? ==> KeyOf(s.sessions[j]) !in v'.concluded
    ensures var y := s.sessions[j];
      PhaseSound(See(Put(s, id, s.sessions[id], v', phase'), y.process), Intents(s), y.order.intent, y.phase)
  {
    var y := s.sessions[j];
    PhaseSoundGrows(See(s, y.process), See(Put(s, id, s.sessions[id], v', phase'), y.process), Intents(s),
      y.order.intent, y.phase);
  }

  lemma PutConcludedCalled(s: State, t: State, id: nat)
    requires Owned(s) && ConcludedCalled(s) && id in s.sessions
    requires s.calls <= t.calls
    requires t.concluded == s.concluded
        || (s.sessions[id].phase.Calling? && t.concluded.Keys <= s.concluded.Keys + {KeyOf(s.sessions[id])})
    ensures ConcludedCalled(t)
  {
    forall k | k in t.concluded ensures exists c :: 0 <= c < |t.calls| && ScopeKey(t.calls[c].order.intent) == k {
      if k in s.concluded {
        var c :| 0 <= c < |s.calls| && ScopeKey(s.calls[c].order.intent) == k;
        assert t.calls[c] == s.calls[c];
      } else {
        assert Called(s, id);
        var c :| 0 <= c < |s.calls| && s.calls[c].session == id;
        assert t.calls[c] == s.calls[c];
      }
    }
  }

  lemma PutSessionsSound(s: State, id: nat, v': World, phase': Phase)
    requires OneHolder(s) && SessionsSound(s) && id in s.sessions
    requires Grows(See(s, s.sessions[id].process), v')
    requires PhaseSound(v', Intents(s), s.sessions[id].order.intent, phase')
    requires v'.store.promises.Keys <= s.promises.Keys + {id}
    requires phase'.Arrived? ==> s.sessions[id].phase.Arrived? && v'.store.promises.Keys <= s.promises.Keys
    requires v'.concluded == s.concluded
        || (s.sessions[id].phase.Calling? && v'.concluded.Keys <= s.concluded.Keys + {KeyOf(s.sessions[id])})
    ensures SessionsSound(Put(s, id, s.sessions[id], v', phase'))
  {
    hide Holding, BeforeCall, WorldSound, Grows, OneHolder;
    var x, intents := s.sessions[id], Intents(s);
    var t := Put(s, id, x, v', phase');
    assert Intents(t) == intents;
    forall j | j in t.sessions ensures SessionSound(t, intents, j, t.sessions[j]) {
      assert SessionSound(s, intents, j, s.sessions[j]);
      if j != id {
        if s.sessions[j].phase.Calling? {
          OthersStillCalling(s, id, j, v'.concluded);
        }
        PutOthersSound(s, id, v', phase', j);
      } else {
        PhaseOnly(v', See(t, x.process), intents, x.order.intent, phase');
      }
    }
  }

  lemma PhaseOnly(v: World, t: World, intents: map<nat, Intent>, intent: Intent, phase: Phase)
    requires phase.Thrown? || PhaseSound(v, intents, intent, phase)
    requires t.store.file == v.store.file && t.log == v.log && t.concluded == v.concluded
    ensures PhaseSound(t, intents, intent, phase)
  {
  }

  lemma SoundCallNext(s: State, l: Label)
    requires Owned(s) && Sound(s) && IsCallLabel(l) && l.session in s.sessions
    ensures Sound(Next(s, l))
  {
    var id, x := l.session, s.sessions[l.session];
    var v := See(s, x.process);
    SessionReady(s, id);
    ActSound(v, Intents(s), id, x.order, x.phase, l);
    ActPromises(v, id, x.order, x.phase, l);
    ActConcludes(v, id, x.order, x.phase, l);
    ActPhases(v, id, x.order, x.phase, l);
    var step := Act(v, id, x.order, x.phase, l);
    PutWorldsSound(s, id, step.0, step.1);
    PutSessionsSound(s, id, step.0, step.1);
    PutConcludedCalled(s, Next(s, l), id);
  }

  lemma ArriveWorldsSound(s: State, t: State)
    requires WorldsSound(s)
    requires t.file == s.file && t.reservations == s.reservations && t.promises == s.promises && t.log == s.log
    requires t.concluded == s.concluded
    requires forall id :: id in s.sessions ==> id in t.sessions && t.sessions[id].order == s.sessions[id].order
    ensures WorldsSound(t)
  {
    forall q ensures WorldSound(See(t, q), Intents(t)) {
      assert WorldSound(See(s, q), Intents(s));
      MoreIntents(See(s, q), Intents(s), Intents(t));
      RecordsOnly(See(s, q), See(t, q), Intents(t));
    }
  }

  lemma ArriveSessionsSound(s: State, id: nat, p: nat, order: Order)
    requires WorldsSound(s) && SessionsSound(s) && id !in s.sessions
    ensures SessionsSound(s.(sessions := s.sessions[id := Session(p, order, Arrived)]))
  {
    var t := s.(sessions := s.sessions[id := Session(p, order, Arrived)]);
    assert WorldSound(See(s, p), Intents(s));
    assert id in s.promises ==> PromiseSound(See(s, p), Intents(s), id);
    forall j | j in t.sessions ensures SessionSound(t, Intents(t), j, t.sessions[j]) {
      if j != id {
        assert SessionSound(s, Intents(s), j, s.sessions[j]);
      }
    }
  }

  lemma MoreIntents(v: World, intents: map<nat, Intent>, intents': map<nat, Intent>)
    requires WorldSound(v, intents)
    requires forall id :: id in intents ==> id in intents' && intents'[id] == intents[id]
    ensures WorldSound(v, intents')
  {
    forall p | p in v.store.promises ensures PromiseSound(v, intents', p) { assert PromiseSound(v, intents, p); }
    forall k | k in v.store.pending ensures ReservationSound(v.store.pending, intents', k) {
      assert ReservationSound(v.store.pending, intents, k);
    }
  }

  lemma NoReservations(v: World, intents: map<nat, Intent>)
    requires WorldSound(v, intents)
    ensures WorldSound(v.(store := v.store.(pending := map[])), intents)
  {
    OtherProcess(v, v, v.(store := v.store.(pending := map[])), intents);
  }

  lemma CrashWorldsSound(s: State, p: nat)
    requires WorldsSound(s)
    ensures WorldsSound(CrashStep(s, p))
  {
    var t := CrashStep(s, p);
    assert Intents(t) == Intents(s);
    forall q ensures WorldSound(See(t, q), Intents(t)) {
      assert WorldSound(See(s, q), Intents(s));
      if q == p {
        NoReservations(See(s, q), Intents(s));
      }
    }
  }

  lemma CrashSessionsSound(s: State, p: nat)
    requires SessionsSound(s)
    ensures SessionsSound(CrashStep(s, p))
  {
    hide PhaseSound;
    var t := CrashStep(s, p);
    assert Intents(t) == Intents(s);
    forall j | j in t.sessions ensures SessionSound(t, Intents(s), j, t.sessions[j]) {
      var y := s.sessions[j];
      assert SessionSound(s, Intents(s), j, y);
      PhaseOnly(See(s, y.process), See(t, y.process), Intents(s), y.order.intent, y.phase);
      PhaseOnly(See(t, y.process), See(t, y.process), Intents(s), y.order.intent, Thrown);
    }
  }

  lemma OperatorSessionsSound(s: State, t: State)
    requires SessionsSound(s)
    requires t == s.(approvals := t.approvals)
    ensures SessionsSound(t)
  {
    assert Intents(t) == Intents(s);
    forall j | j in t.sessions ensures SessionSound(t, Intents(t), j, t.sessions[j]) {
      assert SessionSound(s, Intents(s), j, s.sessions[j]);
    }
  }

  lemma ArriveSound(s: State, id: nat, p: nat, order: Order)
    requires Sound(s) && id !in s.sessions
    ensures Sound(s.(sessions := s.sessions[id := Session(p, order, Arrived)]))
  {
    ArriveWorldsSound(s, s.(sessions := s.sessions[id := Session(p, order, Arrived)]));
    ArriveSessionsSound(s, id, p, order);
  }

  lemma CrashSound(s: State, p: nat)
    requires Sound(s)
    ensures Sound(CrashStep(s, p))
  {
    CrashWorldsSound(s, p);
    CrashSessionsSound(s, p);
  }

  lemma OperatorSound(s: State, t: State)
    requires Sound(s) && t == s.(approvals := t.approvals)
    ensures Sound(t)
  {
    ArriveWorldsSound(s, t);
    OperatorSessionsSound(s, t);
  }

  lemma SoundNext(s: State, l: Label)
    requires Owned(s) && Sound(s)
    ensures Sound(Next(s, l))
  {
    hide Act, Owned, Sound, Approvals.Apply;
    if IsCallLabel(l) {
      if l.session in s.sessions {
        SoundCallNext(s, l);
      }
    } else if l.Arrive? {
      if l.session !in s.sessions {
        ArriveSound(s, l.session, l.process, l.order);
      }
    } else if l.Crash? {
      CrashSound(s, l.process);
    } else {
      OperatorSound(s, Next(s, l));
    }
  }

  lemma {:induction false} SoundRun(s: State, labels: seq<Label>)
    requires Owned(s) && Sound(s)
    ensures Owned(Run(s, labels)) && Sound(Run(s, labels))
    decreases |labels|
  {
    if labels != [] {
      OwnedNext(s, labels[0]);
      SoundNext(s, labels[0]);
      SoundRun(Next(s, labels[0]), labels[1..]);
    }
  }

  lemma SoundFromInit(labels: seq<Label>)
    ensures Owned(Run(INIT, labels)) && Sound(Run(INIT, labels))
  {
    SoundRun(INIT, labels);
  }

  // ---------------------------------------------------------------------------
  // Main results
  // ---------------------------------------------------------------------------

  /** Over every run, whoever was given a result, by its own execution, by a replay or by waiting, got one that
      an event in the audit log already reports. */
  lemma ResultsAreAudited(labels: seq<Label>, id: nat)
    requires var s := Run(INIT, labels); id in s.sessions && s.sessions[id].phase.Returned?
    ensures var s := Run(INIT, labels);
      var r := s.sessions[id].phase.result;
      exists e :: e in s.log && e.intentId == r.intentId && TellsOf(e, r)
  {
    hide WorldsSound, ConcludedCalled, Owned, Run;
    SoundFromInit(labels);
    var s := Run(INIT, labels);
    assert SessionSound(s, Intents(s), id, s.sessions[id]);
    var e :| e in s.log && Reports(e, s.sessions[id].phase.result);
    assert TellsOf(e, s.sessions[id].phase.result);
  }

  /** An execution is told with its evidence, a failure and a refusal with their reason. */
  predicate TellsOf(e: AuditEvent, r: BrokerResult) {
    if r.Executed? then e.eventType == BrokerExecuted && e.data == ExecutedData(r.evidence)
    else
      && e.eventType == BrokerFailed
      && if r.Failed? then e.data.FailedData? && e.data.rejectionReason == r.reason else e.data == Refusal(r.reason)
  }

  /** Stored results are the first one stored: two calls on one scoped key that were given a stored result had
      the same payload and got the same result, whichever process served them and however often they retried. */
  lemma StoredResultsAgree(labels: seq<Label>, i: nat, j: nat)
    requires var s := Run(INIT, labels);
      && i in s.sessions && s.sessions[i].phase.Returned? && s.sessions[i].phase.stored
      && j in s.sessions && s.sessions[j].phase.Returned? && s.sessions[j].phase.stored
      && KeyOf(s.sessions[i]) == KeyOf(s.sessions[j])
    ensures var s := Run(INIT, labels);
      && s.sessions[i].phase.result == s.sessions[j].phase.result
      && s.sessions[i].order.intent == s.sessions[j].order.intent
  {
    hide WorldsSound, ConcludedCalled, Owned, Run;
    SoundFromInit(labels);
    var s := Run(INIT, labels);
    assert SessionSound(s, Intents(s), i, s.sessions[i]);
    assert SessionSound(s, Intents(s), j, s.sessions[j]);
  }

  /** The row a connector call left in the audit log. */
  ghost predicate RowOfCall(s: State, i: nat, c: nat)
    requires i < |s.log| && c < |s.calls|
  {
    var k := ScopeKey(s.calls[c].order.intent);
    k in s.concluded && s.concluded[k] == s.log[i]
  }

  lemma TerminalRow(s: State, i: nat)
    requires RowsSound(See(s, 0)) && ConcludedCalled(s) && i < |s.log| && s.log[i].eventId.Some?
    ensures exists c: nat :: c < |s.calls| && RowOfCall(s, i, c)
    ensures forall c: nat, j: nat :: c < |s.calls| && j < |s.log| && RowOfCall(s, i, c) && RowOfCall(s, j, c) ==> i == j
  {
    assert s.log[i] in s.concluded.Values;
    var k :| k in s.concluded && s.concluded[k] == s.log[i];
    var c :| 0 <= c < |s.calls| && ScopeKey(s.calls[c].order.intent) == k;
    assert RowOfCall(s, i, c);
  }

  /** Every terminal row belongs to a connector call, and no call, with all its retries, replays and crashes,
      has two. */
  lemma OneTerminalRowPerCall(labels: seq<Label>, i: nat)
    requires i < |Run(INIT, labels).log| && Run(INIT, labels).log[i].eventId.Some?
    ensures var s := Run(INIT, labels);
      && (exists c: nat :: c < |s.calls| && RowOfCall(s, i, c))
      && (forall c: nat, j: nat :: c < |s.calls| && j < |s.log| && RowOfCall(s, i, c) && RowOfCall(s, j, c) ==> i == j)
  {
    hide SessionsSound, Owned, Run, RowOfCall;
    SoundFromInit(labels);
    assert WorldSound(See(Run(INIT, labels), 0), Intents(Run(INIT, labels)));
    TerminalRow(Run(INIT, labels), i);
  }

  /** A stored result is never replaced or forgotten. */
  lemma {:induction false} StoredResultStays(s: State, labels: seq<Label>, intent: Intent, result: BrokerResult)
    requires Owned(s) && Sound(s) && HasCached(s.file, intent, result)
    ensures HasCached(Run(s, labels).file, intent, result)
    decreases |labels|
  {
    hide Act, Owned, Sound, Ready, WorldSound, PhaseSound;
    if labels != [] {
      var l := labels[0];
      if IsCallLabel(l) && l.session in s.sessions {
        var x := s.sessions[l.session];
        SessionReady(s, l.session);
        ActSound(See(s, x.process), Intents(s), l.session, x.order, x.phase, l);
      }
      OwnedNext(s, l);
      SoundNext(s, l);
      StoredResultStays(Next(s, l), labels[1..], intent, result);
    }
  }
}
