/** What every run of the broker processes keeps. */
module BrokerSafety {
  import opened Outcomes
  import opened TradingIntents
  import opened IdempotencyStore
  import opened BrokerExecution
  import opened BrokerProtocol
  import Approvals = ApprovalStore

  function KeyOf(x: Session): ScopedKey {
    ScopeKey(x.order.intent)
  }

  /** Holding the reservation, connector not yet called. */
  predicate BeforeCall(p: Phase) {
    p.Reserved? || p.Checked? || p.Condemned? || p.Collapsing? || p.Refused? || p.Cleared?
  }

  /** Holding the reservation with the connector called and nothing stored yet. */
  predicate DuringCall(p: Phase) {
    p.Calling? || p.Concluded?
  }

  predicate AfterCall(p: Phase) {
    p.Persisted? || p.Audited?
  }

  predicate Holding(p: Phase) {
    BeforeCall(p) || DuringCall(p)
  }

  // ---------------------------------------------------------------------------
  // Ownership: who may still execute a key
  // ---------------------------------------------------------------------------

  /** A holder's process remembers its reservation and the file shows it in progress. */
  ghost predicate HoldersReserved(s: State) {
    forall id :: id in s.sessions && Holding(s.sessions[id].phase) ==>
      var x := s.sessions[id];
      && KeyOf(x) in Pending(s, x.process)
      && Pending(s, x.process)[KeyOf(x)] == Reservation(x.order.intent, id)
      && KeyOf(x) in s.file && s.file[KeyOf(x)] == InProgress(x.order.intent)
  }

  ghost predicate OneHolder(s: State) {
    forall i, j | i in s.sessions && j in s.sessions && Holding(s.sessions[i].phase) && Holding(s.sessions[j].phase) ::
      KeyOf(s.sessions[i]) == KeyOf(s.sessions[j]) ==> i == j
  }

  /** A called key stays in the file and only its caller can still be holding it. */
  ghost predicate CalledKeysSpent(s: State) {
    forall c :: 0 <= c < |s.calls| ==>
      var k := ScopeKey(s.calls[c].order.intent);
      && k in s.file
      && forall id :: id in s.sessions && KeyOf(s.sessions[id]) == k && Holding(s.sessions[id].phase) ==>
           id == s.calls[c].session && DuringCall(s.sessions[id].phase)
  }

  ghost predicate Called(s: State, id: nat) {
    exists c :: 0 <= c < |s.calls| && s.calls[c].session == id
  }

  ghost predicate CallersCalled(s: State) {
    && (forall id :: id in s.sessions && (DuringCall(s.sessions[id].phase) || AfterCall(s.sessions[id].phase)) ==>
         Called(s, id))
    && (forall c :: 0 <= c < |s.calls| ==>
          s.calls[c].session in s.sessions && s.sessions[s.calls[c].session].order == s.calls[c].order)
  }

  ghost predicate OneCallPerKey(s: State) {
    forall c, d :: 0 <= c < d < |s.calls| ==> ScopeKey(s.calls[c].order.intent) != ScopeKey(s.calls[d].order.intent)
  }

  ghost predicate Owned(s: State) {
    HoldersReserved(s) && OneHolder(s) && CalledKeysSpent(s) && CallersCalled(s) && OneCallPerKey(s)
  }

  // ---------------------------------------------------------------------------
  // One call's step, seen at its own key
  // ---------------------------------------------------------------------------

  /** The step touches no other key, in the file or among its process's reservations. */
  ghost predicate Touches(a: Store, b: Store, k: ScopedKey) {
    && (forall k' :: k' != k && k' in a.file ==> k' in b.file && b.file[k'] == a.file[k'])
    && (forall k' :: k' != k && k' in a.pending ==> k' in b.pending && b.pending[k'] == a.pending[k'])
  }

  predicate Reserves(st: Store, intent: Intent, id: nat) {
    var k := ScopeKey(intent);
    && k in st.pending && st.pending[k] == Reservation(intent, id)
    && k in st.file && st.file[k] == InProgress(intent)
  }

  lemma BeginTouches(st: Store, intent: Intent, id: nat)
    ensures forall w :: Touches(st, Begin(st, intent, id, w).0, ScopeKey(intent))
    ensures Touches(st, st, ScopeKey(intent))
  {
    hide Replayable, ScopeKey;
  }

  lemma ReleaseTouches(st: Store, intent: Intent)
    ensures forall w :: Touches(st, Abort(st, intent, w).0, ScopeKey(intent))
    ensures Touches(st, FailAudit(st, intent), ScopeKey(intent))
  {
    hide Settle, ScopeKey;
  }

  lemma AuditTouches(st: Store, intent: Intent)
    ensures forall w :: Touches(st, CompleteReplayedAudit(st, intent, w).0, ScopeKey(intent))
    ensures forall w :: Touches(st, CompleteAudit(st, intent, w).0, ScopeKey(intent))
  {
    hide Settle, ScopeKey;
  }

  lemma CompleteTouches(st: Store, intent: Intent, result: BrokerResult, pendingAudit: Option<AuditEvent>,
                        w: WriteOutcome)
    ensures Touches(st, Complete(st, intent, result, pendingAudit, w).0, ScopeKey(intent))
  {
    hide Settle;
  }

  lemma ActTouches(v: World, id: nat, order: Order, phase: Phase, l: Label)
    ensures Touches(v.store, Act(v, id, order, phase, l).0.store, ScopeKey(order.intent))
  {
    hide WriteEvent, ExamineApproval, Conclude, TerminalEvent, RefusalEvent, Refuse, AfterBegin, Approvals.Consume,
         Begin, Abort, FailAudit, CompleteReplayedAudit, CompleteAudit, Complete, Touches;
    BeginTouches(v.store, order.intent, id);
    ReleaseTouches(v.store, order.intent);
    AuditTouches(v.store, order.intent);
    if l.KeepRefusal? && phase.Refused? {
      CompleteTouches(v.store, order.intent, phase.result, None, l.w);
    } else if l.Persist? && phase.Concluded? {
      CompleteTouches(v.store, order.intent, phase.result, Some(phase.event), l.w);
    }
  }

  lemma ActReserves(v: World, id: nat, order: Order, phase: Phase, l: Label)
    requires Holding(phase) ==> Reserves(v.store, order.intent, id)
    ensures Holding(Act(v, id, order, phase, l).1) ==> Reserves(Act(v, id, order, phase, l).0.store, order.intent, id)
  {
    hide WriteEvent, ApprovalMatches, Conclude, TerminalEvent, RefusalEvent, Refuse, Approvals.Consume, Replayable,
         Settle;
  }

  lemma ActPhases(v: World, id: nat, order: Order, phase: Phase, l: Label)
    ensures var (v', phase') := Act(v, id, order, phase, l);
      && (Holding(phase') ==>
            || (Holding(phase) && (DuringCall(phase) ==> DuringCall(phase')))
            || (ScopeKey(order.intent) !in v.store.file && BeforeCall(phase')))
      && (AfterCall(phase') ==> DuringCall(phase) || AfterCall(phase))
      && (DuringCall(phase') ==> DuringCall(phase) || v'.calls == v.calls + [ConnectorCall(id, order)])
      && (v'.calls == v.calls
           || (BeforeCall(phase) && DuringCall(phase') && v'.calls == v.calls + [ConnectorCall(id, order)]))
  {
    ActHolds(v, id, order, phase, l);
    ActCalls(v, id, order, phase, l);
  }

  /** A hold is kept, moving on from the call, or newly taken on a free key. */
  lemma ActHolds(v: World, id: nat, order: Order, phase: Phase, l: Label)
    ensures var phase' := Act(v, id, order, phase, l).1;
      && (Holding(phase') ==>
            || (Holding(phase) && (DuringCall(phase) ==> DuringCall(phase')))
            || (ScopeKey(order.intent) !in v.store.file && BeforeCall(phase')))
      && (AfterCall(phase') ==> DuringCall(phase) || AfterCall(phase))
  {
    hide WriteEvent, ApprovalMatches, Conclude, TerminalEvent, RefusalEvent, Refuse, Approvals.Consume, Complete,
         CompleteAudit, CompleteReplayedAudit, Abort, FailAudit, Replayable, ScopeKey;
  }

  lemma ActCalls(v: World, id: nat, order: Order, phase: Phase, l: Label)
    ensures var (v', phase') := Act(v, id, order, phase, l);
      && (DuringCall(phase') ==> DuringCall(phase) || v'.calls == v.calls + [ConnectorCall(id, order)])
      && (v'.calls == v.calls
           || (BeforeCall(phase) && DuringCall(phase') && v'.calls == v.calls + [ConnectorCall(id, order)]))
  {
    hide WriteEvent, ApprovalMatches, Conclude, TerminalEvent, RefusalEvent, Refuse, Approvals.Consume, Complete,
         CompleteAudit, CompleteReplayedAudit, Abort, FailAudit, Begin;
  }

  lemma ActKeeps(v: World, id: nat, order: Order, phase: Phase, l: Label)
    ensures var st, st', k := v.store, Act(v, id, order, phase, l).0.store, ScopeKey(order.intent);
      && (k in st.file && !BeforeCall(phase) ==> k in st'.file)
      && (k in st.file && !Holding(phase) && st.file[k].InProgress? ==> st'.file[k] == st.file[k])
      && (k in st.pending && !Holding(phase) && !AfterCall(phase) ==>
           k in st'.pending && st'.pending[k] == st.pending[k])
  {
    hide WriteEvent, ApprovalMatches, ExamineApproval, Conclude, TerminalEvent, RefusalEvent, Refuse, Approvals.Consume;
  }

  /** An after-call session's key has no holder at all. */
  lemma AfterCallHasNoHolder(s: State, id: nat, j: nat)
    requires Owned(s) && id in s.sessions && j in s.sessions
    requires AfterCall(s.sessions[id].phase) && KeyOf(s.sessions[j]) == KeyOf(s.sessions[id])
    ensures !Holding(s.sessions[j].phase)
  {
    var c :| 0 <= c < |s.calls| && s.calls[c].session == id;
    assert s.sessions[id].order == s.calls[c].order;
  }

  /** All that ownership needs to know about a call's step. */
  ghost predicate CallStep(s: State, t: State, id: nat) {
    && id in s.sessions
    && var x := s.sessions[id];
       && id in t.sessions
       && var phase' := t.sessions[id].phase;
       && t.sessions == s.sessions[id := x.(phase := phase')]
       && (forall q :: q != x.process ==> Pending(t, q) == Pending(s, q))
       && (forall k :: k != KeyOf(x) && k in s.file ==> k in t.file && t.file[k] == s.file[k])
       && (forall k :: k != KeyOf(x) && k in Pending(s, x.process) ==>
             k in Pending(t, x.process) && Pending(t, x.process)[k] == Pending(s, x.process)[k])
       && (Holding(phase') ==>
             && KeyOf(x) in Pending(t, x.process) && Pending(t, x.process)[KeyOf(x)] == Reservation(x.order.intent, id)
             && KeyOf(x) in t.file && t.file[KeyOf(x)] == InProgress(x.order.intent))
       && (Holding(phase') ==>
             || (Holding(x.phase) && (DuringCall(x.phase) ==> DuringCall(phase')))
             || (KeyOf(x) !in s.file && BeforeCall(phase')))
       && (AfterCall(phase') ==> DuringCall(x.phase) || AfterCall(x.phase))
       && (DuringCall(phase') ==> DuringCall(x.phase) || t.calls == s.calls + [ConnectorCall(id, x.order)])
       && (|| t.calls == s.calls
           || (BeforeCall(x.phase) && DuringCall(phase') && t.calls == s.calls + [ConnectorCall(id, x.order)]))
       && (KeyOf(x) in s.file && !BeforeCall(x.phase) ==> KeyOf(x) in t.file)
       && (KeyOf(x) in s.file && !Holding(x.phase) && s.file[KeyOf(x)].InProgress? ==>
            t.file[KeyOf(x)] == s.file[KeyOf(x)])
       && (KeyOf(x) in Pending(s, x.process) && !Holding(x.phase) && !AfterCall(x.phase) ==>
             KeyOf(x) in Pending(t, x.process) && Pending(t, x.process)[KeyOf(x)] == Pending(s, x.process)[KeyOf(x)])
  }

  lemma NextIsCallStep(s: State, l: Label)
    requires HoldersReserved(s) && !l.Arrive? && !l.Crash? && !l.Operator? && l.session in s.sessions
    ensures CallStep(s, Next(s, l), l.session)
  {
    hide Act, Holding, BeforeCall, DuringCall, AfterCall, Put, Pending;
    var id, x := l.session, s.sessions[l.session];
    var v := See(s, x.process);
    ActTouches(v, id, x.order, x.phase, l);
    ActReserves(v, id, x.order, x.phase, l);
    ActPhases(v, id, x.order, x.phase, l);
    ActKeeps(v, id, x.order, x.phase, l);
    PutFacts(s, id, x, Act(v, id, x.order, x.phase, l).0, Act(v, id, x.order, x.phase, l).1);
  }

  lemma PutFacts(s: State, id: nat, x: Session, v: World, phase: Phase)
    ensures var t := Put(s, id, x, v, phase);
      && t.file == v.store.file && t.calls == v.calls && t.sessions == s.sessions[id := x.(phase := phase)]
      && Pending(t, x.process) == v.store.pending
      && forall q :: q != x.process ==> Pending(t, q) == Pending(s, q)
  {
  }

  lemma HoldersReservedStep(s: State, t: State, id: nat)
    requires Owned(s) && CallStep(s, t, id)
    ensures HoldersReserved(t) && OneHolder(t)
  {
    hide BeforeCall, Act;
    forall j | j in t.sessions && j != id && Holding(t.sessions[j].phase)
      ensures var y := t.sessions[j];
        && KeyOf(y) in Pending(t, y.process) && Pending(t, y.process)[KeyOf(y)] == Reservation(y.order.intent, j)
        && KeyOf(y) in t.file && t.file[KeyOf(y)] == InProgress(y.order.intent)
      ensures KeyOf(t.sessions[j]) == KeyOf(s.sessions[id]) ==> !Holding(t.sessions[id].phase)
    {
      if KeyOf(s.sessions[j]) == KeyOf(s.sessions[id]) && AfterCall(s.sessions[id].phase) {
        AfterCallHasNoHolder(s, id, j);
      }
    }
  }

  lemma CalledKeysSpentStep(s: State, t: State, id: nat)
    requires Owned(s) && CallStep(s, t, id)
    ensures CalledKeysSpent(t) && OneCallPerKey(t)
  {
    hide Act, Pending;
    forall c | 0 <= c < |t.calls|
      ensures var k := ScopeKey(t.calls[c].order.intent);
        && k in t.file
        && (forall j :: j in t.sessions && KeyOf(t.sessions[j]) == k && Holding(t.sessions[j].phase) ==>
              j == t.calls[c].session && DuringCall(t.sessions[j].phase))
      ensures forall d :: 0 <= d < c ==> ScopeKey(t.calls[d].order.intent) != ScopeKey(t.calls[c].order.intent)
    {
      assert forall d :: 0 <= d < c ==> t.calls[d] == s.calls[d];
      if c < |s.calls| {
        assert t.calls[c] == s.calls[c];
      }
    }
  }

  lemma CallersCalledStep(s: State, t: State, id: nat)
    requires Owned(s) && CallStep(s, t, id)
    ensures CallersCalled(t)
  {
    forall j | j in t.sessions && (DuringCall(t.sessions[j].phase) || AfterCall(t.sessions[j].phase))
      ensures Called(t, j) {
      if Called(s, j) {
        var c :| 0 <= c < |s.calls| && s.calls[c].session == j;
        assert t.calls[c] == s.calls[c];
      } else {
        assert t.calls[|s.calls|].session == j;
      }
    }
  }

  /** Arrivals, crashes and operators: sessions only lose what they held; files and calls stay. */
  lemma OwnedShrinks(s: State, t: State)
    requires Owned(s)
    requires t.file == s.file && t.calls == s.calls
    requires s.sessions.Keys <= t.sessions.Keys
    requires forall j :: j in s.sessions ==>
      t.sessions[j].order == s.sessions[j].order && t.sessions[j].process == s.sessions[j].process
    requires forall j :: j in t.sessions && (Holding(t.sessions[j].phase) || AfterCall(t.sessions[j].phase)) ==>
        j in s.sessions && t.sessions[j] == s.sessions[j]
          && Pending(t, t.sessions[j].process) == Pending(s, t.sessions[j].process)
    ensures Owned(t)
  {
    assert forall j :: Called(s, j) ==> Called(t, j);
  }

  lemma CrashShrinks(s: State, p: nat)
    requires Owned(s)
    ensures Owned(CrashStep(s, p))
  {
    hide CalledKeysSpent, CallersCalled, OneCallPerKey, OneHolder;
    OwnedShrinks(s, CrashStep(s, p));
  }

  lemma OwnedCallStep(s: State, t: State, id: nat)
    requires Owned(s) && CallStep(s, t, id)
    ensures Owned(t)
  {
    HoldersReservedStep(s, t, id);
    CalledKeysSpentStep(s, t, id);
    CallersCalledStep(s, t, id);
  }

  lemma ArriveShrinks(s: State, id: nat, p: nat, order: Order)
    requires Owned(s) && id !in s.sessions
    ensures Owned(s.(sessions := s.sessions[id := Session(p, order, Arrived)]))
  {
    OwnedShrinks(s, s.(sessions := s.sessions[id := Session(p, order, Arrived)]));
  }

  predicate IsCallLabel(l: Label) {
    !l.Arrive? && !l.Crash? && !l.Operator?
  }

  lemma OwnedNext(s: State, l: Label)
    requires Owned(s)
    ensures Owned(Next(s, l))
  {
    hide Act, CallStep, Approvals.Apply, Called;
    if IsCallLabel(l) {
      if l.session in s.sessions {
        NextIsCallStep(s, l);
        OwnedCallStep(s, Next(s, l), l.session);
      }
    } else {
      match l {
        case Arrive(id, p, order) =>
          if id !in s.sessions {
            ArriveShrinks(s, id, p, order);
          }
        case Crash(p) => CrashShrinks(s, p);
        case Operator(call) => OwnedShrinks(s, s.(approvals := Next(s, l).approvals));
      }
    }
  }

  lemma {:induction false} OwnedRun(s: State, labels: seq<Label>)
    requires Owned(s)
    ensures Owned(Run(s, labels))
    decreases |labels|
  {
    if labels != [] {
      OwnedNext(s, labels[0]);
      OwnedRun(Next(s, labels[0]), labels[1..]);
    }
  }

  /** Over every run, with crashes, lost and half-done writes and any interleaving, the connector is called at
      most once per scoped key. A second payload on a used key is a second call on that key, so it never runs. */
  lemma ConnectorCalledAtMostOncePerKey(labels: seq<Label>, i: nat, j: nat)
    requires i < |Run(INIT, labels).calls| && j < |Run(INIT, labels).calls|
    requires ScopeKey(Run(INIT, labels).calls[i].order.intent) == ScopeKey(Run(INIT, labels).calls[j].order.intent)
    ensures i == j
  {
    OwnedRun(INIT, labels);
  }

  // ---------------------------------------------------------------------------
  // Orphans
  // ---------------------------------------------------------------------------

  /** In progress in the file, and nobody is left who holds the reservation. */
  ghost predicate Orphan(s: State, k: ScopedKey) {
    && k in s.file && s.file[k].InProgress?
    && forall id :: id in s.sessions && KeyOf(s.sessions[id]) == k ==> !Holding(s.sessions[id].phase)
  }

  function CallsOn(calls: seq<ConnectorCall>, k: ScopedKey): nat {
    if calls == [] then 0
    else CallsOn(calls[..|calls| - 1], k) + if ScopeKey(calls[|calls| - 1].order.intent) == k then 1 else 0
  }

  lemma OrphanCallStep(s: State, t: State, id: nat, k: ScopedKey)
    requires Owned(s) && Orphan(s, k) && CallStep(s, t, id)
    ensures Orphan(t, k) && t.file[k] == s.file[k]
    ensures CallsOn(t.calls, k) == CallsOn(s.calls, k)
  {
    if t.calls != s.calls {
      assert t.calls[..|t.calls| - 1] == s.calls;
    }
  }

  lemma OrphanCrash(s: State, p: nat, k: ScopedKey)
    requires Orphan(s, k)
    ensures Orphan(CrashStep(s, p), k)
  {
  }

  lemma OrphanCallNext(s: State, l: Label, k: ScopedKey)
    requires Owned(s) && Orphan(s, k) && IsCallLabel(l) && l.session in s.sessions
    ensures Orphan(Next(s, l), k) && Next(s, l).file[k] == s.file[k]
    ensures CallsOn(Next(s, l).calls, k) == CallsOn(s.calls, k)
  {
    hide Next, CallStep, HoldersReserved, OneHolder, CalledKeysSpent, CallersCalled, OneCallPerKey;
    NextIsCallStep(s, l);
    OrphanCallStep(s, Next(s, l), l.session, k);
  }

  lemma OrphanArrive(s: State, id: nat, p: nat, order: Order, k: ScopedKey)
    requires Orphan(s, k) && id !in s.sessions
    ensures Orphan(s.(sessions := s.sessions[id := Session(p, order, Arrived)]), k)
  {
  }

  lemma OrphanOperator(s: State, t: State, k: ScopedKey)
    requires Orphan(s, k) && t == s.(approvals := t.approvals)
    ensures Orphan(t, k)
  {
  }

  lemma OrphanStep(s: State, l: Label, k: ScopedKey)
    requires Owned(s) && Orphan(s, k)
    ensures Orphan(Next(s, l), k) && Next(s, l).file[k] == s.file[k]
    ensures CallsOn(Next(s, l).calls, k) == CallsOn(s.calls, k)
  {
    hide Act, Owned, Approvals.Apply, Holding, CallsOn;
    if IsCallLabel(l) {
      if l.session in s.sessions {
        OrphanCallNext(s, l, k);
      }
    } else {
      match l {
        case Arrive(id, p, order) =>
          if id !in s.sessions {
            OrphanArrive(s, id, p, order, k);
          }
        case Crash(p) => OrphanCrash(s, p, k);
        case Operator(_) => OrphanOperator(s, Next(s, l), k);
      }
    }
  }

  /** The file entry of a crashed or failed attempt blocks its key for good. */
  lemma {:induction false} OrphanIsNeverReserved(s: State, labels: seq<Label>, k: ScopedKey)
    requires Owned(s) && Orphan(s, k)
    ensures Orphan(Run(s, labels), k) && Run(s, labels).file[k] == s.file[k]
    ensures CallsOn(Run(s, labels).calls, k) == CallsOn(s.calls, k)
    decreases |labels|
  {
    if labels != [] {
      OwnedNext(s, labels[0]);
      OrphanStep(s, labels[0], k);
      OrphanIsNeverReserved(Next(s, labels[0]), labels[1..], k);
    }
  }
}
