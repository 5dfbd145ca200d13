/** Human approvals over whole runs: every connector call made under an approval consumed that approval. */
module BrokerApprovals {
  import opened Outcomes
  import opened TradingIntents
  import opened IdempotencyStore
  import opened BrokerExecution
  import opened BrokerProtocol
  import opened BrokerSafety
  import Approvals = ApprovalStore

  /** `u` is a use of `order`'s own approval: approved, one-time, for this very intent, and not yet expired. */
  predicate ProperUse(u: ApprovalUse, id: nat, order: Order) {
    && u.session == id
    && order.approvalId == Some(u.approvalId)
    && u.request.state.Approved? && u.request.facts.approvalType.OneTime?
    && u.at < u.request.facts.timeoutAt
    && ApprovalMatches(u.request.facts, order)
  }

  ghost predicate Used(uses: seq<ApprovalUse>, id: nat, order: Order) {
    exists i :: 0 <= i < |uses| && ProperUse(uses[i], id, order)
  }

  /** Past the point where the approval is taken. */
  predicate PastApproval(p: Phase) {
    p.Cleared? || DuringCall(p) || AfterCall(p)
  }

  ghost predicate PhaseApproved(t: Approvals.Table, uses: seq<ApprovalUse>, id: nat, order: Order, phase: Phase) {
    order.approvalId.Some? ==>
      && (phase.Checked? ==>
            var a := order.approvalId.value;
            a in t.issued && (a in t.rows ==> ApprovalMatches(t.rows[a].facts, order)))
      && (PastApproval(phase) ==> Used(uses, id, order))
  }

  /** A used approval is gone: its row, if still there, says consumed, and nobody used it twice. */
  ghost predicate UsesSpent(t: Approvals.Table, uses: seq<ApprovalUse>) {
    && (forall i :: 0 <= i < |uses| ==>
          var a := uses[i].approvalId;
          a in t.issued && (a in t.rows ==> t.rows[a].state.Consumed?))
    && (forall i, j :: 0 <= i < j < |uses| ==> uses[i].approvalId != uses[j].approvalId)
  }

  /** Rows change only along the allowed path and uses only accumulate. */
  ghost predicate Evolves(t: Approvals.Table, uses: seq<ApprovalUse>, t': Approvals.Table, uses': seq<ApprovalUse>) {
    && uses <= uses'
    && t.issued <= t'.issued
    && (forall a :: a in t.issued && a !in t.rows ==> a !in t'.rows)
    && (forall a :: a in t.rows && a in t'.rows ==> Approvals.Follows(t.rows[a], t'.rows[a]))
  }

  lemma PhaseApprovedEvolves(t: Approvals.Table, uses: seq<ApprovalUse>, t': Approvals.Table, uses': seq<ApprovalUse>,
                             id: nat, order: Order, phase: Phase)
    requires Approvals.Valid(t) && Evolves(t, uses, t', uses') && PhaseApproved(t, uses, id, order, phase)
    ensures PhaseApproved(t', uses', id, order, phase)
    ensures Used(uses, id, order) ==> Used(uses', id, order)
  {
    if Used(uses, id, order) {
      var i :| 0 <= i < |uses| && ProperUse(uses[i], id, order);
      assert uses'[i] == uses[i];
    }
  }

  lemma TakeApprovalSpends(v: World, id: nat, order: Order, now: nat)
    requires Approvals.Valid(v.approvals) && UsesSpent(v.approvals, v.uses)
    requires PhaseApproved(v.approvals, v.uses, id, order, Checked)
    ensures var (v', phase) := TakeApproval(v, id, order, now);
      && Approvals.Valid(v'.approvals) && UsesSpent(v'.approvals, v'.uses)
      && Evolves(v.approvals, v.uses, v'.approvals, v'.uses)
      && PhaseApproved(v'.approvals, v'.uses, id, order, phase)
  {
    var (v', phase) := TakeApproval(v, id, order, now);
    if v'.uses != v.uses {
      assert ProperUse(v'.uses[|v.uses|], id, order);
    }
  }

  predicate Takes(phase: Phase, l: Label) {
    phase.Checked? && l.ConsumeApproval?
  }

  /** Every other step leaves approvals alone. */
  lemma OtherStepsTakeNothing(v: World, id: nat, order: Order, phase: Phase, l: Label)
    requires !Takes(phase, l)
    ensures var v' := Act(v, id, order, phase, l).0;
      && v'.approvals == v.approvals && v'.uses == v.uses
      && (v'.calls == v.calls || (phase.Cleared? && v'.calls == v.calls + [ConnectorCall(id, order)]))
  {
    hide WriteEvent, ExamineApproval, Conclude, TerminalEvent, RefusalEvent, Refuse, AfterBegin, Begin, Complete,
         CompleteAudit, CompleteReplayedAudit, Abort, FailAudit;
  }

  lemma OtherStepsPassNothing(v: World, id: nat, order: Order, phase: Phase, l: Label)
    requires !Takes(phase, l)
    ensures var phase' := Act(v, id, order, phase, l).1;
      && (PastApproval(phase') ==> PastApproval(phase))
      && (phase'.Checked? ==> phase.Checked? || (l.Examine? && phase' == ExamineApproval(v.approvals, order, l.now)))
  {
    hide WriteEvent, ExamineApproval, Conclude, TerminalEvent, RefusalEvent, Refuse, AfterBegin, Begin, Complete,
         CompleteAudit, CompleteReplayedAudit, Abort, FailAudit, TakeApproval, Approvals.Consume;
    if phase.Arrived? && l.Begins? {
      BeginningPassesNothing(Begin(v.store, order.intent, id, l.w).1);
    } else if phase.Reserved? && l.Examine? {
      ExaminingPassesNothing(v.approvals, order, l.now);
    }
  }

  lemma BeginningPassesNothing(reply: BeginReply)
    ensures !PastApproval(AfterBegin(reply)) && !AfterBegin(reply).Checked?
  {
  }

  lemma ExaminingPassesNothing(t: Approvals.Table, order: Order, now: nat)
    ensures !PastApproval(ExamineApproval(t, order, now))
  {
    hide ApprovalMatches;
  }

  lemma ExaminedApproval(t: Approvals.Table, uses: seq<ApprovalUse>, id: nat, order: Order, now: nat)
    requires Approvals.Valid(t) && ExamineApproval(t, order, now).Checked?
    ensures PhaseApproved(t, uses, id, order, Checked)
  {
  }

  lemma ActApproved(v: World, id: nat, order: Order, phase: Phase, l: Label)
    requires Approvals.Valid(v.approvals) && UsesSpent(v.approvals, v.uses)
    requires PhaseApproved(v.approvals, v.uses, id, order, phase)
    ensures var (v', phase') := Act(v, id, order, phase, l);
      && Approvals.Valid(v'.approvals) && UsesSpent(v'.approvals, v'.uses)
      && Evolves(v.approvals, v.uses, v'.approvals, v'.uses)
      && PhaseApproved(v'.approvals, v'.uses, id, order, phase')
      && (v'.calls == v.calls
           || (phase.Cleared? && v'.calls == v.calls + [ConnectorCall(id, order)] && v'.uses == v.uses))
  {
    if Takes(phase, l) {
      TakeApprovalSpends(v, id, order, l.now);
    } else {
      OtherStepsTakeNothing(v, id, order, phase, l);
      OtherStepsPassNothing(v, id, order, phase, l);
      if l.Examine? && ExamineApproval(v.approvals, order, l.now).Checked? {
        ExaminedApproval(v.approvals, v.uses, id, order, l.now);
      }
    }
  }

  // ---------------------------------------------------------------------------
  // The whole system
  // ---------------------------------------------------------------------------

  ghost predicate SessionsApproved(s: State) {
    forall id :: id in s.sessions ==>
      PhaseApproved(s.approvals, s.uses, id, s.sessions[id].order, s.sessions[id].phase)
  }

  ghost predicate CallsApproved(s: State) {
    forall c :: 0 <= c < |s.calls| && s.calls[c].order.approvalId.Some? ==>
      Used(s.uses, s.calls[c].session, s.calls[c].order)
  }

  ghost predicate Approved(s: State) {
    && Approvals.Valid(s.approvals) && UsesSpent(s.approvals, s.uses)
    && SessionsApproved(s) && CallsApproved(s)
  }

  lemma ApprovedEvolves(s: State, t: State)
    requires Approved(s)
    requires Approvals.Valid(t.approvals) && UsesSpent(t.approvals, t.uses)
    requires Evolves(s.approvals, s.uses, t.approvals, t.uses)
    requires forall id :: id in t.sessions ==>
        || PhaseApproved(t.approvals, t.uses, id, t.sessions[id].order, t.sessions[id].phase)
        || (id in s.sessions && t.sessions[id] == s.sessions[id])
    requires forall c :: 0 <= c < |t.calls| && t.calls[c].order.approvalId.Some? ==>
        || Used(t.uses, t.calls[c].session, t.calls[c].order)
        || (c < |s.calls| && t.calls[c] == s.calls[c])
    ensures Approved(t)
  {
    forall id | id in t.sessions
      ensures PhaseApproved(t.approvals, t.uses, id, t.sessions[id].order, t.sessions[id].phase) {
      if id in s.sessions && t.sessions[id] == s.sessions[id] {
        PhaseApprovedEvolves(s.approvals, s.uses, t.approvals, t.uses, id, s.sessions[id].order, s.sessions[id].phase);
      }
    }
    forall c | 0 <= c < |t.calls| && t.calls[c].order.approvalId.Some?
      ensures Used(t.uses, t.calls[c].session, t.calls[c].order)
    {
      if c < |s.calls| && t.calls[c] == s.calls[c] {
        PhaseApprovedEvolves(s.approvals, s.uses, t.approvals, t.uses, s.calls[c].session, s.calls[c].order, Arrived);
      }
    }
  }

  lemma ApprovedCallNext(s: State, l: Label)
    requires Approved(s) && IsCallLabel(l) && l.session in s.sessions
    ensures Approved(Next(s, l))
  {
    var id, x := l.session, s.sessions[l.session];
    var v := See(s, x.process);
    ActApproved(v, id, x.order, x.phase, l);
    var step := Act(v, id, x.order, x.phase, l);
    ApprovedEvolves(s, Put(s, id, x, step.0, step.1));
  }

  lemma ApprovedOperator(s: State, call: Approvals.Call)
    requires Approved(s) && !call.CallConsume?
    ensures Approved(s.(approvals := Approvals.Apply(s.approvals, call)))
  {
    var t := Approvals.Apply(s.approvals, call);
    forall a
      ensures a in s.approvals.issued && a !in s.approvals.rows ==> a !in t.rows
      ensures a in s.approvals.rows && a in t.rows ==> Approvals.Follows(s.approvals.rows[a], t.rows[a])
    {
      Approvals.ApplyFollows(s.approvals, call, a);
    }
    Approvals.ApplyFollows(s.approvals, call, "");
    ApprovedEvolves(s, s.(approvals := t));
  }

  lemma ApprovedCrash(s: State, p: nat)
    requires Approved(s)
    ensures Approved(CrashStep(s, p))
  {
    ApprovedEvolves(s, CrashStep(s, p));
  }

  lemma ApprovedNext(s: State, l: Label)
    requires Approved(s)
    ensures Approved(Next(s, l))
  {
    hide Act, Approvals.Apply, Approvals.Valid;
    if IsCallLabel(l) {
      if l.session in s.sessions {
        ApprovedCallNext(s, l);
      }
    } else if l.Arrive? {
      ApprovedEvolves(s, Next(s, l));
    } else if l.Crash? {
      ApprovedCrash(s, l.process);
    } else if !l.call.CallConsume? {
      ApprovedOperator(s, l.call);
    }
  }

  lemma {:induction false} ApprovedRun(s: State, labels: seq<Label>)
    requires Approved(s)
    ensures Approved(Run(s, labels))
    decreases |labels|
  {
    if labels != [] {
      ApprovedNext(s, labels[0]);
      ApprovedRun(Next(s, labels[0]), labels[1..]);
    }
  }

  // ---------------------------------------------------------------------------
  // Main results
  // ---------------------------------------------------------------------------

  /** Every connector call under an approval id consumed that approval itself, unexpired at that moment, in the
      approved state, one-time, and matching the executed intent and its correlation id. */
  lemma CallsConsumeTheirApproval(labels: seq<Label>, c: nat)
    requires var s := Run(INIT, labels); c < |s.calls| && s.calls[c].order.approvalId.Some?
    ensures var s := Run(INIT, labels);
      exists i :: 0 <= i < |s.uses| && ProperUse(s.uses[i], s.calls[c].session, s.calls[c].order)
  {
    ApprovedRun(INIT, labels);
  }

  /** One approval carries at most one connector call, over all keys, payloads and processes. */
  lemma OneCallPerApproval(labels: seq<Label>, c: nat, d: nat)
    requires var s := Run(INIT, labels);
      && c < |s.calls| && d < |s.calls|
      && s.calls[c].order.approvalId.Some? && s.calls[c].order.approvalId == s.calls[d].order.approvalId
    ensures c == d
  {
    ApprovedRun(INIT, labels);
    OwnedRun(INIT, labels);
    SameUseSameCall(Run(INIT, labels), c, d);
  }

  lemma SameUseSameCall(s: State, c: nat, d: nat)
    requires UsesSpent(s.approvals, s.uses) && CallsApproved(s) && CallersCalled(s) && OneCallPerKey(s)
    requires c < |s.calls| && d < |s.calls|
    requires s.calls[c].order.approvalId.Some? && s.calls[c].order.approvalId == s.calls[d].order.approvalId
    ensures c == d
  {
    var i :| 0 <= i < |s.uses| && ProperUse(s.uses[i], s.calls[c].session, s.calls[c].order);
    var j :| 0 <= j < |s.uses| && ProperUse(s.uses[j], s.calls[d].session, s.calls[d].order);
    assert i == j;
    assert s.calls[c].order == s.calls[d].order;
  }
}
