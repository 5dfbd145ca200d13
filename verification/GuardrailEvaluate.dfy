/** Interleaved evaluations: at most one pipeline per scope, and duplicates share its decision. */
module GuardrailEvaluate {
  import opened Outcomes
  import opened TradingIntents
  import opened GuardrailStore

  /** One `evaluate` call on a valid intent; the payload is the canonical text of the intent. */
  datatype Call = Call(scope: ScopedKey, payload: string, correlationId: string, now: nat, dryRun: bool)

  datatype Flight = Running(call: Call) | Waiting(call: Call, promise: nat)

  datatype Answer = Answered(call: Call, decision: Decision) | Refused(call: Call, decision: Decision)

  datatype Completion = Completion(scope: ScopedKey, decision: Decision)

  /** Live state, the ids of approvals in the table, and the history: ids ever issued, ids whose deletion failed,
      scopes that created an approval or aborted, completed decisions, audited decisions and answers. */
  datatype World = World(
    memory: Memory, flights: map<nat, Flight>, approvals: set<string>,
    issued: set<string>, left: set<string>, created: seq<ScopedKey>, aborted: seq<ScopedKey>,
    completions: seq<Completion>, audited: seq<Decision>, answers: seq<Answer>)

  const INIT := World(Memory(map[], []), map[], {}, {}, {}, [], [], [], [], [])

  /** How the synchronous end of a pipeline goes: the id drawn for an approval, and which writes succeed. */
  datatype Ending = Ending(id: string, create: bool, requestAudit: bool, finalAudit: bool, delete: bool)

  datatype Label =
    | Submit(f: nat, call: Call, receivedAudit: bool, finalAudit: bool)
    | Fail(f: nat)
    | Conclude(f: nat, outcome: Verdict, detail: string, ending: Ending)
    | Wake(f: nat, finalAudit: bool)

  function TokenFor(payload: string, outcome: Verdict, correlationId: string, decidedAt: nat,
                    approvalId: Option<string>, dryRun: bool): Token {
    if outcome.Deny? then NoToken else Token(payload, outcome, correlationId, decidedAt, approvalId, dryRun)
  }

  /** `finalizeDecision`: the decision under a correlation id, with its token. */
  function Finalized(call: Call, d: Decision, correlationId: string): Decision {
    d.(correlationId := correlationId,
       token := TokenFor(call.payload, d.outcome, correlationId, d.decidedAt, d.approvalId, call.dryRun))
  }

  function Replayed(call: Call, d: Decision): Decision {
    Finalized(call, d, if d.outcome.NeedsHuman? then d.correlationId else call.correlationId)
  }

  function Conflicting(call: Call): Decision {
    Finalized(call, Decision(Deny, call.correlationId, call.now, None, "idempotency_conflict", NoToken),
      call.correlationId)
  }

  function Gone(w: World, f: nat): World {
    w.(flights := w.flights - {f})
  }

  function Give(w: World, a: Answer, auditOk: bool): World {
    if auditOk then w.(audited := w.audited + [a.decision], answers := w.answers + [a]) else w
  }

  /** The part before the first await. */
  function Start(w: World, f: nat, call: Call, receivedAudit: bool, finalAudit: bool): World {
    if !receivedAudit then w
    else if call.dryRun then w.(flights := w.flights[f := Running(call)])
    else
      match Get(w.memory, call.scope, call.payload)
      case Conflict => Give(w, Refused(call, Conflicting(call)), finalAudit)
      case Known(d) => Give(w, Answered(call, Replayed(call, d)), finalAudit)
      case Awaiting(p) => w.(flights := w.flights[f := Waiting(call, p)])
      case Unknown =>
        w.(memory := Reserve(w.memory, call.scope, call.payload), flights := w.flights[f := Running(call)])
  }

  /** A pipeline that throws: its scope is free again and its waiters fail with it. */
  function Aborted(w: World, f: nat, call: Call): World {
    if call.dryRun then Gone(w, f)
    else Gone(w, f).(memory := Abort(w.memory, call.scope, call.payload), aborted := w.aborted + [call.scope])
  }

  /** The approval is deleted; when the deletion itself throws, it is left behind. */
  function Deleted(w: World, id: string, ok: bool): World {
    if ok then w.(approvals := w.approvals - {id}) else w.(left := w.left + {id})
  }

  function Created(w: World, call: Call, id: string): World {
    w.(approvals := w.approvals + {id}, issued := w.issued + {id}, created := w.created + [call.scope])
  }

  /** The synchronous end of a pipeline: the approval request, the final audit, and the stored decision. */
  function End(w: World, f: nat, call: Call, outcome: Verdict, detail: string, e: Ending): World {
    if outcome.NeedsHuman? && !call.dryRun then
      if !e.create then Aborted(w, f, call)
      else if !e.requestAudit then Aborted(Deleted(Created(w, call, e.id), e.id, e.delete), f, call)
      else if !e.finalAudit then Aborted(Deleted(Created(w, call, e.id), e.id, e.delete), f, call)
      else Stored(Created(w, call, e.id), f, call, Some(e.id), outcome, detail)
    else if !e.finalAudit then Aborted(w, f, call)
    else Stored(w, f, call, None, outcome, detail)
  }

  function Concluded(call: Call, approvalId: Option<string>, outcome: Verdict, detail: string): Decision {
    Finalized(call, Decision(outcome, call.correlationId, call.now, approvalId, detail, NoToken), call.correlationId)
  }

  function Stored(w: World, f: nat, call: Call, approvalId: Option<string>, outcome: Verdict, detail: string): World {
    var d := Concluded(call, approvalId, outcome, detail);
    var answered := Give(Gone(w, f), Answered(call, d), true);
    if call.dryRun then answered
    else answered.(memory := Set(w.memory, call.scope, call.payload, d),
                   completions := w.completions + [Completion(call.scope, d)])
  }

  function Next(w: World, l: Label): World {
    match l
    case Submit(f, call, receivedAudit, finalAudit) =>
      if f in w.flights then w else Start(w, f, call, receivedAudit, finalAudit)
    case Fail(f) =>
      if f in w.flights && w.flights[f].Running? then Aborted(w, f, w.flights[f].call) else w
    case Conclude(f, outcome, detail, e) =>
      if f in w.flights && w.flights[f].Running? && e.id !in w.issued
        then End(w, f, w.flights[f].call, outcome, detail, e) else w
    case Wake(f, finalAudit) =>
      if f in w.flights && w.flights[f].Waiting? && w.flights[f].promise < |w.memory.promises| then
        match w.memory.promises[w.flights[f].promise]
        case Unsettled => w
        case Rejected => Gone(w, f)
        case Resolved(d) => Give(Gone(w, f), Answered(w.flights[f].call, Replayed(w.flights[f].call, d)), finalAudit)
      else w
  }

  function Run(w: World, run: seq<Label>): World
    decreases |run|
  {
    if run == [] then w else Run(Next(w, run[0]), run[1..])
  }

  // ---------------------------------------------------------------------------
  // What every step keeps
  // ---------------------------------------------------------------------------

  predicate Reserves(x: Flight) {
    x.Running? && !x.call.dryRun
  }

  ghost predicate EntrySound(m: Memory, s: ScopedKey)
    requires s in m.entries
  {
    match m.entries[s]
    case Pending(_, p) => p < |m.promises| && m.promises[p].Unsettled?
    case Complete(payload, d) =>
      d.token == TokenFor(payload, d.outcome, d.correlationId, d.decidedAt, d.approvalId, false)
  }

  predicate SharePromise(x: Entry, y: Entry) {
    x.Pending? && y.Pending? && x.promise == y.promise
  }

  ghost predicate MemorySound(m: Memory) {
    && (forall s :: s in m.entries ==> EntrySound(m, s))
    && forall s, t :: s in m.entries && t in m.entries && SharePromise(m.entries[s], m.entries[t]) ==> s == t
  }

  /** A pipeline holds its scope's pending entry; a waiter's promise is that of its scope's entry, or already settled
      with what the entry now holds. */
  ghost predicate FlightSound(m: Memory, x: Flight) {
    match x
    case Running(call) => call.dryRun
      || (call.scope in m.entries && m.entries[call.scope].Pending? && m.entries[call.scope].payload == call.payload)
    case Waiting(call, p) =>
      && !call.dryRun && p < |m.promises|
      && match m.promises[p]
         case Unsettled => call.scope in m.entries && m.entries[call.scope] == Pending(call.payload, p)
         case Resolved(d) => call.scope in m.entries && m.entries[call.scope] == Complete(call.payload, d)
         case Rejected => true
  }

  /** An answer repeats the decision stored for its scope: the same outcome, and all of it when a human must decide. */
  ghost predicate AnswerSound(w: World, a: Answer) {
    && a.decision in w.audited
    && (a.Answered? && !a.call.dryRun ==>
          && a.call.scope in w.memory.entries
          && match w.memory.entries[a.call.scope]
             case Pending(_, _) => false
             case Complete(payload, d) =>
               && payload == a.call.payload && a.decision.outcome == d.outcome
               && (d.outcome.NeedsHuman? ==> a.decision == d))
  }

  ghost predicate CompletionSound(m: Memory, c: Completion) {
    c.scope in m.entries && m.entries[c.scope].Complete? && m.entries[c.scope].decision == c.decision
  }

  predicate HasApproval(m: Memory, s: ScopedKey) {
    s in m.entries && m.entries[s].Complete? && m.entries[s].decision.outcome.NeedsHuman?
  }

  ghost predicate ApprovalSound(w: World, id: string) {
    id in w.left || exists i :: 0 <= i < |w.completions| && w.completions[i].decision.approvalId == Some(id)
  }

  ghost predicate OnePipeline(flights: map<nat, Flight>) {
    forall f, g :: f in flights && g in flights && f != g && Reserves(flights[f]) && Reserves(flights[g]) ==>
      flights[f].call.scope != flights[g].call.scope
  }

  ghost predicate CountsSound(w: World, s: ScopedKey) {
    multiset(w.created)[s] <= multiset(w.aborted)[s] + if HasApproval(w.memory, s) then 1 else 0
  }

  ghost predicate Sound(w: World) {
    && MemorySound(w.memory)
    && (forall f :: f in w.flights ==> FlightSound(w.memory, w.flights[f]))
    && OnePipeline(w.flights)
    && (forall i :: 0 <= i < |w.answers| ==> AnswerSound(w, w.answers[i]))
    && (forall i :: 0 <= i < |w.completions| ==> CompletionSound(w.memory, w.completions[i]))
    && (forall i, j :: 0 <= i < j < |w.completions| ==> w.completions[i].scope != w.completions[j].scope)
    && (forall id :: id in w.approvals ==> ApprovalSound(w, id) && id in w.issued)
    && forall s :: CountsSound(w, s)
  }

  // ---------------------------------------------------------------------------
  // The store under its four operations
  // ---------------------------------------------------------------------------

  lemma ReserveKeepsMemory(m: Memory, key: ScopedKey, payload: string)
    requires MemorySound(m) && key !in m.entries
    ensures MemorySound(Reserve(m, key, payload))
    ensures forall x :: FlightSound(m, x) ==> FlightSound(Reserve(m, key, payload), x)
  {
    var m' := Reserve(m, key, payload);
    forall s | s in m'.entries ensures EntrySound(m', s) {
      assert s != key ==> EntrySound(m, s);
    }
    forall s | s in m.entries && m.entries[s].Pending? ensures m.entries[s].promise < |m.promises| {
      assert EntrySound(m, s);
    }
  }

  /** Settling a scope's own promise touches no other scope's flights. */
  lemma SetKeepsMemory(m: Memory, key: ScopedKey, payload: string, d: Decision)
    requires MemorySound(m) && key in m.entries && m.entries[key].Pending? && m.entries[key].payload == payload
    requires d.token == TokenFor(payload, d.outcome, d.correlationId, d.decidedAt, d.approvalId, false)
    ensures MemorySound(Set(m, key, payload, d))
    ensures forall x :: FlightSound(m, x) && (Reserves(x) ==> x.call.scope != key) ==>
      FlightSound(Set(m, key, payload, d), x)
  {
    var m' := Set(m, key, payload, d);
    assert EntrySound(m, key);
    forall s | s in m'.entries ensures EntrySound(m', s) {
      assert s != key ==> EntrySound(m, s);
    }
    forall x | FlightSound(m, x) && (Reserves(x) ==> x.call.scope != key) ensures FlightSound(m', x) {
    }
  }

  lemma AbortKeepsMemory(m: Memory, key: ScopedKey, payload: string)
    requires MemorySound(m) && key in m.entries && m.entries[key].Pending? && m.entries[key].payload == payload
    ensures MemorySound(Abort(m, key, payload))
    ensures forall x :: FlightSound(m, x) && (Reserves(x) ==> x.call.scope != key) ==>
      FlightSound(Abort(m, key, payload), x)
  {
    var m' := Abort(m, key, payload);
    assert EntrySound(m, key);
    forall s | s in m'.entries ensures EntrySound(m', s) {
      assert EntrySound(m, s);
    }
    forall x | FlightSound(m, x) && (Reserves(x) ==> x.call.scope != key) ensures FlightSound(m', x) {
    }
  }

  // ---------------------------------------------------------------------------
  // The steps
  // ---------------------------------------------------------------------------

  /** Completed entries stay, histories only grow, and no approval appears unaccounted for. */
  ghost predicate HistoryGrows(w: World, w': World) {
    && (forall s :: s in w.memory.entries && w.memory.entries[s].Complete? ==>
         s in w'.memory.entries && w'.memory.entries[s] == w.memory.entries[s])
    && w.audited <= w'.audited && w.completions <= w'.completions && w.left <= w'.left && w.issued <= w'.issued
  }

  lemma AnswersStaySound(w: World, w': World)
    requires HistoryGrows(w, w') && forall i :: 0 <= i < |w.answers| ==> AnswerSound(w, w.answers[i])
    ensures forall i :: 0 <= i < |w.answers| ==> AnswerSound(w', w.answers[i])
  {
    forall i | 0 <= i < |w.answers| ensures AnswerSound(w', w.answers[i]) {
      assert AnswerSound(w, w.answers[i]);
      assert w.answers[i].decision in w'.audited;
    }
  }

  lemma CompletionsStaySound(w: World, w': World)
    requires HistoryGrows(w, w') && forall i :: 0 <= i < |w.completions| ==> CompletionSound(w.memory, w.completions[i])
    ensures forall i :: 0 <= i < |w.completions| ==> CompletionSound(w'.memory, w.completions[i])
  {
    forall i | 0 <= i < |w.completions| ensures CompletionSound(w'.memory, w.completions[i]) {
      assert CompletionSound(w.memory, w.completions[i]);
    }
  }

  lemma ApprovalsStaySound(w: World, w': World)
    requires HistoryGrows(w, w')
    ensures forall id :: ApprovalSound(w, id) ==> ApprovalSound(w', id)
  {
    forall id | ApprovalSound(w, id) ensures ApprovalSound(w', id) {
      if id !in w.left {
        var i :| 0 <= i < |w.completions| && w.completions[i].decision.approvalId == Some(id);
        assert w'.completions[i] == w.completions[i];
      }
    }
  }

  /** A step that adds no answer, completion, approval, creation or abort. */
  lemma QuietStep(w: World, w': World)
    requires Sound(w) && HistoryGrows(w, w') && MemorySound(w'.memory) && OnePipeline(w'.flights)
    requires forall f :: f in w'.flights ==> FlightSound(w'.memory, w'.flights[f])
    requires w'.answers == w.answers && w'.completions == w.completions && w'.approvals <= w.approvals
    requires w'.created == w.created && w'.aborted == w.aborted
    requires forall s :: HasApproval(w.memory, s) ==> HasApproval(w'.memory, s)
    ensures Sound(w')
  {
    hide MemorySound, FlightSound, AnswerSound, CompletionSound, ApprovalSound, OnePipeline, HistoryGrows, HasApproval;
    AnswersStaySound(w, w');
    CompletionsStaySound(w, w');
    ApprovalsStaySound(w, w');
    IssuedStay(w, w');
    forall s ensures CountsSound(w', s) {
      assert CountsSound(w, s);
    }
  }

  lemma IssuedStay(w: World, w': World)
    requires HistoryGrows(w, w')
    ensures w.issued <= w'.issued
  {
  }

  lemma GoneKeeps(w: World, f: nat)
    requires Sound(w)
    ensures Sound(Gone(w, f))
  {
    hide MemorySound, FlightSound, AnswerSound, CompletionSound, ApprovalSound, CountsSound;
    QuietStep(w, Gone(w, f));
  }

  lemma GiveKeeps(w: World, a: Answer, auditOk: bool)
    requires Sound(w)
    requires AnswerSound(w.(audited := w.audited + [a.decision]), a)
    ensures Sound(Give(w, a, auditOk))
  {
    hide MemorySound, FlightSound, CompletionSound, ApprovalSound, CountsSound, OnePipeline, AnswerSound;
    if auditOk {
      var audited := w.(audited := w.audited + [a.decision]);
      QuietStep(w, audited);
      GivenIsSound(audited, a);
    }
  }

  lemma GivenIsSound(w: World, a: Answer)
    requires Sound(w) && AnswerSound(w, a)
    ensures Sound(w.(answers := w.answers + [a]))
  {
    hide MemorySound, FlightSound, CompletionSound, OnePipeline;
    var w' := w.(answers := w.answers + [a]);
    forall i | 0 <= i < |w'.answers| ensures AnswerSound(w', w'.answers[i]) {
      assert i < |w.answers| ==> AnswerSound(w, w.answers[i]);
    }
    forall id | id in w'.approvals ensures ApprovalSound(w', id) {
      assert ApprovalSound(w, id);
    }
    forall s ensures CountsSound(w', s) {
      assert CountsSound(w, s);
    }
  }

  /** A replayed decision has the stored outcome; a replayed `needs_human` decision is the stored one, token and
      all. */
  lemma ReplayIsSound(w: World, call: Call, d: Decision)
    requires MemorySound(w.memory) && !call.dryRun
    requires call.scope in w.memory.entries && w.memory.entries[call.scope] == Complete(call.payload, d)
    ensures AnswerSound(w.(audited := w.audited + [Replayed(call, d)]), Answered(call, Replayed(call, d)))
  {
    assert EntrySound(w.memory, call.scope);
  }

  lemma StartKeeps(w: World, f: nat, call: Call, receivedAudit: bool, finalAudit: bool)
    requires Sound(w) && f !in w.flights
    ensures Sound(Start(w, f, call, receivedAudit, finalAudit))
  {
    hide MemorySound, FlightSound, AnswerSound, CompletionSound, ApprovalSound, CountsSound;
    var w' := Start(w, f, call, receivedAudit, finalAudit);
    if receivedAudit && call.dryRun {
      DryFlight(w.memory, call);
      QuietStep(w, w');
    } else if receivedAudit {
      match Get(w.memory, call.scope, call.payload) {
        case Conflict =>
          RefusalIsSound(w, call);
          GiveKeeps(w, Refused(call, Conflicting(call)), finalAudit);
        case Known(d) =>
          ReplayIsSound(w, call, d);
          GiveKeeps(w, Answered(call, Replayed(call, d)), finalAudit);
        case Awaiting(p) =>
          WaiterIsSound(w.memory, call, p);
          QuietStep(w, w');
        case Unknown =>
          ReserveKeepsMemory(w.memory, call.scope, call.payload);
          NewPipeline(w, f, call);
          QuietStep(w, w');
      }
    }
  }

  lemma DryFlight(m: Memory, call: Call)
    requires call.dryRun
    ensures FlightSound(m, Running(call))
  {
  }

  lemma RefusalIsSound(w: World, call: Call)
    ensures AnswerSound(w.(audited := w.audited + [Conflicting(call)]), Refused(call, Conflicting(call)))
  {
  }

  lemma WaiterIsSound(m: Memory, call: Call, p: nat)
    requires MemorySound(m) && Get(m, call.scope, call.payload) == Awaiting(p) && !call.dryRun
    ensures FlightSound(m, Waiting(call, p))
  {
    assert EntrySound(m, call.scope);
  }

  lemma NewPipeline(w: World, f: nat, call: Call)
    requires Sound(w) && call.scope !in w.memory.entries
    ensures OnePipeline(w.flights[f := Running(call)])
    ensures FlightSound(Reserve(w.memory, call.scope, call.payload), Running(call))
  {
    forall g | g in w.flights && Reserves(w.flights[g]) ensures w.flights[g].call.scope != call.scope {
      assert FlightSound(w.memory, w.flights[g]);
    }
  }

  lemma AbortedKeeps(w: World, f: nat, call: Call)
    requires Sound(w) && f in w.flights && w.flights[f] == Running(call)
    ensures Sound(Aborted(w, f, call))
  {
    hide MemorySound, AnswerSound, CompletionSound, ApprovalSound;
    GoneKeeps(w, f);
    if !call.dryRun {
      assert FlightSound(w.memory, w.flights[f]);
      AbortKeepsMemory(w.memory, call.scope, call.payload);
      var w' := Aborted(w, f, call);
      AnswersStaySound(w, w');
      CompletionsStaySound(w, w');
      ApprovalsStaySound(w, w');
      forall g | g in w'.flights ensures FlightSound(w'.memory, w'.flights[g]) {
        assert FlightSound(w.memory, w.flights[g]);
      }
      forall s ensures CountsSound(w', s) {
        assert CountsSound(w, s);
      }
    }
  }

  /** An approval is created and, unless its decision completes, the scope aborts. */
  lemma CreatedAbortedKeeps(w: World, f: nat, call: Call, e: Ending)
    requires Sound(w) && f in w.flights && w.flights[f] == Running(call) && !call.dryRun && e.id !in w.issued
    ensures Sound(Aborted(Deleted(Created(w, call, e.id), e.id, e.delete), f, call))
  {
    hide MemorySound, AnswerSound, CompletionSound, ApprovalSound, FlightSound, OnePipeline;
    AbortedKeeps(w, f, call);
    var a := Aborted(w, f, call);
    var w' := Aborted(Deleted(Created(w, call, e.id), e.id, e.delete), f, call);
    assert HistoryGrows(a, w');
    AnswersStaySound(a, w');
    ApprovalsStaySound(a, w');
    forall id | id in w'.approvals ensures ApprovalSound(w', id) && id in w'.issued {
      if id == e.id {
        LeftIsSound(w', id);
      }
    }
    forall s ensures CountsSound(w', s) {
      assert CountsSound(w, s);
    }
  }

  lemma LeftIsSound(w: World, id: string)
    requires id in w.left
    ensures ApprovalSound(w, id)
  {
  }

  /** Everything of the end of a pipeline but the answer: the approval, if any, and the stored decision. */
  function Settled(w: World, f: nat, call: Call, approvalId: Option<string>, d: Decision): World {
    var w1 := if approvalId.Some? then Created(w, call, approvalId.value) else w;
    Gone(w1, f).(memory := Set(w.memory, call.scope, call.payload, d),
                 completions := w.completions + [Completion(call.scope, d)],
                 audited := w.audited + [d])
  }

  lemma SettledKeeps(w: World, f: nat, call: Call, approvalId: Option<string>, d: Decision)
    requires Sound(w) && f in w.flights && w.flights[f] == Running(call) && !call.dryRun
    requires d.approvalId == approvalId && (approvalId.Some? <==> d.outcome.NeedsHuman?)
    requires approvalId.Some? ==> approvalId.value !in w.issued
    requires d.token == TokenFor(call.payload, d.outcome, d.correlationId, d.decidedAt, d.approvalId, false)
    ensures Sound(Settled(w, f, call, approvalId, d))
  {
    hide MemorySound, AnswerSound, ApprovalSound, CountsSound, TokenFor;
    var w' := Settled(w, f, call, approvalId, d);
    assert FlightSound(w.memory, w.flights[f]);
    SetKeepsMemory(w.memory, call.scope, call.payload, d);
    forall g | g in w'.flights ensures FlightSound(w'.memory, w'.flights[g]) {
      assert FlightSound(w.memory, w.flights[g]);
    }
    AnswersStaySound(w, w');
    ApprovalsStaySound(w, w');
    forall i | 0 <= i < |w.completions|
      ensures CompletionSound(w'.memory, w.completions[i]) && w.completions[i].scope != call.scope {
      assert CompletionSound(w.memory, w.completions[i]);
    }
    forall id | id in w'.approvals ensures ApprovalSound(w', id) && id in w'.issued {
      if id !in w.approvals {
        NewApprovalIsSound(w', id);
      }
    }
    forall s ensures CountsSound(w', s) {
      SettledCounts(w, f, call, approvalId, d, s);
    }
  }

  lemma NewApprovalIsSound(w: World, id: string)
    requires w.completions != [] && w.completions[|w.completions| - 1].decision.approvalId == Some(id)
    ensures ApprovalSound(w, id)
  {
  }

  lemma SettledCounts(w: World, f: nat, call: Call, approvalId: Option<string>, d: Decision, s: ScopedKey)
    requires CountsSound(w, s) && !HasApproval(w.memory, call.scope) && (approvalId.Some? <==> d.outcome.NeedsHuman?)
    ensures CountsSound(Settled(w, f, call, approvalId, d), s)
  {
  }

  lemma StoredKeeps(w: World, f: nat, call: Call, approvalId: Option<string>, outcome: Verdict, detail: string)
    requires Sound(w) && f in w.flights && w.flights[f] == Running(call) && !call.dryRun
    requires (approvalId.Some? <==> outcome.NeedsHuman?) && (approvalId.Some? ==> approvalId.value !in w.issued)
    ensures Sound(Stored(if approvalId.Some? then Created(w, call, approvalId.value) else w, f, call, approvalId,
                         outcome, detail))
  {
    hide Sound, AnswerSound;
    var d := Concluded(call, approvalId, outcome, detail);
    var settled := Settled(w, f, call, approvalId, d);
    SettledKeeps(w, f, call, approvalId, d);
    OwnAnswerIsSound(settled, call, d);
    GivenIsSound(settled, Answered(call, d));
  }

  lemma OwnAnswerIsSound(w: World, call: Call, d: Decision)
    requires call.scope in w.memory.entries && w.memory.entries[call.scope] == Complete(call.payload, d)
      && d in w.audited
    ensures AnswerSound(w, Answered(call, d))
  {
  }

  lemma DryStoredKeeps(w: World, f: nat, call: Call, outcome: Verdict, detail: string)
    requires Sound(w) && call.dryRun
    ensures Sound(Stored(w, f, call, None, outcome, detail))
  {
    hide Sound;
    GoneKeeps(w, f);
    GiveKeeps(Gone(w, f), Answered(call, Concluded(call, None, outcome, detail)), true);
  }

  lemma NextKeeps(w: World, l: Label)
    requires Sound(w)
    ensures Sound(Next(w, l))
  {
    hide Sound, FlightSound, AnswerSound;
    match l {
      case Submit(f, call, receivedAudit, finalAudit) =>
        if f !in w.flights {
          StartKeeps(w, f, call, receivedAudit, finalAudit);
        }
      case Fail(f) =>
        if f in w.flights && w.flights[f].Running? {
          AbortedKeeps(w, f, w.flights[f].call);
        }
      case Conclude(f, outcome, detail, e) =>
        if f in w.flights && w.flights[f].Running? && e.id !in w.issued {
          var call := w.flights[f].call;
          AbortedKeeps(w, f, call);
          if call.dryRun {
            DryStoredKeeps(w, f, call, outcome, detail);
          } else if outcome.NeedsHuman? {
            CreatedAbortedKeeps(w, f, call, e);
            StoredKeeps(w, f, call, Some(e.id), outcome, detail);
          } else {
            StoredKeeps(w, f, call, None, outcome, detail);
          }
        }
      case Wake(f, finalAudit) => WakeKeeps(w, f, finalAudit);
    }
  }

  lemma WakeKeeps(w: World, f: nat, finalAudit: bool)
    requires Sound(w)
    ensures Sound(Next(w, Wake(f, finalAudit)))
  {
    hide AnswerSound, MemorySound, CompletionSound, ApprovalSound, CountsSound;
    GoneKeeps(w, f);
    if f in w.flights && w.flights[f].Waiting? {
      var call := w.flights[f].call;
      assert FlightSound(w.memory, w.flights[f]);
      if w.memory.promises[w.flights[f].promise].Resolved? {
        var d := w.memory.promises[w.flights[f].promise].decision;
        ReplayIsSound(Gone(w, f), call, d);
        GiveKeeps(Gone(w, f), Answered(call, Replayed(call, d)), finalAudit);
      }
    }
  }

  // ---------------------------------------------------------------------------
  // Over every interleaving
  // ---------------------------------------------------------------------------

  lemma {:induction false} RunKeeps(w: World, run: seq<Label>)
    requires Sound(w)
    ensures Sound(Run(w, run))
    decreases |run|
  {
    hide Sound, Next;
    if run != [] {
      NextKeeps(w, run[0]);
      RunKeeps(Next(w, run[0]), run[1..]);
    }
  }

  lemma {:induction false} RunAppend(w: World, run: seq<Label>, l: Label)
    ensures Run(w, run + [l]) == Next(Run(w, run), l)
    decreases |run|
  {
    hide Next;
    if run == [] {
      assert [] + [l] == [l] && [l][1..] == [];
      assert Run(w, [l]) == Run(Next(w, l), []);
    } else {
      assert (run + [l])[1..] == run[1..] + [l];
      RunAppend(Next(w, run[0]), run[1..], l);
    }
  }

  lemma InitSound()
    ensures Sound(INIT)
  {
  }

  /** At any moment a scope has at most one pipeline, and over the whole run at most one completed decision. */
  lemma OnePipelineOneDecision(run: seq<Label>)
    ensures var w := Run(INIT, run);
      && OnePipeline(w.flights)
      && forall i, j :: 0 <= i < j < |w.completions| ==> w.completions[i].scope != w.completions[j].scope
  {
    InitSound();
    RunKeeps(INIT, run);
  }

  /** A scope creates at most one approval request more often than its pipelines abort, so without aborts at most one;
      and it creates none beyond its aborts unless its decision needs a human. */
  lemma OneApprovalBarringAborts(run: seq<Label>, s: ScopedKey)
    ensures var w := Run(INIT, run);
      && multiset(w.created)[s] <= multiset(w.aborted)[s] + (if HasApproval(w.memory, s) then 1 else 0)
      && (s !in w.aborted ==> multiset(w.created)[s] <= 1)
  {
    InitSound();
    RunKeeps(INIT, run);
    var w := Run(INIT, run);
    assert CountsSound(w, s);
    assert s in w.aborted <==> s in multiset(w.aborted);
  }

  /** Every caller of a scope, whether it ran the pipeline, waited for it or came later, is answered with the decision
      the scope completed: the same outcome, and under `needs_human` the identical decision, approval and token. Every
      decision given was audited first. */
  lemma DuplicatesShareTheDecision(run: seq<Label>)
    ensures var w := Run(INIT, run);
      && (forall i :: 0 <= i < |w.answers| ==> w.answers[i].decision in w.audited)
      && forall i, j :: 0 <= i < |w.answers| && 0 <= j < |w.answers| && Shares(w.answers[i], w.answers[j]) ==>
           && w.answers[i].call.payload == w.answers[j].call.payload
           && w.answers[i].decision.outcome == w.answers[j].decision.outcome
           && (w.answers[i].decision.outcome.NeedsHuman? ==> w.answers[i].decision == w.answers[j].decision)
  {
    hide MemorySound, FlightSound;
    InitSound();
    RunKeeps(INIT, run);
    var w := Run(INIT, run);
    forall i | 0 <= i < |w.answers| ensures AnswerSound(w, w.answers[i]) {
    }
  }

  predicate Shares(a: Answer, b: Answer) {
    a.Answered? && b.Answered? && !a.call.dryRun && !b.call.dryRun && a.call.scope == b.call.scope
  }

  /** A decision that denies carries no token, and every other carries one over the answer's own call and decision. */
  predicate CarriesItsToken(a: Answer) {
    var d := a.decision;
    && (d.token == NoToken <==> d.outcome.Deny?)
    && (!d.outcome.Deny? ==>
          && d.token.payload == a.call.payload && d.token.dryRun == a.call.dryRun
          && d.token.outcome == d.outcome && d.token.correlationId == d.correlationId
          && d.token.decidedAt == d.decidedAt && d.token.approvalId == d.approvalId)
  }

  lemma StepCarriesTokens(w: World, l: Label)
    requires forall i :: 0 <= i < |w.answers| ==> CarriesItsToken(w.answers[i])
    ensures var w' := Next(w, l); forall i :: 0 <= i < |w'.answers| ==> CarriesItsToken(w'.answers[i])
  {
    hide Get, Reserve, Set, Abort, CarriesItsToken, Finalized;
    FinalizedCarry();
  }

  lemma FinalizedCarry()
    ensures forall call, d, c :: CarriesItsToken(Answered(call, Finalized(call, d, c)))
    ensures forall call, d, c :: CarriesItsToken(Refused(call, Finalized(call, d, c)))
  {
  }

  lemma {:induction false} RunCarriesTokens(w: World, run: seq<Label>)
    requires forall i :: 0 <= i < |w.answers| ==> CarriesItsToken(w.answers[i])
    ensures var w' := Run(w, run); forall i :: 0 <= i < |w'.answers| ==> CarriesItsToken(w'.answers[i])
    decreases |run|
  {
    hide Next, CarriesItsToken;
    if run != [] {
      StepCarriesTokens(w, run[0]);
      RunCarriesTokens(Next(w, run[0]), run[1..]);
      assert Run(w, run) == Run(Next(w, run[0]), run[1..]);
    }
  }

  /** Over every interleaving, each answer, whether it ran the pipeline, waited, came later or was refused, carries
      a token exactly when it does not deny, and that token binds its own call and decision. */
  lemma AnswersCarryTheirTokens(run: seq<Label>)
    ensures var w := Run(INIT, run); forall i :: 0 <= i < |w.answers| ==> CarriesItsToken(w.answers[i])
  {
    RunCarriesTokens(INIT, run);
  }

  /** Which writes the end of a pipeline needs: its final audit and, for a human's approval, that approval's own. */
  predicate Completes(call: Call, outcome: Verdict, e: Ending) {
    e.finalAudit && (outcome.NeedsHuman? && !call.dryRun ==> e.create && e.requestAudit)
  }

  /** A pipeline that ends either gives its caller the policy's verdict, and keeps it for the scope unless it was a dry
      run, or gives nobody anything and frees the scope. */
  lemma PipelineGivesItsVerdict(w: World, f: nat, outcome: Verdict, detail: string, e: Ending)
    requires f in w.flights && w.flights[f].Running? && e.id !in w.issued
    ensures var call, w' := w.flights[f].call, Next(w, Conclude(f, outcome, detail, e));
      && w'.flights == w.flights - {f}
      && (Completes(call, outcome, e) ==>
            && |w'.answers| == |w.answers| + 1
            && var a := w'.answers[|w.answers|];
               && w'.answers == w.answers + [a] && a == Answered(call, a.decision)
               && a.decision.outcome == outcome && a.decision.detail == detail
               && a.decision.decidedAt == call.now && a.decision.correlationId == call.correlationId
               && a.decision.approvalId == (if outcome.NeedsHuman? && !call.dryRun then Some(e.id) else None)
               && w'.memory.entries == (if call.dryRun then w.memory.entries
                                        else w.memory.entries[call.scope := Complete(call.payload, a.decision)]))
      && (!Completes(call, outcome, e) ==>
            && w'.answers == w.answers && w'.completions == w.completions
            && (!call.dryRun && call.scope in w.memory.entries
                && w.memory.entries[call.scope].Pending? && w.memory.entries[call.scope].payload == call.payload ==>
                  w'.memory.entries == w.memory.entries - {call.scope})
            && (call.dryRun ==> w'.memory == w.memory))
  {
    hide TokenFor;
  }

  /** A pipeline that throws frees its scope and fails those who waited for it; a dry run leaves no trace. */
  lemma FailureFreesTheScope(w: World, f: nat)
    requires f in w.flights && w.flights[f].Running?
    ensures var call, w' := w.flights[f].call, Next(w, Fail(f));
      && w'.flights == w.flights - {f} && w'.answers == w.answers && w'.completions == w.completions
      && (call.dryRun ==> w'.memory == w.memory)
      && (!call.dryRun && call.scope in w.memory.entries ==>
            match w.memory.entries[call.scope]
            case Complete(_, _) => w'.memory == w.memory
            case Pending(payload, p) =>
              if payload != call.payload then w'.memory == w.memory
              else
                && w'.memory.entries == w.memory.entries - {call.scope}
                && (p < |w.memory.promises| && w.memory.promises[p].Unsettled? ==>
                      w'.memory.promises == w.memory.promises[p := Rejected]))
  {
  }

  /** What a caller who arrives is given, by what its scope holds. */
  lemma SubmissionMeetsItsScope(w: World, f: nat, call: Call, finalAudit: bool)
    requires f !in w.flights && !call.dryRun
    ensures var w', s := Next(w, Submit(f, call, true, finalAudit)), call.scope;
      if s !in w.memory.entries then
        && w'.flights == w.flights[f := Running(call)] && w'.answers == w.answers
        && s in w'.memory.entries && w'.memory.entries[s].Pending? && w'.memory.entries[s].payload == call.payload
      else if w.memory.entries[s].payload != call.payload then
        && w'.flights == w.flights && w'.memory == w.memory
        && (!finalAudit ==> w'.answers == w.answers)
        && (finalAudit ==>
              && |w'.answers| == |w.answers| + 1
              && var d := w'.answers[|w.answers|].decision;
                 && w'.answers == w.answers + [Refused(call, d)]
                 && d.outcome.Deny? && d.detail == "idempotency_conflict" && d.approvalId.None?
                 && d.decidedAt == call.now && d.correlationId == call.correlationId)
      else
        && w'.memory == w.memory
        && match w.memory.entries[s]
           case Pending(_, p) => w'.flights == w.flights[f := Waiting(call, p)] && w'.answers == w.answers
           case Complete(_, d) => w'.flights == w.flights && GivesReplay(w, w', call, d, finalAudit)
  {
  }

  /** A waiter is given the settled decision, or fails with its pipeline. */
  lemma WaiterIsGivenTheDecision(w: World, f: nat, finalAudit: bool)
    requires f in w.flights && w.flights[f].Waiting? && w.flights[f].promise < |w.memory.promises|
    ensures var w', x := Next(w, Wake(f, finalAudit)), w.flights[f];
      && w'.memory == w.memory
      && match w.memory.promises[x.promise]
         case Unsettled => w' == w
         case Rejected => w'.flights == w.flights - {f} && w'.answers == w.answers
         case Resolved(d) => w'.flights == w.flights - {f} && GivesReplay(w, w', x.call, d, finalAudit)
  {
  }

  /** The decision is repeated to another caller: only its correlation id is the caller's own, and not even that when a
      human must decide. */
  predicate GivesReplay(w: World, w': World, call: Call, d: Decision, finalAudit: bool) {
    if !finalAudit then w'.answers == w.answers
    else
      && |w'.answers| == |w.answers| + 1
      && var r := w'.answers[|w.answers|].decision;
         && w'.answers == w.answers + [Answered(call, r)]
         && r.outcome == d.outcome && r.decidedAt == d.decidedAt && r.approvalId == d.approvalId && r.detail == d.detail
         && r.correlationId == if d.outcome.NeedsHuman? then d.correlationId else call.correlationId
  }

  /** Every approval in the table belongs to a completed decision, except those whose deletion failed. */
  lemma ApprovalsBelongToDecisions(run: seq<Label>)
    ensures var w := Run(INIT, run);
      forall id :: id in w.approvals && id !in w.left ==>
        exists i :: 0 <= i < |w.completions| && w.completions[i].decision.approvalId == Some(id)
  {
    hide MemorySound, FlightSound, AnswerSound;
    InitSound();
    RunKeeps(INIT, run);
    var w := Run(INIT, run);
    forall id | id in w.approvals ensures ApprovalSound(w, id) {
    }
  }

  /** A pipeline whose end fails leaves the approvals as they were exactly when it created none or could delete it. */
  lemma FailedEndLeavesNoApproval(w: World, f: nat, call: Call, outcome: Verdict, detail: string, e: Ending)
    requires e.id !in w.issued && e.id !in w.approvals
    ensures var w' := End(w, f, call, outcome, detail, e);
      |w'.completions| == |w.completions| && !call.dryRun ==>
        (w'.approvals == w.approvals <==> !(outcome.NeedsHuman? && e.create) || e.delete)
  {
    assert w.approvals + {e.id} - {e.id} == w.approvals;
    assert e.id in w.approvals + {e.id};
  }

  // ---------------------------------------------------------------------------
  // The service object's synchronous end
  // ---------------------------------------------------------------------------

  class GuardrailService {
    const idempotency: IdempotencyStore
    var approvals: set<string>
    ghost var issued: set<string>
    ghost var left: set<string>
    var audited: seq<Decision>

    constructor ()
      ensures fresh(idempotency) && idempotency.View() == Memory(map[], [])
      ensures approvals == {} && issued == {} && left == {} && audited == []
    {
      idempotency := new IdempotencyStore();
      approvals, issued, left, audited := {}, {}, {}, [];
    }

    /** The world as one pipeline sees it at its end: nothing else moves until it returns. */
    ghost function View(f: nat, call: Call): World
      reads this, idempotency
    {
      World(idempotency.View(), map[f := Running(call)], approvals, issued, left, [], [], [], audited, [])
    }

    /** `requestHumanApproval`: the new approval, or `None` when it throws. */
    method RequestHumanApproval(e: Ending) returns (ok: bool)
      requires e.id !in approvals
      modifies `approvals, `issued, `left
      ensures ok <==> e.create && e.requestAudit
      ensures approvals == if e.create && (e.requestAudit || !e.delete) then old(approvals) + {e.id} else old(approvals)
      ensures issued == if e.create then old(issued) + {e.id} else old(issued)
      ensures left == if e.create && !e.requestAudit && !e.delete then old(left) + {e.id} else old(left)
    {
      if !e.create {
        return false;
      }
      approvals, issued := approvals + {e.id}, issued + {e.id};
      if !e.requestAudit {
        DeleteApproval(e.id, e.delete);
        return false;
      }
      return true;
    }

    method DeleteApproval(id: string, ok: bool)
      modifies `approvals, `left
      ensures approvals == if ok then old(approvals) - {id} else old(approvals)
      ensures left == if ok then old(left) else old(left) + {id}
    {
      if ok {
        approvals := approvals - {id};
      } else {
        left := left + {id};
      }
    }

    /** `finalizeDecision`: audited, or `None` when the audit throws. */
    method FinalizeDecision(call: Call, d: Decision, correlationId: string, auditOk: bool) returns (r: Option<Decision>)
      modifies `audited
      ensures r == if auditOk then Some(Finalized(call, d, correlationId)) else None
      ensures auditOk ==> r.Some? && CarriesItsToken(Answered(call, r.value))
      ensures audited == if auditOk then old(audited) + [Finalized(call, d, correlationId)] else old(audited)
    {
      if !auditOk {
        return None;
      }
      var token := TokenFor(call.payload, d.outcome, correlationId, d.decidedAt, d.approvalId, call.dryRun);
      var finalized := d.(correlationId := correlationId, token := token);
      audited := audited + [finalized];
      return Some(finalized);
    }

    /** The last part of `evaluate`, from the policy's verdict on: one step of the interleaving. */
    method ConcludePipeline(f: nat, call: Call, outcome: Verdict, detail: string,
                            e: Ending) returns (r: Option<Decision>)
      requires e.id !in approvals && e.id !in issued
      modifies this, idempotency
      ensures var w := End(old(View(f, call)), f, call, outcome, detail, e);
        && idempotency.View() == w.memory && approvals == w.approvals && issued == w.issued && left == w.left
        && audited == w.audited && (if r.Some? then w.answers == [Answered(call, r.value)] else w.answers == [])
      ensures r.Some? <==> Completes(call, outcome, e)
      ensures r.Some? ==>
        && CarriesItsToken(Answered(call, r.value))
        && r.value.outcome == outcome && r.value.detail == detail
        && r.value.decidedAt == call.now && r.value.correlationId == call.correlationId
        && r.value.approvalId == if outcome.NeedsHuman? && !call.dryRun then Some(e.id) else None
    {
      var decision := Decision(outcome, call.correlationId, call.now, None, detail, NoToken);
      if outcome.NeedsHuman? && !call.dryRun {
        var requested := RequestHumanApproval(e);
        if !requested {
          idempotency.AbortKey(call.scope, call.payload);
          return None;
        }
        decision := decision.(approvalId := Some(e.id));
      }
      r := FinalizeDecision(call, decision, decision.correlationId, e.finalAudit);
      if r.None? {
        if decision.approvalId.Some? {
          DeleteApproval(e.id, e.delete);
        }
        if !call.dryRun {
          idempotency.AbortKey(call.scope, call.payload);
        }
        return;
      }
      if !call.dryRun {
        idempotency.SetDecision(call.scope, call.payload, r.value);
      }
    }
  }
}
