/** Human approvals: one row per request, shared by operators, expiry sweeps and brokers.
    Every method of the source is one immediate transaction, so every call is one atomic step. */
module ApprovalStore {
  import opened Outcomes
  import opened TradingIntents

  datatype ApprovalState = Pending | Approved | Denied | TimedOut | Consumed

  datatype ApprovalType = OneTime | AllowlistOnboarding

  /** What a request asks for. Nothing rewrites these fields after `create`. */
  datatype Facts = Facts(
    intentId: string, correlationId: string, principal: string, action: string, resource: string,
    environment: string, approvalType: ApprovalType, intentData: Intent, createdAt: nat, timeoutAt: nat)

  datatype Request = Request(
    facts: Facts, state: ApprovalState, decidedAt: Option<nat>, decidedBy: Option<string>)

  /** `issued` holds every id ever inserted: ids are random UUIDs and never come back. */
  datatype Table = Table(rows: map<string, Request>, issued: set<string>)

  // ---------------------------------------------------------------------------
  // One transaction each. `auditOk` is false when an audit or allowlist write made
  // inside the transaction throws, which rolls the transaction back.
  // ---------------------------------------------------------------------------

  datatype Reply = Row(request: Request) | Nothing | Threw

  function Save(t: Table, id: string, r: Request): Table {
    t.(rows := t.rows[id := r])
  }

  function TimeOut(t: Table, id: string, now: nat, auditOk: bool): (Table, Reply)
    requires id in t.rows
  {
    if !auditOk then (t, Threw)
    else
      var r := t.rows[id].(state := TimedOut, decidedAt := Some(now), decidedBy := None);
      (Save(t, id, r), Row(r))
  }

  function Decide(t: Table, id: string, verdict: ApprovalState, who: string, now: nat, auditOk: bool)
    : (Table, Reply)
  {
    if id !in t.rows || !t.rows[id].state.Pending? then (t, Nothing)
    else if now >= t.rows[id].facts.timeoutAt then
      var (t', reply) := TimeOut(t, id, now, auditOk);
      (t', if reply.Threw? then Threw else Nothing)
    else if !auditOk then (t, Threw)
    else
      var r := t.rows[id].(state := verdict, decidedAt := Some(now), decidedBy := Some(who));
      (Save(t, id, r), Row(r))
  }

  function Expire(t: Table, id: string, now: nat, auditOk: bool): (Table, Reply) {
    if id !in t.rows || !t.rows[id].state.Pending? || now < t.rows[id].facts.timeoutAt then (t, Nothing)
    else TimeOut(t, id, now, auditOk)
  }

  function Consume(t: Table, id: string, now: nat): (Table, Reply) {
    if id !in t.rows || !t.rows[id].state.Approved? || !t.rows[id].facts.approvalType.OneTime? then (t, Nothing)
    else if now >= t.rows[id].facts.timeoutAt then (t, Nothing)
    else
      var r := t.rows[id].(state := Consumed);
      (Save(t, id, r), Row(r))
  }

  function Create(t: Table, id: string, facts: Facts): (Table, Reply) {
    if id in t.issued then (t, Threw)
    else
      var r := Request(facts, Pending, None, None);
      (Table(t.rows[id := r], t.issued + {id}), Row(r))
  }

  function Delete(t: Table, id: string): Table {
    t.(rows := t.rows - {id})
  }

  // ---------------------------------------------------------------------------
  // Runs
  // ---------------------------------------------------------------------------

  /** The rows a sweep at `now` selects. */
  function Overdue(t: Table, now: nat): set<string> {
    set id | id in t.rows && t.rows[id].state.Pending? && t.rows[id].facts.timeoutAt <= now
  }

  /** The table after the rows in `ids`, and no others, have timed out. */
  function Swept(t: Table, ids: set<string>, now: nat): Table {
    t.(rows := map id | id in t.rows ::
      if id in ids then t.rows[id].(state := TimedOut, decidedAt := Some(now), decidedBy := None) else t.rows[id])
  }

  lemma SweepOne(t: Table, done: set<string>, id: string, now: nat, auditOk: bool)
    requires id in Overdue(t, now) && id !in done
    ensures Expire(Swept(t, done, now), id, now, auditOk).1.Threw? <==> !auditOk
    ensures Expire(Swept(t, done, now), id, now, auditOk).0
         == Swept(t, if auditOk then done + {id} else done, now)
  {
  }

  datatype Call =
    | CallCreate(id: string, facts: Facts)
    | CallApprove(id: string, who: string, now: nat, auditOk: bool)
    | CallDeny(id: string, who: string, now: nat, auditOk: bool)
    | CallExpire(id: string, now: nat, auditOk: bool)
    | CallConsume(id: string, now: nat)
    | CallDelete(id: string)

  function Apply(t: Table, c: Call): Table {
    match c
    case CallCreate(id, facts) => Create(t, id, facts).0
    case CallApprove(id, who, now, auditOk) => Decide(t, id, Approved, who, now, auditOk).0
    case CallDeny(id, who, now, auditOk) => Decide(t, id, Denied, who, now, auditOk).0
    case CallExpire(id, now, auditOk) => Expire(t, id, now, auditOk).0
    case CallConsume(id, now) => Consume(t, id, now).0
    case CallDelete(id) => Delete(t, id)
  }

  function Run(t: Table, calls: seq<Call>): Table
    decreases |calls|
  {
    if calls == [] then t else Run(Apply(t, calls[0]), calls[1..])
  }

  /** The schema's discriminated union: who and when are recorded exactly when the state says so. */
  predicate WellFormed(r: Request) {
    && (r.state.Pending? <==> r.decidedAt.None?)
    && (r.decidedBy.Some? <==> r.state.Approved? || r.state.Denied? || r.state.Consumed?)
  }

  ghost predicate Valid(t: Table) {
    && t.rows.Keys <= t.issued
    && forall id :: id in t.rows ==> WellFormed(t.rows[id])
  }

  /** What one call may make of a row: a pending row is decided or times out, an approved row is consumed with its
      decision kept, and every other row is final. */
  predicate Follows(before: Request, after: Request) {
    || after == before
    || match before.state
       case Pending =>
         && after.facts == before.facts
         && (after.state.Approved? || after.state.Denied? || after.state.TimedOut?)
       case Approved => after == before.(state := Consumed)
       case _ => false
  }

  /** One call either leaves a row's history on the allowed path or deletes the row for good; a new row is pending. */
  ghost predicate Consecutive(t: Table, t': Table, id: string) {
    && t.issued <= t'.issued
    && (id in t.issued && id !in t.rows ==> id !in t'.rows)
    && (id !in t.issued && id in t'.rows ==> t'.rows[id].state.Pending?)
    && (id in t.rows && id in t'.rows ==> Follows(t.rows[id], t'.rows[id]))
  }

  lemma ApplyFollows(t: Table, c: Call, id: string)
    requires Valid(t)
    ensures Valid(Apply(t, c)) && Consecutive(t, Apply(t, c), id)
  {
  }

  /** What a whole run may make of a row: decided rows keep who and when, and only an approved row is consumed. */
  predicate Reaches(before: Request, after: Request) {
    && before.facts == after.facts
    && match before.state
       case Pending => true
       case Approved => after == before || after == before.(state := Consumed)
       case _ => after == before
  }

  lemma {:induction false} RunAppend(t: Table, calls: seq<Call>, c: Call)
    ensures Run(t, calls + [c]) == Apply(Run(t, calls), c)
    decreases |calls|
  {
    hide Apply;
    if calls == [] {
      assert [] + [c] == [c] && [c][1..] == [];
      assert Run(t, [c]) == Run(Apply(t, c), []);
    } else {
      assert (calls + [c])[1..] == calls[1..] + [c];
      RunAppend(Apply(t, calls[0]), calls[1..], c);
    }
  }

  lemma {:induction false} RunValid(t: Table, calls: seq<Call>)
    requires Valid(t)
    ensures Valid(Run(t, calls))
    decreases |calls|
  {
    if calls != [] {
      ApplyFollows(t, calls[0], "");
      RunValid(Apply(t, calls[0]), calls[1..]);
    }
  }

  /** Over every sequence of calls by any number of processes, each call moves the row only along the allowed path. */
  lemma RunFollows(t: Table, calls: seq<Call>, id: string)
    requires Valid(t)
    ensures forall i :: 0 <= i < |calls| ==> Consecutive(Run(t, calls[..i]), Run(t, calls[..i + 1]), id)
  {
    hide Apply, Run, Valid, Consecutive;
    forall i | 0 <= i < |calls| ensures Consecutive(Run(t, calls[..i]), Run(t, calls[..i + 1]), id) {
      assert calls[..i + 1] == calls[..i] + [calls[i]];
      RunAppend(t, calls[..i], calls[i]);
      RunValid(t, calls[..i]);
      ApplyFollows(Run(t, calls[..i]), calls[i], id);
    }
  }

  /** From the first state of a run to its last. */
  lemma {:induction false} RunReaches(t: Table, calls: seq<Call>, id: string)
    requires Valid(t)
    ensures t.issued <= Run(t, calls).issued
    ensures id in t.issued && id !in t.rows ==> id !in Run(t, calls).rows
    ensures id in t.rows && id in Run(t, calls).rows ==> Reaches(t.rows[id], Run(t, calls).rows[id])
    decreases |calls|
  {
    if calls != [] {
      hide Apply, Valid;
      ApplyFollows(t, calls[0], id);
      RunReaches(Apply(t, calls[0]), calls[1..], id);
    }
  }

  predicate ConsumedIn(t: Table, id: string) {
    id in t.rows && t.rows[id].state.Consumed?
  }

  predicate ApprovedIn(t: Table, id: string) {
    id in t.rows && t.rows[id].state.Approved?
  }

  /** A row that a run consumed stood approved at an earlier moment of that run, under the same decision. */
  lemma {:induction false} ConsumedWasApproved(t: Table, calls: seq<Call>, id: string) returns (i: nat)
    requires Valid(t) && !ConsumedIn(t, id) && ConsumedIn(Run(t, calls), id)
    ensures i < |calls| && ApprovedIn(Run(t, calls[..i]), id)
    ensures Run(t, calls).rows[id] == Run(t, calls[..i]).rows[id].(state := Consumed)
    decreases |calls|
  {
    hide Apply, Valid;
    var n := |calls| - 1;
    assert calls[..n] + [calls[n]] == calls;
    RunAppend(t, calls[..n], calls[n]);
    RunValid(t, calls[..n]);
    ApplyFollows(Run(t, calls[..n]), calls[n], id);
    if ConsumedIn(Run(t, calls[..n]), id) {
      i := ConsumedWasApproved(t, calls[..n], id);
      assert calls[..n][..i] == calls[..i];
    } else {
      i := n;
    }
  }

  /** A row of the run that ends consumed was approved by a named operator before its deadline. */
  predicate DecidedInTime(r: Request) {
    r.state.Approved? || r.state.Denied? || r.state.Consumed? ==>
      r.decidedAt.Some? && r.decidedBy.Some? && r.decidedAt.value < r.facts.timeoutAt
  }

  ghost predicate AllDecidedInTime(t: Table) {
    forall id :: id in t.rows ==> DecidedInTime(t.rows[id])
  }

  lemma ApplyDecidesInTime(t: Table, c: Call)
    requires AllDecidedInTime(t)
    ensures AllDecidedInTime(Apply(t, c))
  {
  }

  lemma {:induction false} RunDecidesInTime(t: Table, calls: seq<Call>)
    requires AllDecidedInTime(t)
    ensures AllDecidedInTime(Run(t, calls))
    decreases |calls|
  {
    if calls != [] {
      hide Apply;
      ApplyDecidesInTime(t, calls[0]);
      RunDecidesInTime(Apply(t, calls[0]), calls[1..]);
    }
  }

  /** A new request is pending under a new id, which is never issued again; deleting a row leaves all others. */
  lemma RequestsStartPending(t: Table, id: string, facts: Facts)
    ensures var t' := Apply(t, CallCreate(id, facts));
      if id in t.issued then t' == t && Create(t, id, facts).1 == Threw
      else t' == Table(t.rows[id := Request(facts, Pending, None, None)], t.issued + {id})
    ensures var t' := Apply(t, CallDelete(id));
      && t'.issued == t.issued && t'.rows.Keys == t.rows.Keys - {id}
      && forall other :: other in t'.rows ==> t'.rows[other] == t.rows[other]
  {
  }

  // ---------------------------------------------------------------------------
  // Every decision is the one its operator asked for
  // ---------------------------------------------------------------------------

  predicate IsDecision(c: Call) {
    c.CallApprove? || c.CallDeny?
  }

  /** What a decision does: a pending row before its deadline ends as this operator asked, one past it times out, and
      no other row, nor this one when the transaction rolls back or it was not pending, changes at all. */
  lemma DecisionTakesEffect(t: Table, c: Call)
    requires IsDecision(c)
    ensures var t' := Apply(t, c);
      && t'.issued == t.issued
      && (if c.auditOk && c.id in t.rows && t.rows[c.id].state.Pending? then
            var facts := t.rows[c.id].facts;
            t'.rows == t.rows[c.id :=
              if c.now < facts.timeoutAt
              then Request(facts, if c.CallApprove? then Approved else Denied, Some(c.now), Some(c.who))
              else Request(facts, TimedOut, Some(c.now), None)]
          else t'.rows == t.rows)
  {
    if c.id in t.rows {
      assert t.rows[c.id := t.rows[c.id]] == t.rows;
    }
  }

  /** The row stands decided for `approve`: approved, and perhaps consumed since, or denied. */
  predicate Stands(t: Table, id: string, approve: bool) {
    && id in t.rows
    && if approve then t.rows[id].state.Approved? || t.rows[id].state.Consumed? else t.rows[id].state.Denied?
  }

  /** The call is a decision that turned the row, pending before its deadline, into what `r` records. */
  predicate Decided(t: Table, c: Call, id: string, approve: bool, r: Request) {
    && (if approve then c.CallApprove? else c.CallDeny?)
    && c.id == id && c.auditOk && r.decidedBy == Some(c.who) && r.decidedAt == Some(c.now)
    && id in t.rows && t.rows[id].state.Pending? && t.rows[id].facts == r.facts && c.now < r.facts.timeoutAt
  }

  lemma OnlyDecisionsDecide(t: Table, c: Call, id: string, approve: bool)
    requires Valid(t) && Stands(Apply(t, c), id, approve)
    ensures var r := Apply(t, c).rows[id];
      || (Stands(t, id, approve) && r == t.rows[id].(state := r.state))
      || Decided(t, c, id, approve, r)
  {
  }

  /** Over every run, a row it turned approved, or consumed, was approved by an earlier call of the operator it names,
      at the time it names, while it was pending and in time; and a row it turned denied was denied likewise. */
  lemma {:induction false} DecidedByItsOperator(t: Table, calls: seq<Call>, id: string, approve: bool)
    returns (i: nat)
    requires Valid(t) && !Stands(t, id, approve) && Stands(Run(t, calls), id, approve)
    ensures i < |calls| && Decided(Run(t, calls[..i]), calls[i], id, approve, Run(t, calls).rows[id])
    decreases |calls|
  {
    hide Apply, Valid, Decided;
    var n := |calls| - 1;
    assert calls[..n] + [calls[n]] == calls;
    RunAppend(t, calls[..n], calls[n]);
    RunValid(t, calls[..n]);
    OnlyDecisionsDecide(Run(t, calls[..n]), calls[n], id, approve);
    if Decided(Run(t, calls[..n]), calls[n], id, approve, Run(t, calls).rows[id]) {
      i := n;
    } else {
      i := DecidedByItsOperator(t, calls[..n], id, approve);
      assert calls[..n][..i] == calls[..i];
      DecisionKept(Run(t, calls[..i]), calls[i], id, approve, Run(t, calls[..n]), Run(t, calls));
    }
  }

  lemma DecisionKept(t: Table, c: Call, id: string, approve: bool, before: Table, after: Table)
    requires Stands(before, id, approve) && Stands(after, id, approve)
    requires Decided(t, c, id, approve, before.rows[id])
    requires after.rows[id] == before.rows[id].(state := after.rows[id].state)
    ensures Decided(t, c, id, approve, after.rows[id])
  {
  }

  /** How many calls of a run take the one-time use of `id`. */
  function Uses(t: Table, calls: seq<Call>, id: string): nat
    decreases |calls|
  {
    if calls == [] then 0
    else
      (if calls[0].CallConsume? && calls[0].id == id && Consume(t, id, calls[0].now).1.Row? then 1 else 0)
      + Uses(Apply(t, calls[0]), calls[1..], id)
  }

  /** A one-time approval is granted at most once over a whole run, however many brokers ask, and exactly once when the
      run consumes it. */
  lemma {:induction false} ConsumedAtMostOnce(t: Table, calls: seq<Call>, id: string)
    requires Valid(t)
    ensures Uses(t, calls, id) <= 1
    ensures id in t.issued && (id !in t.rows || t.rows[id].state.Consumed?) ==> Uses(t, calls, id) == 0
    ensures !ConsumedIn(t, id) && ConsumedIn(Run(t, calls), id) ==> Uses(t, calls, id) == 1
    decreases |calls|
  {
    if calls != [] {
      ApplyFollows(t, calls[0], id);
      ConsumedAtMostOnce(Apply(t, calls[0]), calls[1..], id);
    }
  }

  // ---------------------------------------------------------------------------
  // The store object
  // ---------------------------------------------------------------------------

  class Database {
    var table: Table

    constructor ()
      ensures table == Table(map[], {})
    {
      table := Table(map[], {});
    }
  }

  class ApprovalStore {
    const database: Database

    constructor (database: Database)
      ensures this.database == database
    {
      this.database := database;
    }

    method Get(id: string) returns (r: Option<Request>)
      ensures r == if id in database.table.rows then Some(database.table.rows[id]) else None
    {
      if id in database.table.rows {
        r := Some(database.table.rows[id]);
      } else {
        r := None;
      }
    }

    method SaveRow(id: string, r: Request)
      modifies database
      ensures database.table == Save(old(database.table), id, r)
    {
      database.table := database.table.(rows := database.table.rows[id := r]);
    }

    method MarkTimedOut(id: string, now: nat, auditOk: bool) returns (reply: Reply)
      requires id in database.table.rows
      modifies database
      ensures (database.table, reply) == TimeOut(old(database.table), id, now, auditOk)
    {
      if !auditOk {
        return Threw;
      }
      var r := database.table.rows[id].(state := TimedOut, decidedAt := Some(now), decidedBy := None);
      SaveRow(id, r);
      reply := Row(r);
    }

    method Approve(id: string, who: string, now: nat, auditOk: bool) returns (reply: Reply)
      modifies database
      ensures (database.table, reply) == Decide(old(database.table), id, Approved, who, now, auditOk)
      ensures reply.Row? <==>
        && auditOk && id in old(database.table.rows) && old(database.table.rows)[id].state.Pending?
        && now < old(database.table.rows)[id].facts.timeoutAt
      ensures reply.Row? ==>
        var r := Request(old(database.table.rows)[id].facts, Approved, Some(now), Some(who));
        reply.request == r && database.table == old(database.table).(rows := old(database.table.rows)[id := r])
      ensures reply.Threw? <==>
        !auditOk && id in old(database.table.rows) && old(database.table.rows)[id].state.Pending?
    {
      var request := Get(id);
      if request.None? || !request.value.state.Pending? {
        return Nothing;
      }
      if now >= request.value.facts.timeoutAt {
        reply := MarkTimedOut(id, now, auditOk);
        return if reply.Threw? then Threw else Nothing;
      }
      if !auditOk {
        return Threw;
      }
      var r := request.value.(state := Approved, decidedAt := Some(now), decidedBy := Some(who));
      SaveRow(id, r);
      reply := Row(r);
    }

    method Deny(id: string, who: string, now: nat, auditOk: bool) returns (reply: Reply)
      modifies database
      ensures (database.table, reply) == Decide(old(database.table), id, Denied, who, now, auditOk)
      ensures reply.Row? <==>
        && auditOk && id in old(database.table.rows) && old(database.table.rows)[id].state.Pending?
        && now < old(database.table.rows)[id].facts.timeoutAt
      ensures reply.Row? ==>
        var r := Request(old(database.table.rows)[id].facts, Denied, Some(now), Some(who));
        reply.request == r && database.table == old(database.table).(rows := old(database.table.rows)[id := r])
      ensures reply.Threw? <==>
        !auditOk && id in old(database.table.rows) && old(database.table.rows)[id].state.Pending?
    {
      var request := Get(id);
      if request.None? || !request.value.state.Pending? {
        return Nothing;
      }
      if now >= request.value.facts.timeoutAt {
        reply := MarkTimedOut(id, now, auditOk);
        return if reply.Threw? then Threw else Nothing;
      }
      if !auditOk {
        return Threw;
      }
      var r := request.value.(state := Denied, decidedAt := Some(now), decidedBy := Some(who));
      SaveRow(id, r);
      reply := Row(r);
    }

    method ConsumeOneTime(id: string, now: nat) returns (reply: Reply)
      modifies database
      ensures (database.table, reply) == Consume(old(database.table), id, now)
      ensures reply.Row? <==>
        && id in old(database.table.rows) && old(database.table.rows)[id].state.Approved?
        && old(database.table.rows)[id].facts.approvalType.OneTime?
        && now < old(database.table.rows)[id].facts.timeoutAt
      ensures reply.Row? ==>
        var r := old(database.table.rows)[id].(state := Consumed);
        reply.request == r && database.table == old(database.table).(rows := old(database.table.rows)[id := r])
      ensures !reply.Row? ==> reply.Nothing? && database.table == old(database.table)
    {
      var request := Get(id);
      if request.None? || !request.value.state.Approved? || !request.value.facts.approvalType.OneTime? {
        return Nothing;
      }
      if now >= request.value.facts.timeoutAt {
        return Nothing;
      }
      var r := request.value.(state := Consumed);
      SaveRow(id, r);
      reply := Row(r);
    }

    method ExpireOne(id: string, now: nat, auditOk: bool) returns (reply: Reply)
      modifies database
      ensures (database.table, reply) == Expire(old(database.table), id, now, auditOk)
      ensures reply.Row? || reply.Threw? <==>
        && id in old(database.table.rows) && old(database.table.rows)[id].state.Pending?
        && old(database.table.rows)[id].facts.timeoutAt <= now
      ensures reply.Row? ==>
        var r := Request(old(database.table.rows)[id].facts, TimedOut, Some(now), None);
        && reply.request == r && auditOk
        && database.table == old(database.table).(rows := old(database.table.rows)[id := r])
      ensures !reply.Row? ==> database.table == old(database.table)
    {
      var request := Get(id);
      if request.None? || !request.value.state.Pending? || now < request.value.facts.timeoutAt {
        return Nothing;
      }
      reply := MarkTimedOut(id, now, auditOk);
    }

    /** The sweep. `broken` holds the ids whose timeout audit throws, which ends the sweep there.
        Undisturbed by other processes it times out pending rows past their deadline and touches no
        other row; when it does not throw, it leaves no such row behind. */
    method CheckTimeouts(now: nat, broken: set<string>) returns (timedOut: set<string>, threw: bool)
      modifies database
      ensures database.table == Swept(old(database.table), timedOut, now)
      ensures timedOut <= Overdue(old(database.table), now) - broken
      ensures !threw ==> timedOut == Overdue(old(database.table), now)
      ensures !threw ==> forall id :: id in database.table.rows && database.table.rows[id].state.Pending? ==>
        now < database.table.rows[id].facts.timeoutAt
      ensures threw <==> Overdue(old(database.table), now) * broken != {}
    {
      timedOut, threw := {}, false;
      var expired := Overdue(database.table, now);
      ghost var was, overdue := database.table, expired;
      assert was == Swept(was, {}, now);
      while expired != {}
        invariant expired == overdue - timedOut && timedOut <= overdue - broken
        invariant database.table == Swept(was, timedOut, now)
        decreases |expired|
      {
        var id :| id in expired;
        SweepOne(was, timedOut, id, now, id !in broken);
        var reply := ExpireOne(id, now, id !in broken);
        if reply.Threw? {
          assert id in overdue * broken;
          return timedOut, true;
        }
        timedOut, expired := timedOut + {id}, expired - {id};
      }
    }
  }
}
