/** The in-memory store that lets one evaluation per scope run while its duplicates wait or replay. */
module GuardrailStore {
  import opened Outcomes
  import opened TradingIntents

  datatype Verdict = Allow | Deny | NeedsHuman

  /** What a decision token is computed from; the token determines all of it
      (CanonicalJson.TokenTextsBindDecisions). */
  datatype Token = NoToken | Token(payload: string, outcome: Verdict, correlationId: string, decidedAt: nat,
    approvalId: Option<string>, dryRun: bool)

  /** `detail` stands for reasons, verdicts and risk results. */
  datatype Decision = Decision(outcome: Verdict, correlationId: string, decidedAt: nat, approvalId: Option<string>,
    detail: string, token: Token)

  datatype Promise = Unsettled | Resolved(decision: Decision) | Rejected

  /** `promise` is the index of the promise its waiters hold. */
  datatype Entry = Complete(payload: string, decision: Decision) | Pending(payload: string, promise: nat)

  datatype Memory = Memory(entries: map<ScopedKey, Entry>, promises: seq<Promise>)

  datatype Lookup = Unknown | Conflict | Known(decision: Decision) | Awaiting(promise: nat)

  function Get(m: Memory, key: ScopedKey, payload: string): Lookup {
    if key !in m.entries then Unknown
    else if m.entries[key].payload != payload then Conflict
    else
      match m.entries[key]
      case Complete(_, decision) => Known(decision)
      case Pending(_, promise) => Awaiting(promise)
  }

  function Reserve(m: Memory, key: ScopedKey, payload: string): Memory {
    if key in m.entries then m
    else Memory(m.entries[key := Pending(payload, |m.promises|)], m.promises + [Unsettled])
  }

  function Settle(m: Memory, promise: nat, p: Promise): Memory {
    if promise < |m.promises| && m.promises[promise].Unsettled? then m.(promises := m.promises[promise := p]) else m
  }

  function Set(m: Memory, key: ScopedKey, payload: string, decision: Decision): Memory {
    var m' := m.(entries := m.entries[key := Complete(payload, decision)]);
    if key in m.entries && m.entries[key].Pending? && m.entries[key].payload == payload
    then Settle(m', m.entries[key].promise, Resolved(decision)) else m'
  }

  function Abort(m: Memory, key: ScopedKey, payload: string): Memory {
    if key in m.entries && m.entries[key].Pending? && m.entries[key].payload == payload
    then Settle(m.(entries := m.entries - {key}), m.entries[key].promise, Rejected) else m
  }

  /** The life of a reservation: duplicates wait for it and other payloads conflict, until its decision settles it and
      is then known to every duplicate, or its abort frees the key and fails those who waited. */
  lemma ReservationLife(m: Memory, key: ScopedKey, payload: string, other: string, d: Decision)
    requires key !in m.entries && other != payload
    ensures var held := Reserve(m, key, payload);
      && Get(m, key, payload) == Unknown
      && held.promises == m.promises + [Unsettled] && Get(held, key, payload) == Awaiting(|m.promises|)
      && Get(held, key, other) == Conflict && Reserve(held, key, other) == held
    ensures var held := Reserve(m, key, payload);
      var settled := Set(held, key, payload, d);
      && settled.promises == m.promises + [Resolved(d)] && Get(settled, key, payload) == Known(d)
      && Get(settled, key, other) == Conflict && Abort(settled, key, payload) == settled
      && settled.entries.Keys == m.entries.Keys + {key}
      && forall k :: k in m.entries ==> settled.entries[k] == m.entries[k]
    ensures var held := Reserve(m, key, payload);
      && Abort(held, key, payload) == Memory(m.entries, m.promises + [Rejected])
      && Abort(held, key, other) == held
  {
    var held := Reserve(m, key, payload);
    assert held.entries - {key} == m.entries;
    assert held.promises[|m.promises| := Rejected] == m.promises + [Rejected];
  }

  class IdempotencyStore {
    var entries: map<ScopedKey, Entry>
    var promises: seq<Promise>

    constructor ()
      ensures View() == Memory(map[], [])
    {
      entries, promises := map[], [];
    }

    function View(): Memory
      reads this
    {
      Memory(entries, promises)
    }

    method Lookup(key: ScopedKey, payload: string) returns (r: Lookup)
      ensures r == Get(View(), key, payload)
    {
      if key !in entries {
        return Unknown;
      }
      var entry := entries[key];
      if entry.payload != payload {
        return Conflict;
      }
      return if entry.Complete? then Known(entry.decision) else Awaiting(entry.promise);
    }

    method ReserveKey(key: ScopedKey, payload: string)
      modifies this
      ensures View() == Reserve(old(View()), key, payload)
    {
      if key in entries {
        return;
      }
      entries := entries[key := Pending(payload, |promises|)];
      promises := promises + [Unsettled];
    }

    method SetDecision(key: ScopedKey, payload: string, decision: Decision)
      modifies this
      ensures View() == Set(old(View()), key, payload, decision)
    {
      var known := key in entries;
      var entry := if known then entries[key] else Complete(payload, decision);
      entries := entries[key := Complete(payload, decision)];
      if known && entry.Pending? && entry.payload == payload {
        SettlePromise(entry.promise, Resolved(decision));
      }
    }

    method AbortKey(key: ScopedKey, payload: string)
      modifies this
      ensures View() == Abort(old(View()), key, payload)
    {
      if key !in entries || !entries[key].Pending? || entries[key].payload != payload {
        return;
      }
      var promise := entries[key].promise;
      entries := entries - {key};
      SettlePromise(promise, Rejected);
    }

    /** A promise settles once; settling it again does nothing. */
    method SettlePromise(promise: nat, p: Promise)
      modifies `promises
      ensures View() == Settle(old(View()), promise, p)
    {
      if promise < |promises| && promises[promise].Unsettled? {
        promises := promises[promise := p];
      }
    }
  }
}
