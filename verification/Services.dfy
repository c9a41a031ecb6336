/** The shared stores as objects, for calls that run one after another. */
module Services {
  import opened Wrappers
  import opened Schemas
  import opened Governor
  import opened AuditChain
  import opened Events
  import opened Replay
  import opened Protocol
  import opened ProtocolInvariant

  /** One monotone clock; time may pass whenever it is read. */
  class Clock {
    var now: int

    constructor ()
      ensures now == 0
    {
      now := 0;
    }

    method Read() returns (t: int)
      modifies this
      ensures t == now && old(now) <= now
    {
      var later: int := *;
      if now < later {
        now := later;
      }
      return now;
    }

    /** A wait that runs its full time. */
    method Sleep(d: int)
      requires 0 < d
      modifies this
      ensures old(now) + d <= now
    {
      now := now + d;
      var t := Read();
    }
  }

  /** What others do to the approvals meanwhile: decide them, once each. */
  ghost predicate Decided(before: map<string, Hitl>, after: map<string, Hitl>)
  {
    && after.Keys == before.Keys
    && (forall id | id in before :: after[id].key == before[id].key && after[id].expiresAt == before[id].expiresAt)
    && (forall id | id in before && before[id].status != Pending :: after[id] == before[id])
  }

  /** Key present or absent, a cell tells exactly what the ledger still has. */
  predicate Coherent(budgets: map<BudgetKey, Budget>, cells: map<BudgetKey, int>)
  {
    forall k | k in cells :: k in budgets && cells[k] == Room(budgets[k])
  }

  ghost predicate RowsOk(env: Env, rows: map<string, Hitl>, now: int)
  {
    && (forall id | id in rows :: RowOk(env, now, rows[id]))
    && (forall a, b | a in rows && b in rows && a != b :: rows[a].key != rows[b].key)
  }

  /** What has been announced as resolved is. */
  ghost predicate Announced(published: set<string>, rows: map<string, Hitl>)
  {
    forall id | id in published :: id in rows && Terminal(rows[id].status)
  }

  lemma RowsLater(env: Env, rows: map<string, Hitl>, now: int, later: int)
    requires RowsOk(env, rows, now) && now <= later
    ensures RowsOk(env, rows, later)
  {
  }

  lemma RowChanged(env: Env, rows: map<string, Hitl>, now: int, id: string, row: Hitl)
    requires RowsOk(env, rows, now) && RowOk(env, now, row)
    requires forall a | a in rows && a != id :: rows[a].key != row.key
    ensures RowsOk(env, rows[id := row], now)
  {
  }

  lemma EventTypeNamed(e: Event)
    ensures ValidName(EventType(e))
  {
  }

  /** The database tables and the Redis channels. */
  class Store {
    const audit: AuditLogger
    const redis: Redis
    const clock: Clock
    const timeout: nat
    var agents: map<string, Agent>
    /** The enabled policies in evaluation order. */
    var policies: seq<Policy>
    var budgets: map<BudgetKey, Budget>
    var hitls: map<string, Hitl>
    /** The approvals whose resolution has been announced. */
    var published: set<string>

    constructor (crypto: Crypto, timeout: nat)
      ensures Valid() && Coherent(budgets, redis.cells)
      ensures fresh(audit) && fresh(redis) && fresh(clock) && this.timeout == timeout
    {
      audit := new AuditLogger(crypto);
      redis := new Redis();
      clock := new Clock();
      this.timeout := timeout;
      agents, policies, budgets, hitls, published := map[], [], map[], map[], {};
    }

    ghost function Environment(): Env { Env(audit.crypto, timeout) }

    ghost predicate Valid()
      reads this, audit, clock
    {
      && WellLinked(audit.crypto, audit.log)
      && (forall k | k in budgets :: Sane(budgets[k]))
      && RowsOk(Environment(), hitls, clock.now)
      && Announced(published, hitls)
    }

    method Load(k: BudgetKey) returns (row: BudgetRow?)
      ensures RowValue(row) == Find(budgets, k)
      ensures row != null ==> fresh(row)
    {
      if k in budgets {
        row := new BudgetRow(budgets[k]);
      } else {
        row := null;
      }
    }

    /** The lookup by idempotency key; at most one row can answer it. */
    method FindByKey(key: string) returns (r: Option<string>)
      requires RowsOk(Environment(), hitls, clock.now)
      ensures r.None? <==> forall id | id in hitls :: hitls[id].key != key
      ensures r.Some? ==> r.value in hitls && forall id | id in hitls :: hitls[id].key == key <==> id == r.value
    {
      if id :| id in hitls && hitls[id].key == key {
        r := Some(id);
      } else {
        r := None;
      }
    }

    /** One audit entry for an event, inside whatever transaction the caller is in. */
    method Append(e: Event, actor: string) returns (ok: bool)
      modifies audit`log, clock
      ensures old(clock.now) <= clock.now
      ensures ok <==> ValidName(actor)
      ensures !ok ==> audit.log == old(audit.log)
      ensures ok ==>
        audit.log == old(audit.log) + [Seal(audit.crypto, old(audit.log), EventType(e), actor, EventPayload(e),
          clock.now)]
      ensures ok ==>
        var r := audit.log[|old(audit.log)|];
        r.actor == actor && EventIn(r) == Some(e) && EntryEffect(r) == EventEffect(e, actor)
      ensures old(WellLinked(audit.crypto, audit.log)) ==> WellLinked(audit.crypto, audit.log)
    {
      hide EffectOf, EventOf, EventEffect, EventPayload, EventType, WellLinked, Material;
      EventTypeNamed(e);
      var now := clock.Read();
      var r := audit.Append(EventType(e), actor, EventPayload(e), now);
      ok := r.Ok?;
      EffectReadsBack(e, actor);
      EventReadsBack(e);
    }
  }
}
