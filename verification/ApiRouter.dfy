/** The two API calls that write budgets and approvals besides the interceptor. */
module ApiRouter {
  import opened Wrappers
  import opened Schemas
  import opened Governor
  import opened AuditChain
  import opened Events
  import opened Replay
  import opened Protocol
  import opened ProtocolInvariant
  import opened Services

  datatype HttpError = NotFound | AlreadyDecided | TooLate | LimitTooLow | AuditRefused

  lemma RowResolved(
      env: Env, rows: map<string, Hitl>, now: int, id: string, approved: bool, comment: Option<string>, actor: string)
    requires RowsOk(env, rows, now) && id in rows && rows[id].status == Pending && now < rows[id].expiresAt
    ensures RowsOk(env, rows[id := Resolved(rows[id], approved, comment, actor, now)], now)
  {
    var row := Resolved(rows[id], approved, comment, actor, now);
    assert RowOk(env, now, rows[id]);
    RowChanged(env, rows, now, id, row);
  }

  class Router {
    const store: Store
    const governor: TokenBucketGovernor

    constructor (store: Store, governor: TokenBucketGovernor)
      ensures this.store == store && this.governor == governor
    {
      this.store, this.governor := store, governor;
    }

    /** The cell is reset before the entry is appended, and a refused entry does not take that back. */
    method UpsertBudget(k: BudgetKey, limit: int, actor: string) returns (r: Result<Budget, HttpError>)
      requires store.Valid() && governor.redis == store.redis && limit > 0
      modifies store`budgets, store.audit`log, store.redis, store.clock
      ensures store.Valid()
      ensures r.Err? ==> r.error in {NotFound, LimitTooLow, AuditRefused}
      ensures r == Err(NotFound) <==> k.agent !in store.agents
      ensures r == Err(LimitTooLow) <==> k.agent in store.agents && Upsert(Find(old(store.budgets), k), limit).None?
      ensures r == Err(AuditRefused) <==>
        k.agent in store.agents && Upsert(Find(old(store.budgets), k), limit).Some? && !ValidName(actor)
      ensures r.Ok? ==>
        && Upsert(Find(old(store.budgets), k), limit) == Some(r.value)
        && store.budgets == old(store.budgets)[k := r.value]
        && store.audit.log ==
          old(store.audit.log) + [Seal(store.audit.crypto, old(store.audit.log), "budget_updated", actor,
             EventPayload(BudgetUpdated(k.agent, k.currency, limit)), store.clock.now)]
        && EventIn(store.audit.log[|old(store.audit.log)|]) == Some(BudgetUpdated(k.agent, k.currency, limit))
        && store.audit.log[|old(store.audit.log)|].actor == actor
      ensures r.Err? ==> store.budgets == old(store.budgets) && store.audit.log == old(store.audit.log)
      ensures r.Ok? || r == Err(AuditRefused) ==>
        store.redis.cells == old(store.redis.cells)[k := Room(Upsert(Find(old(store.budgets), k), limit).value)]
      ensures r == Err(NotFound) || r == Err(LimitTooLow) ==> store.redis.cells == old(store.redis.cells)
      ensures r.Ok? && old(Coherent(store.budgets, store.redis.cells)) ==> Coherent(store.budgets, store.redis.cells)
      ensures r == Err(AuditRefused) && old(Coherent(store.budgets, store.redis.cells)) ==>
        (Coherent(store.budgets, store.redis.cells) <==> k in store.budgets && store.budgets[k].limit == limit)
    {
      hide WellLinked, Seal, EventOf, EventPayload, EventEffect, EntryEffect, RowsOk;
      if k.agent !in store.agents {
        return Err(NotFound);
      }
      var row := store.Load(k);
      if row == null {
        row := new BudgetRow(Budget(limit, 0, 1, true));
      } else {
        if limit < row.consumed {
          return Err(LimitTooLow);
        }
        row.limit := limit;
        row.version := row.version + 1;
      }
      var reset := governor.Reset(k, row.limit - row.consumed);
      assert reset.Ok?;
      ghost var before := store.clock.now;
      var ok := store.Append(BudgetUpdated(k.agent, k.currency, limit), actor);
      RowsLater(store.Environment(), store.hitls, before, store.clock.now);
      if !ok {
        return Err(AuditRefused);
      }
      store.budgets := store.budgets[k := row.Value()];
      r := Ok(row.Value());
    }

    /** A resolution that comes too late marks the row expired, and the raise takes the mark back. */
    method ResolveHitl(id: string, approved: bool, comment: Option<string>, actor: string)
      returns (r: Result<Hitl, HttpError>, ghost now: int)
      requires store.Valid()
      modifies store`hitls, store`published, store.audit`log, store.clock
      ensures store.Valid()
      ensures old(store.clock.now) <= now <= store.clock.now
      ensures r.Err? ==> r.error in {NotFound, AlreadyDecided, TooLate, AuditRefused}
      ensures r == Err(NotFound) <==> id !in old(store.hitls)
      ensures r == Err(AlreadyDecided) <==> id in old(store.hitls) && old(store.hitls)[id].status != Pending
      ensures r == Err(TooLate) <==>
        id in old(store.hitls) && old(store.hitls)[id].status == Pending && old(store.hitls)[id].expiresAt <= now
      ensures r == Err(AuditRefused) <==>
        && id in old(store.hitls) && old(store.hitls)[id].status == Pending && now < old(store.hitls)[id].expiresAt
        && !ValidName(actor)
      ensures r.Ok? ==>
        && r.value == old(store.hitls)[id].(status := if approved then Approved else Rejected, reviewer := Some(actor),
             comment := comment, resolvedAt := Some(now))
        && store.hitls == old(store.hitls)[id := r.value]
        && store.published == old(store.published) + {id}
        && |store.audit.log| == |old(store.audit.log)| + 1 && old(store.audit.log) <= store.audit.log
        && EntryEffect(store.audit.log[|old(store.audit.log)|]) == CloseHitl(id, approved, actor, comment)
        && EventIn(store.audit.log[|old(store.audit.log)|]) == Some(HitlResolved(id, approved, comment))
        && store.audit.log[|old(store.audit.log)|].actor == actor
      ensures r.Err? ==>
        && store.hitls == old(store.hitls) && store.audit.log == old(store.audit.log)
        && store.published == old(store.published)
    {
      hide WellLinked, Seal, EventOf, EventPayload, EventType, EntryEffect, RowsOk, RowOk;
      ghost var env := store.Environment();
      var started := store.clock.Read();
      now := started;
      RowsLater(env, store.hitls, old(store.clock.now), now);
      if id !in store.hitls {
        return Err(NotFound), now;
      }
      var saved := store.hitls;
      var row := store.hitls[id];
      if row.status != Pending {
        return Err(AlreadyDecided), now;
      }
      if row.expiresAt <= started {
        store.hitls := store.hitls[id := ExpiredAt(row, started)];
        store.hitls := saved;
        return Err(TooLate), now;
      }
      store.hitls := store.hitls[id := Resolved(row, approved, comment, actor, started)];
      RowResolved(env, saved, started, id, approved, comment, actor);
      var ok := store.Append(HitlResolved(id, approved, comment), actor);
      RowsLater(env, saved, started, store.clock.now);
      RowsLater(env, store.hitls, started, store.clock.now);
      if !ok {
        store.hitls := saved;
        return Err(AuditRefused), now;
      }
      store.published := store.published + {id};
      r := Ok(store.hitls[id]);
    }
  }
}
