/** The ledger and approval tables as a fold over the audit log. */
module Replay {
  import opened Wrappers
  import opened Schemas
  import opened Governor
  import opened AuditChain
  import opened Events

  function Find<K, V>(m: map<K, V>, k: K): Option<V> { if k in m then Some(m[k]) else None }

  function ApplyBudget(b: Option<Budget>, e: Effect): Option<Budget>
  {
    match e
    case SetLimit(_, limit) => (match Upsert(b, limit) case Some(row) => Some(row) case None => b)
    case Charge(_, amount) => (match Commit(b, amount) case Ok(row) => Some(row) case Err(_) => b)
    case _ => b
  }

  function ApplyHitl(h: Option<HitlView>, e: Effect): Option<HitlView>
  {
    match e
    case OpenHitl(_, key, agent) => Some(HitlView(key, agent, Pending, None, None))
    case CloseHitl(_, approved, reviewer, comment) =>
      if h.None? then None
      else
        var status := if approved then Approved else Rejected;
        Some(h.value.(status := status, reviewer := Some(reviewer), comment := comment))
    case ExpireHitl(_) => if h.None? then None else Some(h.value.(status := Expired))
    case _ => h
  }

  function Put<K, V>(m: map<K, V>, k: K, v: Option<V>): map<K, V> { if v.Some? then m[k := v.value] else m }

  function Apply(t: Tables, e: Effect): Tables
  {
    match e
    case NoEffect => t
    case SetLimit(k, _) => t.(budgets := Put(t.budgets, k, ApplyBudget(Find(t.budgets, k), e)))
    case Charge(k, _) => t.(budgets := Put(t.budgets, k, ApplyBudget(Find(t.budgets, k), e)))
    case OpenHitl(id, _, _) => t.(hitls := Put(t.hitls, id, ApplyHitl(Find(t.hitls, id), e)))
    case CloseHitl(id, _, _, _) => t.(hitls := Put(t.hitls, id, ApplyHitl(Find(t.hitls, id), e)))
    case ExpireHitl(id) => t.(hitls := Put(t.hitls, id, ApplyHitl(Find(t.hitls, id), e)))
  }

  function Empty(): Tables { Tables(map[], map[]) }

  function Replayed(log: seq<AuditLog>): Tables
  {
    if log == [] then Empty() else Apply(Replayed(log[..|log| - 1]), EntryEffect(log[|log| - 1]))
  }

  function ChargeOf(e: Effect, k: BudgetKey): int
  {
    match e case Charge(c, amount) => if c == k then amount else 0 case _ => 0
  }

  /** The amounts that completed executions charged to one budget. */
  function ChargedTo(log: seq<AuditLog>, k: BudgetKey): int
  {
    if log == [] then 0
    else
      ChargedTo(log[..|log| - 1], k) + ChargeOf(EntryEffect(log[|log| - 1]), k)
  }

  // ---------------------------------------------------------------------------------------------
  // A transaction's entries act through at most one of their effects.
  // ---------------------------------------------------------------------------------------------

  function Effects(log: seq<AuditLog>): (r: seq<Effect>)
    ensures |r| == |log|
  {
    if log == [] then [] else Effects(log[..|log| - 1]) + [EntryEffect(log[|log| - 1])]
  }

  function Significant(es: seq<Effect>): seq<Effect>
  {
    if es == [] then []
    else Significant(es[..|es| - 1]) + (if es[|es| - 1].NoEffect? then [] else [es[|es| - 1]])
  }

  function ApplyAll(t: Tables, es: seq<Effect>): Tables
  {
    if es == [] then t else Apply(ApplyAll(t, es[..|es| - 1]), es[|es| - 1])
  }

  function ChargeSum(es: seq<Effect>, k: BudgetKey): int
  {
    if es == [] then 0 else ChargeSum(es[..|es| - 1], k) + ChargeOf(es[|es| - 1], k)
  }

  lemma {:induction false} ReplayedAppend(log: seq<AuditLog>, more: seq<AuditLog>)
    ensures Replayed(log + more) == ApplyAll(Replayed(log), Effects(more))
    ensures forall k :: ChargedTo(log + more, k) == ChargedTo(log, k) + ChargeSum(Effects(more), k)
  {
    if more == [] {
      assert log + more == log;
    } else {
      var n := |more| - 1;
      ReplayedAppend(log, more[..n]);
      assert (log + more)[..|log + more| - 1] == log + more[..n];
      assert Effects(more)[..n] == Effects(more[..n]);
    }
  }

  lemma {:induction false} SignificantSuffices(t: Tables, es: seq<Effect>)
    ensures ApplyAll(t, es) == ApplyAll(t, Significant(es))
    ensures forall k :: ChargeSum(es, k) == ChargeSum(Significant(es), k)
  {
    if es != [] {
      var n := |es| - 1;
      SignificantSuffices(t, es[..n]);
      var kept := Significant(es[..n]);
      if !es[n].NoEffect? {
        assert (kept + [es[n]])[..|kept|] == kept;
      } else {
        assert kept + [] == kept;
      }
    }
  }

  lemma SignificantSnoc(es: seq<Effect>, e: Effect)
    ensures Significant(es + [e]) == Significant(es) + (if e.NoEffect? then [] else [e])
  {
    assert (es + [e])[..|es|] == es;
  }

  lemma EffectsSnoc(log: seq<AuditLog>, r: AuditLog)
    ensures Effects(log + [r]) == Effects(log) + [EntryEffect(r)]
  {
    assert (log + [r])[..|log|] == log;
  }

  /** A log extended by entries with one significant effect replays to that effect. */
  lemma ReplayOne(log: seq<AuditLog>, more: seq<AuditLog>)
    ensures Significant(Effects(more)) == [] ==>
      Replayed(log + more) == Replayed(log) && forall k :: ChargedTo(log + more, k) == ChargedTo(log, k)
    ensures |Significant(Effects(more))| == 1 ==>
      var e := Significant(Effects(more))[0];
      && Replayed(log + more) == Apply(Replayed(log), e)
      && forall k :: ChargedTo(log + more, k) == ChargedTo(log, k) + ChargeOf(e, k)
  {
    ReplayedAppend(log, more);
    SignificantSuffices(Replayed(log), Effects(more));
    var es := Significant(Effects(more));
    if |es| == 1 {
      assert es[..0] == [];
      assert ApplyAll(Replayed(log), es) == Apply(ApplyAll(Replayed(log), es[..0]), es[0]);
      assert forall k :: ChargeSum(es, k) == ChargeSum(es[..0], k) + ChargeOf(es[0], k);
    }
  }
}
