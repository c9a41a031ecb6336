/** A commit publishes exactly what its entries say, so it keeps the invariant. */
module ProtocolCommit {
  import opened Wrappers
  import opened Schemas
  import opened Governor
  import opened AuditChain
  import opened Events
  import opened Replay
  import opened Protocol
  import opened ProtocolInvariant
  import opened ProtocolStability
  import opened ProtocolSteps

  /** `t` is `s` with the transaction's row and entries made visible. */
  ghost predicate Publishes(s: State, t: State, tx: Tx)
  {
    && t.clock == s.clock && t.published == s.published && t.log == s.log + tx.entries
    && match tx.write
       case NoWrite => t.budgets == s.budgets && t.hitls == s.hitls
       case PutOther(_) => t.budgets == s.budgets && t.hitls == s.hitls
       case PutBudget(k, row) => t.budgets == s.budgets[k := row] && t.hitls == s.hitls
       case PutHitl(id, row) => t.budgets == s.budgets && t.hitls == s.hitls[id := row]
  }

  /** The entries are the whole explanation of the row. */
  ghost predicate Explained(env: Env, s: State, tx: Tx)
  {
    Explains(env, s, tx, Significant(Effects(tx.entries)))
  }

  lemma CommitExplained(env: Env, s: State, p: Proc)
    requires TxOk(env, s, p) && p.pc.Committing?
    ensures Explained(env, s, p.tx)
    ensures p.tx.entries != [] ==> WellLinked(env.crypto, s.log + p.tx.entries)
  {
    assert Owed(p.pc) == [];
    assert Effects(p.tx.entries) + [] == Effects(p.tx.entries);
  }

  lemma CommitPublishes(s: State, pid: nat, next: Pc)
    requires pid in s.procs
    ensures var t := CommitTx(s, pid, next);
      && Publishes(s, t, s.procs[pid].tx)
      && t.procs == s.procs[pid := Proc(next, NO_TX)]
      && t.history == s.history + [Committed(pid, s.procs[pid].tx.entries)]
  {
  }

  lemma RowsEvolve(env: Env, s: State, t: State, tx: Tx)
    requires Publishes(s, t, tx) && Explained(env, s, tx)
    ensures forall id | id in s.hitls ::
      id in t.hitls && t.hitls[id].key == s.hitls[id].key && t.hitls[id].expiresAt == s.hitls[id].expiresAt
    ensures forall id | id in s.hitls && Terminal(s.hitls[id].status) :: t.hitls[id] == s.hitls[id]
    ensures forall k | k in s.budgets :: k in t.budgets
  {
  }

  lemma CommitEvolves(env: Env, s: State, t: State, tx: Tx)
    requires Publishes(s, t, tx) && Explained(env, s, tx)
    requires s.history <= t.history
    ensures Evolves(s, t)
  {
    RowsEvolve(env, s, t, tx);
  }

  lemma CommitProtects(env: Env, s: State, t: State, tx: Tx, other: Tx)
    requires Publishes(s, t, tx) && Explained(env, s, tx) && (tx.write != NoWrite ==> tx.entries != [])
    requires tx.held !! other.held && (tx.entries == [] || other.entries == [])
    requires forall r | r in other.held :: r.HitlRow? ==> r.id in s.hitls
    ensures Protected(s, t, other)
  {
    assert tx.entries == [] ==> s.log + tx.entries == s.log;
    match tx.write
    case PutBudget(k, row) => assert BudgetSlot(k) !in other.held;
    case PutHitl(id, row) => assert HitlRow(id) !in other.held;
    case _ =>
  }

  lemma ReplaysBudget(s: State, t: State, k: BudgetKey, row: Budget, e: Effect)
    requires t.budgets == s.budgets[k := row] && t.hitls == s.hitls
    requires (e.SetLimit? || e.Charge?) && e.k == k && ApplyBudget(Find(s.budgets, k), e) == Some(row)
    ensures Apply(View(s), e) == View(t)
  {
    assert View(t).hitls == View(s).hitls;
  }

  lemma ReplaysHitl(s: State, t: State, id: string, row: Hitl, e: Effect)
    requires t.hitls == s.hitls[id := row] && t.budgets == s.budgets
    requires (e.OpenHitl? || e.CloseHitl? || e.ExpireHitl?) && e.id == id
      && ApplyHitl(FindView(s, id), e) == Some(ViewOf(row))
    ensures Apply(View(s), e) == View(t)
  {
    assert Find(View(s).hitls, id) == FindView(s, id);
    assert View(t).hitls == View(s).hitls[id := ViewOf(row)];
  }

  /** The tables after the commit are the replay of the log after the commit. */
  lemma CommitReplays(env: Env, s: State, t: State, tx: Tx)
    requires Publishes(s, t, tx) && Explained(env, s, tx) && Replayed(s.log) == View(s)
    ensures Replayed(t.log) == View(t)
  {
    ReplayOne(s.log, tx.entries);
    var es := Significant(Effects(tx.entries));
    match tx.write
    case PutBudget(k, row) => ReplaysBudget(s, t, k, row, es[0]);
    case PutHitl(id, row) => ReplaysHitl(s, t, id, row, es[0]);
    case _ =>
  }

  lemma CommitLedger(env: Env, s: State, t: State, tx: Tx)
    requires Publishes(s, t, tx) && Explained(env, s, tx) && LedgerOk(s)
    ensures LedgerOk(t)
  {
    ReplayOne(s.log, tx.entries);
    forall k: BudgetKey ensures ChargedTo(t.log, k) == ConsumedOf(Find(t.budgets, k)) {
      assert ChargedTo(s.log, k) == ConsumedOf(Find(s.budgets, k));
    }
  }

  lemma CommitApprovals(env: Env, s: State, t: State, tx: Tx)
    requires Publishes(s, t, tx) && Explained(env, s, tx) && ApprovalsOk(env, s)
    ensures ApprovalsOk(env, t)
  {
    if tx.write.PutHitl? {
      var id, row := tx.write.id, tx.write.hitl;
      forall a | a in s.hitls && a != id ensures s.hitls[a].key != row.key {
        assert id !in s.hitls ==> !KeyTaken(s, row.key);
      }
    }
  }

  lemma CommitHistory(s: State, t: State, pid: nat, es: seq<AuditLog>)
    requires HistoryOk(s) && Evolves(s, t) && t.log == s.log + es
    requires t.history == s.history + [Committed(pid, es)]
    requires pid in t.procs && forall q | q in s.procs :: q in t.procs
    requires AllEarned(s.history, pid, es)
    ensures HistoryOk(t)
  {
    OutcomesSnoc(s.history, Committed(pid, es), pid);
    forall n | 0 <= n < |t.history| ensures HappeningOk(t, n) {
      if n < |s.history| {
        HappeningStable(s, t, n);
      } else {
        assert t.history[..n] == s.history;
      }
    }
  }

  lemma CommitGlobal(env: Env, s: State, t: State, pid: nat, tx: Tx)
    requires Global(env, s) && Publishes(s, t, tx) && Explained(env, s, tx)
    requires tx.entries != [] ==> WellLinked(env.crypto, s.log + tx.entries)
    requires t.history == s.history + [Committed(pid, tx.entries)]
    requires pid in t.procs && forall q | q in s.procs :: q in t.procs
    requires AllEarned(s.history, pid, tx.entries)
    ensures Global(env, t)
  {
    CommitEvolves(env, s, t, tx);
    CommitReplays(env, s, t, tx);
    CommitLedger(env, s, t, tx);
    CommitApprovals(env, s, t, tx);
    CommitHistory(s, t, pid, tx.entries);
    assert tx.entries == [] ==> s.log + tx.entries == s.log;
  }

  lemma CommittedHere(history: seq<Happening>, pid: nat, es: seq<AuditLog>, intent: Intent, d: PolicyDecision)
    requires es != [] && IsEvaluated(es[0], intent, d) && Committed(pid, es) in history
    ensures EngineSaid(history, pid, intent, d.outcome)
  {
    assert es[0] in es;
    assert EvaluatedIn(history, pid, intent, d);
  }

  lemma AnsweredPc(env: Env, s: State, t: State, pid: nat, tx: Tx, next: Pc)
    requires next.Answered? && NextOk(s, pid, tx, next) && Evolves(s, t)
    requires Committed(pid, tx.entries) in t.history
    ensures PcOk(env, t, pid, NO_TX, next)
  {
    hide EngineSaid, GrantedIn, IsEvaluated, Evolves, AllEarned;
    if next.d.outcome == Allow {
      CommittedHere(t.history, pid, tx.entries, next.j.intent, next.d);
      PastStable(s, t, pid, next.j.intent);
    }
  }

  lemma SubscribePc(env: Env, s: State, t: State, pid: nat, tx: Tx, next: Pc)
    requires next.Subscribe? && NextOk(s, pid, tx, next) && Publishes(s, t, tx)
    requires Committed(pid, tx.entries) in t.history
    ensures PcOk(env, t, pid, NO_TX, next)
  {
    hide EngineSaid, IsEvaluated, AllEarned;
    var d: PolicyDecision :| d.outcome == RequireApproval && tx.entries != []
      && IsEvaluated(tx.entries[0], next.j.intent, d);
    CommittedHere(t.history, pid, tx.entries, next.j.intent, d);
  }

  /** What the program relied on inside the transaction has become part of its past. */
  lemma NextPc(env: Env, s: State, t: State, pid: nat, tx: Tx, next: Pc)
    requires NextOk(s, pid, tx, next) && Publishes(s, t, tx) && Evolves(s, t)
    requires Committed(pid, tx.entries) in t.history
    ensures PcOk(env, t, pid, NO_TX, next) && Owed(next) == []
  {
    hide EngineSaid, IsEvaluated, AllEarned, EvaluatedHere, GrantedIn, Authorized;
    if next.Answered? {
      AnsweredPc(env, s, t, pid, tx, next);
    } else if next.Subscribe? {
      SubscribePc(env, s, t, pid, tx, next);
    }
  }

  lemma OwnLocal(env: Env, s: State, t: State, pid: nat, tx: Tx, next: Pc)
    requires NextOk(s, pid, tx, next) && Publishes(s, t, tx) && Evolves(s, t)
    requires t.history == s.history + [Committed(pid, tx.entries)] && Outcomes(s.history, pid) == 0
    ensures Local(env, t, pid, Proc(next, NO_TX))
  {
    assert Committed(pid, tx.entries) in t.history;
    NextPc(env, s, t, pid, tx, next);
    IdleTx(env, t, next);
    OutcomesSnoc(s.history, Committed(pid, tx.entries), pid);
  }

  lemma OtherLocal(env: Env, s: State, t: State, pid: nat, tx: Tx, q: nat, p: Proc)
    requires Local(env, s, q, p) && Publishes(s, t, tx) && Explained(env, s, tx)
      && (tx.write != NoWrite ==> tx.entries != [])
    requires tx.held !! p.tx.held && (tx.entries == [] || p.tx.entries == [])
    requires t.history == s.history + [Committed(pid, tx.entries)] && q != pid
    ensures Local(env, t, q, p)
  {
    OutcomesSnoc(s.history, Committed(pid, tx.entries), q);
    CommitEvolves(env, s, t, tx);
    CommitProtects(env, s, t, tx, p.tx);
    LocalStable(env, s, t, q, p);
  }

  lemma CommitLocals(env: Env, s: State, t: State, pid: nat, tx: Tx, next: Pc)
    requires Locals(env, s) && Exclusive(s.procs) && pid in s.procs && s.procs[pid].tx == tx
    requires Publishes(s, t, tx) && Explained(env, s, tx) && NextOk(s, pid, tx, next)
    requires t.procs == s.procs[pid := Proc(next, NO_TX)]
    requires t.history == s.history + [Committed(pid, tx.entries)] && Outcomes(s.history, pid) == 0
    ensures Locals(env, t)
  {
    forall q | q in t.procs ensures Local(env, t, q, t.procs[q]) {
      if q != pid {
        OtherLocal(env, s, t, pid, tx, q, s.procs[q]);
      } else {
        CommitEvolves(env, s, t, tx);
        OwnLocal(env, s, t, pid, tx, next);
      }
    }
  }

  lemma CommitExclusive(procs: map<nat, Proc>, pid: nat, next: Pc)
    requires Exclusive(procs)
    ensures Exclusive(procs[pid := Proc(next, NO_TX)])
  {
  }

  lemma CommitStep(env: Env, s: State, t: State, pid: nat, tx: Tx, next: Pc)
    requires Inv(env, s) && pid in s.procs && s.procs[pid].tx == tx
    requires Publishes(s, t, tx) && Explained(env, s, tx) && NextOk(s, pid, tx, next)
    requires tx.entries != [] ==> WellLinked(env.crypto, s.log + tx.entries)
    requires t.procs == s.procs[pid := Proc(next, NO_TX)]
    requires t.history == s.history + [Committed(pid, tx.entries)] && Outcomes(s.history, pid) == 0
    ensures Inv(env, t)
  {
    hide Global, Locals, Exclusive, Publishes, Explained, WellLinked;
    assert AllEarned(s.history, pid, tx.entries);
    CommitGlobal(env, s, t, pid, tx);
    CommitLocals(env, s, t, pid, tx, next);
    CommitExclusive(s.procs, pid, next);
  }

  lemma CommitKnown(env: Env, s: State, pid: nat, next: Pc)
    requires Known(env, s, pid) && s.procs[pid].pc == Committing(next)
    ensures NextOk(s, pid, s.procs[pid].tx, next) && TxOk(env, s, s.procs[pid])
  {
    hide PcOk, NextOk, TxOk;
    CommittingPcMeans(env, s, pid, s.procs[pid].tx, next);
  }

  lemma CommitKeeps(env: Env, s: State, pid: nat, next: Pc)
    requires Inv(env, s) && pid in s.procs && s.procs[pid].pc == Committing(next)
    ensures Inv(env, CommitTx(s, pid, next))
  {
    hide Inv, TxOk, NextOk, Publishes, Explained, WellLinked;
    KnownHere(env, s, pid);
    CommitKnown(env, s, pid, next);
    CommitExplained(env, s, s.procs[pid]);
    CommitPublishes(s, pid, next);
    CommitStep(env, s, CommitTx(s, pid, next), pid, s.procs[pid].tx, next);
  }
}
