/** Why the steps of one run cannot invalidate what another run knows. */
module ProtocolStability {
  import opened Schemas
  import opened AuditChain
  import opened Replay
  import opened Protocol
  import opened ProtocolInvariant

  /** What only ever grows: time, log, rows, terminal statuses and history. */
  predicate Evolves(s: State, t: State)
  {
    && s.clock <= t.clock
    && |s.log| <= |t.log| && t.log[..|s.log|] == s.log
    && (forall id | id in s.hitls ::
      id in t.hitls && t.hitls[id].key == s.hitls[id].key && t.hitls[id].expiresAt == s.hitls[id].expiresAt)
    && (forall id | id in s.hitls && Terminal(s.hitls[id].status) :: t.hitls[id] == s.hitls[id])
    && (forall k | k in s.budgets :: k in t.budgets)
    && (forall h | h in s.history :: h in t.history)
  }

  /** What a transaction's locks and its place in the log keep others from changing. */
  ghost predicate Protected(s: State, t: State, tx: Tx)
  {
    && (forall k | BudgetSlot(k) in tx.held :: Find(t.budgets, k) == Find(s.budgets, k))
    && (forall id | HitlRow(id) in tx.held :: Find(t.hitls, id) == Find(s.hitls, id))
    && (tx.entries != [] ==> t.log == s.log && t.hitls == s.hitls)
  }

  lemma TxStable(env: Env, s: State, t: State, p: Proc)
    requires TxOk(env, s, p) && Evolves(s, t) && Protected(s, t, p.tx)
    ensures TxOk(env, t, p)
  {
    if !p.pc.RaiseConflict? {
      match p.tx.write
      case PutHitl(id, row) =>
        if id in s.hitls {
          assert Find(t.hitls, id) == Find(s.hitls, id);
        } else {
          assert HitlKey(row.key) in p.tx.held;
        }
        assert FindView(t, id) == FindView(s, id);
      case _ =>
    }
  }

  lemma PastStable(s: State, t: State, pid: nat, intent: Intent)
    requires Evolves(s, t)
    ensures forall o | EngineSaid(s.history, pid, intent, o) :: EngineSaid(t.history, pid, intent, o)
    ensures GrantedIn(s.history, pid, intent) ==> GrantedIn(t.history, pid, intent)
  {
    forall o | EngineSaid(s.history, pid, intent, o) ensures EngineSaid(t.history, pid, intent, o) {
      var d: PolicyDecision :| d.outcome == o && EvaluatedIn(s.history, pid, intent, d);
      assert EvaluatedIn(t.history, pid, intent, d);
    }
  }

  lemma AuthorizedStable(s: State, t: State, pid: nat, j: Job)
    requires Evolves(s, t) && Authorized(s.history, s.hitls, pid, j)
    ensures Authorized(t.history, t.hitls, pid, j)
  {
    PastStable(s, t, pid, j.intent);
  }

  lemma ViaStable(s: State, t: State, j: Job)
    requires ViaOk(s, j) && Evolves(s, t)
    ensures ViaOk(t, j)
  {
  }

  lemma OperatedStable(s: State, t: State, pid: nat)
    requires Evolves(s, t)
    ensures forall intent, raised :: OperatedIn(s.history, pid, intent, raised) ==>
      OperatedIn(t.history, pid, intent, raised)
  {
  }

  lemma EarnedStable(s: State, t: State, pid: nat, es: seq<AuditLog>)
    requires Evolves(s, t) && AllEarned(s.history, pid, es)
    ensures AllEarned(t.history, pid, es)
  {
    forall r | r in es ensures Earned(t.history, pid, r) {
      assert Earned(s.history, pid, r);
    }
  }

  lemma PurposeStable(s: State, t: State, pid: nat, tx: Tx, w: Purpose)
    requires PurposeOk(s, pid, tx, w) && Evolves(s, t)
    ensures PurposeOk(t, pid, tx, w)
  {
    hide OperatedIn, ViaOk;
    OperatedStable(s, t, pid);
    if w.ForCompletion? || w.ForFailure? {
      ViaStable(s, t, w.j);
    }
  }

  lemma NextStable(s: State, t: State, pid: nat, tx: Tx, next: Pc)
    requires NextOk(s, pid, tx, next) && Evolves(s, t)
    ensures NextOk(t, pid, tx, next)
  {
    hide AllEarned;
    EarnedStable(s, t, pid, tx.entries);
  }

  lemma FitsStable(env: Env, s: State, t: State, tx: Tx, r: AuditLog)
    requires Fits(env, s, tx, r) && Evolves(s, t) && Protected(s, t, tx)
    ensures Fits(env, t, tx, r)
  {
    if tx.entries == [] {
      assert t.log[..r.sequence - 1] == s.log[..r.sequence - 1] by {
        assert t.log[..|s.log|][..r.sequence - 1] == t.log[..r.sequence - 1];
      }
    }
  }

  lemma WaiterStable(s: State, t: State, pid: nat, j: Job, id: string)
    requires WaiterOk(s, pid, j, id) && Evolves(s, t)
    ensures WaiterOk(t, pid, j, id)
  {
    PastStable(s, t, pid, j.intent);
  }

  /** The points of the waiter, before it has answered. */
  predicate WaiterPc(pc: Pc)
  {
    pc.Subscribe? || pc.Waiting? || pc.ReadStatus? || pc.Resolving? || pc.ApprovedReserve? || pc.ExpireLock?
  }

  lemma RowStable(s: State, t: State, id: string)
    requires Evolves(s, t) && id in s.hitls
    ensures id in t.hitls && t.hitls[id].key == s.hitls[id].key && t.hitls[id].expiresAt == s.hitls[id].expiresAt
    ensures Terminal(s.hitls[id].status) ==> t.hitls[id] == s.hitls[id]
    ensures s.clock <= t.clock
  {
  }

  lemma WaiterPcStable(env: Env, s: State, t: State, pid: nat, tx: Tx, pc: Pc)
    requires WaiterPc(pc) && PcOk(env, s, pid, tx, pc) && Evolves(s, t)
    ensures PcOk(env, t, pid, tx, pc)
  {
    hide EngineSaid, ValidIntent, Paid, Evolves;
    WaiterStable(s, t, pid, pc.j, pc.id);
    RowStable(s, t, pc.id);
  }

  predicate ExecutePc(pc: Pc)
  {
    pc.Answered? || pc.Operating? || pc.CommitLock? || pc.CommitCharge? || pc.FailRead? || pc.FailRelease?
  }

  lemma BudgetsStable(s: State, t: State)
    requires Evolves(s, t)
    ensures forall k | k in s.budgets :: k in t.budgets
  {
  }

  lemma AnsweredStable(env: Env, s: State, t: State, pid: nat, tx: Tx, pc: Pc)
    requires (pc.Answered? || pc.Operating?) && PcOk(env, s, pid, tx, pc) && Evolves(s, t)
    ensures PcOk(env, t, pid, tx, pc)
  {
    hide Authorized, ViaOk, Evolves;
    ViaStable(s, t, pc.j);
    if Authorized(s.history, s.hitls, pid, pc.j) {
      AuthorizedStable(s, t, pid, pc.j);
    }
  }

  lemma RecordingStable(env: Env, s: State, t: State, pid: nat, tx: Tx, pc: Pc)
    requires ExecutePc(pc) && !pc.Answered? && !pc.Operating? && PcOk(env, s, pid, tx, pc) && Evolves(s, t)
    ensures PcOk(env, t, pid, tx, pc)
  {
    hide OperatedIn, ViaOk, Evolves;
    OperatedStable(s, t, pid);
    ViaStable(s, t, pc.j);
    BudgetsStable(s, t);
  }

  lemma ExecutePcStable(env: Env, s: State, t: State, pid: nat, tx: Tx, pc: Pc)
    requires ExecutePc(pc) && PcOk(env, s, pid, tx, pc) && Evolves(s, t)
    ensures PcOk(env, t, pid, tx, pc)
  {
    hide PcOk, Evolves;
    if pc.Answered? || pc.Operating? {
      AnsweredStable(env, s, t, pid, tx, pc);
    } else {
      RecordingStable(env, s, t, pid, tx, pc);
    }
  }

  /** The points inside a transaction that has something to append or to commit. */
  predicate ClosingPc(pc: Pc) { pc.ResetCell? || pc.Appending? || pc.Inserting? || pc.Committing? }

  /** What `PcOk` asks at each of them. */
  lemma ClosingPcMeans(env: Env, s: State, pid: nat, tx: Tx, w: Purpose)
    ensures PcOk(env, s, pid, tx, Appending(w)) <==> PurposeOk(s, pid, tx, w)
    ensures forall r :: PcOk(env, s, pid, tx, Inserting(w, r)) <==>
      PurposeOk(s, pid, tx, w) && Fits(env, s, tx, r) && RecordOf(w, r)
    ensures forall k, v :: PcOk(env, s, pid, tx, ResetCell(k, v, w)) <==> PurposeOk(s, pid, tx, w)
  {
    hide PurposeOk, Fits, RecordOf;
  }

  lemma CommittingPcMeans(env: Env, s: State, pid: nat, tx: Tx, next: Pc)
    ensures PcOk(env, s, pid, tx, Committing(next)) <==> NextOk(s, pid, tx, next)
  {
    hide NextOk;
  }

  lemma ClosingPcStable(env: Env, s: State, t: State, pid: nat, tx: Tx, pc: Pc)
    requires ClosingPc(pc) && PcOk(env, s, pid, tx, pc) && Evolves(s, t) && Protected(s, t, tx)
    ensures PcOk(env, t, pid, tx, pc)
  {
    hide PcOk, Evolves, Protected, PurposeOk, NextOk, Fits, RecordOf;
    if pc.Committing? {
      CommittingPcMeans(env, s, pid, tx, pc.next);
      CommittingPcMeans(env, t, pid, tx, pc.next);
      NextStable(s, t, pid, tx, pc.next);
    } else {
      ClosingPcMeans(env, s, pid, tx, pc.w);
      ClosingPcMeans(env, t, pid, tx, pc.w);
      PurposeStable(s, t, pid, tx, pc.w);
      if pc.Inserting? {
        FitsStable(env, s, t, tx, pc.record);
      }
    }
  }

  lemma OtherPcStable(env: Env, s: State, t: State, pid: nat, tx: Tx, pc: Pc)
    requires !WaiterPc(pc) && !ExecutePc(pc) && !ClosingPc(pc)
    requires PcOk(env, s, pid, tx, pc) && Evolves(s, t) && Protected(s, t, tx)
    ensures PcOk(env, t, pid, tx, pc)
  {
  }

  lemma PcStable(env: Env, s: State, t: State, pid: nat, tx: Tx, pc: Pc)
    requires PcOk(env, s, pid, tx, pc) && Evolves(s, t) && Protected(s, t, tx)
    ensures PcOk(env, t, pid, tx, pc)
  {
    hide PcOk;
    if WaiterPc(pc) {
      WaiterPcStable(env, s, t, pid, tx, pc);
    } else if ExecutePc(pc) {
      ExecutePcStable(env, s, t, pid, tx, pc);
    } else if ClosingPc(pc) {
      ClosingPcStable(env, s, t, pid, tx, pc);
    } else {
      OtherPcStable(env, s, t, pid, tx, pc);
    }
  }

  /** Another run's knowledge survives any step that respects its locks. */
  lemma LocalStable(env: Env, s: State, t: State, pid: nat, p: Proc)
    requires Local(env, s, pid, p) && Evolves(s, t) && Protected(s, t, p.tx)
    requires Outcomes(t.history, pid) == Outcomes(s.history, pid)
    ensures Local(env, t, pid, p)
  {
    TxStable(env, s, t, p);
    PcStable(env, s, t, pid, p.tx, p.pc);
  }
}
