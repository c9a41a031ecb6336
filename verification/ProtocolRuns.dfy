/** The invariant holds in every reachable state, and what every run keeps. */
module ProtocolRuns {
  import opened Schemas
  import opened Governor
  import opened AuditChain
  import opened Replay
  import opened Protocol
  import opened ProtocolInvariant
  import opened ProtocolStability
  import opened ProtocolSteps
  import opened ProtocolEvaluate
  import opened ProtocolExecute
  import opened ProtocolCommit

  /** What a step may need to know of the tables. */
  ghost predicate TablesKnown(env: Env, s: State)
  {
    && ApprovalsOk(env, s) && WellLinked(env.crypto, s.log)
    && (forall k | k in s.budgets :: Sane(s.budgets[k]) && s.budgets[k].active)
    && (forall q | q in s.procs && s.procs[q].tx.entries != [] :: WellLinked(env.crypto, s.log + s.procs[q].tx.entries))
  }

  lemma InvTables(env: Env, s: State)
    requires Inv(env, s)
    ensures TablesKnown(env, s)
  {
    forall q | q in s.procs && s.procs[q].tx.entries != []
      ensures WellLinked(env.crypto, s.log + s.procs[q].tx.entries)
    {
      assert Local(env, s, q, s.procs[q]);
    }
  }

  lemma EvaluateAdvance(env: Env, s: State, pid: nat, c: Choice)
    requires pid in s.procs && Known(env, s, pid) && TablesKnown(env, s)
    requires var pc := s.procs[pid].pc;
      pc.EvalStart? || pc.EvalGet? || pc.EvalSetNx? || pc.EvalGetAgain? || pc.EvalDecide? || pc.Route?
        || pc.HitlLookup? || pc.HitlInsert?
    ensures Advance(env, s, pid, c).Some? ==> Good(env, s, Advance(env, s, pid, c).value, pid)
  {
    hide TablesKnown, Good, Known, EvalStartStep, EvalGetStep, EvalSetNxStep, EvalGetAgainStep, EvalDecideStep,
      RouteStep, HitlLookupStep, HitlInsertStep;
    match s.procs[pid].pc
    case EvalStart(j) => EvalStartKeeps(env, s, pid, j, c);
    case EvalGet(j, row) => if KeyOf(j.intent).Some? { EvalGetKeeps(env, s, pid, j, row, KeyOf(j.intent).value); }
    case EvalSetNx(j, row) =>
      if KeyOf(j.intent).Some? && row.Some? { EvalSetNxKeeps(env, s, pid, j, row, KeyOf(j.intent).value); }
    case EvalGetAgain(j, row) =>
      if KeyOf(j.intent).Some? { EvalGetAgainKeeps(env, s, pid, j, row, KeyOf(j.intent).value); }
    case EvalDecide(j, row, remaining) => EvalDecideKeeps(env, s, pid, j, row, remaining, c);
    case Route(j, d, row) => RouteKeeps(env, s, pid, j, d, row);
    case HitlLookup(j, d) => HitlLookupKeeps(env, s, pid, j, d);
    case HitlInsert(j, d, now) => HitlInsertKeeps(env, s, pid, j, d, now, c);
  }

  lemma WaitAdvance(env: Env, s: State, pid: nat, c: Choice)
    requires pid in s.procs && Known(env, s, pid) && TablesKnown(env, s)
    requires WaiterPc(s.procs[pid].pc) || s.procs[pid].pc.ExpireWrite?
    ensures Advance(env, s, pid, c).Some? ==> Good(env, s, Advance(env, s, pid, c).value, pid)
  {
    hide Good, Known, WaitingStep, ReadStatusStep, ResolvingStep, ApprovedReserveStep, ExpireLockStep, ExpireWriteStep;
    match s.procs[pid].pc
    case Subscribe(j, id) => SubscribeKeeps(env, s, pid, j, id);
    case Waiting(j, id, deadline) => WaitingKeeps(env, s, pid, j, id, deadline, c);
    case ReadStatus(j, id, deadline, onMessage) => ReadStatusKeeps(env, s, pid, j, id, deadline, onMessage);
    case Resolving(j, id, status) => ResolvingKeeps(env, s, pid, j, id, status);
    case ApprovedReserve(j, id, row) => if KeyOf(j.intent).Some? { ApprovedReserveKeeps(env, s, pid, j, id, row); }
    case ExpireLock(j, id) => ExpireLockKeeps(env, s, pid, j, id);
    case ExpireWrite(j, id) => if id in s.hitls { ExpireWriteKeeps(env, s, pid, j, id); }
  }

  lemma ExecuteAdvance(env: Env, s: State, pid: nat, c: Choice)
    requires pid in s.procs && Known(env, s, pid) && TablesKnown(env, s)
    requires ExecutePc(s.procs[pid].pc)
    ensures Advance(env, s, pid, c).Some? ==> Good(env, s, Advance(env, s, pid, c).value, pid)
  {
    hide Good, Known, AnsweredStep, OperatingStep, CommitLockStep, CommitChargeStep, FailReadStep, FailReleaseStep;
    match s.procs[pid].pc
    case Answered(j, d) => AnsweredKeeps(env, s, pid, j, d);
    case Operating(j) => OperatingKeeps(env, s, pid, j, c);
    case CommitLock(j) => CommitLockKeeps(env, s, pid, j);
    case CommitCharge(j) => if KeyOf(j.intent).Some? { CommitChargeKeeps(env, s, pid, j, KeyOf(j.intent).value); }
    case FailRead(j, errorType, error) => FailReadKeeps(env, s, pid, j, errorType, error);
    case FailRelease(j, row, errorType, error) =>
      if KeyOf(j.intent).Some? { FailReleaseKeeps(env, s, pid, j, row, errorType, error, KeyOf(j.intent).value); }
  }

  predicate BudgetPc(pc: Pc) { pc.UpsertLock? || pc.UpsertInsert? || pc.UpsertWrite? }

  lemma BudgetAdvance(env: Env, s: State, pid: nat, c: Choice)
    requires pid in s.procs && Known(env, s, pid) && TablesKnown(env, s)
    requires BudgetPc(s.procs[pid].pc)
    ensures Advance(env, s, pid, c).Some? ==> Good(env, s, Advance(env, s, pid, c).value, pid)
  {
    hide Good, Known, ApprovalsOk, WellLinked, UpsertLockStep, UpsertInsertStep, UpsertWriteStep;
    match s.procs[pid].pc
    case UpsertLock(k, limit, actor) => UpsertLockKeeps(env, s, pid, k, limit, actor);
    case UpsertInsert(k, limit, actor) => UpsertInsertKeeps(env, s, pid, k, limit, actor);
    case UpsertWrite(k, limit, actor) => UpsertWriteKeeps(env, s, pid, k, limit, actor);
  }

  predicate ReviewPc(pc: Pc)
  {
    pc.ResolveLock? || pc.ResolveWrite? || pc.RaiseConflict? || pc.Publish? || pc.AdminInsert?
  }

  lemma ReviewAdvance(env: Env, s: State, pid: nat, c: Choice)
    requires pid in s.procs && Known(env, s, pid) && TablesKnown(env, s)
    requires ReviewPc(s.procs[pid].pc)
    ensures Advance(env, s, pid, c).Some? ==> Good(env, s, Advance(env, s, pid, c).value, pid)
  {
    hide Good, Known, WellLinked, RowOk, ResolveLockStep, ResolveWriteStep, AdminInsertStep;
    match s.procs[pid].pc
    case ResolveLock(id, approved, comment, actor, now) =>
      ResolveLockKeeps(env, s, pid, id, approved, comment, actor, now);
    case ResolveWrite(id, approved, comment, actor, now) =>
      if id in s.hitls {
        ResolveWriteKeeps(env, s, pid, id, approved, comment, actor, now);
      } else {
        AbortGood(env, s, pid);
      }
    case RaiseConflict => AbortGood(env, s, pid);
    case Publish(id) => PublishKeeps(env, s, pid, id);
    case AdminInsert(name, event, actor) => AdminInsertKeeps(env, s, pid, name, event, actor);
  }

  predicate AppendPc(pc: Pc) { pc.ResetCell? || pc.Appending? || pc.Inserting? }

  lemma AppendAdvance(env: Env, s: State, pid: nat, c: Choice)
    requires pid in s.procs && Known(env, s, pid) && TablesKnown(env, s)
    requires AppendPc(s.procs[pid].pc)
    ensures Advance(env, s, pid, c).Some? ==> Good(env, s, Advance(env, s, pid, c).value, pid)
  {
    hide Good, Known, ApprovalsOk, WellLinked, ResetCellStep, AppendingStep, InsertingStep;
    match s.procs[pid].pc
    case ResetCell(k, v, w) => ResetCellKeeps(env, s, pid, k, v, w);
    case Appending(w) => AppendingKeeps(env, s, pid, w);
    case Inserting(w, record) => InsertingKeeps(env, s, pid, w, record);
  }

  /** Every step of a program either commits or is a good quiet step. */
  lemma AdvanceGood(env: Env, s: State, pid: nat, c: Choice)
    requires pid in s.procs && Known(env, s, pid) && TablesKnown(env, s) && !s.procs[pid].pc.Committing?
    ensures Advance(env, s, pid, c).Some? ==> Good(env, s, Advance(env, s, pid, c).value, pid)
  {
    hide Good, TablesKnown, Advance, TxOk, PcOk, Alone;
    assert Known(env, s, pid);
    var pc := s.procs[pid].pc;
    if WaiterPc(pc) || pc.ExpireWrite? {
      WaitAdvance(env, s, pid, c);
    } else if ExecutePc(pc) {
      ExecuteAdvance(env, s, pid, c);
    } else if BudgetPc(pc) {
      BudgetAdvance(env, s, pid, c);
    } else if ReviewPc(pc) {
      ReviewAdvance(env, s, pid, c);
    } else if AppendPc(pc) {
      AppendAdvance(env, s, pid, c);
    } else {
      EvaluateAdvance(env, s, pid, c);
    }
  }

  lemma AdvanceFrom(env: Env, s: State, pid: nat, c: Choice)
    requires Advance(env, s, pid, c).Some?
    ensures pid in s.procs && !s.procs[pid].pc.Ended?
    ensures s.procs[pid].pc.Committing? ==> Advance(env, s, pid, c).value == CommitTx(s, pid, s.procs[pid].pc.next)
  {
  }

  lemma AdvanceKeeps(env: Env, s: State, pid: nat, c: Choice)
    requires Inv(env, s) && Advance(env, s, pid, c).Some?
    ensures Inv(env, Advance(env, s, pid, c).value)
  {
    AdvanceFrom(env, s, pid, c);
    if s.procs[pid].pc.Committing? {
      CommitKeeps(env, s, pid, s.procs[pid].pc.next);
    } else {
      KnownHere(env, s, pid);
      InvTables(env, s);
      AdvanceGood(env, s, pid, c);
      GoodKeeps(env, s, Advance(env, s, pid, c).value, pid);
    }
  }

  // ---------------------------------------------------------------------------------------------
  // Calls that arrive, runs that die, time, and Redis.
  // ---------------------------------------------------------------------------------------------

  lemma {:induction false} NobodysOutcomes(history: seq<Happening>, pid: nat)
    requires forall h | h in history :: h.pid != pid
    ensures Outcomes(history, pid) == 0
  {
    if history != [] {
      assert forall h | h in history[..|history| - 1] :: h in history;
      NobodysOutcomes(history[..|history| - 1], pid);
    }
  }

  lemma HappenedHere(env: Env, s: State, h: Happening)
    requires Inv(env, s) && h in s.history
    ensures h.pid in s.procs
  {
    hide Authorized, AllEarned;
    var n :| 0 <= n < |s.history| && s.history[n] == h;
    assert HappeningOk(s, n);
  }

  lemma SpawnKeeps(env: Env, s: State, pid: nat, pc: Pc)
    requires Inv(env, s) && pid !in s.procs && Admissible(s, pc)
    ensures Inv(env, Enter(s, pid, Proc(pc, NO_TX)))
  {
    hide Global, Authorized, AllEarned, WellLinked, DecidedAs;
    var t := Enter(s, pid, Proc(pc, NO_TX));
    forall h | h in s.history ensures h.pid != pid {
      HappenedHere(env, s, h);
    }
    NobodysOutcomes(s.history, pid);
    IdleTx(env, t, pc);
    assert t.history == s.history + [];
    Quiet(env, s, t, pid, Proc(pc, NO_TX), []);
  }

  /** The clock and Redis are nobody's knowledge: whatever happens to them, the invariant stands. */
  lemma AmbientKeeps(env: Env, s: State, t: State)
    requires Inv(env, s) && s.clock <= t.clock && t == s.(clock := t.clock, redis := t.redis)
    ensures Inv(env, t)
  {
    hide Local, HappeningOk, WellLinked;
    assert t.history == s.history + [];
    QuietEvolves(s, t, []);
    ApprovalsStable(env, s, t);
    forall n | 0 <= n < |t.history| ensures HappeningOk(t, n) {
      HappeningStable(s, t, n);
    }
    forall q | q in t.procs ensures Local(env, t, q, t.procs[q]) {
      LocalStable(env, s, t, q, s.procs[q]);
    }
  }

  lemma DoKeeps(env: Env, s: State, a: Action)
    requires Inv(env, s) && Do(env, s, a).Some?
    ensures Inv(env, Do(env, s, a).value)
  {
    hide Inv, Advance;
    match a
    case Spawn(pid, pc) => SpawnKeeps(env, s, pid, pc);
    case Step(pid, c) => AdvanceKeeps(env, s, pid, c);
    case Crash(pid) =>
      AbortGood(env, s, pid);
      GoodKeeps(env, s, Abort(s, pid), pid);
    case Tick(now) => AmbientKeeps(env, s, s.(clock := now));
    case Havoc(k, v) => AmbientKeeps(env, s, SetCell(s, k, v));
  }

  lemma InitKeeps(env: Env)
    ensures Inv(env, Init())
  {
    var s := Init();
    assert View(s) == Empty();
    forall k: BudgetKey ensures ChargedTo(s.log, k) == ConsumedOf(Find(s.budgets, k)) {
    }
  }

  /** The invariant holds after every sequence of actions, whatever the interleaving. */
  lemma {:induction false} InvariantHolds(env: Env, actions: seq<Action>, s: State)
    requires Reaches(env, actions, s)
    ensures Inv(env, s)
  {
    hide Inv, Do;
    if actions == [] {
      InitKeeps(env);
    } else {
      var n := |actions| - 1;
      var r := Run(env, actions[..n]).value;
      InvariantHolds(env, actions[..n], r);
      DoKeeps(env, r, actions[n]);
    }
  }
}
