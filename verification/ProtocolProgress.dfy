/** Nobody waits forever on a lock: the order in which transactions acquire things, and how long they are. */
module ProtocolProgress {
  import opened Wrappers
  import opened Schemas
  import opened Governor
  import opened PolicyRules
  import opened AuditChain
  import opened Events
  import opened Protocol
  import opened ProtocolInvariant
  import opened ProtocolStability
  import opened ProtocolRuns
  import opened ProtocolDispatch
  import opened ProtocolTheorems

  ghost predicate CanStep(env: Env, s: State, pid: nat) { exists c :: Advance(env, s, pid, c).Some? }

  // ---------------------------------------------------------------------------------------------
  // There is always another identifier.
  // ---------------------------------------------------------------------------------------------

  lemma {:induction false} LongerThanAll(ids: set<string>) returns (id: string)
    ensures forall x | x in ids :: |x| < |id|
  {
    if ids == {} {
      id := "";
    } else {
      var x :| x in ids;
      var rest := LongerThanAll(ids - {x});
      id := rest + x + "-";
      forall y | y in ids ensures |y| < |id| {
        assert y != x ==> y in ids - {x};
      }
    }
  }

  // ---------------------------------------------------------------------------------------------
  // Who can be blocked, and by whom.
  // ---------------------------------------------------------------------------------------------

  /** The points that wait for a lock with nothing in hand. */
  predicate Acquiring(pc: Pc)
  {
    pc.ExpireLock? || pc.CommitLock? || pc.UpsertLock? || pc.UpsertInsert? || pc.ResolveLock? || pc.AdminInsert?
  }

  predicate MayBlock(pc: Pc) { Acquiring(pc) || pc.HitlInsert? || pc.Inserting? }

  function Idle(): Choice { Choice(None, 0, [], "", false, None) }

  lemma UnblockedEvaluates(env: Env, s: State, pid: nat)
    requires pid in s.procs && PcOk(env, s, pid, s.procs[pid].tx, s.procs[pid].pc)
    requires !MayBlock(s.procs[pid].pc) && !s.procs[pid].pc.Ended?
    ensures Advance(env, s, pid, Idle()).Some?
  {
    hide WaiterOk, PurposeOk, NextOk, Authorized, RouteOk, Fits, RecordOf, Reserve, Release, Decide, Commit, Upsert;
  }

  lemma SlotIsExclusive(env: Env, s: State, pid: nat, sequence: int)
    requires Inv(env, s) && pid in s.procs && s.procs[pid].tx.entries != []
    ensures !PendingByOther(s, pid, sequence)
  {
  }

  lemma InserterCanStep(env: Env, s: State, pid: nat)
    requires pid in s.procs && s.procs[pid].pc.HitlInsert?
    requires !HeldByOther(s, pid, HitlKey(s.procs[pid].pc.j.intent.key))
    ensures CanStep(env, s, pid)
  {
    var id := LongerThanAll(s.hitls.Keys);
    var c := Idle().(id := id);
    assert id !in s.hitls.Keys;
    assert Advance(env, s, pid, c).Some?;
  }

  lemma InsertingUnblocked(env: Env, s: State, pid: nat, pc: Pc)
    requires pid in s.procs && s.procs[pid].pc == pc && pc.Inserting? && !PendingByOther(s, pid, pc.record.sequence)
    ensures CanStep(env, s, pid)
  {
    assert Advance(env, s, pid, Idle()).Some?;
  }

  lemma StepByIdle(env: Env, s: State, pid: nat)
    requires Advance(env, s, pid, Idle()).Some?
    ensures CanStep(env, s, pid)
  {
  }

  /** Whoever holds the audit slot never waits again, for anything. */
  lemma SlotHolderCanStep(env: Env, s: State, pid: nat)
    requires Inv(env, s) && pid in s.procs && s.procs[pid].tx.entries != []
    ensures CanStep(env, s, pid)
  {
    hide Inv, CanStep;
    LocalHere(env, s, pid);
    var pc := s.procs[pid].pc;
    if pc.Inserting? {
      SlotIsExclusive(env, s, pid, pc.record.sequence);
      InsertingUnblocked(env, s, pid, pc);
    } else if pc.HitlInsert? {
      KeyIsFree(env, s, pid);
      InserterCanStep(env, s, pid);
    } else {
      assert !pc.Ended? && !Acquiring(pc);
      UnblockedEvaluates(env, s, pid);
      StepByIdle(env, s, pid);
    }
  }

  lemma InserterProgress(env: Env, s: State, pid: nat)
    requires Inv(env, s) && pid in s.procs && s.procs[pid].pc.Inserting?
    ensures CanStep(env, s, pid)
      || exists q | q in s.procs && q != pid :: s.procs[q].tx.entries != [] && CanStep(env, s, q)
  {
    hide Inv, CanStep;
    var pc := s.procs[pid].pc;
    if PendingByOther(s, pid, pc.record.sequence) {
      var q :| q in s.procs && q != pid && exists r | r in s.procs[q].tx.entries :: r.sequence == pc.record.sequence;
      SlotHolderCanStep(env, s, q);
    } else {
      InsertingUnblocked(env, s, pid, pc);
    }
  }

  /** Whoever holds a lock or a unique key waits at most for the audit slot, whose holder can move. */
  lemma LockHolderCanProgress(env: Env, s: State, pid: nat)
    requires Inv(env, s) && pid in s.procs && s.procs[pid].tx.held != {}
    ensures CanStep(env, s, pid)
      || exists q | q in s.procs && q != pid :: s.procs[q].tx.entries != [] && CanStep(env, s, q)
  {
    hide Inv, CanStep;
    LocalHere(env, s, pid);
    var pc := s.procs[pid].pc;
    if pc.Inserting? {
      InserterProgress(env, s, pid);
    } else {
      assert !pc.Ended? && !MayBlock(pc);
      UnblockedEvaluates(env, s, pid);
      StepByIdle(env, s, pid);
    }
  }

  lemma BlockedByHolder(env: Env, s: State, pid: nat)
    requires pid in s.procs && Acquiring(s.procs[pid].pc)
    ensures Advance(env, s, pid, Idle()).Some? || exists q | q in s.procs && q != pid :: s.procs[q].tx.held != {}
  {
    hide Upsert;
    if Advance(env, s, pid, Idle()).None? {
      match s.procs[pid].pc
      case ExpireLock(_, id) => assert HeldByOther(s, pid, HitlRow(id));
      case CommitLock(j) => assert HeldByOther(s, pid, BudgetSlot(KeyOf(j.intent).value));
      case UpsertLock(k, _, _) => assert HeldByOther(s, pid, BudgetSlot(k));
      case UpsertInsert(k, _, _) => assert HeldByOther(s, pid, BudgetSlot(k));
      case ResolveLock(id, _, _, _, _) => assert HeldByOther(s, pid, HitlRow(id));
      case AdminInsert(name, _, _) => assert HeldByOther(s, pid, OtherKey(name));
    }
  }

  lemma AcquiringHasNothing(env: Env, s: State, pid: nat)
    requires pid in s.procs && Acquiring(s.procs[pid].pc) && PcOk(env, s, pid, s.procs[pid].tx, s.procs[pid].pc)
    ensures s.procs[pid].tx == NO_TX
  {
  }

  /** A blocked run always has somebody else's open transaction ahead of it that can move now. */
  lemma NoDeadlock(env: Env, actions: seq<Action>, s: State, pid: nat)
    requires Reaches(env, actions, s) && pid in s.procs && !s.procs[pid].pc.Ended?
    ensures CanStep(env, s, pid) || exists q | q in s.procs && q != pid :: s.procs[q].tx != NO_TX && CanStep(env, s, q)
  {
    hide Inv, CanStep;
    InvariantHolds(env, actions, s);
    LocalHere(env, s, pid);
    var pc := s.procs[pid].pc;
    if pc.Inserting? {
      InserterProgress(env, s, pid);
    } else if pc.HitlInsert? {
      KeyIsFree(env, s, pid);
      InserterCanStep(env, s, pid);
    } else if Acquiring(pc) {
      BlockedByHolder(env, s, pid);
      if Advance(env, s, pid, Idle()).Some? {
        StepByIdle(env, s, pid);
      } else {
        var q :| q in s.procs && q != pid && s.procs[q].tx.held != {};
        LockHolderCanProgress(env, s, q);
        if !CanStep(env, s, q) {
          var h :| h in s.procs && h != q && s.procs[h].tx.entries != [] && CanStep(env, s, h);
          assert h != pid by { AcquiringHasNothing(env, s, pid); }
        }
      }
    } else {
      UnblockedEvaluates(env, s, pid);
      StepByIdle(env, s, pid);
    }
  }

  // ---------------------------------------------------------------------------------------------
  // Transactions are short.
  // ---------------------------------------------------------------------------------------------

  /** A bound on the steps left in the present transaction; 0 outside of any. */
  function Work(pc: Pc): nat
  {
    match pc
    case EvalStart(_) => 13
    case EvalGet(_, _) => 12
    case EvalSetNx(_, _) => 11
    case EvalGetAgain(_, _) => 10
    case EvalDecide(_, _, _) => 9
    case Route(_, _, _) => 6
    case HitlLookup(_, _) => 5
    case HitlInsert(_, _, _) => 4
    case ApprovedReserve(_, _, _) => 1
    case ExpireLock(_, _) => 5
    case ExpireWrite(_, _) => 4
    case CommitLock(_) => 6
    case CommitCharge(_) => 5
    case FailRead(_, _, _) => 5
    case FailRelease(_, _, _, _) => 4
    case UpsertLock(_, _, _) => 6
    case UpsertInsert(_, _, _) => 5
    case UpsertWrite(_, _, _) => 5
    case ResolveLock(_, _, _, _, _) => 5
    case ResolveWrite(_, _, _, _, _) => 4
    case RaiseConflict => 1
    case AdminInsert(_, _, _) => 4
    case ResetCell(_, _, w) => if w.ForEvaluation? then 9 else 4
    case Appending(w) => if w.ForEvaluation? then 8 else 3
    case Inserting(w, _) => if w.ForEvaluation? then 7 else 2
    case Committing(_) => 1
    case _ => 0
  }

  ghost predicate Reduces(env: Env, s: State, pid: nat, c: Choice)
    requires pid in s.procs
  {
    var r := Advance(env, s, pid, c);
    r.Some? ==> pid in r.value.procs && Work(r.value.procs[pid].pc) < Work(s.procs[pid].pc)
  }

  predicate EvaluatingPc(pc: Pc) { pc.EvalStart? || pc.EvalGet? || pc.EvalSetNx? || pc.EvalGetAgain? || pc.EvalDecide? }

  lemma EvaluatingReduces(env: Env, s: State, pid: nat, c: Choice)
    requires pid in s.procs && EvaluatingPc(s.procs[pid].pc)
    ensures Reduces(env, s, pid, c)
  {
    hide Decide, BudgetResult, RouteStep, HitlLookupStep, HitlInsertStep, WaitingStep, ReadStatusStep, ResolvingStep,
      ApprovedReserveStep, ExpireLockStep, ExpireWriteStep, AnsweredStep, OperatingStep, CommitLockStep,
      CommitChargeStep, FailReadStep, FailReleaseStep, UpsertLockStep, UpsertInsertStep, UpsertWriteStep,
      ResolveLockStep, ResolveWriteStep, AdminInsertStep, ResetCellStep, AppendingStep, InsertingStep, CommitTx;
  }

  predicate ReservingPc(pc: Pc) { pc.Route? || pc.ApprovedReserve? }

  lemma ReservingReduces(env: Env, s: State, pid: nat, c: Choice)
    requires pid in s.procs && ReservingPc(s.procs[pid].pc)
    ensures Reduces(env, s, pid, c)
  {
    hide Advance, Reserve, Refusal, LateRefusal, Approval;
    if s.procs[pid].pc.Route? {
      RouteAdvance(env, s, pid, c);
    } else {
      ApprovedReserveAdvance(env, s, pid, c);
    }
  }

  predicate RequestingPc(pc: Pc) { pc.HitlLookup? || pc.HitlInsert? }

  lemma RequestingReduces(env: Env, s: State, pid: nat, c: Choice)
    requires pid in s.procs && RequestingPc(s.procs[pid].pc)
    ensures Reduces(env, s, pid, c)
  {
    hide KeyTaken, Opened, HeldByOther;
  }

  predicate RecordingPc(pc: Pc) { pc.CommitLock? || pc.CommitCharge? || pc.FailRead? || pc.FailRelease? }

  lemma CommitLockReduces(s: State, pid: nat, j: Job)
    requires pid in s.procs
    ensures var r := CommitLockStep(s, pid, j); r.Some? ==> pid in r.value.procs && Work(r.value.procs[pid].pc) < 6
  {
  }

  lemma CommitChargeReduces(s: State, pid: nat, j: Job, k: BudgetKey)
    requires pid in s.procs && j.intent.amount.Some?
    ensures var r := CommitChargeStep(s, pid, j, k); r.Some? ==> pid in r.value.procs && Work(r.value.procs[pid].pc) < 5
  {
    hide Commit;
  }

  lemma FailReadReduces(s: State, pid: nat, j: Job, errorType: string, error: string)
    requires pid in s.procs
    ensures var r := FailReadStep(s, pid, j, errorType, error);
      r.Some? ==> pid in r.value.procs && Work(r.value.procs[pid].pc) < 5
  {
  }

  lemma FailReleaseReduces(
      s: State, pid: nat, j: Job, row: Option<Budget>, errorType: string, error: string, k: BudgetKey)
    requires pid in s.procs && j.intent.amount.Some?
    ensures var r := FailReleaseStep(s, pid, j, row, errorType, error, k);
      r.Some? ==> pid in r.value.procs && Work(r.value.procs[pid].pc) < 4
  {
    hide Release;
  }

  lemma RecordingReduces(env: Env, s: State, pid: nat, c: Choice)
    requires pid in s.procs && RecordingPc(s.procs[pid].pc)
    ensures Reduces(env, s, pid, c)
  {
    hide Advance, CommitLockStep, CommitChargeStep, FailReadStep, FailReleaseStep;
    match s.procs[pid].pc
    case CommitLock(j) =>
      CommitLockAdvance(env, s, pid, c);
      CommitLockReduces(s, pid, j);
    case CommitCharge(j) =>
      CommitChargeAdvance(env, s, pid, c);
      if KeyOf(j.intent).Some? { CommitChargeReduces(s, pid, j, KeyOf(j.intent).value); }
    case FailRead(j, errorType, error) =>
      FailReadAdvance(env, s, pid, c);
      FailReadReduces(s, pid, j, errorType, error);
    case FailRelease(j, row, errorType, error) =>
      FailReleaseAdvance(env, s, pid, c);
      if KeyOf(j.intent).Some? { FailReleaseReduces(s, pid, j, row, errorType, error, KeyOf(j.intent).value); }
  }

  predicate LimitPc(pc: Pc) { pc.UpsertLock? || pc.UpsertInsert? || pc.UpsertWrite? || pc.AdminInsert? }

  lemma UpsertReduces(s: State, pid: nat, k: BudgetKey, limit: int, actor: string)
    requires pid in s.procs
    ensures var r := UpsertLockStep(s, pid, k, limit, actor);
      r.Some? ==> pid in r.value.procs && Work(r.value.procs[pid].pc) < 6
    ensures var r := UpsertInsertStep(s, pid, k, limit, actor);
      r.Some? ==> pid in r.value.procs && Work(r.value.procs[pid].pc) < 5
    ensures var r := UpsertWriteStep(s, pid, k, limit, actor);
      r.Some? ==> pid in r.value.procs && Work(r.value.procs[pid].pc) < 5
  {
    hide HeldByOther, Upsert;
  }

  lemma AdminReduces(s: State, pid: nat, name: string, event: Event, actor: string)
    requires pid in s.procs
    ensures var r := AdminInsertStep(s, pid, name, event, actor);
      r.Some? ==> pid in r.value.procs && Work(r.value.procs[pid].pc) < 4
  {
    hide HeldByOther;
  }

  lemma LimitReduces(env: Env, s: State, pid: nat, c: Choice)
    requires pid in s.procs && LimitPc(s.procs[pid].pc)
    ensures Reduces(env, s, pid, c)
  {
    hide Advance, UpsertLockStep, UpsertInsertStep, UpsertWriteStep, AdminInsertStep;
    match s.procs[pid].pc
    case UpsertLock(k, limit, actor) =>
      UpsertLockAdvance(env, s, pid, c);
      UpsertReduces(s, pid, k, limit, actor);
    case UpsertInsert(k, limit, actor) =>
      UpsertInsertAdvance(env, s, pid, c);
      UpsertReduces(s, pid, k, limit, actor);
    case UpsertWrite(k, limit, actor) =>
      UpsertWriteAdvance(env, s, pid, c);
      UpsertReduces(s, pid, k, limit, actor);
    case AdminInsert(name, event, actor) =>
      AdminAdvance(env, s, pid, c);
      AdminReduces(s, pid, name, event, actor);
  }

  predicate ExpiringPc(pc: Pc) { pc.ExpireLock? || pc.ExpireWrite? }

  lemma ExpiringReduces(env: Env, s: State, pid: nat, c: Choice)
    requires pid in s.procs && ExpiringPc(s.procs[pid].pc)
    ensures Reduces(env, s, pid, c)
  {
    hide HeldByOther, ExpiredAt;
  }

  predicate DecidingPc(pc: Pc) { pc.ResolveLock? || pc.ResolveWrite? || pc.RaiseConflict? }

  lemma ResolveLockReduces(
      s: State, pid: nat, id: string, approved: bool, comment: Option<string>, actor: string, now: int)
    requires pid in s.procs
    ensures var r := ResolveLockStep(s, pid, id, approved, comment, actor, now);
      r.Some? ==> pid in r.value.procs && Work(r.value.procs[pid].pc) < 5
  {
    hide HeldByOther;
  }

  lemma ResolveWriteReduces(
      s: State, pid: nat, id: string, approved: bool, comment: Option<string>, actor: string, now: int)
    requires pid in s.procs && id in s.hitls
    ensures var r := ResolveWriteStep(s, pid, id, approved, comment, actor, now);
      r.Some? ==> pid in r.value.procs && Work(r.value.procs[pid].pc) < 4
  {
    hide Resolved, ExpiredAt;
  }

  lemma DecidingReduces(env: Env, s: State, pid: nat, c: Choice)
    requires pid in s.procs && DecidingPc(s.procs[pid].pc)
    ensures Reduces(env, s, pid, c)
  {
    hide Advance, ResolveLockStep, ResolveWriteStep;
    match s.procs[pid].pc
    case ResolveLock(id, approved, comment, actor, now) =>
      ResolveLockAdvance(env, s, pid, c);
      ResolveLockReduces(s, pid, id, approved, comment, actor, now);
    case ResolveWrite(id, approved, comment, actor, now) =>
      ResolveWriteAdvance(env, s, pid, c);
      if id in s.hitls { ResolveWriteReduces(s, pid, id, approved, comment, actor, now); }
    case RaiseConflict => ConflictAdvance(env, s, pid, c);
  }

  lemma WorkAfter(w: Purpose)
    ensures Work(After(w)) < if w.ForEvaluation? then 7 else 2
  {
  }

  lemma AppendReduces(env: Env, s: State, pid: nat, c: Choice)
    requires pid in s.procs && AppendPc(s.procs[pid].pc)
    ensures Reduces(env, s, pid, c)
  {
    hide Seal, Duplicate, PendingByOther, After, EventFor, ActorFor, EventType, EventPayload, ValidName;
    if s.procs[pid].pc.Inserting? {
      WorkAfter(s.procs[pid].pc.w);
    }
  }

  lemma NextOutside(s: State, pid: nat, tx: Tx, next: Pc)
    requires NextOk(s, pid, tx, next)
    ensures Work(next) == 0
  {
    hide Paid, GrantedIn, EvaluatedHere, IsEvaluated, OutcomeEntries, AllEarned, Terminal, Unasked;
  }

  lemma CommitReduces(env: Env, s: State, pid: nat, c: Choice)
    requires pid in s.procs && s.procs[pid].pc.Committing? && PcOk(env, s, pid, s.procs[pid].tx, s.procs[pid].pc)
    ensures Reduces(env, s, pid, c)
  {
    hide Advance, PcOk, NextOk, Published;
    var next := s.procs[pid].pc.next;
    CommittingPcMeans(env, s, pid, s.procs[pid].tx, next);
    NextOutside(s, pid, s.procs[pid].tx, next);
    CommittingAdvance(env, s, pid, c);
  }

  lemma StepReducesWork(env: Env, s: State, pid: nat, c: Choice)
    requires pid in s.procs && PcOk(env, s, pid, s.procs[pid].tx, s.procs[pid].pc) && Work(s.procs[pid].pc) > 0
    ensures Reduces(env, s, pid, c)
  {
    hide Reduces, PcOk;
    var pc := s.procs[pid].pc;
    if EvaluatingPc(pc) {
      EvaluatingReduces(env, s, pid, c);
    } else if ReservingPc(pc) {
      ReservingReduces(env, s, pid, c);
    } else if RequestingPc(pc) {
      RequestingReduces(env, s, pid, c);
    } else if ExpiringPc(pc) {
      ExpiringReduces(env, s, pid, c);
    } else if RecordingPc(pc) {
      RecordingReduces(env, s, pid, c);
    } else if LimitPc(pc) {
      LimitReduces(env, s, pid, c);
    } else if DecidingPc(pc) {
      DecidingReduces(env, s, pid, c);
    } else if AppendPc(pc) {
      AppendReduces(env, s, pid, c);
    } else {
      CommitReduces(env, s, pid, c);
    }
  }

  lemma WorkBounded(pc: Pc)
    ensures Work(pc) <= 13
  {
  }

  lemma IdleHoldsNothing(env: Env, s: State, pid: nat)
    requires pid in s.procs && PcOk(env, s, pid, s.procs[pid].tx, s.procs[pid].pc)
    ensures Work(s.procs[pid].pc) == 0 ==> s.procs[pid].tx == NO_TX
  {
  }

  /** Every step of a transaction brings its end closer, and at the end nothing is held. */
  lemma TransactionsEnd(env: Env, actions: seq<Action>, s: State, pid: nat, c: Choice)
    requires Reaches(env, actions, s) && pid in s.procs && Work(s.procs[pid].pc) > 0
    requires Advance(env, s, pid, c).Some?
    ensures var t := Advance(env, s, pid, c).value;
      && pid in t.procs && Work(t.procs[pid].pc) < Work(s.procs[pid].pc) <= 13
      && (Work(t.procs[pid].pc) == 0 ==> t.procs[pid].tx == NO_TX)
  {
    hide Inv, Advance, PcOk, Work;
    InvariantHolds(env, actions, s);
    LocalHere(env, s, pid);
    StepReducesWork(env, s, pid, c);
    var t := Advance(env, s, pid, c).value;
    AdvanceKeeps(env, s, pid, c);
    LocalHere(env, t, pid);
    WorkBounded(s.procs[pid].pc);
    IdleHoldsNothing(env, t, pid);
  }
}
