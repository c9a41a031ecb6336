/** When approval rows come into being, and why a prompt answer is never too late. */
module ProtocolDates {
  import opened Wrappers
  import opened Schemas
  import opened Governor
  import opened PolicyRules
  import opened AuditChain
  import opened Events
  import opened Protocol
  import opened ProtocolInvariant
  import opened ProtocolStability
  import opened ProtocolSteps
  import opened ProtocolRuns
  import opened ProtocolDispatch
  import opened ProtocolWaits
  import opened ProtocolExamples

  predicate Looks(s: State, pid: nat, key: string, at: int)
  {
    pid in s.procs && s.procs[pid].pc.HitlLookup? && s.procs[pid].pc.j.intent.key == key && s.clock == at
  }

  /** Action `n` of the run is a lookup of this key, at this time. */
  ghost predicate LookedUp(env: Env, actions: seq<Action>, n: nat, key: string, at: int)
    requires n < |actions|
  {
    var r := Run(env, actions[..n]);
    r.Some? && actions[n].Step? && Looks(r.value, actions[n].pid, key, at)
  }

  ghost predicate Known(env: Env, actions: seq<Action>, key: string, at: int)
  {
    exists n | 0 <= n < |actions| :: LookedUp(env, actions, n, key, at)
  }

  lemma KnownSnoc(env: Env, actions: seq<Action>, key: string, at: int)
    requires actions != []
    ensures var n := |actions| - 1;
      Known(env, actions[..n], key, at) || LookedUp(env, actions, n, key, at) ==> Known(env, actions, key, at)
  {
    hide Run, Looks;
    var n := |actions| - 1;
    var before := actions[..n];
    if Known(env, before, key, at) {
      var m :| 0 <= m < n && LookedUp(env, before, m, key, at);
      assert before[..m] == actions[..m] && before[m] == actions[m];
      assert LookedUp(env, actions, m, key, at);
    }
  }

  // ---------------------------------------------------------------------------------------------
  // Dates are copied, never made up. `d` are the dates known so far.
  // ---------------------------------------------------------------------------------------------

  type Dates = (string, int) -> bool

  /** No insertion of a row is under way, and none follows the commit. */
  predicate NoInsert(pc: Pc)
  {
    match pc case HitlInsert(_, _, _) => false case Committing(next) => NoInsert(next) case _ => true
  }

  predicate Dated(d: Dates, p: Proc)
  {
    && (p.pc.HitlInsert? ==> d(p.pc.j.intent.key, p.pc.now))
    && (p.tx.write.PutHitl? ==> d(p.tx.write.hitl.key, p.tx.write.hitl.createdAt))
    && (p.pc.Committing? ==> NoInsert(p.pc.next))
  }

  predicate RowsDated(d: Dates, s: State)
  {
    forall id | id in s.hitls :: d(s.hitls[id].key, s.hitls[id].createdAt)
  }

  predicate AllDated(d: Dates, s: State)
  {
    RowsDated(d, s) && forall pid | pid in s.procs :: Dated(d, s.procs[pid])
  }

  /** A step that neither inserts an entry nor commits keeps the pending entries, or drops them. */
  predicate EntriesKept(p: Proc, q: Proc)
  {
    p.pc.Inserting? || q.tx.entries == p.tx.entries || q.tx.entries == []
  }

  /** Nothing of the kind is written, and no row is about to be. */
  predicate Keeps(p: Proc, q: Proc)
  {
    && EntriesKept(p, q)
    && (q.tx.write == p.tx.write || !q.tx.write.PutHitl?)
    && !q.pc.HitlInsert? && (q.pc.Committing? ==> NoInsert(q.pc.next))
  }

  lemma KeepsDates(d: Dates, p: Proc, q: Proc)
    requires Dated(d, p) && Keeps(p, q)
    ensures Dated(d, q) && EntriesKept(p, q)
  {
  }

  ghost predicate Arrives(env: Env, s: State, pid: nat, c: Choice, p: Proc -> bool)
  {
    var r := Advance(env, s, pid, c);
    r.Some? ==> pid in r.value.procs && p(r.value.procs[pid])
  }

  lemma RouteDates(s: State, pid: nat, j: Job, d: PolicyDecision, row: Option<Budget>)
    requires pid in s.procs
    ensures var t := RouteStep(s, pid, j, d, row).value;
      pid in t.procs && t.procs[pid].tx == s.procs[pid].tx && !t.procs[pid].pc.HitlInsert?
        && (t.procs[pid].pc.Committing? ==> NoInsert(t.procs[pid].pc.next))
  {
    hide Reserve, Refusal;
  }

  lemma LookupDates(s: State, pid: nat, j: Job, e: PolicyDecision, d: Dates)
    requires pid in s.procs && Dated(d, s.procs[pid]) && d(j.intent.key, s.clock)
    ensures var t := HitlLookupStep(s, pid, j, e).value;
      pid in t.procs && Dated(d, t.procs[pid]) && EntriesKept(s.procs[pid], t.procs[pid])
  {
    hide KeyTaken;
  }

  lemma InsertDates(env: Env, s: State, pid: nat, j: Job, e: PolicyDecision, now: int, c: Choice, d: Dates)
    requires pid in s.procs && d(j.intent.key, now)
    ensures var r := HitlInsertStep(env, s, pid, j, e, now, c);
      r.Some? ==> pid in r.value.procs && Dated(d, r.value.procs[pid]) && EntriesKept(s.procs[pid], r.value.procs[pid])
  {
    hide KeyTaken, HeldByOther;
  }

  lemma RoutingDates(env: Env, s: State, pid: nat, c: Choice, d: Dates)
    requires pid in s.procs && Dated(d, s.procs[pid])
    requires var pc := s.procs[pid].pc; pc.Route? || pc.HitlLookup? || pc.HitlInsert?
    requires s.procs[pid].pc.HitlLookup? ==> d(s.procs[pid].pc.j.intent.key, s.clock)
    ensures Arrives(env, s, pid, c, p => Dated(d, p) && EntriesKept(s.procs[pid], p))
  {
    hide Advance, RouteStep, HitlLookupStep, HitlInsertStep;
    match s.procs[pid].pc
    case Route(j, e, row) =>
      RouteAdvance(env, s, pid, c);
      RouteDates(s, pid, j, e, row);
    case HitlLookup(j, e) =>
      HitlLookupAdvance(env, s, pid, c);
      LookupDates(s, pid, j, e, d);
    case HitlInsert(j, e, now) =>
      HitlInsertAdvance(env, s, pid, c);
      InsertDates(env, s, pid, j, e, now, c, d);
  }

  lemma WritingDates(env: Env, s: State, pid: nat, c: Choice, d: Dates)
    requires pid in s.procs && Dated(d, s.procs[pid]) && RowsDated(d, s)
    requires var pc := s.procs[pid].pc; pc.ExpireWrite? || pc.ResolveWrite?
    ensures Arrives(env, s, pid, c, p => Dated(d, p) && EntriesKept(s.procs[pid], p))
  {
    hide Advance;
    if s.procs[pid].pc.ExpireWrite? {
      ExpireWriteAdvance(env, s, pid, c);
    } else {
      ResolveWriteAdvance(env, s, pid, c);
    }
  }

  lemma WaitingKeepsDates(env: Env, s: State, pid: nat, c: Choice)
    requires pid in s.procs
    requires var pc := s.procs[pid].pc;
      pc.Subscribe? || pc.Waiting? || pc.ReadStatus? || pc.Resolving? || pc.ExpireLock?
    ensures Arrives(env, s, pid, c, p => Keeps(s.procs[pid], p))
  {
    hide Advance;
    match s.procs[pid].pc
    case Subscribe(_, _) => SubscribeAdvance(env, s, pid, c);
    case Waiting(_, _, _) => WaitingAdvance(env, s, pid, c);
    case ReadStatus(_, _, _, _) => ReadStatusAdvance(env, s, pid, c);
    case Resolving(_, _, _) => ResolvingAdvance(env, s, pid, c);
    case ExpireLock(_, _) => ExpireLockAdvance(env, s, pid, c);
  }

  lemma AfterInsertsNothing(w: Purpose)
    ensures !After(w).HitlInsert? && (After(w).Committing? ==> NoInsert(After(w).next))
  {
  }

  lemma AppendKeepsDates(env: Env, s: State, pid: nat, w: Purpose)
    requires pid in s.procs
    ensures var t := AppendingStep(env, s, pid, w).value; pid in t.procs && Keeps(s.procs[pid], t.procs[pid])
  {
    hide Seal, ValidName, EventType, EventPayload, EventFor, ActorFor;
  }

  lemma InsertKeepsDates(s: State, pid: nat, w: Purpose, r: AuditLog)
    requires pid in s.procs && s.procs[pid].pc == Inserting(w, r)
    ensures var step := InsertingStep(s, pid, w, r);
      step.Some? ==> pid in step.value.procs && Keeps(s.procs[pid], step.value.procs[pid])
  {
    hide Duplicate, PendingByOther, After, NoInsert;
    AfterInsertsNothing(w);
  }

  lemma ClosingKeepsDates(env: Env, s: State, pid: nat, c: Choice)
    requires pid in s.procs && AppendPc(s.procs[pid].pc)
    ensures Arrives(env, s, pid, c, p => Keeps(s.procs[pid], p))
  {
    hide Advance, AppendingStep, InsertingStep;
    match s.procs[pid].pc
    case ResetCell(_, _, _) => ResetAdvance(env, s, pid, c);
    case Appending(w) =>
      AppendingAdvance(env, s, pid, c);
      AppendKeepsDates(env, s, pid, w);
    case Inserting(w, r) =>
      InsertingAdvance(env, s, pid, c);
      InsertKeepsDates(s, pid, w, r);
  }

  lemma EvaluatingKeepsDates(env: Env, s: State, pid: nat, c: Choice)
    requires Advance(env, s, pid, c).Some?
    requires var pc := s.procs[pid].pc;
      pc.EvalStart? || pc.EvalGet? || pc.EvalSetNx? || pc.EvalGetAgain? || pc.EvalDecide?
    ensures Arrives(env, s, pid, c, p => Keeps(s.procs[pid], p))
  {
    hide RouteStep, HitlLookupStep, HitlInsertStep, SubscribeStep, WaitingStep, ReadStatusStep, ResolvingStep,
      ApprovedReserveStep, ExpireLockStep, ExpireWriteStep, AnsweredStep, OperatingStep, CommitLockStep,
      CommitChargeStep, FailReadStep, FailReleaseStep, UpsertLockStep, UpsertInsertStep, UpsertWriteStep,
      ResolveLockStep, ResolveWriteStep, AdminInsertStep, ResetCellStep, AppendingStep, InsertingStep, CommitTx,
      Decide;
  }

  lemma BudgetKeepsDates(env: Env, s: State, pid: nat, c: Choice)
    requires pid in s.procs && BudgetPc(s.procs[pid].pc)
    ensures Arrives(env, s, pid, c, p => Keeps(s.procs[pid], p))
  {
    hide Advance, Upsert;
    match s.procs[pid].pc
    case UpsertLock(_, _, _) => UpsertLockAdvance(env, s, pid, c);
    case UpsertInsert(_, _, _) => UpsertInsertAdvance(env, s, pid, c);
    case UpsertWrite(_, _, _) => UpsertWriteAdvance(env, s, pid, c);
  }

  lemma ReviewKeepsDates(env: Env, s: State, pid: nat, c: Choice)
    requires pid in s.procs && ReviewPc(s.procs[pid].pc) && !s.procs[pid].pc.ResolveWrite?
    ensures Arrives(env, s, pid, c, p => Keeps(s.procs[pid], p))
  {
    hide Advance;
    match s.procs[pid].pc
    case ResolveLock(_, _, _, _, _) => ResolveLockAdvance(env, s, pid, c);
    case RaiseConflict => ConflictAdvance(env, s, pid, c);
    case Publish(_) => PublishAdvance(env, s, pid, c);
    case AdminInsert(_, _, _) => AdminAdvance(env, s, pid, c);
  }

  lemma AnsweredKeepsDates(env: Env, s: State, pid: nat, c: Choice)
    requires pid in s.procs
    requires var pc := s.procs[pid].pc; pc.ApprovedReserve? || pc.Answered? || pc.Operating?
    ensures Arrives(env, s, pid, c, p => Keeps(s.procs[pid], p))
  {
    hide Advance, Reserve, Approval, LateRefusal;
    match s.procs[pid].pc
    case ApprovedReserve(_, _, _) => ApprovedReserveAdvance(env, s, pid, c);
    case Answered(_, _) => AnsweredAdvance(env, s, pid, c);
    case Operating(_) => OperatingAdvance(env, s, pid, c);
  }

  lemma RecordingKeepsDates(env: Env, s: State, pid: nat, c: Choice)
    requires pid in s.procs
    requires var pc := s.procs[pid].pc; pc.CommitLock? || pc.CommitCharge? || pc.FailRead? || pc.FailRelease?
    ensures Arrives(env, s, pid, c, p => Keeps(s.procs[pid], p))
  {
    hide Advance, Commit, Release;
    match s.procs[pid].pc
    case CommitLock(_) => CommitLockAdvance(env, s, pid, c);
    case CommitCharge(_) => CommitChargeAdvance(env, s, pid, c);
    case FailRead(_, _, _) => FailReadAdvance(env, s, pid, c);
    case FailRelease(_, _, _, _) => FailReleaseAdvance(env, s, pid, c);
  }

  lemma OtherDates(env: Env, s: State, pid: nat, c: Choice)
    requires Advance(env, s, pid, c).Some?
    requires var pc := s.procs[pid].pc;
      !pc.Route? && !pc.HitlLookup? && !pc.HitlInsert? && !pc.ExpireWrite? && !pc.ResolveWrite? && !pc.Committing?
    ensures Arrives(env, s, pid, c, p => Keeps(s.procs[pid], p))
  {
    hide Advance, Keeps;
    AdvanceFrom(env, s, pid, c);
    var pc := s.procs[pid].pc;
    if AppendPc(pc) {
      ClosingKeepsDates(env, s, pid, c);
    } else if BudgetPc(pc) {
      BudgetKeepsDates(env, s, pid, c);
    } else if ReviewPc(pc) {
      ReviewKeepsDates(env, s, pid, c);
    } else if pc.ApprovedReserve? || pc.Answered? || pc.Operating? {
      AnsweredKeepsDates(env, s, pid, c);
    } else if ExecutePc(pc) {
      RecordingKeepsDates(env, s, pid, c);
    } else if WaiterPc(pc) {
      WaitingKeepsDates(env, s, pid, c);
    } else {
      EvaluatingKeepsDates(env, s, pid, c);
    }
  }

  lemma StepDates(env: Env, s: State, pid: nat, c: Choice, d: Dates)
    requires Advance(env, s, pid, c).Some? && AllDated(d, s)
    requires forall key, at :: Looks(s, pid, key, at) ==> d(key, at)
    requires !s.procs[pid].pc.Committing?
    ensures var t := Advance(env, s, pid, c).value;
      pid in t.procs && Dated(d, t.procs[pid]) && EntriesKept(s.procs[pid], t.procs[pid])
  {
    hide Advance, Dated, Keeps, EntriesKept;
    AdvanceFrom(env, s, pid, c);
    var pc := s.procs[pid].pc;
    if pc.Route? || pc.HitlLookup? || pc.HitlInsert? {
      assert pc.HitlLookup? ==> Looks(s, pid, pc.j.intent.key, s.clock);
      RoutingDates(env, s, pid, c, d);
    } else if pc.ExpireWrite? || pc.ResolveWrite? {
      WritingDates(env, s, pid, c, d);
    } else {
      OtherDates(env, s, pid, c);
      KeepsDates(d, s.procs[pid], Advance(env, s, pid, c).value.procs[pid]);
    }
  }

  lemma CommitDates(s: State, pid: nat, next: Pc, d: Dates)
    requires pid in s.procs && s.procs[pid].pc == Committing(next) && AllDated(d, s)
    ensures AllDated(d, CommitTx(s, pid, next))
  {
    assert Dated(d, s.procs[pid]);
  }

  lemma SameRows(env: Env, s: State, t: State, pid: nat)
    requires Good(env, s, t, pid)
    ensures t.hitls == s.hitls
  {
    hide TxOk, PcOk, Alone, QuietHappenings;
    var hs :| GoodStep(env, s, t, pid, hs);
  }

  lemma AdvanceDates(env: Env, s: State, pid: nat, c: Choice, d: Dates)
    requires Inv(env, s) && Advance(env, s, pid, c).Some? && AllDated(d, s)
    requires forall key, at :: Looks(s, pid, key, at) ==> d(key, at)
    ensures AllDated(d, Advance(env, s, pid, c).value)
  {
    hide Inv, Advance, Dated, Good, Known;
    AdvanceFrom(env, s, pid, c);
    if s.procs[pid].pc.Committing? {
      CommitDates(s, pid, s.procs[pid].pc.next, d);
    } else {
      var hs := AdvanceAdds(env, s, pid, c);
      StepDates(env, s, pid, c, d);
      KnownHere(env, s, pid);
      InvTables(env, s);
      AdvanceGood(env, s, pid, c);
      SameRows(env, s, Advance(env, s, pid, c).value, pid);
    }
  }

  lemma DoDates(env: Env, s: State, a: Action, d: Dates)
    requires Inv(env, s) && Do(env, s, a).Some? && AllDated(d, s)
    requires forall key, at :: a.Step? && Looks(s, a.pid, key, at) ==> d(key, at)
    ensures AllDated(d, Do(env, s, a).value)
  {
    hide Inv, Advance, Looks;
    match a
    case Step(pid, c) => AdvanceDates(env, s, pid, c, d);
    case _ =>
  }

  lemma NothingDated(d: Dates)
    ensures AllDated(d, Init())
  {
  }

  lemma {:induction false} RowsAreDated(env: Env, actions: seq<Action>, s: State, d: Dates)
    requires Reaches(env, actions, s)
    requires forall key, at :: Known(env, actions, key, at) ==> d(key, at)
    ensures AllDated(d, s)
  {
    hide Inv, Do, Known, Looks, AllDated;
    if actions == [] {
      NothingDated(d);
    } else {
      var n := |actions| - 1;
      var r := Run(env, actions[..n]).value;
      forall key, at ensures Known(env, actions[..n], key, at) ==> d(key, at)
        ensures actions[n].Step? && Looks(r, actions[n].pid, key, at) ==> d(key, at)
      {
        KnownSnoc(env, actions, key, at);
      }
      RowsAreDated(env, actions[..n], r, d);
      InvariantHolds(env, actions[..n], r);
      DoDates(env, r, actions[n], d);
    }
  }

  // ---------------------------------------------------------------------------------------------
  // What that means for reviewers.
  // ---------------------------------------------------------------------------------------------

  lemma RowTimes(env: Env, s: State, id: string)
    requires Inv(env, s) && id in s.hitls
    ensures s.hitls[id].expiresAt == s.hitls[id].createdAt + env.timeout
  {
    assert RowOk(env, s.clock, s.hitls[id]);
  }

  /** Every row was created when its key was looked up, and is due exactly the timeout after that. */
  lemma RowDueAfterTimeout(env: Env, actions: seq<Action>, s: State, id: string) returns (n: nat)
    requires Reaches(env, actions, s) && id in s.hitls
    ensures n < |actions| && LookedUp(env, actions, n, s.hitls[id].key, s.hitls[id].createdAt)
    ensures s.hitls[id].expiresAt == Run(env, actions[..n]).value.clock + env.timeout
  {
    hide Inv, Run;
    var d: Dates := (key, at) => (key, at) != (s.hitls[id].key, s.hitls[id].createdAt);
    InvariantHolds(env, actions, s);
    if !Known(env, actions, s.hitls[id].key, s.hitls[id].createdAt) {
      RowsAreDated(env, actions, s, d);
    }
    n :| 0 <= n < |actions| && LookedUp(env, actions, n, s.hitls[id].key, s.hitls[id].createdAt);
    RowTimes(env, s, id);
  }

  /** A reviewer who reaches a pending row less than the timeout after the lookup that led to it is in time. */
  lemma PromptResolutionCounts(env: Env, actions: seq<Action>, s: State, pid: nat, c: Choice) returns (n: nat)
    requires Reaches(env, actions, s) && pid in s.procs && s.procs[pid].pc.ResolveWrite?
    requires Advance(env, s, pid, c).Some?
    ensures var pc, t := s.procs[pid].pc, Advance(env, s, pid, c).value;
      && pc.id in s.hitls && pid in t.procs
      && n < |actions| && LookedUp(env, actions, n, s.hitls[pc.id].key, s.hitls[pc.id].createdAt)
      && (s.hitls[pc.id].status == Pending && pc.now < Run(env, actions[..n]).value.clock + env.timeout ==>
        t.procs[pid].pc == Appending(ForResolution(pc.id, pc.approved, pc.comment, pc.actor)))
  {
    hide Advance, Run, LookedUp;
    ResolutionCountsUnlessLate(env, actions, s, pid, c);
    n := RowDueAfterTimeout(env, actions, s, s.procs[pid].pc.id);
  }
}
