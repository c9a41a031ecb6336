/** Every wait for an approval, from its beginning to the end of its run. */
module ProtocolWaits {
  import opened Wrappers
  import opened Schemas
  import Governor
  import opened AuditChain
  import opened Events
  import opened Protocol
  import opened ProtocolInvariant
  import opened ProtocolStability
  import opened ProtocolSteps
  import opened ProtocolRuns
  import opened ProtocolDispatch
  import opened ProtocolTheorems

  /** The approval a run is waiting for, its own expiry of it included. */
  function Awaits(pc: Pc): Option<string>
  {
    match pc
    case Waiting(_, id, _) => Some(id)
    case ReadStatus(_, id, _, _) => Some(id)
    case Resolving(_, id, _) => Some(id)
    case ExpireLock(_, id) => Some(id)
    case ExpireWrite(_, id) => Some(id)
    case ResetCell(_, _, ForExpiry(_, id)) => Some(id)
    case Appending(ForExpiry(_, id)) => Some(id)
    case Inserting(ForExpiry(_, id), _) => Some(id)
    case Committing(Ended(TimedOut(id))) => Some(id)
    case Ended(TimedOut(id)) => Some(id)
    case _ => None
  }

  predicate Recording(w: Purpose) { w.ForCompletion? || w.ForFailure? }

  /** How a run can end once it has read an approval. */
  predicate ApprovedEnding(e: Ending)
  {
    e.Returned? || e.DeniedByPolicy? || e.Finished? || e.OperationRaised? || e.Raised?
  }

  /** The points behind an approval that was read. */
  predicate AfterApproval(pc: Pc)
  {
    match pc
    case ApprovedReserve(_, _, _) => true
    case Answered(_, d) => d.outcome != RequireApproval
    case Operating(_) => true
    case CommitLock(_) => true
    case CommitCharge(_) => true
    case FailRead(_, _, _) => true
    case FailRelease(_, _, _, _) => true
    case ResetCell(_, _, w) => Recording(w)
    case Appending(w) => Recording(w)
    case Inserting(w, _) => Recording(w)
    case Committing(Ended(e)) => ApprovedEnding(e)
    case Ended(e) => ApprovedEnding(e)
    case _ => false
  }

  /** The points behind an operation that has run. */
  predicate Past(pc: Pc) { AfterApproval(pc) && !pc.ApprovedReserve? && !pc.Answered? && !pc.Operating? }

  /** Where a run is after it has read this status. */
  predicate Answers(pc: Pc, id: string, status: Status)
  {
    if status == Approved then AfterApproval(pc) else pc == Ended(AnsweredNo(id, status))
  }

  predicate HeardOf(history: seq<Happening>, pid: nat, id: string)
  {
    exists h | h in history :: h.Heard? && h.pid == pid && h.id == id
  }

  /** A wait once begun goes on, or was answered, or was cut off by an exception. */
  predicate WaitGoesOn(history: seq<Happening>, pid: nat, pc: Pc, id: string)
  {
    Awaits(pc) == Some(id) || HeardOf(history, pid, id) || pc == Ended(Raised)
  }

  predicate TrackOk(history: seq<Happening>, pid: nat, pc: Pc)
  {
    && (forall h | h in history && h.Waited? && h.pid == pid :: WaitGoesOn(history, pid, pc, h.id))
    && (forall h | h in history && h.Heard? && h.pid == pid :: Answers(pc, h.id, h.status))
  }

  predicate Tracked(s: State) { forall pid | pid in s.procs :: TrackOk(s.history, pid, s.procs[pid].pc) }

  // ---------------------------------------------------------------------------------------------
  // One step of the run itself.
  // ---------------------------------------------------------------------------------------------

  ghost predicate Lands(env: Env, s: State, pid: nat, c: Choice, p: Pc -> bool)
  {
    var r := Advance(env, s, pid, c);
    r.Some? ==> pid in r.value.procs && p(r.value.procs[pid].pc)
  }

  /** A run that listens goes on listening, or has something to answer with, or gives up. */
  lemma ListeningGoesOn(env: Env, s: State, pid: nat, c: Choice)
    requires pid in s.procs && (s.procs[pid].pc.Waiting? || s.procs[pid].pc.ReadStatus?)
    ensures Lands(env, s, pid, c, pc => Awaits(pc) == Awaits(s.procs[pid].pc) || pc == Ended(Raised))
  {
    hide Advance;
    if s.procs[pid].pc.Waiting? {
      WaitingAdvance(env, s, pid, c);
    } else {
      ReadStatusAdvance(env, s, pid, c);
    }
  }

  lemma ExpireLockGoesOn(s: State, pid: nat, j: Job, id: string)
    requires pid in s.procs
    ensures var r := ExpireLockStep(s, pid, j, id);
      r.Some? ==> pid in r.value.procs && Awaits(r.value.procs[pid].pc) == Some(id)
  {
  }

  lemma ExpireWriteGoesOn(s: State, pid: nat, j: Job, id: string)
    requires pid in s.procs && id in s.hitls
    ensures var t := ExpireWriteStep(s, pid, j, id).value; pid in t.procs && Awaits(t.procs[pid].pc) == Some(id)
  {
    hide ExpiredAt;
  }

  lemma ExpiryGoesOn(env: Env, s: State, pid: nat, c: Choice)
    requires pid in s.procs && (s.procs[pid].pc.ExpireLock? || s.procs[pid].pc.ExpireWrite?)
    ensures Lands(env, s, pid, c, pc => Awaits(pc) == Awaits(s.procs[pid].pc) || pc == Ended(Raised))
  {
    hide Advance, ExpireLockStep, ExpireWriteStep;
    match s.procs[pid].pc
    case ExpireLock(j, id) =>
      ExpireLockAdvance(env, s, pid, c);
      ExpireLockGoesOn(s, pid, j, id);
    case ExpireWrite(j, id) =>
      ExpireWriteAdvance(env, s, pid, c);
      if id in s.hitls { ExpireWriteGoesOn(s, pid, j, id); }
  }

  // The points every transaction passes at its end.

  predicate Closing(pc: Pc) { pc.ResetCell? || pc.Appending? || pc.Inserting? || pc.Committing? }

  predicate ClosesTo(pc: Pc, next: Pc)
  {
    || next == Ended(Raised)
    || (pc.ResetCell? && next == Appending(pc.w))
    || (pc.Appending? && next.Inserting? && next.w == pc.w)
    || (pc.Inserting? && next == After(pc.w))
    || (pc.Committing? && next == pc.next)
  }

  lemma ResetCloses(s: State, pid: nat, k: BudgetKey, v: int, w: Purpose)
    requires pid in s.procs
    ensures var t := ResetCellStep(s, pid, k, v, w).value;
      pid in t.procs && ClosesTo(ResetCell(k, v, w), t.procs[pid].pc)
  {
  }

  lemma AppendingCloses(env: Env, s: State, pid: nat, w: Purpose)
    requires pid in s.procs
    ensures var t := AppendingStep(env, s, pid, w).value; pid in t.procs && ClosesTo(Appending(w), t.procs[pid].pc)
  {
    hide Seal, ValidName, EventType, EventPayload, EventFor, ActorFor;
  }

  lemma InsertingCloses(s: State, pid: nat, w: Purpose, r: AuditLog)
    requires pid in s.procs
    ensures var step := InsertingStep(s, pid, w, r);
      step.Some? ==> pid in step.value.procs && ClosesTo(Inserting(w, r), step.value.procs[pid].pc)
  {
    hide After, PendingByOther, Duplicate;
  }

  lemma CommittingCloses(next: Pc)
    ensures ClosesTo(Committing(next), next)
  {
  }

  lemma ClosingCloses(env: Env, s: State, pid: nat, c: Choice)
    requires pid in s.procs && Closing(s.procs[pid].pc)
    ensures Lands(env, s, pid, c, pc => ClosesTo(s.procs[pid].pc, pc))
  {
    hide Advance, ClosesTo, ResetCellStep, AppendingStep, InsertingStep, Published;
    match s.procs[pid].pc
    case ResetCell(k, v, w) =>
      ResetAdvance(env, s, pid, c);
      ResetCloses(s, pid, k, v, w);
    case Appending(w) =>
      AppendingAdvance(env, s, pid, c);
      AppendingCloses(env, s, pid, w);
    case Inserting(w, r) =>
      InsertingAdvance(env, s, pid, c);
      InsertingCloses(s, pid, w, r);
    case Committing(next) =>
      CommittingAdvance(env, s, pid, c);
      CommittingCloses(next);
  }

  lemma ClosingAwaits(pc: Pc, next: Pc)
    requires Closing(pc) && ClosesTo(pc, next)
    ensures Awaits(pc).Some? ==> Awaits(next) == Awaits(pc) || next == Ended(Raised)
    ensures AfterApproval(pc) ==> AfterApproval(next)
    ensures Past(pc) ==> Past(next)
  {
  }

  lemma ResolvingAnswers(env: Env, s: State, pid: nat, c: Choice)
    requires pid in s.procs && s.procs[pid].pc.Resolving?
    ensures Lands(env, s, pid, c, pc => Answers(pc, s.procs[pid].pc.id, s.procs[pid].pc.status))
    ensures var r := Advance(env, s, pid, c);
      r.Some? && HeardOf(r.value.history, pid, s.procs[pid].pc.id)
  {
    hide Advance;
    ResolvingAdvance(env, s, pid, c);
    var pc := s.procs[pid].pc;
    assert Heard(pid, pc.id, pc.status) in ResolvingStep(s, pid, pc.j, pc.id, pc.status).value.history;
  }

  lemma SubscribeWaits(env: Env, s: State, pid: nat, c: Choice)
    requires pid in s.procs && s.procs[pid].pc.Subscribe?
    ensures Lands(env, s, pid, c, pc => Awaits(pc) == Some(s.procs[pid].pc.id))
  {
    hide Advance;
    SubscribeAdvance(env, s, pid, c);
  }

  lemma WaitingGoesOn(env: Env, s: State, pid: nat, c: Choice)
    requires Advance(env, s, pid, c).Some? && Awaits(s.procs[pid].pc).Some?
    ensures var t, id := Advance(env, s, pid, c).value, Awaits(s.procs[pid].pc).value;
      pid in t.procs && WaitGoesOn(t.history, pid, t.procs[pid].pc, id)
  {
    hide Advance, HeardOf;
    AdvanceFrom(env, s, pid, c);
    var pc := s.procs[pid].pc;
    if pc.Waiting? || pc.ReadStatus? {
      ListeningGoesOn(env, s, pid, c);
    } else if pc.Resolving? {
      ResolvingAnswers(env, s, pid, c);
    } else if pc.ExpireLock? || pc.ExpireWrite? {
      ExpiryGoesOn(env, s, pid, c);
    } else {
      ClosingCloses(env, s, pid, c);
      ClosingAwaits(pc, Advance(env, s, pid, c).value.procs[pid].pc);
    }
  }

  lemma ApprovedReserveGoesOn(s: State, pid: nat, j: Job, id: string, row: Option<Governor.Budget>, k: BudgetKey)
    requires pid in s.procs && j.intent.amount.Some?
    ensures var t := ApprovedReserveStep(s, pid, j, id, row, k).value; pid in t.procs && AfterApproval(t.procs[pid].pc)
  {
    hide Governor.Reserve;
  }

  lemma AnsweredStepGoesOn(s: State, pid: nat, j: Job, d: PolicyDecision, c: Choice)
    requires pid in s.procs && d.outcome != RequireApproval
    ensures var t := AnsweredStep(s, pid, j, d).value; pid in t.procs && AfterApproval(t.procs[pid].pc)
    ensures var t := OperatingStep(s, pid, j, c).value; pid in t.procs && AfterApproval(t.procs[pid].pc)
  {
  }

  lemma AnsweredGoesOn(env: Env, s: State, pid: nat, c: Choice)
    requires pid in s.procs && AfterApproval(s.procs[pid].pc)
    requires var pc := s.procs[pid].pc; pc.ApprovedReserve? || pc.Answered? || pc.Operating?
    ensures Lands(env, s, pid, c, AfterApproval)
  {
    hide Advance, ApprovedReserveStep, AnsweredStep, OperatingStep;
    match s.procs[pid].pc
    case ApprovedReserve(j, id, row) =>
      ApprovedReserveAdvance(env, s, pid, c);
      if KeyOf(j.intent).Some? { ApprovedReserveGoesOn(s, pid, j, id, row, KeyOf(j.intent).value); }
    case Answered(j, d) =>
      AnsweredAdvance(env, s, pid, c);
      AnsweredStepGoesOn(s, pid, j, d, c);
    case Operating(j) =>
      OperatingAdvance(env, s, pid, c);
      AnsweredStepGoesOn(s, pid, j, Approval(""), c);
  }

  lemma CommitChargeGoesOn(s: State, pid: nat, j: Job, k: BudgetKey)
    requires pid in s.procs && j.intent.amount.Some?
    ensures var t := CommitChargeStep(s, pid, j, k).value; pid in t.procs && Past(t.procs[pid].pc)
  {
    hide Governor.Commit;
  }

  lemma CommitLockGoesOn(s: State, pid: nat, j: Job)
    requires pid in s.procs
    ensures var r := CommitLockStep(s, pid, j); r.Some? ==> pid in r.value.procs && Past(r.value.procs[pid].pc)
  {
    hide HeldByOther;
  }

  lemma FailReadGoesOn(s: State, pid: nat, j: Job, errorType: string, error: string)
    requires pid in s.procs
    ensures var t := FailReadStep(s, pid, j, errorType, error).value; pid in t.procs && Past(t.procs[pid].pc)
  {
  }

  lemma FailReleaseGoesOn(
      s: State, pid: nat, j: Job, row: Option<Governor.Budget>, errorType: string, error: string, k: BudgetKey)
    requires pid in s.procs && j.intent.amount.Some?
    ensures var t := FailReleaseStep(s, pid, j, row, errorType, error, k).value;
      pid in t.procs && Past(t.procs[pid].pc)
  {
    hide Governor.Release;
  }

  lemma RecordingGoesOn(env: Env, s: State, pid: nat, c: Choice)
    requires pid in s.procs
    requires var pc := s.procs[pid].pc; pc.CommitLock? || pc.CommitCharge? || pc.FailRead? || pc.FailRelease?
    ensures Lands(env, s, pid, c, Past)
  {
    hide Advance, CommitLockStep, CommitChargeStep, FailReadStep, FailReleaseStep;
    match s.procs[pid].pc
    case CommitLock(j) =>
      CommitLockAdvance(env, s, pid, c);
      CommitLockGoesOn(s, pid, j);
    case CommitCharge(j) =>
      CommitChargeAdvance(env, s, pid, c);
      if KeyOf(j.intent).Some? { CommitChargeGoesOn(s, pid, j, KeyOf(j.intent).value); }
    case FailRead(j, errorType, error) =>
      FailReadAdvance(env, s, pid, c);
      FailReadGoesOn(s, pid, j, errorType, error);
    case FailRelease(j, row, errorType, error) =>
      FailReleaseAdvance(env, s, pid, c);
      if KeyOf(j.intent).Some? { FailReleaseGoesOn(s, pid, j, row, errorType, error, KeyOf(j.intent).value); }
  }

  lemma ApprovalGoesOn(env: Env, s: State, pid: nat, c: Choice)
    requires Advance(env, s, pid, c).Some? && AfterApproval(s.procs[pid].pc)
    ensures var t := Advance(env, s, pid, c).value; pid in t.procs && AfterApproval(t.procs[pid].pc)
  {
    hide Advance;
    AdvanceFrom(env, s, pid, c);
    var pc := s.procs[pid].pc;
    if pc.ApprovedReserve? || pc.Answered? || pc.Operating? {
      AnsweredGoesOn(env, s, pid, c);
    } else if pc.CommitLock? || pc.CommitCharge? || pc.FailRead? || pc.FailRelease? {
      RecordingGoesOn(env, s, pid, c);
    } else {
      ClosingCloses(env, s, pid, c);
      ClosingAwaits(pc, Advance(env, s, pid, c).value.procs[pid].pc);
    }
  }

  // ---------------------------------------------------------------------------------------------
  // Over runs.
  // ---------------------------------------------------------------------------------------------

  predicate AtCommit(s: State, pid: nat, es: seq<AuditLog>)
  {
    pid in s.procs && s.procs[pid].pc.Committing? && s.procs[pid].tx.entries == es
  }

  /** What one step adds to the history, and whose it is. */
  ghost predicate Adds(s: State, t: State, pid: nat, hs: seq<Happening>)
  {
    && pid in t.procs && t.procs == s.procs[pid := t.procs[pid]] && t.history == s.history + hs
    && forall h | h in hs ::
      && h.pid == pid
      && (h.Committed? ==> AtCommit(s, pid, h.entries))
      && (h.Operated? ==> AtOperating(s, pid, h.j))
      && (h.Waited? ==> AtSubscribe(s, pid, h.id))
      && (h.Heard? ==> AtResolving(s, pid, h.id, h.status))
  }

  lemma GoodAdds(env: Env, s: State, t: State, pid: nat) returns (hs: seq<Happening>)
    requires Good(env, s, t, pid)
    ensures Adds(s, t, pid, hs)
  {
    hide TxOk, PcOk, Alone, Authorized;
    hs :| GoodStep(env, s, t, pid, hs);
  }

  lemma AdvanceAdds(env: Env, s: State, pid: nat, c: Choice) returns (hs: seq<Happening>)
    requires Inv(env, s) && Advance(env, s, pid, c).Some?
    ensures Adds(s, Advance(env, s, pid, c).value, pid, hs)
  {
    hide Inv, Good, Advance;
    AdvanceFrom(env, s, pid, c);
    if s.procs[pid].pc.Committing? {
      hs := [Committed(pid, s.procs[pid].tx.entries)];
    } else {
      KnownHere(env, s, pid);
      InvTables(env, s);
      AdvanceGood(env, s, pid, c);
      hs := GoodAdds(env, s, Advance(env, s, pid, c).value, pid);
    }
  }

  lemma OthersTracked(s: State, t: State, pid: nat, hs: seq<Happening>, q: nat)
    requires Adds(s, t, pid, hs) && q in s.procs && q != pid && TrackOk(s.history, q, s.procs[q].pc)
    ensures TrackOk(t.history, q, t.procs[q].pc)
  {
    hide Awaits, Answers;
    forall h | h in t.history && h.pid == q ensures h in s.history {
    }
  }

  lemma SelfTracked(env: Env, s: State, pid: nat, c: Choice, hs: seq<Happening>)
    requires Advance(env, s, pid, c).Some? && Adds(s, Advance(env, s, pid, c).value, pid, hs)
    requires pid in s.procs && TrackOk(s.history, pid, s.procs[pid].pc)
    ensures TrackOk(Advance(env, s, pid, c).value.history, pid, Advance(env, s, pid, c).value.procs[pid].pc)
  {
    hide Advance, Awaits, AfterApproval;
    AdvanceFrom(env, s, pid, c);
    var pc, t := s.procs[pid].pc, Advance(env, s, pid, c).value;
    forall h | h in t.history && h.Waited? && h.pid == pid ensures WaitGoesOn(t.history, pid, t.procs[pid].pc, h.id) {
      if h in s.history {
        if Awaits(pc) == Some(h.id) { WaitingGoesOn(env, s, pid, c); }
      } else {
        SubscribeWaits(env, s, pid, c);
      }
    }
    forall h | h in t.history && h.Heard? && h.pid == pid ensures Answers(t.procs[pid].pc, h.id, h.status) {
      if h in s.history {
        ApprovalGoesOn(env, s, pid, c);
      } else {
        ResolvingAnswers(env, s, pid, c);
      }
    }
  }

  lemma AdvanceTracks(env: Env, s: State, pid: nat, c: Choice)
    requires Inv(env, s) && Tracked(s) && Advance(env, s, pid, c).Some?
    ensures Tracked(Advance(env, s, pid, c).value)
  {
    hide Inv, Advance, TrackOk;
    AdvanceFrom(env, s, pid, c);
    var hs := AdvanceAdds(env, s, pid, c);
    var t := Advance(env, s, pid, c).value;
    SelfTracked(env, s, pid, c, hs);
    forall q | q in t.procs && q != pid ensures TrackOk(t.history, q, t.procs[q].pc) {
      OthersTracked(s, t, pid, hs, q);
    }
  }

  lemma HappeningKnown(env: Env, s: State, h: Happening)
    requires Inv(env, s) && h in s.history
    ensures h.pid in s.procs && (h.Heard? ==> DecidedAs(s.hitls, h.id, h.status))
  {
    hide Authorized, AllEarned;
    var n :| 0 <= n < |s.history| && s.history[n] == h;
    assert HappeningOk(s, n);
  }

  lemma SpawnTracks(env: Env, s: State, pid: nat, pc: Pc)
    requires Inv(env, s) && Tracked(s) && pid !in s.procs
    ensures Tracked(Enter(s, pid, Proc(pc, NO_TX)))
  {
    hide Inv;
    forall h | h in s.history ensures h.pid != pid {
      HappeningKnown(env, s, h);
    }
  }

  /** A run that is cut off has not answered with a refusal yet. */
  lemma CrashTracks(s: State, pid: nat)
    requires Tracked(s) && pid in s.procs && !s.procs[pid].pc.Ended?
    ensures Tracked(Abort(s, pid))
  {
    assert TrackOk(s.history, pid, s.procs[pid].pc);
  }

  lemma DoTracks(env: Env, s: State, a: Action)
    requires Inv(env, s) && Tracked(s) && Do(env, s, a).Some?
    ensures Tracked(Do(env, s, a).value)
  {
    hide Inv, Advance, TrackOk;
    match a
    case Spawn(pid, pc) => SpawnTracks(env, s, pid, pc);
    case Step(pid, c) => AdvanceTracks(env, s, pid, c);
    case Crash(pid) => CrashTracks(s, pid);
    case Tick(_) =>
    case Havoc(_, _) =>
  }

  lemma InitTracked()
    ensures Tracked(Init())
  {
  }

  lemma {:induction false} WaitsTracked(env: Env, actions: seq<Action>, s: State)
    requires Reaches(env, actions, s)
    ensures Tracked(s)
  {
    hide Inv, Do;
    if actions == [] {
      InitTracked();
    } else {
      var n := |actions| - 1;
      var r := Run(env, actions[..n]).value;
      WaitsTracked(env, actions[..n], r);
      InvariantHolds(env, actions[..n], r);
      DoTracks(env, r, actions[n]);
    }
  }

  // ---------------------------------------------------------------------------------------------
  // What that means for waiters.
  // ---------------------------------------------------------------------------------------------

  /** Every status a waiter ever answered with is the status of its row, and stays it. */
  lemma HeardIsFinal(env: Env, actions: seq<Action>, s: State, pid: nat, id: string, status: Status)
    requires Reaches(env, actions, s) && Heard(pid, id, status) in s.history
    ensures Terminal(status) && id in s.hitls && s.hitls[id].status == status
  {
    hide Inv;
    InvariantHolds(env, actions, s);
    HappeningKnown(env, s, Heard(pid, id, status));
  }

  /** Any two waiters of one row that answered, answered with one status. */
  lemma AnswersAgree(env: Env, actions: seq<Action>, s: State, p: nat, q: nat, id: string, x: Status, y: Status)
    requires Reaches(env, actions, s) && Heard(p, id, x) in s.history && Heard(q, id, y) in s.history
    ensures x == y
  {
    HeardIsFinal(env, actions, s, p, id, x);
    HeardIsFinal(env, actions, s, q, id, y);
  }

  /** A run that read a refusal ends with it; one that read an approval ends in none of the waiter's exceptions. */
  lemma AnswerFollowsStatus(env: Env, actions: seq<Action>, s: State, pid: nat, id: string, status: Status)
    requires Reaches(env, actions, s) && Heard(pid, id, status) in s.history
    ensures pid in s.procs && (status != Approved ==> s.procs[pid].pc == Ended(AnsweredNo(id, status)))
    ensures status == Approved && s.procs[pid].pc.Ended? ==> ApprovedEnding(s.procs[pid].pc.e)
  {
    hide Inv, WaitGoesOn;
    WaitsTracked(env, actions, s);
    InvariantHolds(env, actions, s);
    HappeningKnown(env, s, Heard(pid, id, status));
    assert TrackOk(s.history, pid, s.procs[pid].pc);
  }

  /** The wait was cut off by an exception before any answer was read. */
  predicate CutOff(s: State, pid: nat, id: string)
    requires pid in s.procs
  {
    s.procs[pid].pc == Ended(Raised) && !HeardOf(s.history, pid, id)
  }

  lemma TimedOutPc(env: Env, s: State, pid: nat, tx: Tx, id: string)
    requires PcOk(env, s, pid, tx, Ended(TimedOut(id)))
    ensures id in s.hitls && Terminal(s.hitls[id].status)
  {
  }

  lemma TimeoutDecides(env: Env, actions: seq<Action>, s: State, pid: nat, id: string)
    requires Reaches(env, actions, s) && pid in s.procs && s.procs[pid].pc == Ended(TimedOut(id))
    ensures id in s.hitls && Terminal(s.hitls[id].status)
  {
    hide Inv, PcOk, TxOk;
    InvariantHolds(env, actions, s);
    LocalHere(env, s, pid);
    TimedOutPc(env, s, pid, s.procs[pid].tx, id);
  }

  /** However a run that waited for an approval has ended, the row is decided, unless the wait itself was cut off. */
  lemma EndedOrCutOff(env: Env, actions: seq<Action>, s: State, pid: nat, id: string)
    requires Reaches(env, actions, s) && Waited(pid, id) in s.history
    requires pid in s.procs && s.procs[pid].pc.Ended?
    ensures CutOff(s, pid, id) || (id in s.hitls && Terminal(s.hitls[id].status))
  {
    WaitsTracked(env, actions, s);
    assert TrackOk(s.history, pid, s.procs[pid].pc);
    assert WaitGoesOn(s.history, pid, s.procs[pid].pc, id);
    if HeardOf(s.history, pid, id) {
      var h :| h in s.history && h.Heard? && h.pid == pid && h.id == id;
      HeardIsFinal(env, actions, s, pid, id, h.status);
    } else if s.procs[pid].pc != Ended(Raised) {
      TimeoutDecides(env, actions, s, pid, id);
    }
  }

  /** A run that goes by an approval has it, from its answer to its last entry, and so has the decision it returns. */
  lemma ApprovalStands(env: Env, actions: seq<Action>, s: State, pid: nat)
    requires Reaches(env, actions, s) && pid in s.procs
    ensures var pc := s.procs[pid].pc;
      && (ExecutePc(pc) && pc.j.via.Some? ==> ApprovedRow(s.hitls, pc.j.via.value, pc.j.intent.key))
      && (pc.Answered? ==> pc.d.hitlId == pc.j.via)
      && (pc.Ended? && pc.e.Returned? && pc.e.d.hitlId.Some? ==>
        pc.e.d.hitlId.value in s.hitls && s.hitls[pc.e.d.hitlId.value].status == Approved)
  {
    hide Inv, TxOk, Authorized, OperatedIn;
    InvariantHolds(env, actions, s);
    LocalHere(env, s, pid);
  }
}
