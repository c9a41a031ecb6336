/** Why a wait for an approval can end without an answer. */
module ProtocolCuts {
  import opened Wrappers
  import opened Schemas
  import opened Governor
  import opened PolicyRules
  import opened AuditChain
  import opened Events
  import opened Protocol
  import opened ProtocolInvariant
  import opened ProtocolStability
  import opened ProtocolRuns
  import opened ProtocolDispatch
  import opened ProtocolTheorems
  import opened ProtocolWaits

  // ---------------------------------------------------------------------------------------------
  // Whoever waits has been recorded before, under a name the log accepts.
  // ---------------------------------------------------------------------------------------------

  predicate OfWaiter(w: Purpose) { w.ForRequest? || w.ForExpiry? }

  predicate Vouched(pc: Pc)
  {
    match pc
    case Route(j, _, _) => ValidName(j.actor)
    case HitlLookup(j, _) => ValidName(j.actor)
    case HitlInsert(j, _, _) => ValidName(j.actor)
    case Subscribe(j, _) => ValidName(j.actor)
    case Waiting(j, _, _) => ValidName(j.actor)
    case ReadStatus(j, _, _, _) => ValidName(j.actor)
    case ExpireLock(j, _) => ValidName(j.actor)
    case ExpireWrite(j, _) => ValidName(j.actor)
    case ResetCell(_, _, w) => !OfWaiter(w)
    case Appending(w) => OfWaiter(w) ==> ValidName(w.j.actor)
    case Inserting(w, _) => w.ForEvaluation? || OfWaiter(w) ==> ValidName(w.j.actor)
    case Committing(next) => Vouched(next)
    case _ => true
  }

  lemma RouteVouched(s: State, pid: nat, j: Job, d: PolicyDecision, row: Option<Budget>)
    requires pid in s.procs && ValidName(j.actor)
    ensures var t := RouteStep(s, pid, j, d, row).value; pid in t.procs && Vouched(t.procs[pid].pc)
  {
    hide Reserve, Refusal, ValidName;
  }

  lemma RoutingVouched(env: Env, s: State, pid: nat, c: Choice)
    requires pid in s.procs && Vouched(s.procs[pid].pc)
    requires var pc := s.procs[pid].pc; pc.Route? || pc.HitlLookup? || pc.HitlInsert?
    ensures Lands(env, s, pid, c, Vouched)
  {
    hide Advance, RouteStep, ValidName, Opened;
    match s.procs[pid].pc
    case Route(j, d, row) =>
      RouteAdvance(env, s, pid, c);
      RouteVouched(s, pid, j, d, row);
    case HitlLookup(_, _) => HitlLookupAdvance(env, s, pid, c);
    case HitlInsert(_, _, _) => HitlInsertAdvance(env, s, pid, c);
  }

  lemma WaitingVouched(env: Env, s: State, pid: nat, c: Choice)
    requires pid in s.procs && Vouched(s.procs[pid].pc)
    requires var pc := s.procs[pid].pc;
      pc.Subscribe? || pc.Waiting? || pc.ReadStatus? || pc.ExpireLock? || pc.ExpireWrite?
    ensures Lands(env, s, pid, c, Vouched)
  {
    hide Advance, ValidName, ExpiredAt;
    match s.procs[pid].pc
    case Subscribe(_, _) => SubscribeAdvance(env, s, pid, c);
    case Waiting(_, _, _) => WaitingAdvance(env, s, pid, c);
    case ReadStatus(_, _, _, _) => ReadStatusAdvance(env, s, pid, c);
    case ExpireLock(_, _) => ExpireLockAdvance(env, s, pid, c);
    case ExpireWrite(_, _) => ExpireWriteAdvance(env, s, pid, c);
  }

  lemma AppendingVouched(env: Env, s: State, pid: nat, w: Purpose)
    requires pid in s.procs && Vouched(Appending(w))
    ensures var t := AppendingStep(env, s, pid, w).value; pid in t.procs && Vouched(t.procs[pid].pc)
  {
    hide Seal, ValidName, EventType, EventPayload;
  }

  lemma ClosingVouched(env: Env, s: State, pid: nat, c: Choice)
    requires pid in s.procs && Vouched(s.procs[pid].pc) && Closing(s.procs[pid].pc)
    ensures Lands(env, s, pid, c, Vouched)
  {
    hide Advance, ValidName, AppendingStep, InsertingStep, Published;
    match s.procs[pid].pc
    case ResetCell(_, _, _) => ResetAdvance(env, s, pid, c);
    case Appending(w) =>
      AppendingAdvance(env, s, pid, c);
      AppendingVouched(env, s, pid, w);
    case Inserting(w, r) =>
      InsertingAdvance(env, s, pid, c);
      InsertingCloses(s, pid, w, r);
    case Committing(_) => CommittingAdvance(env, s, pid, c);
  }

  // All other points lead to points about which nothing is claimed.

  lemma EvaluatingVouched(env: Env, s: State, pid: nat, c: Choice)
    requires Advance(env, s, pid, c).Some?
    requires var pc := s.procs[pid].pc;
      pc.EvalStart? || pc.EvalGet? || pc.EvalSetNx? || pc.EvalGetAgain? || pc.EvalDecide?
    ensures Lands(env, s, pid, c, Vouched)
  {
    hide RouteStep, HitlLookupStep, HitlInsertStep, SubscribeStep, WaitingStep, ReadStatusStep, ResolvingStep,
      ApprovedReserveStep, ExpireLockStep, ExpireWriteStep, AnsweredStep, OperatingStep, CommitLockStep,
      CommitChargeStep, FailReadStep, FailReleaseStep, UpsertLockStep, UpsertInsertStep, UpsertWriteStep,
      ResolveLockStep, ResolveWriteStep, AdminInsertStep, ResetCellStep, AppendingStep, InsertingStep, CommitTx,
      Decide, ValidName;
  }

  lemma BudgetVouched(env: Env, s: State, pid: nat, c: Choice)
    requires Advance(env, s, pid, c).Some? && BudgetPc(s.procs[pid].pc)
    ensures Lands(env, s, pid, c, Vouched)
  {
    hide EvalStartStep, EvalGetStep, EvalSetNxStep, EvalGetAgainStep, EvalDecideStep, RouteStep, HitlLookupStep,
      HitlInsertStep, SubscribeStep, WaitingStep, ReadStatusStep, ResolvingStep, ApprovedReserveStep, ExpireLockStep,
      ExpireWriteStep, AnsweredStep, OperatingStep, CommitLockStep, CommitChargeStep, FailReadStep, FailReleaseStep,
      ResolveLockStep, ResolveWriteStep, AdminInsertStep, ResetCellStep, AppendingStep, InsertingStep, CommitTx,
      Upsert, ValidName;
  }

  lemma ReviewVouched(env: Env, s: State, pid: nat, c: Choice)
    requires pid in s.procs && ReviewPc(s.procs[pid].pc)
    ensures Lands(env, s, pid, c, Vouched)
  {
    hide Advance, Resolved, ExpiredAt, ValidName;
    match s.procs[pid].pc
    case ResolveLock(_, _, _, _, _) => ResolveLockAdvance(env, s, pid, c);
    case ResolveWrite(_, _, _, _, _) => ResolveWriteAdvance(env, s, pid, c);
    case RaiseConflict => ConflictAdvance(env, s, pid, c);
    case Publish(_) => PublishAdvance(env, s, pid, c);
    case AdminInsert(_, _, _) => AdminAdvance(env, s, pid, c);
  }

  lemma ApprovedVouched(pc: Pc)
    requires AfterApproval(pc)
    ensures Vouched(pc)
  {
    hide ValidName;
  }

  lemma AnsweredVouched(env: Env, s: State, pid: nat, c: Choice)
    requires Advance(env, s, pid, c).Some? && pid in s.procs
    requires var pc := s.procs[pid].pc; ExecutePc(pc) || pc.ApprovedReserve? || pc.Resolving?
    ensures Lands(env, s, pid, c, Vouched)
  {
    hide Advance, ValidName;
    var pc := s.procs[pid].pc;
    if pc.Answered? && pc.d.outcome == RequireApproval {
      AnsweredAdvance(env, s, pid, c);
    } else if pc.Resolving? {
      ResolvingAdvance(env, s, pid, c);
    } else {
      ApprovalGoesOn(env, s, pid, c);
      ApprovedVouched(Advance(env, s, pid, c).value.procs[pid].pc);
    }
  }

  lemma AdvanceVouched(env: Env, s: State, pid: nat, c: Choice)
    requires Advance(env, s, pid, c).Some? && Vouched(s.procs[pid].pc)
    ensures Lands(env, s, pid, c, Vouched)
  {
    hide Advance, Vouched;
    AdvanceFrom(env, s, pid, c);
    var pc := s.procs[pid].pc;
    if Closing(pc) {
      ClosingVouched(env, s, pid, c);
    } else if pc.Route? || pc.HitlLookup? || pc.HitlInsert? {
      RoutingVouched(env, s, pid, c);
    } else if ExecutePc(pc) || pc.ApprovedReserve? || pc.Resolving? {
      AnsweredVouched(env, s, pid, c);
    } else if BudgetPc(pc) {
      BudgetVouched(env, s, pid, c);
    } else if ReviewPc(pc) {
      ReviewVouched(env, s, pid, c);
    } else if pc.EvalStart? || pc.EvalGet? || pc.EvalSetNx? || pc.EvalGetAgain? || pc.EvalDecide? {
      EvaluatingVouched(env, s, pid, c);
    } else {
      WaitingVouched(env, s, pid, c);
    }
  }

  predicate AllVouched(s: State) { forall pid | pid in s.procs :: Vouched(s.procs[pid].pc) }

  lemma DoVouched(env: Env, s: State, a: Action)
    requires Inv(env, s) && AllVouched(s) && Do(env, s, a).Some?
    ensures AllVouched(Do(env, s, a).value)
  {
    hide Inv, Advance;
    match a
    case Step(pid, c) =>
      hide Vouched;
      AdvanceFrom(env, s, pid, c);
      var hs := AdvanceAdds(env, s, pid, c);
      AdvanceVouched(env, s, pid, c);
    case _ =>
  }

  lemma {:induction false} WaitersVouched(env: Env, actions: seq<Action>, s: State)
    requires Reaches(env, actions, s)
    ensures AllVouched(s)
  {
    hide Inv, Do, Vouched;
    if actions != [] {
      var n := |actions| - 1;
      var r := Run(env, actions[..n]).value;
      WaitersVouched(env, actions[..n], r);
      InvariantHolds(env, actions[..n], r);
      DoVouched(env, r, actions[n]);
    }
  }

  // ---------------------------------------------------------------------------------------------
  // The two causes.
  // ---------------------------------------------------------------------------------------------

  /** The guard of the insertion that fails: another commit has taken the number, or the hash, of the entry. */
  predicate Overtaken(s: State, pc: Pc) { pc.Inserting? && Duplicate(s.log, pc.record) }

  lemma ListenerRow(env: Env, s: State, pid: nat, tx: Tx, pc: Pc)
    requires pc.ReadStatus? && PcOk(env, s, pid, tx, pc)
    ensures pc.id in s.hitls
  {
  }

  lemma ListeningNeverRaises(env: Env, s: State, pid: nat, c: Choice)
    requires pid in s.procs && (s.procs[pid].pc.Waiting? || s.procs[pid].pc.ReadStatus?)
    requires s.procs[pid].pc.ReadStatus? ==> s.procs[pid].pc.id in s.hitls
    ensures Lands(env, s, pid, c, pc => pc != Ended(Raised))
  {
    hide Advance;
    if s.procs[pid].pc.Waiting? {
      WaitingAdvance(env, s, pid, c);
    } else {
      ReadStatusAdvance(env, s, pid, c);
    }
  }

  lemma AnsweringNeverRaises(env: Env, s: State, pid: nat, c: Choice)
    requires pid in s.procs
    requires var pc := s.procs[pid].pc; pc.Resolving? || pc.ExpireLock? || pc.ExpireWrite?
    ensures Lands(env, s, pid, c, pc => pc != Ended(Raised))
  {
    hide Advance, ExpiredAt;
    match s.procs[pid].pc
    case Resolving(_, _, _) => ResolvingAdvance(env, s, pid, c);
    case ExpireLock(_, _) => ExpireLockAdvance(env, s, pid, c);
    case ExpireWrite(_, _) => ExpireWriteAdvance(env, s, pid, c);
  }

  lemma AppendingRaises(env: Env, s: State, pid: nat, w: Purpose)
    requires pid in s.procs
    ensures var t := AppendingStep(env, s, pid, w).value;
      pid in t.procs && (t.procs[pid].pc == Ended(Raised) <==>
        !ValidName(ActorFor(w)) || !ValidName(EventType(EventFor(w))))
  {
    hide Seal, ValidName, EventType, EventPayload, EventFor, ActorFor;
  }

  lemma InsertingRaises(env: Env, s: State, pid: nat, c: Choice)
    requires Advance(env, s, pid, c).Some? && pid in s.procs && s.procs[pid].pc.Inserting?
    ensures var t := Advance(env, s, pid, c).value;
      pid in t.procs && (t.procs[pid].pc == Ended(Raised) <==> Overtaken(s, s.procs[pid].pc))
  {
    hide Advance, PendingByOther, Duplicate;
    InsertingAdvance(env, s, pid, c);
  }

  lemma ExpiryNamed(w: Purpose)
    requires w.ForExpiry?
    ensures ValidName(EventType(EventFor(w))) && ActorFor(w) == w.j.actor
  {
    assert |"hitl_expired"| == 12;
  }

  /** An expiry that closes raises at its insertion or not at all. */
  lemma ExpiryRaises(env: Env, s: State, pid: nat, c: Choice)
    requires Advance(env, s, pid, c).Some? && pid in s.procs && Vouched(s.procs[pid].pc)
    requires Closing(s.procs[pid].pc) && Awaits(s.procs[pid].pc).Some?
    ensures var t := Advance(env, s, pid, c).value;
      pid in t.procs && (t.procs[pid].pc == Ended(Raised) <==> Overtaken(s, s.procs[pid].pc))
  {
    hide Advance, AppendingStep, ValidName, Duplicate;
    match s.procs[pid].pc
    case Appending(w) =>
      AppendingAdvance(env, s, pid, c);
      AppendingRaises(env, s, pid, w);
      ExpiryNamed(w);
    case Inserting(w, r) => InsertingRaises(env, s, pid, c);
    case Committing(_) => CommittingAdvance(env, s, pid, c);
  }

  lemma AwaitingRaises(env: Env, s: State, pid: nat, c: Choice)
    requires Inv(env, s) && AllVouched(s) && Advance(env, s, pid, c).Some?
    requires pid in s.procs && Awaits(s.procs[pid].pc).Some?
    ensures var t := Advance(env, s, pid, c).value;
      pid in t.procs && (t.procs[pid].pc == Ended(Raised) <==> Overtaken(s, s.procs[pid].pc))
  {
    hide Inv, Advance, Vouched, PcOk, TxOk, Duplicate;
    AdvanceFrom(env, s, pid, c);
    var pc := s.procs[pid].pc;
    if pc.Waiting? || pc.ReadStatus? {
      LocalHere(env, s, pid);
      if pc.ReadStatus? { ListenerRow(env, s, pid, s.procs[pid].tx, pc); }
      ListeningNeverRaises(env, s, pid, c);
    } else if pc.Resolving? || pc.ExpireLock? || pc.ExpireWrite? {
      AnsweringNeverRaises(env, s, pid, c);
    } else {
      ExpiryRaises(env, s, pid, c);
    }
  }

  /** A step of an awaiting run raises if and only if its expiry has been overtaken. */
  lemma RaisesIffOvertaken(env: Env, actions: seq<Action>, s: State, pid: nat, c: Choice)
    requires Reaches(env, actions, s) && Advance(env, s, pid, c).Some?
    requires pid in s.procs && Awaits(s.procs[pid].pc).Some?
    ensures var t := Advance(env, s, pid, c).value;
      pid in t.procs && (t.procs[pid].pc == Ended(Raised) <==> Overtaken(s, s.procs[pid].pc))
  {
    InvariantHolds(env, actions, s);
    WaitersVouched(env, actions, s);
    hide Inv, Advance, AllVouched;
    AwaitingRaises(env, s, pid, c);
  }

  // ---------------------------------------------------------------------------------------------
  // Over runs.
  // ---------------------------------------------------------------------------------------------

  /** This action cuts the wait off: the waiter dies, or its expiry has been overtaken and raises. */
  ghost predicate CutsOff(r: State, a: Action, pid: nat, id: string)
  {
    && pid in r.procs && Awaits(r.procs[pid].pc) == Some(id)
    && (a == Crash(pid) || (a.Step? && a.pid == pid && Overtaken(r, r.procs[pid].pc)))
  }

  ghost predicate CutAt(env: Env, actions: seq<Action>, n: nat, pid: nat, id: string)
    requires n < |actions|
  {
    var r := Run(env, actions[..n]);
    r.Some? && CutsOff(r.value, actions[n], pid, id)
  }

  /** At some point of the run, the wait was cut off. */
  ghost predicate WasCut(env: Env, actions: seq<Action>, pid: nat, id: string)
  {
    exists n | 0 <= n < |actions| :: CutAt(env, actions, n, pid, id)
  }

  lemma WasCutSnoc(env: Env, actions: seq<Action>, pid: nat, id: string)
    requires actions != []
    ensures var n := |actions| - 1;
      WasCut(env, actions, pid, id) <==> WasCut(env, actions[..n], pid, id) || CutAt(env, actions, n, pid, id)
  {
    hide Run, CutsOff;
    var n := |actions| - 1;
    var before := actions[..n];
    forall m | 0 <= m < n ensures CutAt(env, actions, m, pid, id) <==> CutAt(env, before, m, pid, id) {
      assert before[..m] == actions[..m] && before[m] == actions[m];
    }
    if WasCut(env, before, pid, id) {
      var m :| 0 <= m < n && CutAt(env, before, m, pid, id);
      assert CutAt(env, actions, m, pid, id);
    }
  }

  /** Nothing was answered while the run still waits. */
  lemma AwaitingUnheard(s: State, pid: nat, id: string)
    requires pid in s.procs && TrackOk(s.history, pid, s.procs[pid].pc) && Awaits(s.procs[pid].pc).Some?
    ensures !HeardOf(s.history, pid, id)
  {
  }

  lemma Unheard(s: State, t: State, pid: nat, hs: seq<Happening>, q: nat, id: string)
    requires Adds(s, t, pid, hs) && q in s.procs && !HeardOf(s.history, q, id)
    requires q == pid ==> !s.procs[q].pc.Resolving?
    ensures !HeardOf(t.history, q, id)
  {
    forall h | h in t.history ensures !(h.Heard? && h.pid == q && h.id == id) {
      if h !in s.history { assert h in hs; }
    }
  }

  /** The cut ends the run, unanswered. */
  lemma CutEnds(env: Env, r: State, a: Action, pid: nat, id: string)
    requires Inv(env, r) && AllVouched(r) && Tracked(r) && Do(env, r, a).Some? && CutsOff(r, a, pid, id)
    ensures pid in Do(env, r, a).value.procs && CutOff(Do(env, r, a).value, pid, id)
  {
    hide Inv, Advance, TrackOk, HeardOf, AllVouched;
    AwaitingUnheard(r, pid, id);
    if a.Step? {
      AwaitingRaises(env, r, pid, a.choice);
      var hs := AdvanceAdds(env, r, pid, a.choice);
      Unheard(r, Advance(env, r, pid, a.choice).value, pid, hs, pid, id);
    }
  }

  /** A run that has ended stays as it is. */
  lemma EndedStays(env: Env, r: State, a: Action, pid: nat, id: string)
    requires Inv(env, r) && Do(env, r, a).Some? && pid in r.procs && CutOff(r, pid, id)
    ensures pid in Do(env, r, a).value.procs && CutOff(Do(env, r, a).value, pid, id)
  {
    hide Inv, Advance, HeardOf;
    if a.Step? {
      AdvanceFrom(env, r, a.pid, a.choice);
      var hs := AdvanceAdds(env, r, a.pid, a.choice);
      Unheard(r, Advance(env, r, a.pid, a.choice).value, a.pid, hs, pid, id);
    }
  }

  lemma {:induction false} CutStays(env: Env, actions: seq<Action>, s: State, pid: nat, id: string)
    requires Reaches(env, actions, s) && actions != [] && WasCut(env, actions, pid, id)
    ensures pid in s.procs && CutOff(s, pid, id)
  {
    hide Inv, Do, CutsOff, CutOff, AllVouched, Tracked;
    var n := |actions| - 1;
    var r := Run(env, actions[..n]).value;
    InvariantHolds(env, actions[..n], r);
    WasCutSnoc(env, actions, pid, id);
    if WasCut(env, actions[..n], pid, id) {
      CutStays(env, actions[..n], r, pid, id);
      EndedStays(env, r, actions[n], pid, id);
    } else {
      WaitersVouched(env, actions[..n], r);
      WaitsTracked(env, actions[..n], r);
      CutEnds(env, r, actions[n], pid, id);
    }
  }

  /** The action at which a waiting run ends unanswered is one that cuts it off. */
  lemma CutHere(env: Env, r: State, a: Action, pid: nat, id: string)
    requires Inv(env, r) && AllVouched(r) && Tracked(r) && Do(env, r, a).Some? && pid in Do(env, r, a).value.procs
    requires CutOff(Do(env, r, a).value, pid, id) && Waited(pid, id) in Do(env, r, a).value.history
    ensures pid in r.procs && Waited(pid, id) in r.history
    ensures CutOff(r, pid, id) || CutsOff(r, a, pid, id)
  {
    hide Inv, Advance, AllVouched;
    var t := Do(env, r, a).value;
    match a
    case Step(q, c) =>
      AdvanceFrom(env, r, q, c);
      var hs := AdvanceAdds(env, r, q, c);
      if Waited(pid, id) !in r.history { SubscribeWaits(env, r, q, c); }
      if q == pid && Awaits(r.procs[pid].pc).Some? { AwaitingRaises(env, r, pid, c); }
    case _ => HappeningKnown(env, r, Waited(pid, id));
  }

  lemma {:induction false} CutBefore(env: Env, actions: seq<Action>, s: State, pid: nat, id: string)
    requires Reaches(env, actions, s) && Waited(pid, id) in s.history && pid in s.procs && CutOff(s, pid, id)
    ensures WasCut(env, actions, pid, id)
  {
    hide Inv, Do, CutsOff, CutOff, AllVouched, Tracked, WasCut;
    if actions != [] {
      var n := |actions| - 1;
      var r := Run(env, actions[..n]).value;
      InvariantHolds(env, actions[..n], r);
      WaitersVouched(env, actions[..n], r);
      WaitsTracked(env, actions[..n], r);
      CutHere(env, r, actions[n], pid, id);
      WasCutSnoc(env, actions, pid, id);
      if CutOff(r, pid, id) { CutBefore(env, actions[..n], r, pid, id); }
    }
  }

  /** A wait ends unanswered, by an exception, exactly when the run dies in it or its expiry is overtaken. */
  lemma CutOffIff(env: Env, actions: seq<Action>, s: State, pid: nat, id: string)
    requires Reaches(env, actions, s) && Waited(pid, id) in s.history && pid in s.procs
    ensures CutOff(s, pid, id) <==> WasCut(env, actions, pid, id)
  {
    hide CutOff;
    if CutOff(s, pid, id) { CutBefore(env, actions, s, pid, id); }
    if WasCut(env, actions, pid, id) { CutStays(env, actions, s, pid, id); }
  }

  /**
   However a run that waited for an approval has ended, the row is decided, unless the run died while
   it waited or another commit overtook the entry of its expiry.
   */
  lemma EndedWaiterLeavesDecision(env: Env, actions: seq<Action>, s: State, pid: nat, id: string)
    requires Reaches(env, actions, s) && Waited(pid, id) in s.history
    requires pid in s.procs && s.procs[pid].pc.Ended?
    ensures (id in s.hitls && Terminal(s.hitls[id].status)) || WasCut(env, actions, pid, id)
  {
    hide WasCut, CutOff;
    EndedOrCutOff(env, actions, s, pid, id);
    CutOffIff(env, actions, s, pid, id);
  }
}
