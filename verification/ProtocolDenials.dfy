/** What the recorded evaluation is worth: the words in the log decide what a run may do. */
module ProtocolDenials {
  import opened Wrappers
  import opened Schemas
  import opened AuditChain
  import opened Events
  import opened Protocol
  import opened ProtocolInvariant
  import opened ProtocolRuns
  import opened ProtocolDispatch
  import opened ProtocolTheorems
  import opened ProtocolWaits
  import opened ProtocolDates

  /**
   Whenever the operation ran, the run had committed an entry, before, that says in words that exactly this
   intent is allowed, or that it needs an approval, which its row then has.
   */
  lemma OperationsInWords(env: Env, actions: seq<Action>, s: State, n: nat) returns (m: nat, r: AuditLog)
    requires Reaches(env, actions, s) && n < |s.history| && s.history[n].Operated?
    ensures m < n && s.history[m].Committed? && s.history[m].pid == s.history[n].pid && r in s.history[m].entries
    ensures r.eventType == "execution_intent_evaluated" && IntentStated(r) == Some(s.history[n].j.intent)
    ensures var j := s.history[n].j;
      || OutcomeStated(r) == Some("allow")
      || (OutcomeStated(r) == Some("require_approval") && j.via.Some?
          && ApprovedRow(s.hitls, j.via.value, j.intent.key))
  {
    hide EventOf, OutcomeStated, IntentStated, GrantedIn, Inv;
    OperationsAreAuthorized(env, actions, s, n);
    var past, pid, j := s.history[..n], s.history[n].pid, s.history[n].j;
    var o := if EngineSaid(past, pid, j.intent, Allow) then Allow else RequireApproval;
    var d: PolicyDecision :| d.outcome == o && EvaluatedIn(past, pid, j.intent, d);
    var h :| h in past && h.Committed? && h.pid == pid && exists x | x in h.entries :: IsEvaluated(x, j.intent, d);
    r :| r in h.entries && IsEvaluated(r, j.intent, d);
    m :| 0 <= m < |past| && past[m] == h;
    OutcomeInWords(r, j.intent, d);
  }

  // ---------------------------------------------------------------------------------------------
  // A run whose evaluation was recorded as denied never operates.
  // ---------------------------------------------------------------------------------------------

  predicate SaysDeny(r: AuditLog) { r.eventType == "execution_intent_evaluated" && OutcomeStated(r) == Some("deny") }

  /** A denial is pending, on its way to be answered. */
  predicate Denying(pc: Pc)
  {
    match pc
    case Route(_, d, _) => d.outcome == Deny
    case Committing(Answered(_, d)) => d.outcome == Deny
    case _ => false
  }

  predicate Shut(pc: Pc) { pc.Ended? || (pc.Answered? && pc.d.outcome == Deny) }

  predicate Deniable(es: seq<AuditLog>) { exists r | r in es :: SaysDeny(r) }

  predicate DeniedIn(history: seq<Happening>, pid: nat)
  {
    exists h | h in history :: h.Committed? && h.pid == pid && Deniable(h.entries)
  }

  predicate OperatedBy(history: seq<Happening>, pid: nat)
  {
    exists h | h in history :: h.Operated? && h.pid == pid
  }

  predicate DenialOk(history: seq<Happening>, pid: nat, p: Proc)
  {
    && (Deniable(p.tx.entries) ==> Denying(p.pc))
    && (DeniedIn(history, pid) ==> Shut(p.pc) && !OperatedBy(history, pid))
    && (OperatedBy(history, pid) ==> Past(p.pc))
  }

  predicate DenialsOk(s: State) { forall pid | pid in s.procs :: DenialOk(s.history, pid, s.procs[pid]) }

  /** An entry that says so is the entry of an evaluation that decided so. */
  lemma DenialRecorded(w: Purpose, r: AuditLog)
    requires RecordOf(w, r) && SaysDeny(r) && (w.ForAdmin? ==> AdminEvent(w.event))
    ensures w.ForEvaluation? && w.d.outcome == Deny
  {
    hide EventOf, EventPayload, OutcomeStated, IntentStated;
    assert r.eventType[0] == 'e' && r.eventType[10] == 'i';
    if w.ForEvaluation? {
      EventReadsBack(EventFor(w));
      OutcomeInWords(r, w.j.intent, w.d);
    }
  }

  /** Pending entries change only where one is inserted or all are committed. */
  lemma StepEntries(env: Env, s: State, pid: nat, c: Choice)
    requires Advance(env, s, pid, c).Some? && pid in s.procs && !s.procs[pid].pc.Committing?
    ensures var t := Advance(env, s, pid, c).value; pid in t.procs && EntriesKept(s.procs[pid], t.procs[pid])
  {
    hide Advance, EntriesKept;
    var d: Dates := (key, at) => true;
    var pc := s.procs[pid].pc;
    if pc.Route? || pc.HitlLookup? || pc.HitlInsert? {
      RoutingDates(env, s, pid, c, d);
    } else if pc.ExpireWrite? || pc.ResolveWrite? {
      WritingDates(env, s, pid, c, d);
    } else {
      OtherDates(env, s, pid, c);
      KeepsDates(d, s.procs[pid], Advance(env, s, pid, c).value.procs[pid]);
    }
  }

  // One step of the run itself, point by point.

  lemma DenyingGoesOn(env: Env, s: State, pid: nat, c: Choice)
    requires pid in s.procs && s.procs[pid].pc.Route? && Denying(s.procs[pid].pc)
    ensures Lands(env, s, pid, c, Denying)
  {
    hide Advance;
    RouteAdvance(env, s, pid, c);
  }

  lemma ShutStays(env: Env, s: State, pid: nat, c: Choice)
    requires pid in s.procs && s.procs[pid].pc.Answered? && Shut(s.procs[pid].pc)
    ensures Lands(env, s, pid, c, Shut)
  {
    hide Advance;
    AnsweredAdvance(env, s, pid, c);
  }

  lemma OperatingPasses(env: Env, s: State, pid: nat, c: Choice)
    requires pid in s.procs && s.procs[pid].pc.Operating?
    ensures Lands(env, s, pid, c, Past)
  {
    hide Advance;
    OperatingAdvance(env, s, pid, c);
  }

  lemma PastGoesOn(env: Env, s: State, pid: nat, c: Choice)
    requires pid in s.procs && Past(s.procs[pid].pc) && !s.procs[pid].pc.Ended?
    ensures Lands(env, s, pid, c, Past)
  {
    hide Advance;
    var pc := s.procs[pid].pc;
    if Closing(pc) {
      ClosingCloses(env, s, pid, c);
      if Advance(env, s, pid, c).Some? {
        ClosingAwaits(pc, Advance(env, s, pid, c).value.procs[pid].pc);
      }
    } else {
      RecordingGoesOn(env, s, pid, c);
    }
  }

  lemma EvaluationInserted(s: State, pid: nat, w: Purpose, r: AuditLog)
    requires pid in s.procs && InsertingStep(s, pid, w, r).Some? && RecordOf(w, r)
    requires !Deniable(s.procs[pid].tx.entries) && (w.ForAdmin? ==> AdminEvent(w.event))
    ensures var t := InsertingStep(s, pid, w, r).value;
      pid in t.procs && (Deniable(t.procs[pid].tx.entries) ==> Denying(t.procs[pid].pc))
  {
    hide RecordOf, SaysDeny, Duplicate, PendingByOther;
    if SaysDeny(r) {
      DenialRecorded(w, r);
    }
  }

  lemma InsertingPurpose(env: Env, s: State, pid: nat, tx: Tx, w: Purpose, r: AuditLog)
    requires PcOk(env, s, pid, tx, Inserting(w, r))
    ensures RecordOf(w, r) && (w.ForAdmin? ==> AdminEvent(w.event))
  {
    hide RecordOf, Fits, AdminEvent;
  }

  lemma NothingDenied()
    ensures !Deniable([])
  {
  }

  lemma EntriesStayHonest(env: Env, s: State, pid: nat, c: Choice)
    requires Inv(env, s) && Advance(env, s, pid, c).Some? && pid in s.procs && !s.procs[pid].pc.Committing?
    requires Deniable(s.procs[pid].tx.entries) ==> Denying(s.procs[pid].pc)
    ensures var t := Advance(env, s, pid, c).value;
      pid in t.procs && (Deniable(t.procs[pid].tx.entries) ==> Denying(t.procs[pid].pc))
  {
    hide Inv, PcOk, TxOk, Advance, Deniable, RecordOf, InsertingStep;
    var pc := s.procs[pid].pc;
    StepEntries(env, s, pid, c);
    if pc.Inserting? {
      LocalHere(env, s, pid);
      InsertingPurpose(env, s, pid, s.procs[pid].tx, pc.w, pc.record);
      InsertingAdvance(env, s, pid, c);
      EvaluationInserted(s, pid, pc.w, pc.record);
    } else if Deniable(s.procs[pid].tx.entries) {
      DenyingGoesOn(env, s, pid, c);
    }
    assert !Deniable([]) by { NothingDenied(); }
  }

  lemma QuietDenials(s: State, t: State, pid: nat, hs: seq<Happening>)
    requires Adds(s, t, pid, hs) && pid in s.procs && !s.procs[pid].pc.Committing?
    ensures DeniedIn(t.history, pid) <==> DeniedIn(s.history, pid)
    ensures OperatedBy(t.history, pid) ==> OperatedBy(s.history, pid) || s.procs[pid].pc.Operating?
    ensures OperatedBy(s.history, pid) ==> OperatedBy(t.history, pid)
  {
    hide Deniable;
  }

  lemma StepDenials(env: Env, s: State, pid: nat, c: Choice, hs: seq<Happening>)
    requires Inv(env, s) && Advance(env, s, pid, c).Some? && pid in s.procs && !s.procs[pid].pc.Committing?
    requires Adds(s, Advance(env, s, pid, c).value, pid, hs) && DenialOk(s.history, pid, s.procs[pid])
    ensures var t := Advance(env, s, pid, c).value; pid in t.procs && DenialOk(t.history, pid, t.procs[pid])
  {
    hide Inv, Advance, Adds, Deniable, DeniedIn, OperatedBy, AfterApproval;
    AdvanceFrom(env, s, pid, c);
    var t := Advance(env, s, pid, c).value;
    QuietDenials(s, t, pid, hs);
    EntriesStayHonest(env, s, pid, c);
    if DeniedIn(s.history, pid) {
      ShutStays(env, s, pid, c);
    }
    if s.procs[pid].pc.Operating? {
      OperatingPasses(env, s, pid, c);
    } else if OperatedBy(s.history, pid) {
      PastGoesOn(env, s, pid, c);
    }
  }

  lemma CommitDenials(s: State, pid: nat, next: Pc)
    requires pid in s.procs && s.procs[pid].pc == Committing(next) && DenialOk(s.history, pid, s.procs[pid])
    ensures var t := CommitTx(s, pid, next); pid in t.procs && DenialOk(t.history, pid, t.procs[pid])
  {
    hide Deniable;
    NothingDenied();
    var es := s.procs[pid].tx.entries;
    var t := CommitTx(s, pid, next);
    assert t.history == s.history + [Committed(pid, es)];
  }

  lemma OthersDenials(s: State, t: State, pid: nat, hs: seq<Happening>, q: nat)
    requires Adds(s, t, pid, hs) && q in s.procs && q != pid && DenialOk(s.history, q, s.procs[q])
    ensures DenialOk(t.history, q, t.procs[q])
  {
    hide Deniable, Denying, Past;
    forall h | h in t.history && h.pid == q ensures h in s.history {
    }
  }

  lemma AdvanceDenials(env: Env, s: State, pid: nat, c: Choice)
    requires Inv(env, s) && DenialsOk(s) && Advance(env, s, pid, c).Some?
    ensures DenialsOk(Advance(env, s, pid, c).value)
  {
    hide Inv, Advance, DenialOk;
    AdvanceFrom(env, s, pid, c);
    var hs := AdvanceAdds(env, s, pid, c);
    var t := Advance(env, s, pid, c).value;
    if s.procs[pid].pc.Committing? {
      CommitDenials(s, pid, s.procs[pid].pc.next);
    } else {
      StepDenials(env, s, pid, c, hs);
    }
    forall q | q in t.procs && q != pid ensures DenialOk(t.history, q, t.procs[q]) {
      OthersDenials(s, t, pid, hs, q);
    }
  }

  lemma FreshRunDenials(env: Env, s: State, pid: nat, pc: Pc)
    requires Inv(env, s) && DenialsOk(s) && pid !in s.procs
    ensures DenialsOk(Enter(s, pid, Proc(pc, NO_TX)))
  {
    hide Inv;
    NothingDenied();
    forall h | h in s.history ensures h.pid != pid {
      HappeningKnown(env, s, h);
    }
  }

  lemma CrashDenials(s: State, pid: nat)
    requires DenialsOk(s) && pid in s.procs
    ensures DenialsOk(Abort(s, pid))
  {
    NothingDenied();
    assert DenialOk(s.history, pid, s.procs[pid]);
  }

  lemma DoDenials(env: Env, s: State, a: Action)
    requires Inv(env, s) && DenialsOk(s) && Do(env, s, a).Some?
    ensures DenialsOk(Do(env, s, a).value)
  {
    hide Inv, Advance, DenialOk;
    match a
    case Spawn(pid, pc) => FreshRunDenials(env, s, pid, pc);
    case Step(pid, c) => AdvanceDenials(env, s, pid, c);
    case Crash(pid) => CrashDenials(s, pid);
    case _ =>
  }

  lemma {:induction false} DenialsTracked(env: Env, actions: seq<Action>, s: State)
    requires Reaches(env, actions, s)
    ensures DenialsOk(s)
  {
    hide Inv, Do, DenialOk;
    if actions != [] {
      var n := |actions| - 1;
      var r := Run(env, actions[..n]).value;
      DenialsTracked(env, actions[..n], r);
      InvariantHolds(env, actions[..n], r);
      DoDenials(env, r, actions[n]);
    }
  }

  /** A run that has committed an entry saying that its intent is denied executes nothing, before or after. */
  lemma DeniedNeverOperates(env: Env, actions: seq<Action>, s: State, h: Happening, r: AuditLog, x: Happening)
    requires Reaches(env, actions, s) && h in s.history && h.Committed? && r in h.entries && SaysDeny(r)
    requires x in s.history && x.Operated?
    ensures x.pid != h.pid
  {
    hide Inv, SaysDeny;
    InvariantHolds(env, actions, s);
    DenialsTracked(env, actions, s);
    HappenedHere(env, s, h);
    assert Deniable(h.entries);
    assert DenialOk(s.history, h.pid, s.procs[h.pid]);
  }
}
