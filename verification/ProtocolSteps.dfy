/** Every step that does not commit keeps the invariant. */
module ProtocolSteps {
  import opened Schemas
  import opened AuditChain
  import opened Events
  import opened Replay
  import opened Protocol
  import opened ProtocolInvariant
  import opened ProtocolStability

  // ---------------------------------------------------------------------------------------------
  // Frames shared by all such steps.
  // ---------------------------------------------------------------------------------------------

  ghost predicate SameTables(s: State, t: State)
  {
    t.budgets == s.budgets && t.hitls == s.hitls && t.others == s.others && t.log == s.log
  }

  predicate AtSubscribe(s: State, pid: nat, id: string)
  {
    pid in s.procs && s.procs[pid].pc.Subscribe? && s.procs[pid].pc.id == id
  }

  predicate AtResolving(s: State, pid: nat, id: string, status: Status)
  {
    pid in s.procs && s.procs[pid].pc.Resolving? && s.procs[pid].pc.id == id && s.procs[pid].pc.status == status
  }

  predicate AtOperating(s: State, pid: nat, j: Job) { pid in s.procs && s.procs[pid].pc == Operating(j) }

  /** Happenings of a step that commits nothing. */
  ghost predicate QuietHappenings(s: State, pid: nat, hs: seq<Happening>)
  {
    && |hs| <= 1
    && (|hs| == 1 ==>
      && hs[0].pid == pid && !hs[0].Committed?
      && (hs[0].Operated? ==> Authorized(s.history, s.hitls, pid, hs[0].j) && AtOperating(s, pid, hs[0].j))
      && (hs[0].Waited? ==> hs[0].id in s.hitls && AtSubscribe(s, pid, hs[0].id))
      && (hs[0].Heard? ==> DecidedAs(s.hitls, hs[0].id, hs[0].status) && AtResolving(s, pid, hs[0].id, hs[0].status)))
  }

  lemma OutcomesSnoc(history: seq<Happening>, h: Happening, pid: nat)
    ensures Outcomes(history + [h], pid) ==
      Outcomes(history, pid) + (if h.Committed? && h.pid == pid then OutcomeEntries(h.entries) else 0)
    ensures CommittedEntries(history + [h]) == CommittedEntries(history) + (if h.Committed? then h.entries else [])
  {
    assert (history + [h])[..|history|] == history;
  }

  lemma QuietOutcomes(s: State, pid: nat, hs: seq<Happening>, q: nat)
    requires QuietHappenings(s, pid, hs)
    ensures Outcomes(s.history + hs, q) == Outcomes(s.history, q)
    ensures CommittedEntries(s.history + hs) == CommittedEntries(s.history)
  {
    if |hs| == 1 {
      OutcomesSnoc(s.history, hs[0], q);
      assert hs == [hs[0]];
    } else {
      assert s.history + hs == s.history;
    }
  }

  /** Approvals that were given stay given, so authorisations recorded in the past stay good. */
  lemma HappeningStable(s: State, t: State, n: nat)
    requires n < |s.history| && HappeningOk(s, n) && Evolves(s, t)
    requires s.history <= t.history && forall q | q in s.procs :: q in t.procs
    ensures HappeningOk(t, n)
  {
    assert t.history[..n] == s.history[..n];
  }

  lemma QuietHistory(s: State, t: State, pid: nat, hs: seq<Happening>)
    requires HistoryOk(s) && Evolves(s, t) && SameTables(s, t)
    requires QuietHappenings(s, pid, hs) && t.history == s.history + hs
    requires pid in t.procs && forall q | q in s.procs :: q in t.procs
    ensures HistoryOk(t)
  {
    QuietOutcomes(s, pid, hs, pid);
    forall n | 0 <= n < |t.history| ensures HappeningOk(t, n) {
      if n < |s.history| {
        HappeningStable(s, t, n);
      } else {
        assert t.history[..n] == s.history;
      }
    }
  }

  lemma QuietEvolves(s: State, t: State, hs: seq<Happening>)
    requires SameTables(s, t) && s.clock <= t.clock && t.history == s.history + hs
    ensures Evolves(s, t)
    ensures forall tx: Tx :: Protected(s, t, tx)
  {
  }

  lemma ApprovalsStable(env: Env, s: State, t: State)
    requires ApprovalsOk(env, s) && t.hitls == s.hitls && s.clock <= t.clock
    requires forall id | id in t.published :: id in s.published || (id in s.hitls && Terminal(s.hitls[id].status))
    ensures ApprovalsOk(env, t)
  {
  }

  ghost predicate Alone(s: State, pid: nat, tx: Tx)
  {
    forall q | q in s.procs && q != pid ::
      tx.held !! s.procs[q].tx.held && (tx.entries == [] || s.procs[q].tx.entries == [])
  }

  lemma QuietGlobal(env: Env, s: State, t: State, pid: nat, hs: seq<Happening>)
    requires Global(env, s) && SameTables(s, t) && s.clock <= t.clock
    requires pid in t.procs && forall q | q in s.procs :: q in t.procs
    requires QuietHappenings(s, pid, hs) && t.history == s.history + hs
    requires forall id | id in t.published :: id in s.published || (id in s.hitls && Terminal(s.hitls[id].status))
    ensures Global(env, t)
  {
    QuietEvolves(s, t, hs);
    QuietHistory(s, t, pid, hs);
    ApprovalsStable(env, s, t);
  }

  lemma QuietLocals(env: Env, s: State, t: State, pid: nat, p: Proc, hs: seq<Happening>)
    requires Locals(env, s) && SameTables(s, t) && s.clock <= t.clock
    requires t.procs == s.procs[pid := p]
    requires QuietHappenings(s, pid, hs) && t.history == s.history + hs
    requires Local(env, t, pid, p)
    ensures Locals(env, t)
  {
    QuietEvolves(s, t, hs);
    forall q | q in t.procs ensures Local(env, t, q, t.procs[q]) {
      if q != pid {
        QuietOutcomes(s, pid, hs, q);
        LocalStable(env, s, t, q, s.procs[q]);
      }
    }
  }

  lemma AloneExclusive(s: State, t: State, pid: nat, p: Proc)
    requires Exclusive(s.procs) && Alone(s, pid, p.tx) && t.procs == s.procs[pid := p]
    ensures Exclusive(t.procs)
  {
  }

  /** A step of one run that leaves the tables alone. */
  lemma Quiet(env: Env, s: State, t: State, pid: nat, p: Proc, hs: seq<Happening>)
    requires Inv(env, s) && SameTables(s, t) && s.clock <= t.clock
    requires t.procs == s.procs[pid := p]
    requires QuietHappenings(s, pid, hs) && t.history == s.history + hs
    requires forall id | id in t.published :: id in s.published || (id in s.hitls && Terminal(s.hitls[id].status))
    requires Alone(s, pid, p.tx)
    requires Local(env, t, pid, p)
    ensures Inv(env, t)
  {
    QuietGlobal(env, s, t, pid, hs);
    QuietLocals(env, s, t, pid, p, hs);
    AloneExclusive(s, t, pid, p);
  }

  // ---------------------------------------------------------------------------------------------
  // What a step has to establish, from what its own run knows. Nothing here looks at other runs.
  // ---------------------------------------------------------------------------------------------

  ghost predicate Known(env: Env, s: State, pid: nat)
  {
    && pid in s.procs && !s.procs[pid].pc.Ended?
    && TxOk(env, s, s.procs[pid]) && PcOk(env, s, pid, s.procs[pid].tx, s.procs[pid].pc)
    && Alone(s, pid, s.procs[pid].tx)
  }

  ghost predicate GoodStep(env: Env, s: State, t: State, pid: nat, hs: seq<Happening>)
  {
    && SameTables(s, t) && t.clock == s.clock
    && pid in t.procs && t.procs == s.procs[pid := t.procs[pid]]
    && QuietHappenings(s, pid, hs) && t.history == s.history + hs
    && (forall id | id in t.published :: id in s.published || (id in s.hitls && Terminal(s.hitls[id].status)))
    && Alone(s, pid, t.procs[pid].tx)
    && TxOk(env, t, t.procs[pid]) && PcOk(env, t, pid, t.procs[pid].tx, t.procs[pid].pc)
  }

  /** A step that may grant or run the operation, but commits nothing. */
  ghost predicate Good(env: Env, s: State, t: State, pid: nat) { exists hs :: GoodStep(env, s, t, pid, hs) }

  lemma KnownHere(env: Env, s: State, pid: nat)
    requires Inv(env, s) && pid in s.procs && !s.procs[pid].pc.Ended?
    ensures Known(env, s, pid) && Outcomes(s.history, pid) == 0
  {
    assert Local(env, s, pid, s.procs[pid]);
  }

  lemma GoodKeeps(env: Env, s: State, t: State, pid: nat)
    requires Inv(env, s) && pid in s.procs && !s.procs[pid].pc.Ended? && Good(env, s, t, pid)
    ensures Inv(env, t)
  {
    KnownHere(env, s, pid);
    var hs :| GoodStep(env, s, t, pid, hs);
    QuietOutcomes(s, pid, hs, pid);
    Quiet(env, s, t, pid, t.procs[pid], hs);
  }

  lemma IdleTx(env: Env, s: State, pc: Pc)
    requires Owed(pc) == []
    ensures TxOk(env, s, Proc(pc, NO_TX))
  {
    assert Effects([]) + [] == [];
  }

  lemma EndedPc(env: Env, s: State, pid: nat, e: Ending)
    requires !e.TimedOut? && !e.AnsweredNo? && !e.Returned?
    ensures PcOk(env, s, pid, NO_TX, Ended(e))
  {
  }

  lemma AbortGood(env: Env, s: State, pid: nat)
    requires pid in s.procs
    ensures Good(env, s, Abort(s, pid), pid)
  {
    hide TxOk, PcOk, Authorized, Terminal;
    var t := Abort(s, pid);
    IdleTx(env, t, Ended(Raised));
    EndedPc(env, t, pid, Raised);
    assert t.history == s.history + [];
    assert GoodStep(env, s, t, pid, []);
  }

  /** An evaluation entry is no outcome. */
  lemma EvaluatedNoOutcome(history: seq<Happening>, pid: nat, tx: Tx, intent: Intent, d: PolicyDecision)
    requires EvaluatedHere(tx, intent, d)
    ensures OutcomeEntries(tx.entries) == 0 && AllEarned(history, pid, tx.entries)
  {
    var r := tx.entries[0];
    OutcomeInWords(r, intent, d);
    assert r.eventType[10] == 'i' && "execution_completed"[10] == 'c' && "execution_failed"[10] == 'f';
    assert tx.entries[..0] == [];
    assert OutcomeEntries(tx.entries[..0]) == 0;
  }

  /** The program moves on with the transaction it has. */
  lemma MoveWith(env: Env, s: State, t: State, pid: nat, pc: Pc, hs: seq<Happening>)
    requires Known(env, s, pid) && !s.procs[pid].pc.RaiseConflict?
    requires SameTables(s, t) && t.clock == s.clock && t.procs == s.procs[pid := s.procs[pid].(pc := pc)]
    requires QuietHappenings(s, pid, hs) && t.history == s.history + hs && t.published == s.published
    requires Significant(Effects(s.procs[pid].tx.entries) + Owed(pc)) == Claims(s.procs[pid])
    requires PcOk(env, t, pid, s.procs[pid].tx, pc)
    ensures Good(env, s, t, pid)
  {
    hide PcOk, Explains, WellLinked, Effects, Significant;
    QuietEvolves(s, t, hs);
    TxStable(env, s, t, s.procs[pid]);
    assert GoodStep(env, s, t, pid, hs);
  }

  /** To a point that needs nothing of what happens on the way. */
  lemma MoveNoting(env: Env, s: State, t: State, pid: nat, pc: Pc, hs: seq<Happening>)
    requires Known(env, s, pid) && !s.procs[pid].pc.RaiseConflict?
    requires SameTables(s, t) && t.clock == s.clock && t.procs == s.procs[pid := s.procs[pid].(pc := pc)]
    requires QuietHappenings(s, pid, hs) && t.history == s.history + hs && t.published == s.published
    requires Owed(pc) == Owed(s.procs[pid].pc)
    requires PcOk(env, s, pid, s.procs[pid].tx, pc)
    ensures Good(env, s, t, pid)
  {
    hide TxOk, PcOk, Evolves, Protected, QuietHappenings, Alone, Good;
    QuietEvolves(s, t, hs);
    PcStable(env, s, t, pid, s.procs[pid].tx, pc);
    MoveWith(env, s, t, pid, pc, hs);
  }

  lemma Move(env: Env, s: State, t: State, pid: nat, pc: Pc)
    requires Known(env, s, pid) && !s.procs[pid].pc.RaiseConflict?
    requires SameTables(s, t) && t.clock == s.clock && t.procs == s.procs[pid := s.procs[pid].(pc := pc)]
    requires t.history == s.history && t.published == s.published
    requires Owed(pc) == Owed(s.procs[pid].pc)
    requires PcOk(env, s, pid, s.procs[pid].tx, pc)
    ensures Good(env, s, t, pid)
  {
    hide TxOk, PcOk, Alone, Good;
    assert t.history == s.history + [];
    MoveNoting(env, s, t, pid, pc, []);
  }

  /** Reaching the commit. */
  lemma MoveToCommit(env: Env, s: State, t: State, pid: nat, next: Pc)
    requires Known(env, s, pid) && !s.procs[pid].pc.RaiseConflict?
    requires SameTables(s, t) && t.clock == s.clock && t.procs == s.procs[pid := s.procs[pid].(pc := Committing(next))]
    requires t.history == s.history && t.published == s.published
    requires Owed(s.procs[pid].pc) == []
    requires NextOk(s, pid, s.procs[pid].tx, next)
    ensures Good(env, s, t, pid)
  {
    hide TxOk, PcOk, NextOk, Alone, Good;
    CommittingPcMeans(env, s, pid, s.procs[pid].tx, next);
    Move(env, s, t, pid, Committing(next));
  }

  /** Ending without a transaction. */
  lemma MoveToEnd(env: Env, s: State, t: State, pid: nat, e: Ending)
    requires Known(env, s, pid) && s.procs[pid].tx == NO_TX
    requires SameTables(s, t) && t.clock == s.clock && t.procs == s.procs[pid := s.procs[pid].(pc := Ended(e))]
    requires t.history == s.history && t.published == s.published
    requires !e.TimedOut? && !e.AnsweredNo? && !e.Returned?
    ensures Good(env, s, t, pid)
  {
    hide TxOk, PcOk, Authorized, Terminal;
    IdleTx(env, t, Ended(e));
    EndedPc(env, t, pid, e);
    assert t.history == s.history + [];
    assert GoodStep(env, s, t, pid, []);
  }

  /** From one stage of an append to the next. */
  lemma MoveToAppending(env: Env, s: State, t: State, pid: nat, w: Purpose)
    requires Known(env, s, pid) && !s.procs[pid].pc.RaiseConflict?
    requires SameTables(s, t) && t.clock == s.clock && t.procs == s.procs[pid := s.procs[pid].(pc := Appending(w))]
    requires t.history == s.history && t.published == s.published
    requires Owed(s.procs[pid].pc) == [PurposeEffect(w)] && PurposeOk(s, pid, s.procs[pid].tx, w)
    ensures Good(env, s, t, pid)
  {
    hide TxOk, PcOk, PurposeOk, Alone, Good, EventEffect;
    ClosingPcMeans(env, s, pid, s.procs[pid].tx, w);
    Move(env, s, t, pid, Appending(w));
  }

  lemma MoveToInserting(env: Env, s: State, t: State, pid: nat, w: Purpose, r: AuditLog)
    requires Known(env, s, pid) && !s.procs[pid].pc.RaiseConflict?
    requires SameTables(s, t) && t.clock == s.clock && t.procs == s.procs[pid := s.procs[pid].(pc := Inserting(w, r))]
    requires t.history == s.history && t.published == s.published
    requires Owed(s.procs[pid].pc) == [PurposeEffect(w)] && PurposeOk(s, pid, s.procs[pid].tx, w)
    requires Fits(env, s, s.procs[pid].tx, r) && RecordOf(w, r)
    ensures Good(env, s, t, pid)
  {
    hide TxOk, PcOk, PurposeOk, Fits, RecordOf, Alone, Good, EventEffect;
    ClosingPcMeans(env, s, pid, s.procs[pid].tx, w);
    Move(env, s, t, pid, Inserting(w, r));
  }

  lemma HarmlessClaims(p: Proc, w: Purpose)
    requires Owed(p.pc) == [] && PurposeEffect(w) == NoEffect
    ensures Significant(Effects(p.tx.entries) + Owed(Appending(w))) == Claims(p)
  {
    var es := Effects(p.tx.entries);
    SignificantSnoc(es, NoEffect);
    assert Owed(Appending(w)) == [NoEffect];
    assert es + [] == es;
  }

  /** Beginning to append an entry that changes no table. */
  lemma Append(env: Env, s: State, t: State, pid: nat, w: Purpose)
    requires Known(env, s, pid) && !s.procs[pid].pc.RaiseConflict?
    requires SameTables(s, t) && t.clock == s.clock && t.procs == s.procs[pid := s.procs[pid].(pc := Appending(w))]
    requires t.history == s.history && t.published == s.published
    requires Owed(s.procs[pid].pc) == [] && PurposeEffect(w) == NoEffect
    requires PurposeOk(s, pid, s.procs[pid].tx, w)
    ensures Good(env, s, t, pid)
  {
    hide TxOk, PcOk, PurposeOk, Alone, Evolves, Protected, Good, EventEffect;
    assert t.history == s.history + [];
    QuietEvolves(s, t, []);
    PurposeStable(s, t, pid, s.procs[pid].tx, w);
    ClosingPcMeans(env, t, pid, s.procs[pid].tx, w);
    HarmlessClaims(s.procs[pid], w);
    MoveWith(env, s, t, pid, Appending(w), []);
  }

  /** Entering a new transaction state that has been checked against the present tables. */
  lemma Enterable(env: Env, s: State, t: State, pid: nat, p: Proc)
    requires pid in s.procs && SameTables(s, t) && t.clock == s.clock && t.procs == s.procs[pid := p]
    requires t.history == s.history && t.published == s.published
    requires Alone(s, pid, p.tx) && TxOk(env, s, p) && PcOk(env, s, pid, p.tx, p.pc)
    ensures Good(env, s, t, pid)
  {
    assert t.history == s.history + [];
    QuietEvolves(s, t, []);
    TxStable(env, s, t, p);
    PcStable(env, s, t, pid, p.tx, p.pc);
    assert GoodStep(env, s, t, pid, []);
  }

  /** Writing a row under the locks already held. */
  lemma WriteGood(env: Env, s: State, t: State, pid: nat, write: Write, pc: Pc)
    requires Known(env, s, pid)
    requires t == WriteRow(s, pid, write, pc)
    requires TxOk(env, s, Proc(pc, s.procs[pid].tx.(write := write)))
    requires PcOk(env, s, pid, s.procs[pid].tx.(write := write), pc)
    ensures Good(env, s, t, pid)
  {
    hide TxOk, PcOk;
    Enterable(env, s, t, pid, Proc(pc, s.procs[pid].tx.(write := write)));
  }

  lemma LockAlone(s: State, pid: nat, r: Resource, tx: Tx)
    requires pid in s.procs && !HeldByOther(s, pid, r) && tx.held == {r} && tx.entries == []
    ensures Alone(s, pid, tx)
  {
  }

  /** A transaction that has locked something and written nothing. */
  lemma LockOnly(env: Env, s: State, r: Resource, pc: Pc)
    requires !r.HitlKey? && (r.HitlRow? ==> r.id in s.hitls) && Owed(pc) == []
    ensures TxOk(env, s, Proc(pc, Tx({r}, NoWrite, [])))
  {
    assert Effects([]) + [] == [];
  }

  /** Taking a lock, with nothing held before. */
  lemma LockGood(env: Env, s: State, t: State, pid: nat, r: Resource, pc: Pc)
    requires Known(env, s, pid) && s.procs[pid].tx == NO_TX
    requires !HeldByOther(s, pid, r) && !r.HitlKey? && (r.HitlRow? ==> r.id in s.hitls) && Owed(pc) == []
    requires t == Hold(s, pid, r, NoWrite, pc)
    requires PcOk(env, s, pid, Tx({r}, NoWrite, []), pc)
    ensures Good(env, s, t, pid)
  {
    var tx := Tx({r}, NoWrite, []);
    assert s.procs[pid].tx.(held := s.procs[pid].tx.held + {r}, write := NoWrite) == tx;
    LockAlone(s, pid, r, tx);
    LockOnly(env, s, r, pc);
    Enterable(env, s, t, pid, Proc(pc, tx));
  }

  /** One owed effect is the whole claim of a transaction without entries. */
  lemma OwedClaim(pc: Pc, tx: Tx, e: Effect)
    requires tx.entries == [] && Owed(pc) == [e] && e != NoEffect
    ensures Claims(Proc(pc, tx)) == [e]
  {
    SignificantSnoc([], e);
    assert Effects([]) + [e] == [] + [e];
  }

  lemma HarmlessClaim(pc: Pc, tx: Tx)
    requires tx.entries == [] && Owed(pc) == [NoEffect]
    ensures Claims(Proc(pc, tx)) == []
  {
    SignificantSnoc([], NoEffect);
    assert Effects([]) + [NoEffect] == [] + [NoEffect];
  }
}
