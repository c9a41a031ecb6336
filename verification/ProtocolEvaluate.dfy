/** The steps of `evaluate_or_wait` and of its waiter keep the invariant. */
module ProtocolEvaluate {
  import opened Wrappers
  import opened Schemas
  import opened Governor
  import opened PolicyRules
  import opened AuditChain
  import opened Events
  import opened Replay
  import opened Protocol
  import opened ProtocolInvariant
  import opened ProtocolStability
  import opened ProtocolSteps

  lemma EvalStartKeeps(env: Env, s: State, pid: nat, j: Job, c: Choice)
    requires Known(env, s, pid) && s.procs[pid].pc == EvalStart(j)
    ensures Good(env, s, EvalStartStep(s, pid, j, c).value, pid)
  {
    hide TxOk, Alone, Good, EngineSaid, Authorized;
    var t := EvalStartStep(s, pid, j, c).value;
    if c.early.Some? {
      Append(env, s, t, pid, ForEvaluation(j, Denied(c.early.value), None));
    } else if j.intent.amount.None? {
      Move(env, s, t, pid, EvalDecide(j, None, None));
    } else if j.intent.currency.None? {
      Append(env, s, t, pid, ForEvaluation(j, Refused(), None));
    } else {
      Move(env, s, t, pid, EvalGet(j, Find(s.budgets, KeyOf(j.intent).value)));
    }
  }

  lemma EvalGetKeeps(env: Env, s: State, pid: nat, j: Job, row: Option<Budget>, k: BudgetKey)
    requires Known(env, s, pid) && s.procs[pid].pc == EvalGet(j, row)
    ensures Good(env, s, EvalGetStep(s, pid, j, row, k).value, pid)
  {
    hide TxOk, Alone, Good, EngineSaid, Authorized;
    var t := EvalGetStep(s, pid, j, row, k).value;
    if !Usable(row) {
      Move(env, s, t, pid, EvalDecide(j, row, None));
    } else if Cell(s, k).None? {
      Move(env, s, t, pid, EvalSetNx(j, row));
    } else {
      Move(env, s, t, pid, EvalDecide(j, row, Cell(s, k)));
    }
  }

  lemma EvalSetNxKeeps(env: Env, s: State, pid: nat, j: Job, row: Option<Budget>, k: BudgetKey)
    requires Known(env, s, pid) && s.procs[pid].pc == EvalSetNx(j, row) && row.Some?
    ensures Good(env, s, EvalSetNxStep(s, pid, j, row, k).value, pid)
  {
    hide TxOk, Alone, Good, EngineSaid, Authorized;
    Move(env, s, EvalSetNxStep(s, pid, j, row, k).value, pid, EvalGetAgain(j, row));
  }

  lemma EvalGetAgainKeeps(env: Env, s: State, pid: nat, j: Job, row: Option<Budget>, k: BudgetKey)
    requires Known(env, s, pid) && s.procs[pid].pc == EvalGetAgain(j, row)
    ensures Good(env, s, EvalGetAgainStep(s, pid, j, row, k).value, pid)
  {
    hide TxOk, Alone, Good, EngineSaid, Authorized;
    if Cell(s, k).None? {
      AbortGood(env, s, pid);
    } else {
      Move(env, s, EvalGetAgainStep(s, pid, j, row, k).value, pid, EvalDecide(j, row, Cell(s, k)));
    }
  }

  lemma EvalDecideKeeps(env: Env, s: State, pid: nat, j: Job, row: Option<Budget>, remaining: Option<int>, c: Choice)
    requires Known(env, s, pid) && s.procs[pid].pc == EvalDecide(j, row, remaining)
    ensures Good(env, s, EvalDecideStep(s, pid, j, row, remaining, c).value, pid)
  {
    hide TxOk, Alone, Good, EngineSaid, Authorized;
    var d := Decide(c.base, c.results + BudgetResult(j.intent, remaining), remaining);
    Append(env, s, EvalDecideStep(s, pid, j, row, remaining, c).value, pid, ForEvaluation(j, d, row));
  }

  lemma OneEvaluated(tx: Tx, intent: Intent, d: PolicyDecision)
    requires EvaluatedHere(tx, intent, d)
    ensures Effects(tx.entries) == [NoEffect]
  {
    var r := tx.entries[0];
    assert tx.entries[..0] == [];
    OutcomeInWords(r, intent, d);
    assert Effects(tx.entries[..0]) == [];
  }

  lemma AnswerNext(s: State, pid: nat, tx: Tx, j: Job, d: PolicyDecision, e: PolicyDecision)
    requires RouteOk(tx, j, d) && e.hitlId == d.hitlId
    requires e.outcome == Allow ==> e == d && GrantedIn(s.history, pid, j.intent)
    ensures NextOk(s, pid, tx, Answered(j, e))
  {
    hide Earned;
    EvaluatedNoOutcome(s.history, pid, tx, j.intent, d);
  }

  lemma RouteGranted(
      env: Env, s: State, t: State, pid: nat, j: Job, d: PolicyDecision, row: Option<Budget>, k: BudgetKey)
    requires Known(env, s, pid) && s.procs[pid].pc == Route(j, d, row) && KeyOf(j.intent) == Some(k)
    requires SameTables(s, t) && t.clock == s.clock && t.published == s.published
    requires t.procs == s.procs[pid := s.procs[pid].(pc := Committing(Answered(j, d)))]
    requires t.history == s.history + [Granted(pid, k, j.intent.amount.value)]
    ensures Good(env, s, t, pid)
  {
    hide TxOk, Alone, Good, EngineSaid, Authorized, NextOk, EvaluatedHere, Effects, Significant;
    var hs := [Granted(pid, k, j.intent.amount.value)];
    assert hs[0] in t.history;
    AnswerNext(t, pid, s.procs[pid].tx, j, d, d);
    MoveWith(env, s, t, pid, Committing(Answered(j, d)), hs);
  }

  lemma RouteRefused(
      env: Env, s: State, t: State, pid: nat, j: Job, d: PolicyDecision, row: Option<Budget>, e: PolicyDecision)
    requires Known(env, s, pid) && s.procs[pid].pc == Route(j, d, row) && e.outcome != Allow && e.hitlId == d.hitlId
    requires SameTables(s, t) && t.clock == s.clock && t.published == s.published && t.history == s.history
    requires t.procs == s.procs[pid := s.procs[pid].(pc := Committing(Answered(j, e)))]
    ensures Good(env, s, t, pid)
  {
    hide TxOk, Alone, Good, NextOk, EvaluatedHere;
    AnswerNext(s, pid, s.procs[pid].tx, j, d, e);
    MoveToCommit(env, s, t, pid, Answered(j, e));
  }

  lemma RoutePc(env: Env, s: State, pid: nat, tx: Tx, j: Job, d: PolicyDecision, row: Option<Budget>)
    requires PcOk(env, s, pid, tx, Route(j, d, row))
    ensures RouteOk(tx, j, d) && (d.outcome == RequireApproval ==> PcOk(env, s, pid, tx, HitlLookup(j, d)))
  {
    hide RouteOk;
  }

  /** Without a reservation to make. */
  lemma RoutePlain(env: Env, s: State, pid: nat, j: Job, d: PolicyDecision, row: Option<Budget>)
    requires Known(env, s, pid) && s.procs[pid].pc == Route(j, d, row)
    requires d.outcome != Allow || KeyOf(j.intent).None?
    ensures Good(env, s, RouteStep(s, pid, j, d, row).value, pid)
  {
    hide TxOk, PcOk, Alone, Good, NextOk, Reserve, Refusal;
    var t := RouteStep(s, pid, j, d, row).value;
    RoutePc(env, s, pid, s.procs[pid].tx, j, d, row);
    if d.outcome == RequireApproval {
      Move(env, s, t, pid, HitlLookup(j, d));
    } else {
      AnswerNext(s, pid, s.procs[pid].tx, j, d, d);
      MoveToCommit(env, s, t, pid, Answered(j, d));
    }
  }

  lemma RouteKeeps(env: Env, s: State, pid: nat, j: Job, d: PolicyDecision, row: Option<Budget>)
    requires Known(env, s, pid) && s.procs[pid].pc == Route(j, d, row)
    ensures Good(env, s, RouteStep(s, pid, j, d, row).value, pid)
  {
    hide TxOk, PcOk, Alone, Good, Reserve;
    if d.outcome != Allow || KeyOf(j.intent).None? {
      RoutePlain(env, s, pid, j, d, row);
    } else {
      var t, k := RouteStep(s, pid, j, d, row).value, KeyOf(j.intent).value;
      var r := Reserve(row, Cell(s, k), j.intent.amount.value);
      if r.granted {
        RouteGranted(env, s, t, pid, j, d, row, k);
      } else {
        RouteRefused(env, s, t, pid, j, d, row, Refusal(d, r.remaining));
      }
    }
  }

  lemma LookupNext(s: State, pid: nat, tx: Tx, j: Job, d: PolicyDecision, id: string)
    requires RouteOk(tx, j, d) && d.outcome == RequireApproval && id in s.hitls && s.hitls[id].key == j.intent.key
    ensures NextOk(s, pid, tx, Subscribe(j, id))
  {
    hide Earned;
    EvaluatedNoOutcome(s.history, pid, tx, j.intent, d);
  }

  lemma LookupPc(env: Env, s: State, pid: nat, tx: Tx, j: Job, d: PolicyDecision)
    requires PcOk(env, s, pid, tx, HitlLookup(j, d))
    ensures RouteOk(tx, j, d) && d.outcome == RequireApproval
    ensures !KeyTaken(s, j.intent.key) ==> PcOk(env, s, pid, tx, HitlInsert(j, d, s.clock))
  {
    hide RouteOk, KeyTaken;
  }

  lemma HitlLookupKeeps(env: Env, s: State, pid: nat, j: Job, d: PolicyDecision)
    requires Known(env, s, pid) && s.procs[pid].pc == HitlLookup(j, d)
    ensures Good(env, s, HitlLookupStep(s, pid, j, d).value, pid)
  {
    hide TxOk, PcOk, RouteOk, Alone, Good;
    var t := HitlLookupStep(s, pid, j, d).value;
    LookupPc(env, s, pid, s.procs[pid].tx, j, d);
    if KeyTaken(s, j.intent.key) {
      var id := HolderOf(s, j.intent.key);
      LookupNext(s, pid, s.procs[pid].tx, j, d, id);
      MoveToCommit(env, s, t, pid, Subscribe(j, id));
    } else {
      Move(env, s, t, pid, HitlInsert(j, d, s.clock));
    }
  }

  lemma OpenedClaims(tx: Tx, w: Purpose)
    requires w.ForRequest? && EvaluatedHere(tx, w.j.intent, w.d)
    ensures Claims(Proc(Appending(w), tx)) == [OpenHitl(w.id, w.j.intent.key, w.j.intent.agent)]
  {
    hide EvaluatedHere, EventPayload, EventType;
    var e := OpenHitl(w.id, w.j.intent.key, w.j.intent.agent);
    OneEvaluated(tx, w.j.intent, w.d);
    SignificantSnoc([NoEffect], e);
    SignificantSnoc([], NoEffect);
    assert [] + [NoEffect] == [NoEffect];
    assert Significant([NoEffect]) == [];
  }

  lemma SameEntries(tx: Tx, u: Tx, intent: Intent, d: PolicyDecision)
    requires EvaluatedHere(tx, intent, d) && u.entries == tx.entries
    ensures EvaluatedHere(u, intent, d)
  {
  }

  lemma OpenedExplained(env: Env, s: State, tx: Tx, w: Purpose, now: int)
    requires w.ForRequest? && EvaluatedHere(tx, w.j.intent, w.d) && w.id !in s.hitls && now <= s.clock
      && !KeyTaken(s, w.j.intent.key)
    ensures var u := tx.(held := tx.held + {HitlKey(w.j.intent.key)},
      write := PutHitl(w.id, Opened(env, w.j.intent, now)));
      Explains(env, s, u, Claims(Proc(Appending(w), u)))
  {
    hide Claims, EvaluatedHere, KeyTaken;
    var u := tx.(held := tx.held + {HitlKey(w.j.intent.key)}, write := PutHitl(w.id, Opened(env, w.j.intent, now)));
    OpenedClaims(u, w) by { assert EvaluatedHere(tx, w.j.intent, w.d); SameEntries(tx, u, w.j.intent, w.d); }
  }

  lemma RequestTx(env: Env, s: State, pid: nat, w: Purpose, now: int, u: Tx)
    requires w.ForRequest? && Known(env, s, pid) && s.procs[pid].pc == HitlInsert(w.j, w.d, now) && w.id !in s.hitls
    requires !HeldByOther(s, pid, HitlKey(w.j.intent.key))
    requires u == s.procs[pid].tx.(held := s.procs[pid].tx.held + {HitlKey(w.j.intent.key)},
      write := PutHitl(w.id, Opened(env, w.j.intent, now)))
    ensures TxOk(env, s, Proc(Appending(w), u)) && PurposeOk(s, pid, u, w) && Alone(s, pid, u)
  {
    hide Claims, WellLinked, Explains, IsEvaluated;
    OpenedExplained(env, s, s.procs[pid].tx, w, now);
  }

  lemma HitlInsertKeeps(env: Env, s: State, pid: nat, j: Job, d: PolicyDecision, now: int, c: Choice)
    requires Known(env, s, pid) && s.procs[pid].pc == HitlInsert(j, d, now)
    ensures HitlInsertStep(env, s, pid, j, d, now, c).Some? ==>
      Good(env, s, HitlInsertStep(env, s, pid, j, d, now, c).value, pid)
  {
    hide TxOk, RouteOk, PurposeOk, Alone, Good, HeldByOther;
    var tx := s.procs[pid].tx;
    var r := HitlInsertStep(env, s, pid, j, d, now, c);
    if r.Some? {
      var w := ForRequest(j, d, c.id);
      var u := tx.(held := tx.held + {HitlKey(j.intent.key)}, write := PutHitl(c.id, Opened(env, j.intent, now)));
      RequestTx(env, s, pid, w, now, u);
      ClosingPcMeans(env, s, pid, u, w);
      Enterable(env, s, r.value, pid, Proc(Appending(w), u));
    }
  }

  // ---------------------------------------------------------------------------------------------
  // The waiter.
  // ---------------------------------------------------------------------------------------------

  lemma SubscribeKeeps(env: Env, s: State, pid: nat, j: Job, id: string)
    requires Known(env, s, pid) && s.procs[pid].pc == Subscribe(j, id)
    requires ApprovalsOk(env, s)
    ensures Good(env, s, SubscribeStep(env, s, pid, j, id).value, pid)
  {
    hide TxOk, Alone, Good, EngineSaid, Authorized;
    var t := SubscribeStep(env, s, pid, j, id).value;
    assert RowOk(env, s.clock, s.hitls[id]);
    MoveNoting(env, s, t, pid, Waiting(j, id, s.clock + env.timeout), [Waited(pid, id)]);
  }

  lemma WaitingKeeps(env: Env, s: State, pid: nat, j: Job, id: string, deadline: int, c: Choice)
    requires Known(env, s, pid) && s.procs[pid].pc == Waiting(j, id, deadline)
    requires ApprovalsOk(env, s)
    ensures WaitingStep(s, pid, j, id, deadline, c).Some? ==>
      Good(env, s, WaitingStep(s, pid, j, id, deadline, c).value, pid)
  {
    hide TxOk, Alone, Good, EngineSaid, Authorized;
    var r := WaitingStep(s, pid, j, id, deadline, c);
    if deadline <= s.clock {
      Move(env, s, r.value, pid, ExpireLock(j, id));
    } else if r.Some? {
      Move(env, s, r.value, pid, ReadStatus(j, id, deadline, c.message));
    }
  }

  lemma ReadStatusKeeps(env: Env, s: State, pid: nat, j: Job, id: string, deadline: int, onMessage: bool)
    requires Known(env, s, pid) && s.procs[pid].pc == ReadStatus(j, id, deadline, onMessage)
    ensures Good(env, s, ReadStatusStep(s, pid, j, id, deadline, onMessage).value, pid)
  {
    hide TxOk, Alone, Good, EngineSaid, Authorized;
    var t := ReadStatusStep(s, pid, j, id, deadline, onMessage).value;
    if onMessage || Terminal(s.hitls[id].status) {
      Move(env, s, t, pid, Resolving(j, id, s.hitls[id].status));
    } else {
      Move(env, s, t, pid, Waiting(j, id, deadline));
    }
  }

  lemma ApprovedAuthorizes(s: State, pid: nat, j: Job, id: string)
    requires WaiterOk(s, pid, j, id) && s.hitls[id].status == Approved && GrantedIn(s.history, pid, j.intent)
    ensures Authorized(s.history, s.hitls, pid, j.(via := Some(id)))
  {
  }

  /** Where the status it has read takes a waiter. */
  lemma ResolvingPcs(env: Env, s: State, pid: nat, tx: Tx, j: Job, id: string, status: Status)
    requires PcOk(env, s, pid, tx, Resolving(j, id, status))
    ensures tx == NO_TX && DecidedAs(s.hitls, id, status)
    ensures status != Approved ==> PcOk(env, s, pid, tx, Ended(AnsweredNo(id, status)))
    ensures status == Approved && KeyOf(j.intent).None? ==>
      PcOk(env, s, pid, tx, Answered(j.(via := Some(id)), Approval(id)))
    ensures status == Approved && KeyOf(j.intent).Some? ==>
      forall row :: PcOk(env, s, pid, tx, ApprovedReserve(j, id, row))
  {
    hide EngineSaid, Authorized;
    if status == Approved && KeyOf(j.intent).None? {
      ApprovedAuthorizes(s, pid, j, id);
    }
  }

  lemma ResolvingKeeps(env: Env, s: State, pid: nat, j: Job, id: string, status: Status)
    requires Known(env, s, pid) && s.procs[pid].pc == Resolving(j, id, status)
    ensures Good(env, s, ResolvingStep(s, pid, j, id, status).value, pid)
  {
    hide TxOk, PcOk, Alone, Good;
    var t := ResolvingStep(s, pid, j, id, status).value;
    ResolvingPcs(env, s, pid, s.procs[pid].tx, j, id, status);
    MoveNoting(env, s, t, pid, t.procs[pid].pc, [Heard(pid, id, status)]);
  }

  lemma ApprovedGranted(env: Env, s: State, t: State, pid: nat, j: Job, id: string, row: Option<Budget>, k: BudgetKey)
    requires Known(env, s, pid) && s.procs[pid].pc == ApprovedReserve(j, id, row) && KeyOf(j.intent) == Some(k)
    requires SameTables(s, t) && t.clock == s.clock && t.published == s.published
    requires t.procs == s.procs[pid := s.procs[pid].(pc := Answered(j.(via := Some(id)), Approval(id)))]
    requires t.history == s.history + [Granted(pid, k, j.intent.amount.value)]
    ensures Good(env, s, t, pid)
  {
    hide TxOk, Alone, Good, EngineSaid, Authorized;
    var hs := [Granted(pid, k, j.intent.amount.value)];
    assert hs[0] in t.history;
    QuietEvolves(s, t, hs);
    WaiterStable(s, t, pid, j, id);
    ApprovedAuthorizes(t, pid, j, id);
    MoveWith(env, s, t, pid, Answered(j.(via := Some(id)), Approval(id)), hs);
  }

  /** A reservation that is refused after the approval denies the run. */
  lemma RefusedPc(env: Env, s: State, pid: nat, tx: Tx, j: Job, id: string, row: Option<Budget>, remaining: Option<int>)
    requires PcOk(env, s, pid, tx, ApprovedReserve(j, id, row))
    ensures PcOk(env, s, pid, tx, Answered(j.(via := Some(id)), LateRefusal(id, remaining)))
  {
    hide EngineSaid;
  }

  lemma ApprovedReserveKeeps(env: Env, s: State, pid: nat, j: Job, id: string, row: Option<Budget>)
    requires Known(env, s, pid) && s.procs[pid].pc == ApprovedReserve(j, id, row) && KeyOf(j.intent).Some?
    ensures Good(env, s, ApprovedReserveStep(s, pid, j, id, row, KeyOf(j.intent).value).value, pid)
  {
    hide TxOk, PcOk, Alone, Good, LateRefusal, Approval;
    var k := KeyOf(j.intent).value;
    var t := ApprovedReserveStep(s, pid, j, id, row, k).value;
    var r := Reserve(row, Cell(s, k), j.intent.amount.value);
    if r.granted {
      ApprovedGranted(env, s, t, pid, j, id, row, k);
    } else {
      RefusedPc(env, s, pid, s.procs[pid].tx, j, id, row, r.remaining);
      Move(env, s, t, pid, Answered(j.(via := Some(id)), LateRefusal(id, r.remaining)));
    }
  }

  lemma ExpireLockKeeps(env: Env, s: State, pid: nat, j: Job, id: string)
    requires Known(env, s, pid) && s.procs[pid].pc == ExpireLock(j, id)
    ensures ExpireLockStep(s, pid, j, id).Some? ==> Good(env, s, ExpireLockStep(s, pid, j, id).value, pid)
  {
    hide TxOk, Alone, Good, EngineSaid, Authorized;
    if ExpireLockStep(s, pid, j, id).Some? {
      LockGood(env, s, ExpireLockStep(s, pid, j, id).value, pid, HitlRow(id), ExpireWrite(j, id));
    }
  }

  lemma ExpiryExplained(env: Env, s: State, tx: Tx, j: Job, id: string)
    requires id in s.hitls && s.hitls[id].status == Pending && RowOk(env, s.clock, s.hitls[id])
      && s.hitls[id].expiresAt <= s.clock
    requires Holds(tx, HitlRow(id))
    ensures TxOk(env, s, Proc(Appending(ForExpiry(j, id)), tx.(write := PutHitl(id, ExpiredAt(s.hitls[id], s.clock)))))
  {
    OwedClaim(Appending(ForExpiry(j, id)), tx.(write := PutHitl(id, ExpiredAt(s.hitls[id], s.clock))), ExpireHitl(id));
  }

  lemma TimedOutNext(s: State, pid: nat, tx: Tx, id: string)
    requires tx.entries == [] && tx.write == NoWrite && id in s.hitls && Terminal(s.hitls[id].status)
    ensures NextOk(s, pid, tx, Ended(TimedOut(id)))
  {
  }

  lemma ExpireWritePc(env: Env, s: State, pid: nat, tx: Tx, j: Job, id: string)
    requires PcOk(env, s, pid, tx, ExpireWrite(j, id))
    ensures Holds(tx, HitlRow(id)) && tx.write == NoWrite && id in s.hitls && s.hitls[id].expiresAt <= s.clock
  {
  }

  lemma RowDecided(env: Env, clock: int, row: Hitl)
    requires RowOk(env, clock, row) && row.status != Pending
    ensures Terminal(row.status)
  {
  }

  lemma ExpiryPurpose(s: State, pid: nat, tx: Tx, j: Job, id: string)
    requires Holds(tx, HitlRow(id)) && id in s.hitls
    ensures PurposeOk(s, pid, tx.(write := PutHitl(id, ExpiredAt(s.hitls[id], s.clock))), ForExpiry(j, id))
  {
  }

  lemma ExpireWriteKeeps(env: Env, s: State, pid: nat, j: Job, id: string)
    requires Known(env, s, pid) && s.procs[pid].pc == ExpireWrite(j, id) && id in s.hitls
    requires RowOk(env, s.clock, s.hitls[id])
    ensures Good(env, s, ExpireWriteStep(s, pid, j, id).value, pid)
  {
    hide TxOk, PcOk, PurposeOk, NextOk, Alone, Good, RowOk;
    ExpireWritePc(env, s, pid, s.procs[pid].tx, j, id);
    var tx := s.procs[pid].tx;
    var t := ExpireWriteStep(s, pid, j, id).value;
    if s.hitls[id].status != Pending {
      RowDecided(env, s.clock, s.hitls[id]);
      TimedOutNext(s, pid, tx, id);
      MoveToCommit(env, s, t, pid, Ended(TimedOut(id)));
    } else {
      ExpiryExplained(env, s, tx, j, id);
      ExpiryPurpose(s, pid, tx, j, id);
      ClosingPcMeans(env, s, pid, tx.(write := PutHitl(id, ExpiredAt(s.hitls[id], s.clock))), ForExpiry(j, id));
      WriteGood(env, s, t, pid, PutHitl(id, ExpiredAt(s.hitls[id], s.clock)), Appending(ForExpiry(j, id)));
    }
  }
}
