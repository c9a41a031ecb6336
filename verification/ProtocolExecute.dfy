/** The steps of `execute`, of the writing API calls and of every append keep the invariant. */
module ProtocolExecute {
  import opened Wrappers
  import opened Schemas
  import opened Governor
  import opened AuditChain
  import opened Events
  import opened Replay
  import opened Protocol
  import opened ProtocolInvariant
  import opened ProtocolStability
  import opened ProtocolSteps

  lemma AnsweredKeeps(env: Env, s: State, pid: nat, j: Job, d: PolicyDecision)
    requires Known(env, s, pid) && s.procs[pid].pc == Answered(j, d)
    ensures Good(env, s, AnsweredStep(s, pid, j, d).value, pid)
  {
    hide TxOk, Alone, Good, EngineSaid;
    var t := AnsweredStep(s, pid, j, d).value;
    if !j.execute {
      Move(env, s, t, pid, Ended(Returned(d)));
    } else if d.outcome == Deny {
      MoveToEnd(env, s, t, pid, DeniedByPolicy);
    } else if d.outcome != Allow {
      MoveToEnd(env, s, t, pid, NotApproved);
    } else {
      Move(env, s, t, pid, Operating(j));
    }
  }

  lemma OperatedPc(env: Env, s: State, t: State, pid: nat, j: Job, raised: bool, pc: Pc)
    requires Known(env, s, pid) && s.procs[pid].pc == Operating(j)
    requires if raised then pc.FailRead? && pc.j == j else pc == CommitLock(j)
    requires t.history == s.history + [Operated(pid, j, raised)] && t.hitls == s.hitls
    ensures PcOk(env, t, pid, s.procs[pid].tx, pc)
    ensures QuietHappenings(s, pid, [Operated(pid, j, raised)])
  {
    assert Operated(pid, j, raised) in t.history;
  }

  lemma OperatingKeeps(env: Env, s: State, pid: nat, j: Job, c: Choice)
    requires Known(env, s, pid) && s.procs[pid].pc == Operating(j)
    ensures Good(env, s, OperatingStep(s, pid, j, c).value, pid)
  {
    hide TxOk, PcOk, Alone, Good, QuietHappenings, Authorized;
    var t := OperatingStep(s, pid, j, c).value;
    var pc := if c.failure.Some? then FailRead(j, c.failure.value.0, c.failure.value.1) else CommitLock(j);
    OperatedPc(env, s, t, pid, j, c.failure.Some?, pc);
    MoveWith(env, s, t, pid, pc, [Operated(pid, j, c.failure.Some?)]);
  }

  lemma CommitLockKeeps(env: Env, s: State, pid: nat, j: Job)
    requires Known(env, s, pid) && s.procs[pid].pc == CommitLock(j)
    ensures CommitLockStep(s, pid, j).Some? ==> Good(env, s, CommitLockStep(s, pid, j).value, pid)
  {
    hide TxOk, Alone, Good, EngineSaid, Authorized;
    var r := CommitLockStep(s, pid, j);
    if KeyOf(j.intent).None? {
      Append(env, s, r.value, pid, ForCompletion(j));
    } else if KeyOf(j.intent).value !in s.budgets {
      AbortGood(env, s, pid);
    } else if r.Some? {
      LockGood(env, s, r.value, pid, BudgetSlot(KeyOf(j.intent).value), CommitCharge(j));
    }
  }

  /** A budget row computed under its lock, with the entry that explains it still owed. */
  lemma BudgetExplained(env: Env, s: State, tx: Tx, k: BudgetKey, row: Budget, w: Purpose, e: Effect)
    requires tx.entries == [] && BudgetSlot(k) in tx.held && (forall r | r in tx.held :: !r.HitlKey? && !r.HitlRow?)
    requires PurposeEffect(w) == e && (e.SetLimit? || e.Charge?) && e.k == k
    requires ApplyBudget(Find(s.budgets, k), e) == Some(row)
    requires row.consumed == ConsumedOf(Find(s.budgets, k)) + ChargeOf(e, k) && Sane(row) && row.active
    ensures TxOk(env, s, Proc(ResetCell(k, Room(row), w), tx.(write := PutBudget(k, row))))
  {
    OwedClaim(ResetCell(k, Room(row), w), tx.(write := PutBudget(k, row)), e);
  }

  lemma CommitChargeKeeps(env: Env, s: State, pid: nat, j: Job, k: BudgetKey)
    requires Known(env, s, pid) && s.procs[pid].pc == CommitCharge(j) && KeyOf(j.intent) == Some(k)
    requires k in s.budgets ==> Sane(s.budgets[k]) && s.budgets[k].active
    ensures Good(env, s, CommitChargeStep(s, pid, j, k).value, pid)
  {
    hide TxOk, Alone, Good, EngineSaid, Authorized;
    var tx := s.procs[pid].tx;
    var amount := j.intent.amount.value;
    match Commit(Find(s.budgets, k), amount)
    case Err(_) => AbortGood(env, s, pid);
    case Ok(row) =>
      CommitKeepsCap(Find(s.budgets, k), amount);
      BudgetExplained(env, s, tx, k, row, ForCompletion(j), Charge(k, amount));
      WriteGood(env, s, CommitChargeStep(s, pid, j, k).value, pid, PutBudget(k, row),
        ResetCell(k, Room(row), ForCompletion(j)));
  }

  lemma FailReadKeeps(env: Env, s: State, pid: nat, j: Job, errorType: string, error: string)
    requires Known(env, s, pid) && s.procs[pid].pc == FailRead(j, errorType, error)
    ensures Good(env, s, FailReadStep(s, pid, j, errorType, error).value, pid)
  {
    hide TxOk, Alone, Good, EngineSaid, Authorized;
    var t := FailReadStep(s, pid, j, errorType, error).value;
    if KeyOf(j.intent).None? {
      Append(env, s, t, pid, ForFailure(j, errorType, error));
    } else {
      Move(env, s, t, pid, FailRelease(j, Find(s.budgets, KeyOf(j.intent).value), errorType, error));
    }
  }

  lemma FailReleaseKeeps(
      env: Env, s: State, pid: nat, j: Job, row: Option<Budget>, errorType: string, error: string, k: BudgetKey)
    requires Known(env, s, pid) && s.procs[pid].pc == FailRelease(j, row, errorType, error)
      && KeyOf(j.intent) == Some(k)
    ensures Good(env, s, FailReleaseStep(s, pid, j, row, errorType, error, k).value, pid)
  {
    hide TxOk, Alone, Good, EngineSaid, Authorized;
    Append(env, s, FailReleaseStep(s, pid, j, row, errorType, error, k).value, pid, ForFailure(j, errorType, error));
  }

  // ---------------------------------------------------------------------------------------------
  // The API calls.
  // ---------------------------------------------------------------------------------------------

  lemma UpsertLockPc(env: Env, s: State, pid: nat, tx: Tx, pc: Pc)
    requires pc.UpsertLock? && PcOk(env, s, pid, tx, pc)
    ensures tx == NO_TX
    ensures PcOk(env, s, pid, tx, UpsertInsert(pc.k, pc.limit, pc.actor))
    ensures pc.k in s.budgets ==>
      PcOk(env, s, pid, Tx({BudgetSlot(pc.k)}, NoWrite, []), UpsertWrite(pc.k, pc.limit, pc.actor))
  {
    hide WaiterOk, PurposeOk, NextOk, Authorized, RouteOk, Fits, RecordOf, ViaOk, OperatedIn, Unasked;
  }

  lemma UpsertLockKeeps(env: Env, s: State, pid: nat, k: BudgetKey, limit: int, actor: string)
    requires Known(env, s, pid) && s.procs[pid].pc == UpsertLock(k, limit, actor)
    ensures UpsertLockStep(s, pid, k, limit, actor).Some? ==>
      Good(env, s, UpsertLockStep(s, pid, k, limit, actor).value, pid)
  {
    hide TxOk, PcOk, Alone, Good;
    UpsertLockPc(env, s, pid, s.procs[pid].tx, s.procs[pid].pc);
    var r := UpsertLockStep(s, pid, k, limit, actor);
    if k !in s.budgets {
      Move(env, s, r.value, pid, UpsertInsert(k, limit, actor));
    } else if r.Some? {
      LockGood(env, s, r.value, pid, BudgetSlot(k), UpsertWrite(k, limit, actor));
    }
  }

  lemma InsertBudgetGood(env: Env, s: State, t: State, pid: nat, k: BudgetKey, row: Budget, w: Purpose)
    requires pid in s.procs && !HeldByOther(s, pid, BudgetSlot(k)) && w.ForLimit? && w.k == k
    requires SameTables(s, t) && t.clock == s.clock && t.history == s.history && t.published == s.published
    requires t.procs == s.procs[pid := Proc(ResetCell(k, Room(row), w), Tx({BudgetSlot(k)}, PutBudget(k, row), []))]
    requires TxOk(env, s, Proc(ResetCell(k, Room(row), w), Tx({BudgetSlot(k)}, PutBudget(k, row), [])))
    ensures Good(env, s, t, pid)
  {
    var u := Tx({BudgetSlot(k)}, PutBudget(k, row), []);
    LockAlone(s, pid, BudgetSlot(k), u);
    Enterable(env, s, t, pid, Proc(ResetCell(k, Room(row), w), u));
  }

  lemma UpsertInsertKeeps(env: Env, s: State, pid: nat, k: BudgetKey, limit: int, actor: string)
    requires Known(env, s, pid) && s.procs[pid].pc == UpsertInsert(k, limit, actor)
    ensures UpsertInsertStep(s, pid, k, limit, actor).Some? ==>
      Good(env, s, UpsertInsertStep(s, pid, k, limit, actor).value, pid)
  {
    var r := UpsertInsertStep(s, pid, k, limit, actor);
    if r.Some? && k in s.budgets {
      AbortGood(env, s, pid);
    } else if r.Some? {
      var row := Upsert(None, limit).value;
      var w := ForLimit(k, limit, actor);
      BudgetExplained(env, s, Tx({BudgetSlot(k)}, NoWrite, []), k, row, w, SetLimit(k, limit));
      assert s.procs[pid].tx.held + {BudgetSlot(k)} == {BudgetSlot(k)};
      InsertBudgetGood(env, s, r.value, pid, k, row, w);
    }
  }

  lemma UpsertWriteKeeps(env: Env, s: State, pid: nat, k: BudgetKey, limit: int, actor: string)
    requires Known(env, s, pid) && s.procs[pid].pc == UpsertWrite(k, limit, actor)
    requires k in s.budgets ==> Sane(s.budgets[k]) && s.budgets[k].active
    ensures Good(env, s, UpsertWriteStep(s, pid, k, limit, actor).value, pid)
  {
    hide TxOk, Alone, Good, EngineSaid, Authorized;
    var tx := s.procs[pid].tx;
    var w := ForLimit(k, limit, actor);
    match Upsert(Find(s.budgets, k), limit)
    case None => AbortGood(env, s, pid);
    case Some(row) =>
      UpsertKeepsCap(Find(s.budgets, k), limit);
      BudgetExplained(env, s, tx, k, row, w, SetLimit(k, limit));
      WriteGood(env, s, UpsertWriteStep(s, pid, k, limit, actor).value, pid, PutBudget(k, row),
        ResetCell(k, Room(row), w));
  }

  lemma ResolveLockPc(env: Env, s: State, pid: nat, tx: Tx, pc: Pc)
    requires pc.ResolveLock? && PcOk(env, s, pid, tx, pc) && pc.id in s.hitls
    ensures tx == NO_TX
    ensures PcOk(env, s, pid, Tx({HitlRow(pc.id)}, NoWrite, []),
      ResolveWrite(pc.id, pc.approved, pc.comment, pc.actor, pc.now))
  {
  }

  lemma ResolveLockKeeps(
      env: Env, s: State, pid: nat, id: string, approved: bool, comment: Option<string>, actor: string, now: int)
    requires Known(env, s, pid) && s.procs[pid].pc == ResolveLock(id, approved, comment, actor, now)
    ensures ResolveLockStep(s, pid, id, approved, comment, actor, now).Some? ==>
      Good(env, s, ResolveLockStep(s, pid, id, approved, comment, actor, now).value, pid)
  {
    hide TxOk, PcOk, Alone, Good;
    var r := ResolveLockStep(s, pid, id, approved, comment, actor, now);
    if id !in s.hitls {
      AbortGood(env, s, pid);
    } else if r.Some? {
      ResolveLockPc(env, s, pid, s.procs[pid].tx, s.procs[pid].pc);
      LockGood(env, s, r.value, pid, HitlRow(id), ResolveWrite(id, approved, comment, actor, now));
    }
  }

  lemma ResolvedOk(env: Env, clock: int, row: Hitl, approved: bool, comment: Option<string>, actor: string, now: int)
    requires row.status == Pending && RowOk(env, clock, row) && now < row.expiresAt && now <= clock
    ensures var r := Resolved(row, approved, comment, actor, now);
      && RowOk(env, clock, r) && Terminal(r.status) && r.key == row.key && r.expiresAt == row.expiresAt
      && forall id :: ApplyHitl(Some(ViewOf(row)), CloseHitl(id, approved, actor, comment)) == Some(ViewOf(r))
  {
  }

  lemma ResolutionExplained(
      env: Env, s: State, tx: Tx, id: string, approved: bool, comment: Option<string>, actor: string, now: int)
    requires id in s.hitls && s.hitls[id].status == Pending && RowOk(env, s.clock, s.hitls[id])
    requires now < s.hitls[id].expiresAt && now <= s.clock && Holds(tx, HitlRow(id))
    ensures TxOk(env, s, Proc(Appending(ForResolution(id, approved, comment, actor)),
      tx.(write := PutHitl(id, Resolved(s.hitls[id], approved, comment, actor, now)))))
  {
    var row := Resolved(s.hitls[id], approved, comment, actor, now);
    ResolvedOk(env, s.clock, s.hitls[id], approved, comment, actor, now);
    var u := tx.(write := PutHitl(id, row));
    OwedClaim(Appending(ForResolution(id, approved, comment, actor)), u, CloseHitl(id, approved, actor, comment));
    assert HitlWriteOk(env, s, u, [CloseHitl(id, approved, actor, comment)], id, row);
  }

  /** Nothing is asked of a write that is about to be rolled back. */
  lemma ConflictTx(env: Env, s: State, p: Proc, write: Write)
    requires TxOk(env, s, p)
    ensures TxOk(env, s, Proc(RaiseConflict, p.tx.(write := write)))
  {
  }

  lemma ResolveWritePcs(
      env: Env, s: State, pid: nat, tx: Tx, id: string, approved: bool,
      comment: Option<string>, actor: string, now: int)
    requires PcOk(env, s, pid, tx, ResolveWrite(id, approved, comment, actor, now)) && id in s.hitls
    ensures Holds(tx, HitlRow(id)) && now <= s.clock
    ensures PcOk(env, s, pid, tx.(write := PutHitl(id, ExpiredAt(s.hitls[id], now))), RaiseConflict)
    ensures PurposeOk(s, pid, tx.(write := PutHitl(id, Resolved(s.hitls[id], approved, comment, actor, now))),
      ForResolution(id, approved, comment, actor))
  {
  }

  lemma ResolveWriteKeeps(
      env: Env, s: State, pid: nat, id: string, approved: bool, comment: Option<string>, actor: string, now: int)
    requires Known(env, s, pid) && s.procs[pid].pc == ResolveWrite(id, approved, comment, actor, now) && id in s.hitls
    requires RowOk(env, s.clock, s.hitls[id])
    ensures Good(env, s, ResolveWriteStep(s, pid, id, approved, comment, actor, now).value, pid)
  {
    hide TxOk, PcOk, PurposeOk, Alone, Good, RowOk, Resolved, ExpiredAt;
    var tx := s.procs[pid].tx;
    var t := ResolveWriteStep(s, pid, id, approved, comment, actor, now).value;
    ResolveWritePcs(env, s, pid, tx, id, approved, comment, actor, now);
    if s.hitls[id].status != Pending {
      AbortGood(env, s, pid);
    } else if s.hitls[id].expiresAt <= now {
      ConflictTx(env, s, s.procs[pid], PutHitl(id, ExpiredAt(s.hitls[id], now)));
      WriteGood(env, s, t, pid, PutHitl(id, ExpiredAt(s.hitls[id], now)), RaiseConflict);
    } else {
      var w, write := ForResolution(id, approved, comment, actor),
        PutHitl(id, Resolved(s.hitls[id], approved, comment, actor, now));
      ResolutionExplained(env, s, tx, id, approved, comment, actor, now);
      ClosingPcMeans(env, s, pid, tx.(write := write), w);
      WriteGood(env, s, t, pid, write, Appending(w));
    }
  }

  lemma PublishPcs(env: Env, s: State, pid: nat, tx: Tx, id: string)
    requires PcOk(env, s, pid, tx, Publish(id))
    ensures tx == NO_TX && id in s.hitls && Terminal(s.hitls[id].status)
  {
  }

  lemma PublishKeeps(env: Env, s: State, pid: nat, id: string)
    requires Known(env, s, pid) && s.procs[pid].pc == Publish(id)
    ensures Good(env, s, Go(s.(published := s.published + {id}), pid, Ended(Finished)), pid)
  {
    hide TxOk, PcOk;
    var t := Go(s.(published := s.published + {id}), pid, Ended(Finished));
    PublishPcs(env, s, pid, s.procs[pid].tx, id);
    IdleTx(env, t, Ended(Finished));
    EndedPc(env, t, pid, Finished);
    assert t.history == s.history + [];
    assert GoodStep(env, s, t, pid, []);
  }

  lemma AdminInsertPcs(env: Env, s: State, pid: nat, tx: Tx, name: string, event: Event, actor: string)
    requires PcOk(env, s, pid, tx, AdminInsert(name, event, actor))
    ensures tx == NO_TX && PurposeOk(s, pid, Tx({OtherKey(name)}, PutOther(name), []), ForAdmin(name, event, actor))
    ensures PurposeEffect(ForAdmin(name, event, actor)) == NoEffect
  {
  }

  lemma AdminTx(env: Env, s: State, w: Purpose)
    requires w.ForAdmin? && PurposeEffect(w) == NoEffect
    ensures TxOk(env, s, Proc(Appending(w), Tx({OtherKey(w.name)}, PutOther(w.name), [])))
  {
    HarmlessClaim(Appending(w), Tx({OtherKey(w.name)}, PutOther(w.name), []));
  }

  lemma AdminInsertKeeps(env: Env, s: State, pid: nat, name: string, event: Event, actor: string)
    requires Known(env, s, pid) && s.procs[pid].pc == AdminInsert(name, event, actor)
    ensures AdminInsertStep(s, pid, name, event, actor).Some? ==>
      Good(env, s, AdminInsertStep(s, pid, name, event, actor).value, pid)
  {
    hide TxOk, PcOk, PurposeOk, PurposeEffect, Alone, Good, HeldByOther;
    var r := AdminInsertStep(s, pid, name, event, actor);
    AdminInsertPcs(env, s, pid, s.procs[pid].tx, name, event, actor);
    if r.Some? && name in s.others {
      AbortGood(env, s, pid);
    } else if r.Some? {
      var w := ForAdmin(name, event, actor);
      var u := Tx({OtherKey(name)}, PutOther(name), []);
      AdminTx(env, s, w);
      assert s.procs[pid].tx.held + {OtherKey(name)} == u.held;
      LockAlone(s, pid, OtherKey(name), u);
      ClosingPcMeans(env, s, pid, u, w);
      Enterable(env, s, r.value, pid, Proc(Appending(w), u));
    }
  }

  // ---------------------------------------------------------------------------------------------
  // Appending.
  // ---------------------------------------------------------------------------------------------

  lemma ResetCellKeeps(env: Env, s: State, pid: nat, k: BudgetKey, v: int, w: Purpose)
    requires Known(env, s, pid) && s.procs[pid].pc == ResetCell(k, v, w)
    ensures Good(env, s, ResetCellStep(s, pid, k, v, w).value, pid)
  {
    hide TxOk, Alone, Good, EngineSaid, Authorized;
    if v < 0 {
      AbortGood(env, s, pid);
    } else {
      MoveToAppending(env, s, ResetCellStep(s, pid, k, v, w).value, pid, w);
    }
  }

  lemma SealFits(env: Env, s: State, tx: Tx, w: Purpose)
    requires WellLinked(env.crypto, s.log) && (tx.entries != [] ==> WellLinked(env.crypto, s.log + tx.entries))
    ensures var r := Seal(env.crypto, s.log + tx.entries, EventType(EventFor(w)), ActorFor(w),
      EventPayload(EventFor(w)), s.clock);
      Fits(env, s, tx, r) && RecordOf(w, r)
  {
    assert tx.entries == [] ==> s.log + tx.entries == s.log;
    assert s.log[..|s.log|] == s.log;
    SealLinks(env.crypto, s.log + tx.entries, EventType(EventFor(w)), ActorFor(w), EventPayload(EventFor(w)), s.clock);
  }

  lemma TxLinked(env: Env, s: State, p: Proc)
    requires TxOk(env, s, p)
    ensures p.tx.entries != [] ==> WellLinked(env.crypto, s.log + p.tx.entries)
  {
  }

  lemma AppendingKeeps(env: Env, s: State, pid: nat, w: Purpose)
    requires Known(env, s, pid) && s.procs[pid].pc == Appending(w) && WellLinked(env.crypto, s.log)
    ensures Good(env, s, AppendingStep(env, s, pid, w).value, pid)
  {
    hide TxOk, PcOk, PurposeOk, Fits, RecordOf, Alone, Good, WellLinked, Seal, EventFor, ActorFor, EventType,
      EventPayload,
      EventEffect, ValidName;
    var tx := s.procs[pid].tx;
    if !ValidName(ActorFor(w)) || !ValidName(EventType(EventFor(w))) {
      AbortGood(env, s, pid);
    } else {
      var t := AppendingStep(env, s, pid, w).value;
      ClosingPcMeans(env, s, pid, tx, w);
      TxLinked(env, s, s.procs[pid]);
      SealFits(env, s, tx, w);
      MoveToInserting(env, s, t, pid, w, t.procs[pid].pc.record);
    }
  }

  lemma SequenceTaken(c: Crypto, log: seq<AuditLog>, n: int)
    requires WellLinked(c, log)
    ensures 1 <= n <= |log| ==> exists x | x in log :: x.sequence == n
  {
    if 1 <= n <= |log| {
      assert Links(c, log[..n - 1], log[n - 1]);
      assert log[n - 1] in log;
    }
  }

  /** A record that clashes with no committed one continues the log as it now stands. */
  lemma NoDuplicateFits(env: Env, s: State, tx: Tx, r: AuditLog)
    requires WellLinked(env.crypto, s.log) && Fits(env, s, tx, r) && !Duplicate(s.log, r)
    ensures Links(env.crypto, s.log + tx.entries, r)
  {
    if tx.entries == [] {
      SequenceTaken(env.crypto, s.log, r.sequence);
      assert r.sequence == |s.log| + 1;
      assert s.log + tx.entries == s.log && s.log[..|s.log|] == s.log;
    }
  }

  lemma FirstPending(c: Crypto, log: seq<AuditLog>, es: seq<AuditLog>)
    requires es != [] && WellLinked(c, log + es)
    ensures es[0] in es && es[0].sequence == |log| + 1
  {
    var l := log + es;
    assert Links(c, l[..|log|], l[|log|]);
  }

  /** Anyone else with entries pending would be holding this very sequence number. */
  lemma SlotIsFree(env: Env, s: State, pid: nat, r: AuditLog)
    requires pid in s.procs && Alone(s, pid, s.procs[pid].tx)
    requires Links(env.crypto, s.log + s.procs[pid].tx.entries, r) && !PendingByOther(s, pid, r.sequence)
    requires forall q | q in s.procs && s.procs[q].tx.entries != [] ::
      WellLinked(env.crypto, s.log + s.procs[q].tx.entries)
    ensures forall q | q in s.procs && q != pid :: s.procs[q].tx.entries == []
  {
    forall q | q in s.procs && s.procs[q].tx.entries != []
      ensures s.procs[q].tx.entries[0] in s.procs[q].tx.entries && s.procs[q].tx.entries[0].sequence == |s.log| + 1
    {
      FirstPending(env.crypto, s.log, s.procs[q].tx.entries);
    }
  }

  lemma OutcomeEntriesSnoc(es: seq<AuditLog>, r: AuditLog)
    ensures OutcomeEntries(es + [r]) == OutcomeEntries(es) + (if OutcomeEntry(r) then 1 else 0)
  {
    assert (es + [r])[..|es|] == es;
  }

  lemma OutcomeOfPurpose(w: Purpose, r: AuditLog)
    requires RecordOf(w, r) && (w.ForAdmin? ==> AdminEvent(w.event))
    ensures OutcomeEntry(r) <==> w.ForCompletion? || w.ForFailure?
  {
    var c, f := "execution_completed", "execution_failed";
    assert c[0] == 'e' && c[10] == 'c' && f[0] == 'e' && f[10] == 'f';
    match w
    case ForEvaluation(_, _, _) => assert r.eventType[10] == 'i';
    case ForRequest(_, _, _) => assert r.eventType[0] == 'h';
    case ForExpiry(_, _) => assert r.eventType[0] == 'h';
    case ForCompletion(_) =>
    case ForFailure(_, _, _) =>
    case ForLimit(_, _, _) => assert r.eventType[0] == 'b';
    case ForResolution(_, _, _, _) => assert r.eventType[0] == 'h';
    case ForAdmin(_, _, _) => assert r.eventType[0] == 'a' || r.eventType[0] == 'p';
  }

  /** The entry about to be written tells the truth about what the run did. */
  lemma PurposeEarned(s: State, pid: nat, tx: Tx, w: Purpose, r: AuditLog)
    requires PurposeOk(s, pid, tx, w) && RecordOf(w, r)
    ensures Earned(s.history, pid, r)
  {
    OutcomeOfPurpose(w, r);
    if w.ForCompletion? || w.ForFailure? {
      assert "execution_completed"[10] == 'c' && "execution_failed"[10] == 'f';
      EventReadsBack(EventFor(w));
      IntentRecorded(EventFor(w), r);
    }
  }

  lemma AfterEvaluation(env: Env, s: State, pid: nat, tx: Tx, w: Purpose, r: AuditLog)
    requires w.ForEvaluation? && PurposeOk(s, pid, tx, w) && RecordOf(w, r)
    ensures PcOk(env, s, pid, tx.(entries := tx.entries + [r]), After(w))
  {
    hide EventOf, EventType, EventPayload;
    EventReadsBack(EventFor(w));
    assert tx.entries + [r] == [r];
  }

  lemma AfterRequest(s: State, pid: nat, tx: Tx, w: Purpose, r: AuditLog)
    requires w.ForRequest? && PurposeOk(s, pid, tx, w) && RecordOf(w, r)
    ensures NextOk(s, pid, tx.(entries := tx.entries + [r]), Subscribe(w.j, w.id))
  {
    hide Earned;
    EvaluatedNoOutcome(s.history, pid, tx, w.j.intent, w.d);
    PurposeEarned(s, pid, tx, w, r);
    OutcomeEntriesSnoc(tx.entries, r);
    OutcomeOfPurpose(w, r);
    assert (tx.entries + [r])[0] == tx.entries[0];
    assert IsEvaluated((tx.entries + [r])[0], w.j.intent, w.d);
  }

  lemma OneEarned(history: seq<Happening>, pid: nat, r: AuditLog)
    requires Earned(history, pid, r)
    ensures AllEarned(history, pid, [r]) && OutcomeEntries([r]) == if OutcomeEntry(r) then 1 else 0
  {
    hide Earned, OutcomeEntry;
    OutcomeEntriesSnoc([], r);
    assert [] + [r] == [r];
  }

  /** An update of a row, or nothing, is what the remaining purposes commit. */
  lemma AfterOthers(env: Env, s: State, pid: nat, tx: Tx, w: Purpose, r: AuditLog)
    requires !w.ForEvaluation? && !w.ForRequest? && PurposeOk(s, pid, tx, w) && RecordOf(w, r)
    ensures NextOk(s, pid, tx.(entries := tx.entries + [r]), After(w).next)
  {
    hide Earned, AllEarned, OutcomeEntries, OperatedIn, RecordOf, OutcomeEntry, AdminEvent, EvaluatedHere, IsEvaluated,
      ValidIntent, Paid;
    PurposeEarned(s, pid, tx, w, r);
    OneEarned(s.history, pid, r);
    OutcomeOfPurpose(w, r);
    assert tx.entries == [] && tx.entries + [r] == [r];
  }

  /** What the program relies on after its entry is in. */
  lemma AfterOk(env: Env, s: State, pid: nat, tx: Tx, w: Purpose, r: AuditLog)
    requires PurposeOk(s, pid, tx, w) && RecordOf(w, r)
    ensures PcOk(env, s, pid, tx.(entries := tx.entries + [r]), After(w))
  {
    hide PurposeOk, NextOk, RecordOf;
    if w.ForEvaluation? {
      AfterEvaluation(env, s, pid, tx, w, r);
    } else if w.ForRequest? {
      AfterRequest(s, pid, tx, w, r);
    } else {
      AfterOthers(env, s, pid, tx, w, r);
    }
  }

  lemma AfterOwes(w: Purpose)
    ensures Owed(After(w)) == []
  {
  }

  lemma RecordEffect(w: Purpose, r: AuditLog)
    requires RecordOf(w, r)
    ensures EntryEffect(r) == PurposeEffect(w)
  {
    hide EventEffect, EffectOf, EventFor, EventType, EventPayload, ActorFor;
    EffectReadsBack(EventFor(w), ActorFor(w));
  }

  lemma InsertedClaims(tx: Tx, w: Purpose, r: AuditLog)
    requires RecordOf(w, r)
    ensures Claims(Proc(After(w), tx.(entries := tx.entries + [r]))) == Claims(Proc(Inserting(w, r), tx))
  {
    hide RecordOf, EntryEffect, PurposeEffect, After, Effects, Significant;
    var es := tx.entries + [r];
    RecordEffect(w, r);
    AfterOwes(w);
    EffectsSnoc(tx.entries, r);
    assert Effects(es) + [] == Effects(tx.entries) + [PurposeEffect(w)];
  }

  lemma InsertedLinked(c: Crypto, log: seq<AuditLog>, es: seq<AuditLog>, r: AuditLog)
    requires WellLinked(c, log) && (es != [] ==> WellLinked(c, log + es)) && Links(c, log + es, r)
    ensures WellLinked(c, log + (es + [r]))
  {
    assert es == [] ==> log + es == log;
    ExtendWellLinked(c, log + es, r);
    assert log + es + [r] == log + (es + [r]);
  }

  lemma InsertedExplained(env: Env, s: State, tx: Tx, w: Purpose, r: AuditLog)
    requires TxOk(env, s, Proc(Inserting(w, r), tx)) && RecordOf(w, r)
    requires WellLinked(env.crypto, s.log) && Links(env.crypto, s.log + tx.entries, r)
    ensures TxOk(env, s, Proc(After(w), tx.(entries := tx.entries + [r])))
  {
    InsertedLinked(env.crypto, s.log, tx.entries, r);
    InsertedClaims(tx, w, r);
  }

  lemma SlotAlone(s: State, pid: nat, tx: Tx, u: Tx)
    requires Alone(s, pid, tx) && u.held == tx.held
    requires forall q | q in s.procs && q != pid :: s.procs[q].tx.entries == []
    ensures Alone(s, pid, u)
  {
  }

  lemma InsertingKeeps(env: Env, s: State, pid: nat, w: Purpose, r: AuditLog)
    requires Known(env, s, pid) && s.procs[pid].pc == Inserting(w, r) && WellLinked(env.crypto, s.log)
    requires forall q | q in s.procs && s.procs[q].tx.entries != [] ::
      WellLinked(env.crypto, s.log + s.procs[q].tx.entries)
    ensures InsertingStep(s, pid, w, r).Some? ==> Good(env, s, InsertingStep(s, pid, w, r).value, pid)
  {
    hide TxOk, PcOk, PurposeOk, Fits, RecordOf, Alone, Good, WellLinked, Links, After, Duplicate, PendingByOther;
    var tx := s.procs[pid].tx;
    var step := InsertingStep(s, pid, w, r);
    ClosingPcMeans(env, s, pid, tx, w);
    if step.Some? {
      if Duplicate(s.log, r) {
        AbortGood(env, s, pid);
      } else {
        NoDuplicateFits(env, s, tx, r);
        SlotIsFree(env, s, pid, r);
        InsertedExplained(env, s, tx, w, r);
        AfterOk(env, s, pid, tx, w, r);
        SlotAlone(s, pid, tx, tx.(entries := tx.entries + [r]));
        Enterable(env, s, step.value, pid, Proc(After(w), tx.(entries := tx.entries + [r])));
      }
    }
  }
}
