/** What the invariant means for the ledger, the log, the approvals, their waiters and `execute`. */
module ProtocolTheorems {
  import opened Wrappers
  import opened Schemas
  import opened AuditChain
  import opened Events
  import opened Replay
  import opened Protocol
  import opened ProtocolInvariant
  import opened ProtocolStability
  import opened ProtocolSteps
  import opened ProtocolRuns
  import opened ProtocolHistory

  /** What a run knows at the point where it is. */
  lemma LocalHere(env: Env, s: State, pid: nat)
    requires Inv(env, s) && pid in s.procs
    ensures PcOk(env, s, pid, s.procs[pid].tx, s.procs[pid].pc) && TxOk(env, s, s.procs[pid])
  {
    assert Local(env, s, pid, s.procs[pid]);
  }

  // ---------------------------------------------------------------------------------------------
  // The tables are a replay of the log, and the ledger is safe, with Redis under nobody's control.
  // ---------------------------------------------------------------------------------------------

  lemma TablesAreReplay(env: Env, actions: seq<Action>, s: State)
    requires Reaches(env, actions, s)
    ensures Replayed(s.log).budgets == s.budgets
    ensures Replayed(s.log).hitls.Keys == s.hitls.Keys
    ensures forall id | id in s.hitls :: Replayed(s.log).hitls[id] == ViewOf(s.hitls[id])
  {
    InvariantHolds(env, actions, s);
  }

  lemma LedgerSafe(env: Env, actions: seq<Action>, s: State, k: BudgetKey)
    requires Reaches(env, actions, s)
    ensures ChargedTo(s.log, k) == if k in s.budgets then s.budgets[k].consumed else 0
    ensures k in s.budgets ==> 0 <= s.budgets[k].consumed <= s.budgets[k].limit
  {
    InvariantHolds(env, actions, s);
    assert ConsumedOf(Find(s.budgets, k)) == ChargedTo(s.log, k);
  }

  predicate ClosedBy(log: seq<AuditLog>, id: string, approved: bool, h: HitlView)
  {
    exists r | r in log ::
      EntryEffect(r) == CloseHitl(id, approved, r.actor, h.comment) && h.reviewer == Some(r.actor)
  }

  predicate ExpiredBy(log: seq<AuditLog>, id: string) { exists r | r in log :: EntryEffect(r) == ExpireHitl(id) }

  /** A row says how it was decided, and the log has the entry that decided it. */
  predicate OnRecord(log: seq<AuditLog>, id: string, h: HitlView)
  {
    && (h.status == Expired ==> ExpiredBy(log, id))
    && (h.status == Approved ==> ClosedBy(log, id, true, h))
    && (h.status == Rejected ==> ClosedBy(log, id, false, h))
    && h.status != Cancelled
  }

  lemma RecordGrows(log: seq<AuditLog>, r: AuditLog, id: string, h: HitlView)
    requires OnRecord(log, id, h)
    ensures OnRecord(log + [r], id, h)
  {
    assert forall x | x in log :: x in log + [r];
  }

  /** The last entry is the decision, when it is about this row. */
  lemma EntryDecides(log: seq<AuditLog>, r: AuditLog, id: string, before: Option<HitlView>, after: HitlView)
    requires var e := EntryEffect(r); (e.OpenHitl? || e.CloseHitl? || e.ExpireHitl?) && e.id == id
    requires ApplyHitl(before, EntryEffect(r)) == Some(after)
      && (EntryEffect(r).CloseHitl? ==> EntryEffect(r).reviewer == r.actor)
    ensures OnRecord(log + [r], id, after)
  {
    hide EntryEffect;
    assert r in log + [r];
  }

  lemma CloserIsActor(r: AuditLog)
    ensures EntryEffect(r).CloseHitl? ==> EntryEffect(r).reviewer == r.actor
  {
  }

  /** What one entry does to one row of the replay. */
  lemma RowAfter(t: Tables, e: Effect, id: string)
    ensures Find(Apply(t, e).hitls, id) ==
      if (e.OpenHitl? || e.CloseHitl? || e.ExpireHitl?) && e.id == id then ApplyHitl(Find(t.hitls, id), e)
        else Find(t.hitls, id)
  {
  }

  lemma {:induction false} StatusHasEntry(log: seq<AuditLog>, id: string)
    requires id in Replayed(log).hitls
    ensures OnRecord(log, id, Replayed(log).hitls[id])
  {
    hide OnRecord, EntryEffect, Apply, ApplyHitl;
    var n := |log| - 1;
    assert log == log[..n] + [log[n]];
    var t, e := Replayed(log[..n]), EntryEffect(log[n]);
    RowAfter(t, e, id);
    if (e.OpenHitl? || e.CloseHitl? || e.ExpireHitl?) && e.id == id {
      CloserIsActor(log[n]);
      EntryDecides(log[..n], log[n], id, Find(t.hitls, id), Replayed(log).hitls[id]);
    } else {
      StatusHasEntry(log[..n], id);
      RecordGrows(log[..n], log[n], id, t.hitls[id]);
    }
  }

  /** In particular a late resolution, which marks the row expired and raises, leaves no trace. */
  lemma DecidedOnTheRecord(env: Env, actions: seq<Action>, s: State, id: string)
    requires Reaches(env, actions, s) && id in s.hitls
    ensures s.hitls[id].status == Expired ==> exists r | r in s.log :: EntryEffect(r) == ExpireHitl(id)
    ensures s.hitls[id].status == Approved ==>
      exists r | r in s.log ::
        EntryEffect(r) == CloseHitl(id, true, r.actor, s.hitls[id].comment) && s.hitls[id].reviewer == Some(r.actor)
    ensures s.hitls[id].status == Rejected ==>
      exists r | r in s.log ::
        EntryEffect(r) == CloseHitl(id, false, r.actor, s.hitls[id].comment) && s.hitls[id].reviewer == Some(r.actor)
  {
    TablesAreReplay(env, actions, s);
    StatusHasEntry(s.log, id);
  }

  // ---------------------------------------------------------------------------------------------
  // The log under interleaving.
  // ---------------------------------------------------------------------------------------------

  /** `verify_chain` finds no fault in any reachable log, and the numbers are exactly 1 to n. */
  lemma ChainAlwaysVerifies(env: Env, actions: seq<Action>, s: State)
    requires Reaches(env, actions, s)
    ensures WellLinked(env.crypto, s.log)
    ensures forall i | 0 <= i < |s.log| :: s.log[i].sequence == i + 1 && Fault(env.crypto, s.log, i) == None
  {
    InvariantHolds(env, actions, s);
    forall i | 0 <= i < |s.log| ensures s.log[i].sequence == i + 1 && Fault(env.crypto, s.log, i) == None {
      assert Links(env.crypto, s.log[..i], s.log[i]);
    }
  }

  /** Pending entries continue the committed head, and only one transaction has any. */
  lemma OneWriter(env: Env, actions: seq<Action>, s: State, p: nat, q: nat)
    requires Reaches(env, actions, s) && p in s.procs && s.procs[p].tx.entries != []
    ensures WellLinked(env.crypto, s.log + s.procs[p].tx.entries)
    ensures q in s.procs && q != p ==> s.procs[q].tx.entries == []
  {
    InvariantHolds(env, actions, s);
    InvTables(env, s);
  }

  // ---------------------------------------------------------------------------------------------
  // One row per idempotency key.
  // ---------------------------------------------------------------------------------------------

  lemma KeyIsFree(env: Env, s: State, pid: nat)
    requires Inv(env, s) && pid in s.procs && s.procs[pid].pc.HitlInsert?
    ensures var key := s.procs[pid].pc.j.intent.key; !KeyTaken(s, key) && !HeldByOther(s, pid, HitlKey(key))
  {
    KnownHere(env, s, pid);
    forall q | q in s.procs && q != pid ensures HitlKey(s.procs[pid].pc.j.intent.key) !in s.procs[q].tx.held {
      assert Local(env, s, q, s.procs[q]);
    }
  }

  /** A caller about to create a row finds its key free, committed or pending. */
  lemma CreatorsSerialised(env: Env, actions: seq<Action>, s: State, pid: nat)
    requires Reaches(env, actions, s) && pid in s.procs && s.procs[pid].pc.HitlInsert?
    ensures var key := s.procs[pid].pc.j.intent.key; !KeyTaken(s, key) && !HeldByOther(s, pid, HitlKey(key))
  {
    hide Inv;
    InvariantHolds(env, actions, s);
    KeyIsFree(env, s, pid);
  }

  /** So the insertion is never refused for its key: the branch that reads the row again is dead. */
  lemma InsertNeverConflicts(env: Env, actions: seq<Action>, s: State, pid: nat, c: Choice)
    requires Reaches(env, actions, s) && pid in s.procs && s.procs[pid].pc.HitlInsert? && c.id !in s.hitls
    ensures Advance(env, s, pid, c).Some? && Advance(env, s, pid, c).value.procs[pid].pc.Appending?
  {
    CreatorsSerialised(env, actions, s, pid);
  }

  lemma OneRowPerKey(env: Env, actions: seq<Action>, s: State, a: string, b: string)
    requires Reaches(env, actions, s) && a in s.hitls && b in s.hitls && s.hitls[a].key == s.hitls[b].key
    ensures a == b
  {
    InvariantHolds(env, actions, s);
  }

  lemma WaiterHasRow(env: Env, actions: seq<Action>, s: State, pid: nat)
    requires Reaches(env, actions, s) && pid in s.procs && WaiterPc(s.procs[pid].pc)
    ensures var pc := s.procs[pid].pc; pc.id in s.hitls && s.hitls[pc.id].key == pc.j.intent.key
  {
    hide Inv, TxOk, EngineSaid, Terminal, ValidIntent, Paid;
    InvariantHolds(env, actions, s);
    LocalHere(env, s, pid);
  }

  /** All callers with one key wait for the same transaction, at whatever two points of a run. */
  lemma OneKeyOneTransaction(env: Env, before: seq<Action>, s: State, after: seq<Action>, t: State, p: nat, q: nat)
    requires Reaches(env, before, s) && Reaches(env, before + after, t)
    requires p in s.procs && WaiterPc(s.procs[p].pc) && q in t.procs && WaiterPc(t.procs[q].pc)
    requires s.procs[p].pc.j.intent.key == t.procs[q].pc.j.intent.key
    ensures s.procs[p].pc.id == t.procs[q].pc.id
  {
    WaiterHasRow(env, before, s, p);
    WaiterHasRow(env, before + after, t, q);
    RunEvolves(env, before, s, after, t);
    OneRowPerKey(env, before + after, t, s.procs[p].pc.id, t.procs[q].pc.id);
  }

  // ---------------------------------------------------------------------------------------------
  // Approvals and their waiters.
  // ---------------------------------------------------------------------------------------------

  /** One shared clock: decisions come before the expiry, expiries at or after it. */
  lemma DecidedInTime(env: Env, actions: seq<Action>, s: State, id: string)
    requires Reaches(env, actions, s) && id in s.hitls
    ensures var h := s.hitls[id];
      && h.status != Cancelled
      && (h.status == Pending <==> h.resolvedAt.None?)
      && (h.status == Approved || h.status == Rejected ==> h.resolvedAt.value < h.expiresAt)
      && (h.status == Expired ==> h.expiresAt <= h.resolvedAt.value <= s.clock)
  {
    InvariantHolds(env, actions, s);
    assert RowOk(env, s.clock, s.hitls[id]);
  }

  /** A decided row is never touched again. */
  lemma DecisionsAreFinal(env: Env, before: seq<Action>, s: State, after: seq<Action>, t: State, id: string)
    requires Reaches(env, before, s) && Reaches(env, before + after, t)
    requires id in s.hitls && Terminal(s.hitls[id].status)
    ensures id in t.hitls && t.hitls[id] == s.hitls[id]
  {
    RunEvolves(env, before, s, after, t);
  }

  /** However late or often a message is delivered, it speaks of a decided row. */
  lemma MessagesSpeakOfDecidedRows(env: Env, actions: seq<Action>, s: State, id: string)
    requires Reaches(env, actions, s) && id in s.published
    ensures id in s.hitls && Terminal(s.hitls[id].status)
  {
    InvariantHolds(env, actions, s);
  }

  /** The status a waiter has read and is answering with. */
  function Reading(pc: Pc): Option<(string, Status)>
  {
    match pc
    case Resolving(_, id, status) => Some((id, status))
    case Ended(AnsweredNo(id, status)) => Some((id, status))
    case ApprovedReserve(_, id, _) => Some((id, Approved))
    case _ => None
  }

  /** A waiter answers with the final status of its row, whether a message or a poll woke it. */
  lemma WaiterReadsFinalStatus(env: Env, actions: seq<Action>, s: State, pid: nat)
    requires Reaches(env, actions, s) && pid in s.procs && Reading(s.procs[pid].pc).Some?
    ensures var (id, status) := Reading(s.procs[pid].pc).value;
      id in s.hitls && s.hitls[id].status == status && Terminal(status)
  {
    hide Inv;
    InvariantHolds(env, actions, s);
    LocalHere(env, s, pid);
  }

  /** Two waiters for one row never answer with different statuses, at whatever two points of a run. */
  lemma WaitersAgree(env: Env, before: seq<Action>, s: State, after: seq<Action>, t: State, p: nat, q: nat)
    requires Reaches(env, before, s) && Reaches(env, before + after, t) && p in s.procs && q in t.procs
    requires Reading(s.procs[p].pc).Some? && Reading(t.procs[q].pc).Some?
    requires Reading(s.procs[p].pc).value.0 == Reading(t.procs[q].pc).value.0
    ensures Reading(s.procs[p].pc) == Reading(t.procs[q].pc)
  {
    WaiterReadsFinalStatus(env, before, s, p);
    WaiterReadsFinalStatus(env, before + after, t, q);
    DecisionsAreFinal(env, before, s, after, t, Reading(s.procs[p].pc).value.0);
  }

  // ---------------------------------------------------------------------------------------------
  // `execute`.
  // ---------------------------------------------------------------------------------------------

  /**
   Whenever the operation ran: before that, this run had committed an evaluation entry for its
   intent with outcome allow, or with outcome require_approval and the row of its key is approved;
   and when an amount is asked for, this run had been granted that amount.
   */
  lemma OperationsAreAuthorized(env: Env, actions: seq<Action>, s: State, n: nat)
    requires Reaches(env, actions, s) && n < |s.history| && s.history[n].Operated?
    ensures Authorized(s.history[..n], s.hitls, s.history[n].pid, s.history[n].j)
  {
    InvariantHolds(env, actions, s);
    assert HappeningOk(s, n);
  }

  /** The happenings of all runs account for the whole log, in order. */
  lemma HistoryIsLog(env: Env, actions: seq<Action>, s: State)
    requires Reaches(env, actions, s)
    ensures CommittedEntries(s.history) == s.log
  {
    InvariantHolds(env, actions, s);
  }

  /** A run records at most one outcome, and every outcome entry tells the truth about an operation it ran before. */
  lemma AtMostOneOutcome(env: Env, actions: seq<Action>, s: State, pid: nat)
    requires Reaches(env, actions, s)
    ensures Outcomes(s.history, pid) <= 1
    ensures forall n | 0 <= n < |s.history| && s.history[n].Committed? ::
      AllEarned(s.history[..n], s.history[n].pid, s.history[n].entries)
  {
    InvariantHolds(env, actions, s);
    if pid in s.procs {
      assert Local(env, s, pid, s.procs[pid]);
    } else {
      forall h | h in s.history ensures h.pid != pid {
        var n :| 0 <= n < |s.history| && s.history[n] == h;
        assert HappeningOk(s, n);
      }
      NobodysOutcomes(s.history, pid);
    }
    forall n | 0 <= n < |s.history| && s.history[n].Committed?
      ensures AllEarned(s.history[..n], s.history[n].pid, s.history[n].entries)
    {
      assert HappeningOk(s, n);
    }
  }

  lemma {:induction false} EntryIsCommitted(history: seq<Happening>, r: AuditLog) returns (n: nat)
    requires r in CommittedEntries(history)
    ensures n < |history| && history[n].Committed? && r in history[n].entries
  {
    n := |history| - 1;
    if !(history[n].Committed? && r in history[n].entries) {
      n := EntryIsCommitted(history[..n], r);
    }
  }

  /** Only an `execution_completed` entry charges, and it charges what its intent asks for. */
  lemma ChargeReadsBack(r: AuditLog, intent: Intent)
    requires EntryEffect(r).Charge? && IntentStated(r) == Some(intent)
    ensures r.eventType == "execution_completed"
    ensures KeyOf(intent) == Some(EntryEffect(r).k) && intent.amount == Some(EntryEffect(r).amount)
  {
  }

  /** Where in the history the operation behind an outcome entry is. */
  lemma EarnedAt(history: seq<Happening>, pid: nat, r: AuditLog) returns (n: nat)
    requires Earned(history, pid, r) && OutcomeEntry(r)
    ensures n < |history| && history[n].Operated? && history[n].pid == pid
    ensures history[n].raised == (r.eventType == "execution_failed")
    ensures IntentStated(r) == Some(history[n].j.intent)
  {
    var h :| h in history && h.Operated? && h.pid == pid && h.raised == (r.eventType == "execution_failed")
      && IntentStated(r) == Some(h.j.intent);
    n :| 0 <= n < |history| && history[n] == h;
  }

  lemma ChargeIsOutcome(r: AuditLog)
    requires EntryEffect(r).Charge?
    ensures OutcomeEntry(r) && r.eventType == "execution_completed" && r.eventType != "execution_failed"
  {
    assert "execution_completed"[10] == 'c' && "execution_failed"[10] == 'f';
  }

  /**
   Every amount that counts against a budget was charged for an operation that ran without raising,
   for that very amount and budget, and that was authorised, its amount granted, before it ran.
   */
  lemma ChargesAreEarned(env: Env, actions: seq<Action>, s: State, r: AuditLog) returns (n: nat)
    requires Reaches(env, actions, s) && r in s.log && EntryEffect(r).Charge?
    ensures n < |s.history| && s.history[n].Operated? && !s.history[n].raised
    ensures KeyOf(s.history[n].j.intent) == Some(EntryEffect(r).k)
    ensures s.history[n].j.intent.amount == Some(EntryEffect(r).amount)
    ensures Authorized(s.history[..n], s.hitls, s.history[n].pid, s.history[n].j)
  {
    hide Authorized, EntryEffect, Earned, Outcomes, KeyOf;
    HistoryIsLog(env, actions, s);
    var m := EntryIsCommitted(s.history, r);
    AtMostOneOutcome(env, actions, s, s.history[m].pid);
    ChargeIsOutcome(r);
    n := EarnedAt(s.history[..m], s.history[m].pid, r);
    assert s.history[..m][n] == s.history[n];
    ChargeReadsBack(r, s.history[n].j.intent);
    OperationsAreAuthorized(env, actions, s, n);
  }
}
