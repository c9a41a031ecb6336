/** What `Advance` does at one point of a program, for proofs that need no other. */
module ProtocolDispatch {
  import opened Wrappers
  import opened Protocol

  lemma RouteAdvance(env: Env, s: State, pid: nat, c: Choice)
    requires pid in s.procs && s.procs[pid].pc.Route?
    ensures var pc := s.procs[pid].pc; Advance(env, s, pid, c) == RouteStep(s, pid, pc.j, pc.d, pc.row)
  {
    hide EvalStartStep, EvalDecideStep, RouteStep, HitlInsertStep, AppendingStep, InsertingStep, CommitTx;
  }

  lemma HitlLookupAdvance(env: Env, s: State, pid: nat, c: Choice)
    requires pid in s.procs && s.procs[pid].pc.HitlLookup?
    ensures var pc := s.procs[pid].pc; Advance(env, s, pid, c) == HitlLookupStep(s, pid, pc.j, pc.d)
  {
    hide EvalStartStep, EvalDecideStep, RouteStep, HitlInsertStep, AppendingStep, InsertingStep, CommitTx;
  }

  lemma HitlInsertAdvance(env: Env, s: State, pid: nat, c: Choice)
    requires pid in s.procs && s.procs[pid].pc.HitlInsert?
    ensures var pc := s.procs[pid].pc; Advance(env, s, pid, c) == HitlInsertStep(env, s, pid, pc.j, pc.d, pc.now, c)
  {
    hide EvalStartStep, EvalDecideStep, RouteStep, HitlInsertStep, AppendingStep, InsertingStep, CommitTx;
  }

  lemma SubscribeAdvance(env: Env, s: State, pid: nat, c: Choice)
    requires pid in s.procs && s.procs[pid].pc.Subscribe?
    ensures var pc := s.procs[pid].pc; Advance(env, s, pid, c) == SubscribeStep(env, s, pid, pc.j, pc.id)
  {
    hide EvalStartStep, EvalDecideStep, RouteStep, HitlInsertStep, AppendingStep, InsertingStep, CommitTx;
  }

  lemma WaitingAdvance(env: Env, s: State, pid: nat, c: Choice)
    requires pid in s.procs && s.procs[pid].pc.Waiting?
    ensures var pc := s.procs[pid].pc; Advance(env, s, pid, c) == WaitingStep(s, pid, pc.j, pc.id, pc.deadline, c)
  {
    hide EvalStartStep, EvalDecideStep, RouteStep, HitlInsertStep, AppendingStep, InsertingStep, CommitTx;
  }

  lemma ReadStatusAdvance(env: Env, s: State, pid: nat, c: Choice)
    requires pid in s.procs && s.procs[pid].pc.ReadStatus?
    ensures var pc := s.procs[pid].pc;
      Advance(env, s, pid, c) == ReadStatusStep(s, pid, pc.j, pc.id, pc.deadline, pc.onMessage)
  {
    hide EvalStartStep, EvalDecideStep, RouteStep, HitlInsertStep, AppendingStep, InsertingStep, CommitTx;
  }

  lemma ResolvingAdvance(env: Env, s: State, pid: nat, c: Choice)
    requires pid in s.procs && s.procs[pid].pc.Resolving?
    ensures var pc := s.procs[pid].pc; Advance(env, s, pid, c) == ResolvingStep(s, pid, pc.j, pc.id, pc.status)
  {
    hide EvalStartStep, EvalDecideStep, RouteStep, HitlInsertStep, AppendingStep, InsertingStep, CommitTx;
  }

  lemma AdminAdvance(env: Env, s: State, pid: nat, c: Choice)
    requires pid in s.procs && s.procs[pid].pc.AdminInsert?
    ensures var pc := s.procs[pid].pc; Advance(env, s, pid, c) == AdminInsertStep(s, pid, pc.name, pc.event, pc.actor)
  {
    hide EvalStartStep, EvalDecideStep, RouteStep, HitlInsertStep, AppendingStep, InsertingStep, CommitTx;
  }

  lemma AppendingAdvance(env: Env, s: State, pid: nat, c: Choice)
    requires pid in s.procs && s.procs[pid].pc.Appending?
    ensures var pc := s.procs[pid].pc; Advance(env, s, pid, c) == AppendingStep(env, s, pid, pc.w)
  {
    hide EvalStartStep, EvalDecideStep, RouteStep, HitlInsertStep, AppendingStep, InsertingStep, CommitTx;
  }

  lemma InsertingAdvance(env: Env, s: State, pid: nat, c: Choice)
    requires pid in s.procs && s.procs[pid].pc.Inserting?
    ensures var pc := s.procs[pid].pc; Advance(env, s, pid, c) == InsertingStep(s, pid, pc.w, pc.record)
  {
    hide EvalStartStep, EvalDecideStep, RouteStep, HitlInsertStep, AppendingStep, InsertingStep, CommitTx;
  }

  lemma CommittingAdvance(env: Env, s: State, pid: nat, c: Choice)
    requires pid in s.procs && s.procs[pid].pc.Committing?
    ensures var pc := s.procs[pid].pc; Advance(env, s, pid, c) == Some(CommitTx(s, pid, pc.next))
  {
    hide EvalStartStep, EvalDecideStep, RouteStep, HitlInsertStep, AppendingStep, InsertingStep, CommitTx;
  }

  lemma ResetAdvance(env: Env, s: State, pid: nat, c: Choice)
    requires pid in s.procs && s.procs[pid].pc.ResetCell?
    ensures var pc := s.procs[pid].pc; Advance(env, s, pid, c) == ResetCellStep(s, pid, pc.k, pc.v, pc.w)
  {
    hide EvalStartStep, EvalDecideStep, RouteStep, HitlInsertStep, AppendingStep, InsertingStep, CommitTx;
  }

  lemma ExpireLockAdvance(env: Env, s: State, pid: nat, c: Choice)
    requires pid in s.procs && s.procs[pid].pc.ExpireLock?
    ensures var pc := s.procs[pid].pc; Advance(env, s, pid, c) == ExpireLockStep(s, pid, pc.j, pc.id)
  {
    hide EvalStartStep, EvalDecideStep, RouteStep, HitlInsertStep, AppendingStep, InsertingStep, CommitTx;
  }

  lemma ExpireWriteAdvance(env: Env, s: State, pid: nat, c: Choice)
    requires pid in s.procs && s.procs[pid].pc.ExpireWrite?
    ensures var pc := s.procs[pid].pc;
      Advance(env, s, pid, c) == if pc.id in s.hitls then ExpireWriteStep(s, pid, pc.j, pc.id) else None
  {
    hide EvalStartStep, EvalDecideStep, RouteStep, HitlInsertStep, AppendingStep, InsertingStep, CommitTx;
  }

  lemma ApprovedReserveAdvance(env: Env, s: State, pid: nat, c: Choice)
    requires pid in s.procs && s.procs[pid].pc.ApprovedReserve?
    ensures var pc := s.procs[pid].pc;
      Advance(env, s, pid, c) ==
        if KeyOf(pc.j.intent).None? then None
        else ApprovedReserveStep(s, pid, pc.j, pc.id, pc.row, KeyOf(pc.j.intent).value)
  {
    hide ApprovedReserveStep, EvalStartStep, EvalDecideStep, RouteStep, HitlInsertStep, AppendingStep, InsertingStep,
      CommitTx;
  }

  lemma AnsweredAdvance(env: Env, s: State, pid: nat, c: Choice)
    requires pid in s.procs && s.procs[pid].pc.Answered?
    ensures var pc := s.procs[pid].pc; Advance(env, s, pid, c) == AnsweredStep(s, pid, pc.j, pc.d)
  {
    hide EvalStartStep, EvalDecideStep, RouteStep, HitlInsertStep, AppendingStep, InsertingStep, CommitTx;
  }

  lemma OperatingAdvance(env: Env, s: State, pid: nat, c: Choice)
    requires pid in s.procs && s.procs[pid].pc.Operating?
    ensures var pc := s.procs[pid].pc; Advance(env, s, pid, c) == OperatingStep(s, pid, pc.j, c)
  {
    hide EvalStartStep, EvalDecideStep, RouteStep, HitlInsertStep, AppendingStep, InsertingStep, CommitTx;
  }

  lemma CommitLockAdvance(env: Env, s: State, pid: nat, c: Choice)
    requires pid in s.procs && s.procs[pid].pc.CommitLock?
    ensures var pc := s.procs[pid].pc; Advance(env, s, pid, c) == CommitLockStep(s, pid, pc.j)
  {
    hide EvalStartStep, EvalDecideStep, RouteStep, HitlInsertStep, AppendingStep, InsertingStep, CommitTx;
  }

  lemma CommitChargeAdvance(env: Env, s: State, pid: nat, c: Choice)
    requires pid in s.procs && s.procs[pid].pc.CommitCharge?
    ensures var pc := s.procs[pid].pc;
      Advance(env, s, pid, c) == if KeyOf(pc.j.intent).None? then None
        else CommitChargeStep(s, pid, pc.j, KeyOf(pc.j.intent).value)
  {
    hide EvalStartStep, EvalDecideStep, RouteStep, HitlInsertStep, AppendingStep, InsertingStep, CommitTx;
  }

  lemma FailReadAdvance(env: Env, s: State, pid: nat, c: Choice)
    requires pid in s.procs && s.procs[pid].pc.FailRead?
    ensures var pc := s.procs[pid].pc; Advance(env, s, pid, c) == FailReadStep(s, pid, pc.j, pc.errorType, pc.error)
  {
    hide EvalStartStep, EvalDecideStep, RouteStep, HitlInsertStep, AppendingStep, InsertingStep, CommitTx;
  }

  lemma FailReleaseAdvance(env: Env, s: State, pid: nat, c: Choice)
    requires pid in s.procs && s.procs[pid].pc.FailRelease?
    ensures var pc := s.procs[pid].pc;
      Advance(env, s, pid, c) ==
        if KeyOf(pc.j.intent).None? then None
          else FailReleaseStep(s, pid, pc.j, pc.row, pc.errorType, pc.error, KeyOf(pc.j.intent).value)
  {
    hide EvalStartStep, EvalDecideStep, RouteStep, HitlInsertStep, AppendingStep, InsertingStep, CommitTx;
  }

  lemma ResolveLockAdvance(env: Env, s: State, pid: nat, c: Choice)
    requires pid in s.procs && s.procs[pid].pc.ResolveLock?
    ensures var pc := s.procs[pid].pc;
      Advance(env, s, pid, c) == ResolveLockStep(s, pid, pc.id, pc.approved, pc.comment, pc.actor, pc.now)
  {
    hide EvalStartStep, EvalDecideStep, RouteStep, HitlInsertStep, AppendingStep, InsertingStep, CommitTx;
  }

  lemma ResolveWriteAdvance(env: Env, s: State, pid: nat, c: Choice)
    requires pid in s.procs && s.procs[pid].pc.ResolveWrite?
    ensures var pc := s.procs[pid].pc;
      Advance(env, s, pid, c) == if pc.id !in s.hitls then Some(Abort(s, pid))
        else ResolveWriteStep(s, pid, pc.id, pc.approved, pc.comment, pc.actor, pc.now)
  {
    hide EvalStartStep, EvalDecideStep, RouteStep, HitlInsertStep, AppendingStep, InsertingStep, CommitTx;
  }

  lemma ConflictAdvance(env: Env, s: State, pid: nat, c: Choice)
    requires pid in s.procs && s.procs[pid].pc.RaiseConflict?
    ensures Advance(env, s, pid, c) == Some(Abort(s, pid))
  {
    hide EvalStartStep, EvalDecideStep, RouteStep, HitlInsertStep, AppendingStep, InsertingStep, CommitTx;
  }

  lemma PublishAdvance(env: Env, s: State, pid: nat, c: Choice)
    requires pid in s.procs && s.procs[pid].pc.Publish?
    ensures var pc := s.procs[pid].pc;
      Advance(env, s, pid, c) == Some(Go(s.(published := s.published + {pc.id}), pid, Ended(Finished)))
  {
    hide EvalStartStep, EvalDecideStep, RouteStep, HitlInsertStep, AppendingStep, InsertingStep, CommitTx;
  }

  lemma UpsertLockAdvance(env: Env, s: State, pid: nat, c: Choice)
    requires pid in s.procs && s.procs[pid].pc.UpsertLock?
    ensures var pc := s.procs[pid].pc; Advance(env, s, pid, c) == UpsertLockStep(s, pid, pc.k, pc.limit, pc.actor)
  {
    hide EvalStartStep, EvalDecideStep, RouteStep, HitlInsertStep, AppendingStep, InsertingStep, CommitTx;
  }

  lemma UpsertInsertAdvance(env: Env, s: State, pid: nat, c: Choice)
    requires pid in s.procs && s.procs[pid].pc.UpsertInsert?
    ensures var pc := s.procs[pid].pc; Advance(env, s, pid, c) == UpsertInsertStep(s, pid, pc.k, pc.limit, pc.actor)
  {
    hide EvalStartStep, EvalDecideStep, RouteStep, HitlInsertStep, AppendingStep, InsertingStep, CommitTx;
  }

  lemma UpsertWriteAdvance(env: Env, s: State, pid: nat, c: Choice)
    requires pid in s.procs && s.procs[pid].pc.UpsertWrite?
    ensures var pc := s.procs[pid].pc; Advance(env, s, pid, c) == UpsertWriteStep(s, pid, pc.k, pc.limit, pc.actor)
  {
    hide EvalStartStep, EvalDecideStep, RouteStep, HitlInsertStep, AppendingStep, InsertingStep, CommitTx;
  }

  lemma EvalGetAdvance(env: Env, s: State, pid: nat, c: Choice)
    requires pid in s.procs && s.procs[pid].pc.EvalGet?
    ensures var pc := s.procs[pid].pc;
      KeyOf(pc.j.intent).Some? ==>
        Advance(env, s, pid, c) == EvalGetStep(s, pid, pc.j, pc.row, KeyOf(pc.j.intent).value)
  {
    hide EvalStartStep, EvalDecideStep, RouteStep, HitlInsertStep, AppendingStep, InsertingStep, CommitTx;
  }

  lemma EvalSetNxAdvance(env: Env, s: State, pid: nat, c: Choice)
    requires pid in s.procs && s.procs[pid].pc.EvalSetNx?
    ensures var pc := s.procs[pid].pc;
      KeyOf(pc.j.intent).Some? && pc.row.Some? ==>
        Advance(env, s, pid, c) == EvalSetNxStep(s, pid, pc.j, pc.row, KeyOf(pc.j.intent).value)
  {
    hide EvalStartStep, EvalDecideStep, RouteStep, HitlInsertStep, AppendingStep, InsertingStep, CommitTx;
  }

  lemma EvalGetAgainAdvance(env: Env, s: State, pid: nat, c: Choice)
    requires pid in s.procs && s.procs[pid].pc.EvalGetAgain?
    ensures var pc := s.procs[pid].pc;
      KeyOf(pc.j.intent).Some? ==>
        Advance(env, s, pid, c) == EvalGetAgainStep(s, pid, pc.j, pc.row, KeyOf(pc.j.intent).value)
  {
    hide EvalStartStep, EvalDecideStep, RouteStep, HitlInsertStep, AppendingStep, InsertingStep, CommitTx;
  }

  lemma EvalDecideAdvance(env: Env, s: State, pid: nat, c: Choice)
    requires pid in s.procs && s.procs[pid].pc.EvalDecide?
    ensures var pc := s.procs[pid].pc;
      Advance(env, s, pid, c) == EvalDecideStep(s, pid, pc.j, pc.row, pc.remaining, c)
  {
    hide EvalStartStep, EvalDecideStep, RouteStep, HitlInsertStep, AppendingStep, InsertingStep, CommitTx;
  }

  lemma EvalStartAdvance(env: Env, s: State, pid: nat, c: Choice)
    requires pid in s.procs && s.procs[pid].pc.EvalStart?
    ensures var pc := s.procs[pid].pc; Advance(env, s, pid, c) == EvalStartStep(s, pid, pc.j, c)
  {
    hide EvalStartStep, EvalDecideStep, RouteStep, HitlInsertStep, AppendingStep, InsertingStep, CommitTx;
  }
}
