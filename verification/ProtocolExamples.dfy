/** Runs that show where a promise stops: a waiter that dies, a late reviewer, and an expiry that is overtaken. */
module ProtocolExamples {
  import opened Wrappers
  import opened Schemas
  import opened PolicyRules
  import opened AuditChain
  import opened Events
  import opened Replay
  import opened Protocol
  import opened ProtocolInvariant
  import opened ProtocolRuns
  import opened ProtocolDispatch
  import opened ProtocolTheorems
  import opened ProtocolWaits

  /** Nobody dies on the way. */
  predicate Uncut(actions: seq<Action>) { forall a | a in actions :: !a.Crash? }

  lemma Extend(env: Env, actions: seq<Action>, s: State, a: Action) returns (more: seq<Action>, t: State)
    requires Reaches(env, actions, s) && Do(env, s, a).Some?
    ensures more == actions + [a] && Do(env, s, a) == Some(t) && Reaches(env, more, t)
    ensures Uncut(actions) && !a.Crash? ==> Uncut(more)
  {
    more, t := actions + [a], Do(env, s, a).value;
    assert more[..|more| - 1] == actions;
  }

  /** A run on its own: only process 0, nothing committed yet. */
  ghost predicate Solo(s: State, pc: Pc, tx: Tx)
  {
    s.log == [] && s.hitls == map[] && s.others == {} && s.procs == map[0 := Proc(pc, tx)] && s.clock == 0
  }

  /** An intent without amount, from callers with acceptable names. */
  predicate Plain(j: Job)
  {
    j.intent.amount.None? && j.via.None? && ValidName(j.actor) && ValidName(j.intent.agent)
  }

  function Asking(): Choice { Choice(None, 10, [RuleResult(RequireApproval, 50, "review", "p")], "row", false, None) }

  lemma AskingAsks(j: Job)
    requires Plain(j)
    ensures Decide(10, Asking().results + BudgetResult(j.intent, None), None).outcome == RequireApproval
  {
    var xs := Asking().results + BudgetResult(j.intent, None);
    assert xs == Asking().results;
    assert xs[0] in xs;
  }

  lemma SoloEvaluates(env: Env, j: Job) returns (actions: seq<Action>, s: State, d: PolicyDecision)
    requires Plain(j)
    ensures Reaches(env, actions, s) && Uncut(actions) && d.outcome == RequireApproval
      && Solo(s, Appending(ForEvaluation(j, d, None)), NO_TX)
  {
    hide Decide;
    AskingAsks(j);
    d := Decide(10, Asking().results + BudgetResult(j.intent, None), None);
    assert Run(env, []) == Some(Init());
    assert Uncut([]);
    actions, s := Extend(env, [], Init(), Spawn(0, EvalStart(j)));
    actions, s := Extend(env, actions, s, Step(0, Asking()));
    assert Solo(s, EvalDecide(j, None, None), NO_TX);
    actions, s := Extend(env, actions, s, Step(0, Asking()));
  }

  lemma SealSays(c: Crypto, log: seq<AuditLog>, w: Purpose, now: int)
    ensures RecordOf(w, Seal(c, log, EventType(EventFor(w)), ActorFor(w), EventPayload(EventFor(w)), now))
  {
    hide EventType, EventPayload, EventFor, ActorFor;
  }

  /** The two steps of an append, with nobody else about. */
  lemma SoloAppends(env: Env, before: seq<Action>, s: State, w: Purpose, tx: Tx)
    returns (actions: seq<Action>, t: State, r: AuditLog)
    requires Reaches(env, before, s) && Uncut(before) && Solo(s, Appending(w), tx) && ValidName(ActorFor(w))
      && ValidName(EventType(EventFor(w)))
    ensures Reaches(env, actions, t) && Uncut(actions) && Solo(t, After(w), tx.(entries := tx.entries + [r]))
    ensures RecordOf(w, r)
  {
    hide Run, Uncut, Advance, After, EventFor, EventType, ActorFor, EventPayload, ValidName, Seal, RecordOf;
    AppendingAdvance(env, s, 0, Asking());
    SealSays(env.crypto, s.log + s.procs[0].tx.entries, w, s.clock);
    actions, t := Extend(env, before, s, Step(0, Asking()));
    r := t.procs[0].pc.record;
    assert Solo(t, Inserting(w, r), tx);
    InsertingAdvance(env, t, 0, Asking());
    actions, t := Extend(env, actions, t, Step(0, Asking()));
  }

  lemma SoloRequests(env: Env, j: Job) returns (actions: seq<Action>, s: State, tx: Tx)
    requires Plain(j)
    ensures Reaches(env, actions, s) && Uncut(actions) && Solo(s, Committing(Subscribe(j, "row")), tx)
    ensures tx.write == PutHitl("row", Opened(env, j.intent, 0))
  {
    hide Run, Uncut, Advance, EventPayload;
    var d, r;
    actions, s, d := SoloEvaluates(env, j);
    actions, s, r := SoloAppends(env, actions, s, ForEvaluation(j, d, None), NO_TX);
    assert NO_TX.(entries := NO_TX.entries + [r]) == Tx({}, NoWrite, [r]);
    RouteAdvance(env, s, 0, Asking());
    actions, s := Extend(env, actions, s, Step(0, Asking()));
    assert Solo(s, HitlLookup(j, d), Tx({}, NoWrite, [r]));
    HitlLookupAdvance(env, s, 0, Asking());
    actions, s := Extend(env, actions, s, Step(0, Asking()));
    assert Solo(s, HitlInsert(j, d, 0), Tx({}, NoWrite, [r]));
    HitlInsertAdvance(env, s, 0, Asking());
    actions, s := Extend(env, actions, s, Step(0, Asking()));
    tx := s.procs[0].tx;
    assert Solo(s, Appending(ForRequest(j, d, "row")), tx);
    actions, s, r := SoloAppends(env, actions, s, ForRequest(j, d, "row"), tx);
    tx := s.procs[0].tx;
  }

  /** What the rest of the examples start from: one row, still pending, and process 0. */
  ghost predicate OneRow(env: Env, j: Job, s: State, p: Proc)
  {
    && s.hitls == map["row" := Hitl(j.intent.key, j.intent, Pending, None, None, 0, env.timeout, None)]
    && 0 in s.procs && s.procs[0] == p
    && Waited(0, "row") in s.history
  }

  /** A plain intent sent to review leads to a waiter on a pending row. */
  lemma WaiterReachable(env: Env, j: Job) returns (actions: seq<Action>, s: State)
    requires Plain(j)
    ensures Reaches(env, actions, s) && Uncut(actions) && s.procs.Keys == {0} && s.others == {} && s.clock == 0
    ensures OneRow(env, j, s, Proc(Waiting(j, "row", env.timeout), NO_TX))
  {
    hide Run, Uncut, Advance;
    var tx;
    actions, s, tx := SoloRequests(env, j);
    CommittingAdvance(env, s, 0, Asking());
    actions, s := Extend(env, actions, s, Step(0, Asking()));
    SubscribeAdvance(env, s, 0, Asking());
    actions, s := Extend(env, actions, s, Step(0, Asking()));
    assert s.history[|s.history| - 1] == Waited(0, "row");
  }

  /** The first exception to `EndedWaiterLeavesDecision`: a waiter that is cancelled leaves its row pending. */
  lemma CancelledWaiterLeavesRowPending(env: Env, j: Job) returns (actions: seq<Action>, s: State)
    requires Plain(j)
    ensures Reaches(env, actions, s) && OneRow(env, j, s, Proc(Ended(Raised), NO_TX)) && CutOff(s, 0, "row")
  {
    hide Run, Uncut;
    actions, s := WaiterReachable(env, j);
    actions, s := Extend(env, actions, s, Crash(0));
    EndedOrCutOff(env, actions, s, 0, "row");
  }

  /** What is left of a resolution that came too late: the reviewer's call has raised, the row is as it was. */
  ghost predicate Unresolved(env: Env, j: Job, s: State)
  {
    && OneRow(env, j, s, Proc(Waiting(j, "row", env.timeout), NO_TX)) && s.hitls["row"].expiresAt <= s.clock
    && 1 in s.procs && s.procs[1] == Proc(Ended(Raised), NO_TX)
  }

  /** A reviewer comes after the deadline: the row is locked and marked expired, and the mark is rolled back. */
  lemma LateResolutionLeavesRowPending(env: Env, j: Job) returns (actions: seq<Action>, s: State)
    requires Plain(j)
    ensures Reaches(env, actions, s) && Uncut(actions) && Unresolved(env, j, s) && s.hitls["row"].status == Pending
  {
    hide Run, Uncut, Advance;
    actions, s := WaiterReachable(env, j);
    var now := Max(0, env.timeout);
    actions, s := Extend(env, actions, s, Tick(now));
    actions, s := Extend(env, actions, s, Spawn(1, ResolveLock("row", true, None, "reviewer", now)));
    assert !HeldByOther(s, 1, HitlRow("row"));
    ResolveLockAdvance(env, s, 1, Asking());
    actions, s := Extend(env, actions, s, Step(1, Asking()));
    ResolveWriteAdvance(env, s, 1, Asking());
    actions, s := Extend(env, actions, s, Step(1, Asking()));
    assert s.procs[1].pc == RaiseConflict;
    ConflictAdvance(env, s, 1, Asking());
    actions, s := Extend(env, actions, s, Step(1, Asking()));
  }

  /** The reviewer's next step is to raise, and then the rows are what they are now. */
  ghost predicate RaisesNext(env: Env, t: State, pid: nat, c: Choice)
    requires pid in t.procs
  {
    || t.procs[pid].pc == Ended(Raised)
    || (Advance(env, t, pid, c) == Some(Abort(t, pid)) && Abort(t, pid).hitls == t.hitls)
  }

  predicate InTime(row: Hitl, now: int) { row.status == Pending && now < row.expiresAt }

  lemma ResolvedRow(env: Env, s: State, pid: nat, tx: Tx, pc: Pc)
    requires pc.ResolveWrite? && PcOk(env, s, pid, tx, pc)
    ensures pc.id in s.hitls
  {
  }

  /** `t` is the state after the reviewer's run, at `pc`, has looked at its row in `s`. */
  ghost predicate Reviewed(env: Env, s: State, t: State, pid: nat, pc: Pc, c: Choice)
    requires pc.ResolveWrite?
  {
    && pid in t.procs && pc.id in s.hitls && t.hitls == s.hitls
    && var row, p := s.hitls[pc.id], t.procs[pid];
      && (InTime(row, pc.now) <==>
        p.tx.write == PutHitl(pc.id, row.(status := if pc.approved then Approved else Rejected,
          reviewer := Some(pc.actor), comment := pc.comment, resolvedAt := Some(pc.now))))
      && (InTime(row, pc.now) <==> p.pc == Appending(ForResolution(pc.id, pc.approved, pc.comment, pc.actor)))
      && (!InTime(row, pc.now) ==> RaisesNext(env, t, pid, c))
  }

  lemma ResolveWriteReviews(env: Env, s: State, pid: nat, pc: Pc, c: Choice)
    requires pid in s.procs && pc.ResolveWrite? && pc.id in s.hitls
    ensures var t := ResolveWriteStep(s, pid, pc.id, pc.approved, pc.comment, pc.actor, pc.now).value;
      Reviewed(env, s, t, pid, pc, c)
  {
    hide Advance;
    var t := ResolveWriteStep(s, pid, pc.id, pc.approved, pc.comment, pc.actor, pc.now).value;
    if t.procs[pid].pc == RaiseConflict { ConflictAdvance(env, t, pid, c); }
  }

  /**
   In general: a resolution marks the row as decided and goes on to record that if and only if the row
   is pending and not overdue; otherwise it raises, and the rows are as they were.
   */
  lemma ResolutionCountsUnlessLate(env: Env, actions: seq<Action>, s: State, pid: nat, c: Choice)
    requires Reaches(env, actions, s) && pid in s.procs && s.procs[pid].pc.ResolveWrite?
    requires Advance(env, s, pid, c).Some?
    ensures Reviewed(env, s, Advance(env, s, pid, c).value, pid, s.procs[pid].pc, c)
  {
    hide Inv, TxOk, PcOk, Advance, Reviewed, ResolveWriteStep;
    InvariantHolds(env, actions, s);
    LocalHere(env, s, pid);
    ResolvedRow(env, s, pid, s.procs[pid].tx, s.procs[pid].pc);
    ResolveWriteAdvance(env, s, pid, c);
    ResolveWriteReviews(env, s, pid, s.procs[pid].pc, c);
  }

  // ---------------------------------------------------------------------------------------------
  // The second exception: an expiry whose audit entry comes too late.
  // ---------------------------------------------------------------------------------------------

  function Marked(env: Env, j: Job, now: int): Tx
  {
    Tx({HitlRow("row")}, PutHitl("row", ExpiredAt(Opened(env, j.intent, 0), now)), [])
  }

  lemma DeadlineReachable(env: Env, j: Job) returns (actions: seq<Action>, s: State)
    requires Plain(j)
    ensures Reaches(env, actions, s) && Uncut(actions) && s.procs.Keys == {0} && s.others == {}
    ensures OneRow(env, j, s, Proc(ExpireWrite(j, "row"), Tx({HitlRow("row")}, NoWrite, [])))
  {
    hide Run, Uncut, Advance;
    actions, s := WaiterReachable(env, j);
    actions, s := Extend(env, actions, s, Tick(Max(0, env.timeout)));
    WaitingAdvance(env, s, 0, Asking());
    actions, s := Extend(env, actions, s, Step(0, Asking()));
    assert OneRow(env, j, s, Proc(ExpireLock(j, "row"), NO_TX));
    ExpireLockAdvance(env, s, 0, Asking());
    actions, s := Extend(env, actions, s, Step(0, Asking()));
  }

  function SealOf(env: Env, s: State, w: Purpose): AuditLog
  {
    Seal(env.crypto, s.log, EventType(EventFor(w)), ActorFor(w), EventPayload(EventFor(w)), s.clock)
  }

  lemma SealNumbered(env: Env, actions: seq<Action>, s: State, w: Purpose)
    requires Reaches(env, actions, s)
    ensures Links(env.crypto, s.log, SealOf(env, s, w))
  {
    ChainAlwaysVerifies(env, actions, s);
    SealLinks(env.crypto, s.log, EventType(EventFor(w)), ActorFor(w), EventPayload(EventFor(w)), s.clock);
  }

  /** Nobody intervenes, and the waiter reaches the point where its expiry has its number. */
  lemma ExpiryReachable(env: Env, j: Job) returns (actions: seq<Action>, s: State, r: AuditLog)
    requires Plain(j)
    ensures Reaches(env, actions, s) && Uncut(actions) && s.procs.Keys == {0} && s.others == {}
      && r.sequence == |s.log| + 1
    ensures OneRow(env, j, s, Proc(Inserting(ForExpiry(j, "row"), r), Marked(env, j, s.clock)))
  {
    hide Run, Uncut, Seal, EventPayload;
    actions, s := DeadlineReachable(env, j);
    actions, s := Extend(env, actions, s, Step(0, Asking()));
    assert OneRow(env, j, s, Proc(Appending(ForExpiry(j, "row")), Marked(env, j, s.clock)));
    SealNumbered(env, actions, s, ForExpiry(j, "row"));
    AppendingAdvance(env, s, 0, Asking());
    assert s.log + [] == s.log;
    actions, s := Extend(env, actions, s, Step(0, Asking()));
    r := s.procs[0].pc.record;
  }

  /** With an injective hash, a record that continues the log clashes with nothing in it. */
  lemma FreshRecord(c: Crypto, log: seq<AuditLog>, r: AuditLog)
    requires Injective(c.hash) && WellLinked(c, log) && Links(c, log, r)
    ensures !Duplicate(log, r)
  {
    forall x | x in log ensures x.sequence != r.sequence && x.entryHash != r.entryHash {
      var i :| 0 <= i < |log| && log[i] == x;
      assert Links(c, log[..i], log[i]);
      if x.entryHash == r.entryHash {
        MaterialHasSequence(x, r);
      }
    }
  }

  function Admin(): Purpose { ForAdmin("agent", AgentRegistered("agent"), "admin") }

  function Registering(): Tx { Tx({OtherKey("agent")}, PutOther("agent"), []) }

  lemma AdminEnters(env: Env, j: Job, before: seq<Action>, s: State, p: Proc) returns (actions: seq<Action>, t: State)
    requires Reaches(env, before, s) && Uncut(before) && OneRow(env, j, s, p) && s.procs.Keys == {0} && s.others == {}
    requires OtherKey("agent") !in p.tx.held
    ensures Reaches(env, actions, t) && Uncut(actions) && OneRow(env, j, t, p) && t.log == s.log
    ensures t.procs.Keys == {0, 1} && t.procs[1] == Proc(Appending(Admin()), Registering())
  {
    hide Run, Uncut, Advance, EventPayload;
    actions, t := Extend(env, before, s, Spawn(1, AdminInsert("agent", AgentRegistered("agent"), "admin")));
    assert !HeldByOther(t, 1, OtherKey("agent"));
    AdminAdvance(env, t, 1, Asking());
    actions, t := Extend(env, actions, t, Step(1, Asking()));
    assert {} + {OtherKey("agent")} == {OtherKey("agent")};
  }

  /** Meanwhile somebody registers an agent ... */
  lemma AdminBuilds(env: Env, j: Job, before: seq<Action>, s: State, p: Proc)
    returns (actions: seq<Action>, t: State, r: AuditLog)
    requires Reaches(env, before, s) && Uncut(before) && OneRow(env, j, s, p) && s.procs.Keys == {0} && s.others == {}
    requires OtherKey("agent") !in p.tx.held
    ensures Reaches(env, actions, t) && Uncut(actions) && OneRow(env, j, t, p) && t.log == s.log
    ensures t.procs.Keys == {0, 1} && t.procs[1] == Proc(Inserting(Admin(), r), Registering())
    ensures Links(env.crypto, t.log, r)
  {
    hide Run, Uncut, Advance, Seal, EventPayload, Links;
    actions, t := AdminEnters(env, j, before, s, p);
    AppendingAdvance(env, t, 1, Asking());
    SealNumbered(env, actions, t, Admin());
    r := SealOf(env, t, Admin());
    assert t.log + [] == t.log;
    actions, t := Extend(env, actions, t, Step(1, Asking()));
  }

  lemma LinksNumbered(c: Crypto, log: seq<AuditLog>, r: AuditLog)
    requires Links(c, log, r)
    ensures r.sequence == |log| + 1
  {
  }

  /** ... and that entry takes the number. */
  lemma AdminCommits(env: Env, j: Job, before: seq<Action>, s: State, p: Proc) returns (actions: seq<Action>, t: State)
    requires Injective(env.crypto.hash)
    requires Reaches(env, before, s) && Uncut(before) && OneRow(env, j, s, p) && s.procs.Keys == {0} && s.others == {}
    requires OtherKey("agent") !in p.tx.held && p.tx.entries == []
    ensures Reaches(env, actions, t) && Uncut(actions) && OneRow(env, j, t, p)
    ensures forall q | q in t.procs && q != 0 :: t.procs[q].tx == NO_TX
    ensures |t.log| == |s.log| + 1 && t.log[|s.log|].sequence == |s.log| + 1
  {
    hide Run, Uncut, Advance, Links, WellLinked, Duplicate;
    var r;
    actions, t, r := AdminBuilds(env, j, before, s, p);
    ChainAlwaysVerifies(env, actions, t);
    FreshRecord(env.crypto, t.log, r);
    LinksNumbered(env.crypto, t.log, r);
    assert !PendingByOther(t, 1, r.sequence);
    InsertingAdvance(env, t, 1, Asking());
    actions, t := Extend(env, actions, t, Step(1, Asking()));
    assert t.procs[1].pc == Committing(Ended(Finished)) && t.procs[1].tx.entries == [r];
    CommittingAdvance(env, t, 1, Asking());
    actions, t := Extend(env, actions, t, Step(1, Asking()));
    assert t.log == s.log + [r];
  }

  /** A run in which another commit overtakes the expiry: the waiter raises and the row stays pending. */
  lemma OvertakenWaiterLeavesRowPending(env: Env, j: Job) returns (actions: seq<Action>, s: State)
    requires Plain(j) && Injective(env.crypto.hash)
    ensures Reaches(env, actions, s) && OneRow(env, j, s, Proc(Ended(Raised), NO_TX)) && CutOff(s, 0, "row")
  {
    hide Run, Uncut, Advance, Links, WellLinked;
    var r;
    actions, s, r := ExpiryReachable(env, j);
    var p := s.procs[0];
    actions, s := AdminCommits(env, j, actions, s, p);
    assert s.log[|s.log| - 1] in s.log;
    assert Duplicate(s.log, r);
    InsertingAdvance(env, s, 0, Asking());
    actions, s := Extend(env, actions, s, Step(0, Asking()));
    EndedOrCutOff(env, actions, s, 0, "row");
  }

  /** Unless it is cut off, the run's next step makes the expiry visible. */
  predicate CommitsExpiry(t: State, pid: nat, id: string)
    requires pid in t.procs
  {
    var u := CommitTx(t, pid, Ended(TimedOut(id)));
    id in u.hitls && u.hitls[id].status == Expired
  }

  lemma ExpiryMarked(env: Env, s: State, pid: nat, p: Proc)
    requires p.pc.Inserting? && p.pc.w.ForExpiry? && PcOk(env, s, pid, p.tx, p.pc) && TxOk(env, s, p)
    ensures p.pc.w.id in s.hitls && s.hitls[p.pc.w.id].status == Pending
    ensures 1 <= p.pc.record.sequence
    ensures p.tx.write.PutHitl? && p.tx.write.id == p.pc.w.id && p.tx.write.hitl.status == Expired
  {
    hide Claims, WellLinked, RowOk, Links, RecordOf, ApplyHitl, KeyTaken;
    assert HitlRow(p.pc.w.id) in p.tx.held;
  }

  lemma InsertingExpires(s: State, pid: nat, w: Purpose, r: AuditLog)
    requires pid in s.procs && w.ForExpiry? && InsertingStep(s, pid, w, r).Some?
    requires var write := s.procs[pid].tx.write; write.PutHitl? && write.id == w.id && write.hitl.status == Expired
    ensures var t := InsertingStep(s, pid, w, r).value;
      && pid in t.procs && t.hitls == s.hitls
      && (t.procs[pid].pc == Ended(Raised) <==> Duplicate(s.log, r))
      && (t.procs[pid].pc == Committing(Ended(TimedOut(w.id))) <==> !Duplicate(s.log, r))
      && (!Duplicate(s.log, r) ==> CommitsExpiry(t, pid, w.id))
  {
    hide Duplicate, PendingByOther;
  }

  lemma SequenceUsed(env: Env, s: State, r: AuditLog)
    requires WellLinked(env.crypto, s.log)
    ensures 1 <= r.sequence <= |s.log| ==> Duplicate(s.log, r)
  {
    if 1 <= r.sequence <= |s.log| {
      assert Links(env.crypto, s.log[..r.sequence - 1], s.log[r.sequence - 1]);
      assert s.log[r.sequence - 1] in s.log;
    }
  }

  /**
   In general: the deadline has passed, the row is marked and its entry built. The entry goes in if
   and only if no record with its number or hash has been committed since the head was read, and
   then the next step of the waiter commits the mark; otherwise it raises and the row stays pending.
   */
  lemma ExpiryCountsUnlessOvertaken(env: Env, actions: seq<Action>, s: State, pid: nat, c: Choice)
    requires Reaches(env, actions, s) && pid in s.procs && s.procs[pid].pc.Inserting? && s.procs[pid].pc.w.ForExpiry?
    requires Advance(env, s, pid, c).Some?
    ensures var r, id, t := s.procs[pid].pc.record, s.procs[pid].pc.w.id, Advance(env, s, pid, c).value;
      && id in t.hitls && t.hitls[id].status == Pending && pid in t.procs
      && (t.procs[pid].pc == Ended(Raised) <==> Duplicate(s.log, r))
      && (t.procs[pid].pc == Committing(Ended(TimedOut(id))) <==> !Duplicate(s.log, r))
      && (r.sequence <= |s.log| ==> Duplicate(s.log, r))
      && (!Duplicate(s.log, r) ==> CommitsExpiry(t, pid, id))
  {
    hide Inv, TxOk, PcOk, Duplicate, WellLinked, InsertingStep, CommitsExpiry, Advance;
    InsertingAdvance(env, s, pid, c);
    InvariantHolds(env, actions, s);
    LocalHere(env, s, pid);
    ExpiryMarked(env, s, pid, s.procs[pid]);
    ChainAlwaysVerifies(env, actions, s);
    SequenceUsed(env, s, s.procs[pid].pc.record);
    InsertingExpires(s, pid, s.procs[pid].pc.w, s.procs[pid].pc.record);
  }
}
