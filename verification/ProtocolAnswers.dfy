/** What a run goes on to do once its decision, or its reviewer's, is there. */
module ProtocolAnswers {
  import opened Wrappers
  import opened Schemas
  import opened Governor
  import opened PolicyRules
  import opened AuditChain
  import opened Events
  import opened Replay
  import opened Protocol
  import opened ProtocolInvariant
  import opened ProtocolRuns
  import opened ProtocolDispatch
  import opened ProtocolTheorems

  // ---------------------------------------------------------------------------------------------
  // The decision points.
  // ---------------------------------------------------------------------------------------------

  /** The run's reservation would be granted now, or it needs none. */
  predicate Grants(s: State, row: Option<Budget>, j: Job)
  {
    KeyOf(j.intent).Some? ==> Reserve(row, Cell(s, KeyOf(j.intent).value), j.intent.amount.value).granted
  }

  ghost predicate RoutedAs(s: State, j: Job, d: PolicyDecision, row: Option<Budget>, next: Pc)
  {
    match d.outcome
    case Deny => next == Committing(Answered(j, d))
    case RequireApproval => next == HitlLookup(j, d)
    case Allow =>
      && next.Committing? && next.next.Answered? && next.next.j == j
      && if Grants(s, row, j) then next.next.d == d else next.next.d.outcome == RequireApproval
  }

  lemma RouteStepRoutes(s: State, pid: nat, j: Job, d: PolicyDecision, row: Option<Budget>)
    requires pid in s.procs
    ensures var r := RouteStep(s, pid, j, d, row);
      r.Some? && pid in r.value.procs && RoutedAs(s, j, d, row, r.value.procs[pid].pc)
  {
    hide Reserve;
  }

  lemma RoutedEntry(env: Env, s: State, pid: nat, tx: Tx, pc: Pc)
    requires pc.Route? && PcOk(env, s, pid, tx, pc)
    ensures EvaluatedHere(tx, pc.j.intent, pc.d)
  {
  }

  /**
   The decision that was written into the entry decides the way: a denial is answered, a call for approval
   goes to a reviewer, and an allow is answered as it is if and only if its reservation is granted.
   */
  lemma RouteAnswers(env: Env, actions: seq<Action>, s: State, pid: nat, c: Choice)
    requires Reaches(env, actions, s) && pid in s.procs && s.procs[pid].pc.Route?
    ensures var pc, r := s.procs[pid].pc, Advance(env, s, pid, c);
      && EvaluatedHere(s.procs[pid].tx, pc.j.intent, pc.d)
      && r.Some? && pid in r.value.procs && RoutedAs(s, pc.j, pc.d, pc.row, r.value.procs[pid].pc)
  {
    hide Inv, PcOk, TxOk, Advance, RouteStep, RoutedAs, EvaluatedHere;
    var pc := s.procs[pid].pc;
    InvariantHolds(env, actions, s);
    LocalHere(env, s, pid);
    RoutedEntry(env, s, pid, s.procs[pid].tx, pc);
    RouteAdvance(env, s, pid, c);
    RouteStepRoutes(s, pid, pc.j, pc.d, pc.row);
  }

  /** A caller with a known key joins the row that has it; otherwise one is about to be created, dated now. */
  lemma LookupAnswers(env: Env, s: State, pid: nat, c: Choice)
    requires pid in s.procs && s.procs[pid].pc.HitlLookup?
    ensures var pc, r := s.procs[pid].pc, Advance(env, s, pid, c);
      && r.Some? && pid in r.value.procs
      && var next := r.value.procs[pid].pc;
        if exists id | id in s.hitls :: s.hitls[id].key == pc.j.intent.key then
          && next.Committing? && next.next.Subscribe? && next.next.j == pc.j
          && next.next.id in s.hitls && s.hitls[next.next.id].key == pc.j.intent.key
        else next == HitlInsert(pc.j, pc.d, s.clock)
  {
    hide Advance;
    HitlLookupAdvance(env, s, pid, c);
  }

  /** What a step that asks for a lock finds: no row, somebody else's lock, or the lock. */
  ghost predicate Asks(s: State, r: Option<State>, pid: nat, lock: Resource, there: bool, absent: Pc, locked: Pc)
  {
    if !there then r.Some? && pid in r.value.procs && r.value.procs[pid].pc == absent
    else if HeldByOther(s, pid, lock) then r.None?
    else r.Some? && pid in r.value.procs && lock in r.value.procs[pid].tx.held && r.value.procs[pid].pc == locked
  }

  lemma LockAnswers(env: Env, s: State, pid: nat, c: Choice)
    requires pid in s.procs
    ensures var pc, r := s.procs[pid].pc, Advance(env, s, pid, c);
      && (pc.UpsertLock? ==>
        Asks(s, r, pid, BudgetSlot(pc.k), pc.k in s.budgets, UpsertInsert(pc.k, pc.limit, pc.actor),
          UpsertWrite(pc.k, pc.limit, pc.actor)))
      && (pc.ResolveLock? ==>
        Asks(s, r, pid, HitlRow(pc.id), pc.id in s.hitls, Ended(Raised),
          ResolveWrite(pc.id, pc.approved, pc.comment, pc.actor, pc.now)))
      && (pc.ExpireLock? ==>
        Asks(s, r, pid, HitlRow(pc.id), pc.id in s.hitls, Committing(Ended(TimedOut(pc.id))), ExpireWrite(pc.j, pc.id)))
      && (pc.CommitLock? ==>
        match KeyOf(pc.j.intent)
        case None => r == Some(Go(s, pid, Appending(ForCompletion(pc.j))))
        case Some(k) => Asks(s, r, pid, BudgetSlot(k), k in s.budgets, Ended(Raised), CommitCharge(pc.j)))
  {
    hide Advance, HeldByOther;
    match s.procs[pid].pc
    case UpsertLock(_, _, _) => UpsertLockAdvance(env, s, pid, c);
    case ResolveLock(_, _, _, _, _) => ResolveLockAdvance(env, s, pid, c);
    case ExpireLock(_, _) => ExpireLockAdvance(env, s, pid, c);
    case CommitLock(_) => CommitLockAdvance(env, s, pid, c);
    case _ =>
  }

  /** A waiter's deadline is the timeout after its subscription. */
  lemma SubscribeAnswers(env: Env, s: State, pid: nat, c: Choice)
    requires pid in s.procs && s.procs[pid].pc.Subscribe?
    ensures var pc, r := s.procs[pid].pc, Advance(env, s, pid, c);
      && r.Some? && pid in r.value.procs && r.value.procs[pid].pc == Waiting(pc.j, pc.id, s.clock + env.timeout)
      && r.value.history == s.history + [Waited(pid, pc.id)]
  {
    hide Advance;
    SubscribeAdvance(env, s, pid, c);
  }

  /** A poll answers if and only if it finds the row decided, and a message always does. */
  lemma ReadAnswers(env: Env, s: State, pid: nat, c: Choice)
    requires pid in s.procs && s.procs[pid].pc.ReadStatus? && s.procs[pid].pc.id in s.hitls
    ensures var pc, r := s.procs[pid].pc, Advance(env, s, pid, c);
      var status := s.hitls[pc.id].status;
      && r.Some? && pid in r.value.procs
      && r.value.procs[pid].pc ==
        if pc.onMessage || status in {Approved, Rejected, Expired} then Resolving(pc.j, pc.id, status)
        else Waiting(pc.j, pc.id, pc.deadline)
  {
    hide Advance;
    ReadStatusAdvance(env, s, pid, c);
  }

  /** A reviewer's decision is announced once it is committed. */
  lemma PublishAnswers(env: Env, s: State, pid: nat, c: Choice)
    requires pid in s.procs && s.procs[pid].pc.Publish?
    ensures var r := Advance(env, s, pid, c);
      r.Some? && r.value.published == s.published + {s.procs[pid].pc.id}
        && pid in r.value.procs && r.value.procs[pid].pc == Ended(Finished)
  {
    hide Advance;
    PublishAdvance(env, s, pid, c);
  }

  /** An operation that raises is recorded as failed, after its reservation is given back; another one is charged. */
  lemma OperationAnswers(env: Env, s: State, pid: nat, c: Choice)
    requires pid in s.procs && s.procs[pid].pc.Operating?
    ensures var j, r := s.procs[pid].pc.j, Advance(env, s, pid, c);
      && r.Some? && pid in r.value.procs
      && r.value.history == s.history + [Operated(pid, j, c.failure.Some?)]
      && r.value.procs[pid].pc ==
        match c.failure case None => CommitLock(j) case Some(raised) => FailRead(j, raised.0, raised.1)
  {
    hide Advance;
    OperatingAdvance(env, s, pid, c);
  }

  lemma FailureAnswers(env: Env, s: State, pid: nat, c: Choice)
    requires pid in s.procs
    ensures var pc, r := s.procs[pid].pc, Advance(env, s, pid, c);
      && (pc.FailRead? ==>
        && r.Some? && pid in r.value.procs && r.value.redis == s.redis
        && r.value.procs[pid].pc ==
          match KeyOf(pc.j.intent)
          case None => Appending(ForFailure(pc.j, pc.errorType, pc.error))
          case Some(k) =>
            FailRelease(pc.j, if k in s.budgets then Some(s.budgets[k]) else None, pc.errorType, pc.error))
      && (pc.FailRelease? && KeyOf(pc.j.intent).Some? && pc.j.intent.amount.value > 0 ==>
        && r.Some? && pid in r.value.procs
        && r.value.procs[pid].pc == Appending(ForFailure(pc.j, pc.errorType, pc.error))
        && r.value.redis ==
          match pc.row
          case None => s.redis
          case Some(b) => s.redis[KeyOf(pc.j.intent).value := Max(b.limit - b.consumed, 0)])
  {
    hide Advance;
    match s.procs[pid].pc
    case FailRead(_, _, _) => FailReadAdvance(env, s, pid, c);
    case FailRelease(j, _, _, _) =>
      FailReleaseAdvance(env, s, pid, c);
      if KeyOf(j.intent).Some? && KeyOf(j.intent).value in s.redis {
        assert s.redis[KeyOf(j.intent).value := s.redis[KeyOf(j.intent).value]] == s.redis;
      }
    case _ =>
  }

  /** After a charge or a new limit the cell is overwritten with what is left. */
  lemma ResetAnswers(env: Env, s: State, pid: nat, c: Choice)
    requires pid in s.procs && s.procs[pid].pc.ResetCell?
    ensures var pc, r := s.procs[pid].pc, Advance(env, s, pid, c);
      && r.Some? && pid in r.value.procs
      && if pc.v < 0 then r.value.procs[pid] == Proc(Ended(Raised), NO_TX) && r.value.redis == s.redis
         else r.value.procs[pid].pc == Appending(pc.w) && r.value.redis == s.redis[pc.k := pc.v]
  {
    hide Advance;
    ResetAdvance(env, s, pid, c);
  }

  /** What the entry for a purpose has to say, and in whose name. */
  predicate Reports(w: Purpose, e: Event, actor: string)
  {
    match w
    case ForEvaluation(j, d, _) => e == Evaluated(j.intent, d) && actor == j.actor
    case ForRequest(j, d, id) => e == HitlRequested(id, j.intent, d.risk, d.reasons) && actor == j.intent.agent
    case ForExpiry(j, id) => e == HitlExpired(id) && actor == j.actor
    case ForCompletion(j) => e == Completed(j.intent) && actor == j.actor
    case ForFailure(j, errorType, error) => e == Failed(j.intent, errorType, Clipped(error)) && actor == j.actor
    case ForLimit(k, limit, name) => e == BudgetUpdated(k.agent, k.currency, limit) && actor == name
    case ForResolution(id, approved, comment, name) => e == HitlResolved(id, approved, comment) && actor == name
    case ForAdmin(_, event, name) => e == event && actor == name
  }

  lemma PurposeReports(w: Purpose)
    ensures Reports(w, EventFor(w), ActorFor(w))
  {
  }

  lemma EntrySays(c: Crypto, log: seq<AuditLog>, w: Purpose, now: int)
    ensures var r := Seal(c, log, EventType(EventFor(w)), ActorFor(w), EventPayload(EventFor(w)), now);
      EventIn(r).Some? && Reports(w, EventIn(r).value, r.actor) && r.createdAt == now
  {
    hide EventOf, EventType, EventPayload, Reports;
    EventReadsBack(EventFor(w));
    PurposeReports(w);
  }

  /** The entry that is built says, read back, what it is for, in the right name and at the present time. */
  lemma AppendAnswers(env: Env, s: State, pid: nat, c: Choice)
    requires pid in s.procs && s.procs[pid].pc.Appending?
    ensures var w, r := s.procs[pid].pc.w, Advance(env, s, pid, c);
      && r.Some? && pid in r.value.procs
      && var next := r.value.procs[pid].pc;
        next == Ended(Raised)
        || (next.Inserting? && next.w == w && EventIn(next.record).Some?
            && Reports(w, EventIn(next.record).value, next.record.actor) && next.record.createdAt == s.clock)
  {
    hide Advance, Seal, EventOf, EventType, EventPayload, Reports, EventFor, ActorFor, ValidName;
    AppendingAdvance(env, s, pid, c);
    EntrySays(env.crypto, s.log + s.procs[pid].tx.entries, s.procs[pid].pc.w, s.clock);
  }

  /** Where the program goes once its entry is in. */
  predicate Proceeds(w: Purpose, next: Pc)
  {
    match w
    case ForEvaluation(j, d, row) => next == Route(j, d, row)
    case ForRequest(j, _, id) => next == Committing(Subscribe(j, id))
    case ForExpiry(_, id) => next == Committing(Ended(TimedOut(id)))
    case ForCompletion(_) => next == Committing(Ended(Finished))
    case ForFailure(_, _, _) => next == Committing(Ended(OperationRaised))
    case ForLimit(_, _, _) => next == Committing(Ended(Finished))
    case ForResolution(id, _, _, _) => next == Committing(Publish(id))
    case ForAdmin(_, _, _) => next == Committing(Ended(Finished))
  }

  lemma AfterProceeds(w: Purpose)
    ensures Proceeds(w, After(w))
  {
  }

  /** An insertion waits for whoever has the number pending, raises on a number or hash that is taken, or goes on. */
  lemma InsertAnswers(env: Env, s: State, pid: nat, c: Choice)
    requires pid in s.procs && s.procs[pid].pc.Inserting?
    ensures var pc, tx, r := s.procs[pid].pc, s.procs[pid].tx, Advance(env, s, pid, c);
      if PendingByOther(s, pid, pc.record.sequence) then r.None?
      else
        && r.Some? && pid in r.value.procs
        && var p := r.value.procs[pid];
          if Duplicate(s.log, pc.record) then p == Proc(Ended(Raised), NO_TX)
          else p.tx == tx.(entries := tx.entries + [pc.record]) && Proceeds(pc.w, p.pc)
  {
    hide Advance, PendingByOther, Duplicate, After, Proceeds;
    InsertingAdvance(env, s, pid, c);
    AfterProceeds(s.procs[pid].pc.w);
  }

  /** What `upsert_budget` and the commit leave the ledger with, or that they raise. */
  ghost predicate WritesRow(t: State, pid: nat, k: BudgetKey, row: Budget, w: Purpose)
    requires pid in t.procs
  {
    t.procs[pid].tx.write == PutBudget(k, row) && t.procs[pid].pc == ResetCell(k, row.limit - row.consumed, w)
  }

  /** A charge goes through if and only if it is positive and fits; then it is the amount, no more and no less. */
  lemma ChargeAnswers(env: Env, s: State, pid: nat, c: Choice, k: BudgetKey)
    requires pid in s.procs && s.procs[pid].pc.CommitCharge? && KeyOf(s.procs[pid].pc.j.intent) == Some(k)
    requires k in s.budgets
    ensures var j, r, b := s.procs[pid].pc.j, Advance(env, s, pid, c), s.budgets[k];
      var amount := j.intent.amount.value;
      && r.Some? && pid in r.value.procs
      && if 0 < amount <= b.limit - b.consumed && b.active then
           WritesRow(r.value, pid, k, b.(consumed := b.consumed + amount, version := b.version + 1), ForCompletion(j))
         else r.value.procs[pid] == Proc(Ended(Raised), NO_TX)
  {
    hide Advance;
    CommitChargeAdvance(env, s, pid, c);
  }

  /** A limit is written if and only if it covers what is consumed. */
  lemma LimitAnswers(env: Env, s: State, pid: nat, c: Choice)
    requires pid in s.procs && s.procs[pid].pc.UpsertWrite? && s.procs[pid].pc.k in s.budgets
    ensures var pc, r := s.procs[pid].pc, Advance(env, s, pid, c);
      var b := s.budgets[pc.k];
      && r.Some? && pid in r.value.procs
      && if b.consumed <= pc.limit then
           WritesRow(r.value, pid, pc.k, b.(limit := pc.limit, version := b.version + 1),
             ForLimit(pc.k, pc.limit, pc.actor))
         else r.value.procs[pid] == Proc(Ended(Raised), NO_TX)
  {
    hide Advance;
    UpsertWriteAdvance(env, s, pid, c);
  }

  /** At its deadline a waiter gives up, and not before. */
  lemma WaiterGivesUpIff(env: Env, s: State, pid: nat, c: Choice)
    requires pid in s.procs && s.procs[pid].pc.Waiting? && Advance(env, s, pid, c).Some?
    ensures var pc, t := s.procs[pid].pc, Advance(env, s, pid, c).value;
      pid in t.procs && (t.procs[pid].pc == ExpireLock(pc.j, pc.id) <==> pc.deadline <= s.clock)
  {
    hide Advance;
    WaitingAdvance(env, s, pid, c);
  }

  /** It marks the row it holds as expired now if that is still pending, and leaves a decided one alone. */
  lemma ExpiryAnswers(env: Env, s: State, pid: nat, c: Choice)
    requires pid in s.procs && s.procs[pid].pc.ExpireWrite? && s.procs[pid].pc.id in s.hitls
    ensures var pc, r := s.procs[pid].pc, Advance(env, s, pid, c);
      var row := s.hitls[pc.id];
      && r.Some? && pid in r.value.procs
      && var p := r.value.procs[pid];
        if row.status == Pending then
          && p.tx.write == PutHitl(pc.id, row.(status := Expired, resolvedAt := Some(s.clock)))
          && p.pc == Appending(ForExpiry(pc.j, pc.id))
        else p.tx == s.procs[pid].tx && p.pc == Committing(Ended(TimedOut(pc.id)))
  {
    hide Advance;
    ExpireWriteAdvance(env, s, pid, c);
  }

  /** What the beginning of an evaluation makes of the call; an amount without a currency is denied at once. */
  lemma StartAnswers(env: Env, s: State, pid: nat, c: Choice)
    requires pid in s.procs && s.procs[pid].pc.EvalStart?
    ensures var j, r := s.procs[pid].pc.j, Advance(env, s, pid, c);
      && r.Some? && pid in r.value.procs
      && var next := r.value.procs[pid].pc;
        if c.early.Some? || (j.intent.amount.Some? && j.intent.currency.None?) then
          next.Appending? && next.w.ForEvaluation? && next.w.j == j && next.w.d.outcome == Deny && next.w.d.risk == 100
        else if j.intent.amount.None? then next == EvalDecide(j, None, None)
        else
          var k := BudgetKey(j.intent.agent, j.intent.currency.value);
          next == EvalGet(j, if k in s.budgets then Some(s.budgets[k]) else None)
  {
    hide Advance;
    EvalStartAdvance(env, s, pid, c);
  }

  /** The decision is the most severe of what the policies and the budget call for. */
  lemma DecisionAnswers(env: Env, s: State, pid: nat, c: Choice)
    requires pid in s.procs && s.procs[pid].pc.EvalDecide?
    ensures var pc, r := s.procs[pid].pc, Advance(env, s, pid, c);
      var i := pc.j.intent;
      && r.Some? && pid in r.value.procs && r.value.procs[pid].pc.Appending?
      && var w := r.value.procs[pid].pc.w;
        && w.ForEvaluation? && w.j == pc.j && w.row == pc.row
        && (w.d.outcome == Deny <==>
          (exists x | x in c.results :: x.outcome == Deny) || (i.amount.Some? && pc.remaining.None?))
        && (w.d.outcome == Allow <==>
          (forall x | x in c.results :: x.outcome == Allow)
          && (i.amount.Some? ==> pc.remaining.Some? && i.amount.value <= pc.remaining.value))
  {
    hide Advance, MaxRisk, SortedIds, Reasons;
    EvalDecideAdvance(env, s, pid, c);
    var pc := s.procs[pid].pc;
    var b := BudgetResult(pc.j.intent, pc.remaining);
    var xs := c.results + b;
    assert forall x | x in c.results :: x in xs;
    if b != [] { assert xs[|c.results|] == b[0]; }
  }

  /** `execute` runs the operation if and only if the answer is an allow. */
  lemma OperatesIffAllowed(env: Env, s: State, pid: nat, c: Choice)
    requires pid in s.procs && s.procs[pid].pc.Answered?
    ensures var pc, r := s.procs[pid].pc, Advance(env, s, pid, c);
      && r.Some? && pid in r.value.procs
      && var next := r.value.procs[pid].pc;
        && (next == Operating(pc.j) <==> pc.j.execute && pc.d.outcome == Allow)
        && (next == Ended(DeniedByPolicy) <==> pc.j.execute && pc.d.outcome == Deny)
        && (next == Ended(NotApproved) <==> pc.j.execute && pc.d.outcome == RequireApproval)
        && (next == Ended(Returned(pc.d)) <==> !pc.j.execute)
  {
    hide Advance;
    AnsweredAdvance(env, s, pid, c);
  }

  // ---------------------------------------------------------------------------------------------
  // What a run does when it is left alone.
  // ---------------------------------------------------------------------------------------------

  /** Where `n` steps of one run lead, with nobody else about. */
  ghost function OwnSteps(env: Env, s: State, pid: nat, c: Choice, n: nat): Option<State>
    decreases n
  {
    if n == 0 then Some(s)
    else
      match Advance(env, s, pid, c)
      case None => None
      case Some(t) => OwnSteps(env, t, pid, c, n - 1)
  }

  lemma OwnStep(env: Env, s: State, pid: nat, c: Choice, n: nat, t: State)
    requires n > 0 && Advance(env, s, pid, c) == Some(t)
    ensures OwnSteps(env, s, pid, c, n) == OwnSteps(env, t, pid, c, n - 1)
  {
    hide Advance;
  }

  /** The figure a decision is based on: none without a usable budget, else the cell, else what the ledger has left. */
  lemma FigureReached(env: Env, s: State, pid: nat, c: Choice, k: BudgetKey)
    requires pid in s.procs && s.procs[pid].pc.EvalGet? && KeyOf(s.procs[pid].pc.j.intent) == Some(k)
    ensures var pc := s.procs[pid].pc;
      var t := OwnSteps(env, s, pid, c, if Usable(pc.row) && k !in s.redis then 3 else 1);
      && t.Some? && pid in t.value.procs
      && t.value.procs[pid].pc == EvalDecide(pc.j, pc.row,
        if !Usable(pc.row) then None
        else if k in s.redis then Some(s.redis[k])
        else Some(Max(pc.row.value.limit - pc.row.value.consumed, 0)))
  {
    hide Advance;
    var pc := s.procs[pid].pc;
    EvalGetAdvance(env, s, pid, c);
    var t := EvalGetStep(s, pid, pc.j, pc.row, k).value;
    if Usable(pc.row) && k !in s.redis {
      EvalSetNxAdvance(env, t, pid, c);
      var u := EvalSetNxStep(t, pid, pc.j, pc.row, k).value;
      EvalGetAgainAdvance(env, u, pid, c);
      OwnStep(env, s, pid, c, 3, t);
      OwnStep(env, t, pid, c, 2, u);
      OwnStep(env, u, pid, c, 1, EvalGetAgainStep(u, pid, pc.j, pc.row, k).value);
    } else {
      OwnStep(env, s, pid, c, 1, t);
    }
  }

  /** After `n` steps of its own the run has executed the operation. */
  ghost predicate Operates(env: Env, s: State, pid: nat, c: Choice, n: nat, j: Job)
  {
    var t := OwnSteps(env, s, pid, c, n);
    t.Some? && Operated(pid, j, c.failure.Some?) in t.value.history
  }

  lemma OperatingOperates(env: Env, s: State, pid: nat, c: Choice, j: Job)
    requires pid in s.procs && s.procs[pid].pc == Operating(j)
    ensures Operates(env, s, pid, c, 1, j)
  {
    hide Advance;
    OperatingAdvance(env, s, pid, c);
    var t := OperatingStep(s, pid, j, c).value;
    assert t.history[|t.history| - 1] == Operated(pid, j, c.failure.Some?);
    OwnStep(env, s, pid, c, 1, t);
  }

  lemma AllowOperates(env: Env, s: State, pid: nat, c: Choice, j: Job, d: PolicyDecision)
    requires pid in s.procs && s.procs[pid].pc == Answered(j, d) && j.execute && d.outcome == Allow
    ensures Operates(env, s, pid, c, 2, j)
  {
    hide Advance;
    AnsweredAdvance(env, s, pid, c);
    OwnStep(env, s, pid, c, 2, Go(s, pid, Operating(j)));
    OperatingOperates(env, Go(s, pid, Operating(j)), pid, c, j);
  }

  lemma OperatesLater(env: Env, s: State, t: State, pid: nat, c: Choice, n: nat, j: Job)
    requires Advance(env, s, pid, c) == Some(t) && Operates(env, t, pid, c, n, j)
    ensures Operates(env, s, pid, c, n + 1, j)
  {
    hide Advance;
    OwnStep(env, s, pid, c, n + 1, t);
  }

  /** An allow that was recorded, and whose reservation is granted, is committed and then executed. */
  lemma AllowedRunOperates(env: Env, s: State, pid: nat, c: Choice)
    requires pid in s.procs && s.procs[pid].pc.Route?
    requires var pc := s.procs[pid].pc; pc.j.execute && pc.d.outcome == Allow && Grants(s, pc.row, pc.j)
    ensures Operates(env, s, pid, c, 4, s.procs[pid].pc.j)
  {
    hide Advance, Operates, RouteStep, Reserve, Grants, Published;
    var pc := s.procs[pid].pc;
    RouteAdvance(env, s, pid, c);
    RouteStepRoutes(s, pid, pc.j, pc.d, pc.row);
    var t := RouteStep(s, pid, pc.j, pc.d, pc.row).value;
    CommittingAdvance(env, t, pid, c);
    var u := CommitTx(t, pid, Answered(pc.j, pc.d));
    AllowOperates(env, u, pid, c, pc.j, pc.d);
    OperatesLater(env, t, u, pid, c, 2, pc.j);
    OperatesLater(env, s, t, pid, c, 3, pc.j);
  }

  /** A waiter within its deadline that looks at a decided row has its answer two steps later. */
  lemma PollFinds(env: Env, s: State, pid: nat, c: Choice) returns (t: State)
    requires pid in s.procs && s.procs[pid].pc.Waiting? && s.clock < s.procs[pid].pc.deadline && !c.message
    requires s.procs[pid].pc.id in s.hitls && Terminal(s.hitls[s.procs[pid].pc.id].status)
    ensures OwnSteps(env, s, pid, c, 2) == Some(t)
    ensures var pc := s.procs[pid].pc;
      t == Go(s, pid, Resolving(pc.j, pc.id, s.hitls[pc.id].status))
  {
    hide Advance;
    var pc := s.procs[pid].pc;
    WaitingAdvance(env, s, pid, c);
    var u := Go(s, pid, ReadStatus(pc.j, pc.id, pc.deadline, false));
    ReadStatusAdvance(env, u, pid, c);
    t := Go(s, pid, Resolving(pc.j, pc.id, s.hitls[pc.id].status));
    assert Go(u, pid, Resolving(pc.j, pc.id, s.hitls[pc.id].status)) == t;
    OwnStep(env, s, pid, c, 2, u);
    OwnStep(env, u, pid, c, 1, t);
  }

  lemma TwoMore(env: Env, s: State, t: State, pid: nat, c: Choice, n: nat)
    requires OwnSteps(env, s, pid, c, 2) == Some(t)
    ensures OwnSteps(env, s, pid, c, n + 2) == OwnSteps(env, t, pid, c, n)
  {
    hide Advance;
    var u := Advance(env, s, pid, c).value;
    OwnStep(env, s, pid, c, 2, u);
    OwnStep(env, s, pid, c, n + 2, u);
    OwnStep(env, u, pid, c, 1, Advance(env, u, pid, c).value);
    OwnStep(env, u, pid, c, n + 1, Advance(env, u, pid, c).value);
  }

  /** A refusal that is found in time is answered as what it is. */
  lemma RefusedWaiterAnswers(env: Env, s: State, pid: nat, c: Choice)
    requires pid in s.procs && s.procs[pid].pc.Waiting? && s.clock < s.procs[pid].pc.deadline && !c.message
    requires s.procs[pid].pc.id in s.hitls && s.hitls[s.procs[pid].pc.id].status in {Rejected, Expired}
    ensures var id, t := s.procs[pid].pc.id, OwnSteps(env, s, pid, c, 3);
      t.Some? && pid in t.value.procs && t.value.procs[pid].pc == Ended(AnsweredNo(id, s.hitls[id].status))
  {
    hide Advance;
    var t := PollFinds(env, s, pid, c);
    TwoMore(env, s, t, pid, c, 1);
    var pc := t.procs[pid].pc;
    ResolvingAdvance(env, t, pid, c);
    OwnStep(env, t, pid, c, 1, ResolvingStep(t, pid, pc.j, pc.id, pc.status).value);
  }

  /** The number of steps from the poll to the operation: one more when there is an amount to reserve. */
  function StepsToOperate(j: Job): nat { if KeyOf(j.intent).None? then 5 else 6 }

  lemma ResolvingOperates(env: Env, s: State, pid: nat, c: Choice, j: Job, id: string)
    requires pid in s.procs && s.procs[pid].pc == Resolving(j, id, Approved) && j.execute
    requires Grants(s, if KeyOf(j.intent).Some? then Find(s.budgets, KeyOf(j.intent).value) else None, j)
    ensures Operates(env, s, pid, c, StepsToOperate(j) - 2, j.(via := Some(id)))
  {
    hide Advance, Operates, Reserve;
    ResolvingAdvance(env, s, pid, c);
    var t := ResolvingStep(s, pid, j, id, Approved).value;
    if KeyOf(j.intent).None? {
      AllowOperates(env, t, pid, c, j.(via := Some(id)), Approval(id));
      OperatesLater(env, s, t, pid, c, 2, j.(via := Some(id)));
    } else {
      var k := KeyOf(j.intent).value;
      ApprovedReserveAdvance(env, t, pid, c);
      var u := ApprovedReserveStep(t, pid, j, id, Find(s.budgets, k), k).value;
      assert Cell(t, k) == Cell(s, k);
      AllowOperates(env, u, pid, c, j.(via := Some(id)), Approval(id));
      OperatesLater(env, t, u, pid, c, 2, j.(via := Some(id)));
      OperatesLater(env, s, t, pid, c, 3, j.(via := Some(id)));
    }
  }

  /** An approval that is found in time, and that the budget can honour, leads to the operation. */
  lemma ApprovedWaiterOperates(env: Env, s: State, pid: nat, c: Choice)
    requires pid in s.procs && s.procs[pid].pc.Waiting? && s.clock < s.procs[pid].pc.deadline && !c.message
    requires var pc := s.procs[pid].pc;
      && pc.id in s.hitls && s.hitls[pc.id].status == Approved && pc.j.execute
      && Grants(s, if KeyOf(pc.j.intent).Some? then Find(s.budgets, KeyOf(pc.j.intent).value) else None, pc.j)
    ensures var pc := s.procs[pid].pc;
      Operates(env, s, pid, c, StepsToOperate(pc.j), pc.j.(via := Some(pc.id)))
  {
    hide Advance, Reserve;
    var pc := s.procs[pid].pc;
    var t := PollFinds(env, s, pid, c);
    ResolvingOperates(env, t, pid, c, pc.j, pc.id);
    TwoMore(env, s, t, pid, c, StepsToOperate(pc.j) - 2);
  }
}
