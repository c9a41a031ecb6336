/** What holds in every reachable state of the service. */
module ProtocolInvariant {
  import opened Wrappers
  import opened Schemas
  import opened Governor
  import opened AuditChain
  import opened Events
  import opened Replay
  import opened Protocol

  function ViewOf(h: Hitl): HitlView { HitlView(h.key, h.intent.agent, h.status, h.reviewer, h.comment) }

  /** The ledger and the part of the approval table that the log records. */
  function View(s: State): Tables { Tables(s.budgets, map id | id in s.hitls :: ViewOf(s.hitls[id])) }

  // ---------------------------------------------------------------------------------------------
  // What a transaction's entries, written and still owed, claim about the tables.
  // ---------------------------------------------------------------------------------------------

  function PurposeEffect(w: Purpose): Effect { EventEffect(EventFor(w), ActorFor(w)) }

  function Owed(pc: Pc): seq<Effect>
  {
    match pc
    case ResetCell(_, _, w) => [PurposeEffect(w)]
    case Appending(w) => [PurposeEffect(w)]
    case Inserting(w, _) => [PurposeEffect(w)]
    case _ => []
  }

  function Claims(p: Proc): seq<Effect> { Significant(Effects(p.tx.entries) + Owed(p.pc)) }

  function ConsumedOf(b: Option<Budget>): int { if b.Some? then b.value.consumed else 0 }

  function FindView(s: State, id: string): Option<HitlView>
  {
    if id in s.hitls then Some(ViewOf(s.hitls[id])) else None
  }

  /** Timing, and which columns go with which status. */
  predicate RowOk(env: Env, clock: int, h: Hitl)
  {
    && h.key == h.intent.key
    && h.expiresAt == h.createdAt + env.timeout && h.createdAt <= clock
    && h.status != Cancelled
    && (h.status == Pending ==> h.resolvedAt.None? && h.reviewer.None? && h.comment.None?)
    && (h.status != Pending ==> h.resolvedAt.Some? && h.resolvedAt.value <= clock)
    && (h.status == Approved || h.status == Rejected ==> h.reviewer.Some? && h.resolvedAt.value < h.expiresAt)
    && (h.status == Expired ==> h.expiresAt <= h.resolvedAt.value)
  }

  predicate BudgetWriteOk(s: State, tx: Tx, es: seq<Effect>, k: BudgetKey, row: Budget)
  {
    && BudgetSlot(k) in tx.held
    && |es| == 1 && (es[0].SetLimit? || es[0].Charge?) && es[0].k == k
    && ApplyBudget(Find(s.budgets, k), es[0]) == Some(row)
    && row.consumed == ConsumedOf(Find(s.budgets, k)) + ChargeOf(es[0], k)
    && Sane(row) && row.active
  }

  predicate HitlWriteOk(env: Env, s: State, tx: Tx, es: seq<Effect>, id: string, row: Hitl)
  {
    && |es| == 1 && (es[0].OpenHitl? || es[0].CloseHitl? || es[0].ExpireHitl?) && es[0].id == id
    && ApplyHitl(FindView(s, id), es[0]) == Some(ViewOf(row))
    && RowOk(env, s.clock, row)
    && (if id in s.hitls then
          && HitlRow(id) in tx.held && s.hitls[id].status == Pending && Terminal(row.status)
          && row.key == s.hitls[id].key && row.expiresAt == s.hitls[id].expiresAt
        else
          HitlKey(row.key) in tx.held && !KeyTaken(s, row.key) && row.status == Pending)
  }

  predicate Explains(env: Env, s: State, tx: Tx, es: seq<Effect>)
  {
    match tx.write
    case NoWrite => es == []
    case PutOther(name) => es == [] && OtherKey(name) in tx.held
    case PutBudget(k, row) => BudgetWriteOk(s, tx, es, k, row)
    case PutHitl(id, row) => HitlWriteOk(env, s, tx, es, id, row)
  }

  predicate TxOk(env: Env, s: State, p: Proc)
  {
    && (forall r | r in p.tx.held :: (r.HitlKey? ==> p.tx.entries != []) && (r.HitlRow? ==> r.id in s.hitls))
    && (p.tx.entries != [] ==> WellLinked(env.crypto, s.log + p.tx.entries))
    && (!p.pc.RaiseConflict? ==> Explains(env, s, p.tx, Claims(p)))
  }

  // ---------------------------------------------------------------------------------------------
  // What a run knows about its past.
  // ---------------------------------------------------------------------------------------------

  /** The entry, read back, says that this was decided about this intent. */
  predicate IsEvaluated(r: AuditLog, intent: Intent, d: PolicyDecision) { EventIn(r) == Some(Evaluated(intent, d)) }

  predicate EvaluatedHere(tx: Tx, intent: Intent, d: PolicyDecision)
  {
    |tx.entries| == 1 && IsEvaluated(tx.entries[0], intent, d)
  }

  /** The run committed an entry that records this decision on this intent. */
  predicate EvaluatedIn(history: seq<Happening>, pid: nat, intent: Intent, d: PolicyDecision)
  {
    exists h | h in history :: h.Committed? && h.pid == pid && exists r | r in h.entries :: IsEvaluated(r, intent, d)
  }

  ghost predicate EngineSaid(history: seq<Happening>, pid: nat, intent: Intent, o: Outcome)
  {
    exists d: PolicyDecision :: d.outcome == o && EvaluatedIn(history, pid, intent, d)
  }

  predicate Paid(intent: Intent) { intent.amount.Some? ==> intent.currency.Some? }

  predicate GrantedIn(history: seq<Happening>, pid: nat, intent: Intent)
  {
    KeyOf(intent).Some? ==> Granted(pid, KeyOf(intent).value, intent.amount.value) in history
  }

  predicate ApprovedRow(hitls: map<string, Hitl>, id: string, key: string)
  {
    id in hitls && hitls[id].key == key && hitls[id].status == Approved
  }

  /** The engine allowed the intent, or sent it to a reviewer who approved its key; and it is paid for. */
  ghost predicate Authorized(history: seq<Happening>, hitls: map<string, Hitl>, pid: nat, j: Job)
  {
    && Paid(j.intent) && GrantedIn(history, pid, j.intent)
    && (EngineSaid(history, pid, j.intent, Allow)
        || (EngineSaid(history, pid, j.intent, RequireApproval) && j.via.Some?
          && ApprovedRow(hitls, j.via.value, j.intent.key)))
  }

  predicate DecidedAs(hitls: map<string, Hitl>, id: string, status: Status)
  {
    Terminal(status) && id in hitls && hitls[id].status == status
  }

  predicate OutcomeEntry(r: AuditLog) { r.eventType == "execution_completed" || r.eventType == "execution_failed" }

  function OutcomeEntries(es: seq<AuditLog>): nat
  {
    if es == [] then 0 else OutcomeEntries(es[..|es| - 1]) + (if OutcomeEntry(es[|es| - 1]) then 1 else 0)
  }

  /** How many `execution_completed` and `execution_failed` entries a run has committed. */
  function Outcomes(history: seq<Happening>, pid: nat): nat
  {
    if history == [] then 0
    else
      var h := history[|history| - 1];
      Outcomes(history[..|history| - 1], pid) + (if h.Committed? && h.pid == pid then OutcomeEntries(h.entries) else 0)
  }

  function CommittedEntries(history: seq<Happening>): seq<AuditLog>
  {
    if history == [] then []
    else
      var h := history[|history| - 1];
      CommittedEntries(history[..|history| - 1]) + (if h.Committed? then h.entries else [])
  }

  /** The run has executed the operation of this intent, which raised or did not. */
  predicate OperatedIn(history: seq<Happening>, pid: nat, intent: Intent, raised: bool)
  {
    exists h | h in history :: h.Operated? && h.pid == pid && h.j.intent == intent && h.raised == raised
  }

  /** An outcome entry tells the truth: the run executed the operation of the intent in it, with that outcome. */
  predicate Earned(history: seq<Happening>, pid: nat, r: AuditLog)
  {
    OutcomeEntry(r) ==>
      exists h | h in history ::
        && h.Operated? && h.pid == pid && h.raised == (r.eventType == "execution_failed")
        && IntentStated(r) == Some(h.j.intent)
  }

  predicate AllEarned(history: seq<Happening>, pid: nat, es: seq<AuditLog>)
  {
    forall r | r in es :: Earned(history, pid, r)
  }

  // ---------------------------------------------------------------------------------------------
  // What holds at each point of a program.
  // ---------------------------------------------------------------------------------------------

  ghost predicate WaiterOk(s: State, pid: nat, j: Job, id: string)
  {
    && ValidIntent(j.intent) && Paid(j.intent)
    && EngineSaid(s.history, pid, j.intent, RequireApproval)
    && id in s.hitls && s.hitls[id].key == j.intent.key
  }

  /** Nobody has been asked about the intent. */
  predicate Unasked(j: Job) { ValidIntent(j.intent) && j.via.None? }

  /** The approval a run goes by has been given. */
  predicate ViaOk(s: State, j: Job)
  {
    ValidIntent(j.intent) && (j.via.Some? ==> ApprovedRow(s.hitls, j.via.value, j.intent.key))
  }

  predicate RouteOk(tx: Tx, j: Job, d: PolicyDecision)
  {
    && tx.held == {} && tx.write == NoWrite && EvaluatedHere(tx, j.intent, d)
    && Unasked(j) && d.hitlId.None? && (d.outcome != Deny ==> Paid(j.intent))
  }

  predicate Holds(tx: Tx, r: Resource) { tx.held == {r} && tx.entries == [] }

  ghost predicate PurposeOk(s: State, pid: nat, tx: Tx, w: Purpose)
  {
    match w
    case ForEvaluation(j, d, _) => tx == NO_TX && Unasked(j) && d.hitlId.None? && (d.outcome != Deny ==> Paid(j.intent))
    case ForRequest(j, d, id) =>
      && EvaluatedHere(tx, j.intent, d) && d.outcome == RequireApproval && ValidIntent(j.intent) && Paid(j.intent)
      && tx.write.PutHitl? && tx.write.id == id && tx.write.hitl.key == j.intent.key
    case ForExpiry(_, id) =>
      Holds(tx, HitlRow(id)) && tx.write.PutHitl? && tx.write.id == id && tx.write.hitl.status == Expired
    case ForCompletion(j) => tx.entries == [] && ViaOk(s, j) && OperatedIn(s.history, pid, j.intent, false)
    case ForFailure(j, _, _) => tx == NO_TX && ViaOk(s, j) && OperatedIn(s.history, pid, j.intent, true)
    case ForLimit(k, _, _) => Holds(tx, BudgetSlot(k))
    case ForResolution(id, _, _, _) =>
      Holds(tx, HitlRow(id)) && tx.write.PutHitl? && tx.write.id == id && Terminal(tx.write.hitl.status)
    case ForAdmin(name, event, _) => Holds(tx, OtherKey(name)) && AdminEvent(event)
  }

  /** A record built earlier still continues the log it was built on. */
  predicate Fits(env: Env, s: State, tx: Tx, r: AuditLog)
  {
    if tx.entries != [] then Links(env.crypto, s.log + tx.entries, r)
    else 1 <= r.sequence <= |s.log| + 1 && Links(env.crypto, s.log[..r.sequence - 1], r)
  }

  predicate RecordOf(w: Purpose, r: AuditLog)
  {
    r.eventType == EventType(EventFor(w)) && r.actor == ActorFor(w) && r.payload == EventPayload(EventFor(w))
  }

  ghost predicate NextOk(s: State, pid: nat, tx: Tx, next: Pc)
  {
    && (tx.write != NoWrite ==> tx.entries != [])
    && OutcomeEntries(tx.entries) <= 1
    && (!next.Ended? ==> OutcomeEntries(tx.entries) == 0)
    && AllEarned(s.history, pid, tx.entries)
    && match next
       case Answered(j, d) =>
         && Unasked(j) && d.hitlId.None? && tx.write == NoWrite
         && (d.outcome == Allow ==>
           Paid(j.intent) && EvaluatedHere(tx, j.intent, d) && GrantedIn(s.history, pid, j.intent))
       case Subscribe(j, id) =>
         && ValidIntent(j.intent) && Paid(j.intent)
         && (exists d: PolicyDecision ::
           d.outcome == RequireApproval && tx.entries != [] && IsEvaluated(tx.entries[0], j.intent, d))
         && (if tx.write == NoWrite then id in s.hitls && s.hitls[id].key == j.intent.key
             else tx.write.PutHitl? && tx.write.id == id && tx.write.hitl.key == j.intent.key)
       case Publish(id) => tx.write.PutHitl? && tx.write.id == id && Terminal(tx.write.hitl.status)
       case Ended(TimedOut(id)) =>
         if tx.write == NoWrite then id in s.hitls && Terminal(s.hitls[id].status)
         else tx.write.PutHitl? && tx.write.id == id && Terminal(tx.write.hitl.status)
       case Ended(e) => e.Finished? || e.OperationRaised?
       case _ => false
  }

  ghost predicate PcOk(env: Env, s: State, pid: nat, tx: Tx, pc: Pc)
  {
    match pc
    case EvalStart(j) => tx == NO_TX && Unasked(j)
    case EvalGet(j, _) => tx == NO_TX && Unasked(j) && KeyOf(j.intent).Some?
    case EvalSetNx(j, row) => tx == NO_TX && Unasked(j) && KeyOf(j.intent).Some? && row.Some?
    case EvalGetAgain(j, row) => tx == NO_TX && Unasked(j) && KeyOf(j.intent).Some?
    case EvalDecide(j, _, _) => tx == NO_TX && Unasked(j) && Paid(j.intent)
    case Route(j, d, _) => RouteOk(tx, j, d)
    case HitlLookup(j, d) => RouteOk(tx, j, d) && d.outcome == RequireApproval
    case HitlInsert(j, d, now) =>
      RouteOk(tx, j, d) && d.outcome == RequireApproval && now <= s.clock && !KeyTaken(s, j.intent.key)
    case Subscribe(j, id) => tx == NO_TX && WaiterOk(s, pid, j, id)
    case Waiting(j, id, deadline) => tx == NO_TX && WaiterOk(s, pid, j, id) && s.hitls[id].expiresAt <= deadline
    case ReadStatus(j, id, deadline, onMessage) =>
      tx == NO_TX && WaiterOk(s, pid, j, id) && s.hitls[id].expiresAt <= deadline
        && (onMessage ==> Terminal(s.hitls[id].status))
    case Resolving(j, id, status) =>
      tx == NO_TX && WaiterOk(s, pid, j, id) && Terminal(status) && s.hitls[id].status == status
    case ApprovedReserve(j, id, _) =>
      tx == NO_TX && WaiterOk(s, pid, j, id) && s.hitls[id].status == Approved && KeyOf(j.intent).Some?
    case ExpireLock(j, id) => tx == NO_TX && WaiterOk(s, pid, j, id) && s.hitls[id].expiresAt <= s.clock
    case ExpireWrite(j, id) =>
      Holds(tx, HitlRow(id)) && tx.write == NoWrite && id in s.hitls && s.hitls[id].expiresAt <= s.clock
    case Answered(j, d) =>
      tx == NO_TX && ViaOk(s, j) && d.hitlId == j.via && (d.outcome == Allow ==> Authorized(s.history, s.hitls, pid, j))
    case Operating(j) => tx == NO_TX && ViaOk(s, j) && Authorized(s.history, s.hitls, pid, j)
    case CommitLock(j) => tx == NO_TX && ViaOk(s, j) && OperatedIn(s.history, pid, j.intent, false)
    case CommitCharge(j) =>
      && ViaOk(s, j) && OperatedIn(s.history, pid, j.intent, false)
      && KeyOf(j.intent).Some? && Holds(tx, BudgetSlot(KeyOf(j.intent).value)) && tx.write == NoWrite
        && KeyOf(j.intent).value in s.budgets
    case FailRead(j, _, _) => tx == NO_TX && ViaOk(s, j) && OperatedIn(s.history, pid, j.intent, true)
    case FailRelease(j, _, _, _) =>
      tx == NO_TX && ViaOk(s, j) && OperatedIn(s.history, pid, j.intent, true) && KeyOf(j.intent).Some?
    case UpsertLock(_, limit, _) => tx == NO_TX && limit > 0
    case UpsertInsert(_, limit, _) => tx == NO_TX && limit > 0
    case UpsertWrite(k, limit, _) => Holds(tx, BudgetSlot(k)) && tx.write == NoWrite && limit > 0 && k in s.budgets
    case ResolveLock(_, _, _, _, now) => tx == NO_TX && now <= s.clock
    case ResolveWrite(id, _, _, _, now) =>
      Holds(tx, HitlRow(id)) && tx.write == NoWrite && now <= s.clock && id in s.hitls
    case RaiseConflict => tx.entries == []
    case Publish(id) => tx == NO_TX && id in s.hitls && Terminal(s.hitls[id].status)
    case AdminInsert(_, event, _) => tx == NO_TX && AdminEvent(event)
    case ResetCell(_, v, w) => PurposeOk(s, pid, tx, w)
    case Appending(w) => PurposeOk(s, pid, tx, w)
    case Inserting(w, r) => PurposeOk(s, pid, tx, w) && Fits(env, s, tx, r) && RecordOf(w, r)
    case Committing(next) => NextOk(s, pid, tx, next)
    case Ended(TimedOut(id)) => tx == NO_TX && id in s.hitls && Terminal(s.hitls[id].status)
    case Ended(AnsweredNo(id, status)) =>
      tx == NO_TX && id in s.hitls && Terminal(status) && s.hitls[id].status == status
    case Ended(Returned(d)) =>
      tx == NO_TX && (d.hitlId.Some? ==> d.hitlId.value in s.hitls && s.hitls[d.hitlId.value].status == Approved)
    case Ended(_) => tx == NO_TX
  }

  ghost predicate Local(env: Env, s: State, pid: nat, p: Proc)
  {
    && TxOk(env, s, p)
    && PcOk(env, s, pid, p.tx, p.pc)
    && Outcomes(s.history, pid) <= 1
    && (!p.pc.Ended? ==> Outcomes(s.history, pid) == 0)
  }

  // ---------------------------------------------------------------------------------------------
  // The invariant.
  // ---------------------------------------------------------------------------------------------

  /** Locks are exclusive, and at most one transaction has entries pending. */
  predicate Exclusive(procs: map<nat, Proc>)
  {
    forall p, q | p in procs && q in procs && p != q ::
      procs[p].tx.held !! procs[q].tx.held && (procs[p].tx.entries == [] || procs[q].tx.entries == [])
  }

  ghost predicate LedgerOk(s: State)
  {
    && (forall k | k in s.budgets :: Sane(s.budgets[k]) && s.budgets[k].active)
    && (forall k: BudgetKey :: ChargedTo(s.log, k) == ConsumedOf(Find(s.budgets, k)))
  }

  predicate ApprovalsOk(env: Env, s: State)
  {
    && (forall id | id in s.hitls :: RowOk(env, s.clock, s.hitls[id]))
    && (forall a, b | a in s.hitls && b in s.hitls && a != b :: s.hitls[a].key != s.hitls[b].key)
    && (forall id | id in s.published :: id in s.hitls && Terminal(s.hitls[id].status))
  }

  ghost predicate HappeningOk(s: State, n: nat)
    requires n < |s.history|
  {
    && s.history[n].pid in s.procs
    && (s.history[n].Operated? ==> Authorized(s.history[..n], s.hitls, s.history[n].pid, s.history[n].j))
    && (s.history[n].Committed? ==> AllEarned(s.history[..n], s.history[n].pid, s.history[n].entries))
    && (s.history[n].Waited? ==> s.history[n].id in s.hitls)
    && (s.history[n].Heard? ==> DecidedAs(s.hitls, s.history[n].id, s.history[n].status))
  }

  ghost predicate HistoryOk(s: State)
  {
    && CommittedEntries(s.history) == s.log
    && (forall n | 0 <= n < |s.history| :: HappeningOk(s, n))
  }

  /** The part of the invariant that speaks of the tables and the past. */
  ghost predicate Global(env: Env, s: State)
  {
    && WellLinked(env.crypto, s.log)
    && Replayed(s.log) == View(s)
    && LedgerOk(s)
    && ApprovalsOk(env, s)
    && HistoryOk(s)
  }

  ghost predicate Locals(env: Env, s: State)
  {
    forall pid | pid in s.procs :: Local(env, s, pid, s.procs[pid])
  }

  ghost predicate Inv(env: Env, s: State)
  {
    Global(env, s) && Exclusive(s.procs) && Locals(env, s)
  }
}
