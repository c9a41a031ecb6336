/**
 The whole service as one transition system: interleaved database transactions, atomic Redis
 commands and pub/sub messages.

 A transaction holds row locks and pending unique keys, at most one pending row, and pending audit
 entries; all of it becomes visible at commit and none of it after an abort. Readers see committed
 rows. A lock or an insertion of a unique key that somebody else holds blocks. Redis is not part of
 any transaction: it may be overwritten by the environment between any two steps.
 */
module Protocol {
  import opened Wrappers
  import opened Schemas
  import opened Governor
  import opened PolicyRules
  import opened AuditChain
  import opened Events
  import opened Replay

  /** A row of the approval table. */
  datatype Hitl = Hitl(
    key: string,
    intent: Intent,
    status: Status,
    reviewer: Option<string>,
    comment: Option<string>,
    createdAt: int,
    expiresAt: int,
    resolvedAt: Option<int>)

  predicate Terminal(st: Status) { st == Approved || st == Rejected || st == Expired }

  // ---------------------------------------------------------------------------------------------
  // Transactions.
  // ---------------------------------------------------------------------------------------------

  /** What a transaction can hold: a locked row, or a unique key it has inserted. */
  datatype Resource = BudgetSlot(k: BudgetKey) | HitlRow(id: string) | HitlKey(key: string) | OtherKey(name: string)

  datatype Write =
    | NoWrite
    | PutBudget(k: BudgetKey, row: Budget)
    | PutHitl(id: string, hitl: Hitl)
    | PutOther(name: string)

  datatype Tx = Tx(held: set<Resource>, write: Write, entries: seq<AuditLog>)

  const NO_TX := Tx({}, NoWrite, [])

  // ---------------------------------------------------------------------------------------------
  // Programs.
  // ---------------------------------------------------------------------------------------------

  /** One call of `evaluate_or_wait`, or of `execute` around it. `via` is the approval it goes by. */
  datatype Job = Job(intent: Intent, actor: string, execute: bool, via: Option<string>)

  /** Why an audit entry is being appended; it fixes the entry and where the program continues. */
  datatype Purpose =
    | ForEvaluation(j: Job, d: PolicyDecision, row: Option<Budget>)
    | ForRequest(j: Job, d: PolicyDecision, id: string)
    | ForExpiry(j: Job, id: string)
    | ForCompletion(j: Job)
    | ForFailure(j: Job, errorType: string, error: string)
    | ForLimit(k: BudgetKey, limit: int, actor: string)
    | ForResolution(id: string, approved: bool, comment: Option<string>, actor: string)
    | ForAdmin(name: string, event: Event, actor: string)

  datatype Ending =
    | Raised                              // an exception aborted the transaction, or the run was cancelled
    | Returned(d: PolicyDecision)         // `evaluate_or_wait` returned to an API caller
    | DeniedByPolicy                             // ExecutionDeniedError
    | NotApproved                         // ApprovalRejectedError from `execute`
    | AnsweredNo(id: string, status: Status)  // the waiter raised after reading a status
    | TimedOut(id: string)                // ApprovalTimeoutError after the deadline
    | Finished                            // the operation succeeded and was recorded, or an API call succeeded
    | OperationRaised                     // the operation raised and that was recorded

  datatype Pc =
    // evaluate_or_wait
    | EvalStart(j: Job)
    | EvalGet(j: Job, row: Option<Budget>)
    | EvalSetNx(j: Job, row: Option<Budget>)
    | EvalGetAgain(j: Job, row: Option<Budget>)
    | EvalDecide(j: Job, row: Option<Budget>, remaining: Option<int>)
    | Route(j: Job, d: PolicyDecision, row: Option<Budget>)
    | HitlLookup(j: Job, d: PolicyDecision)
    | HitlInsert(j: Job, d: PolicyDecision, now: int)
    // the waiter
    | Subscribe(j: Job, id: string)
    | Waiting(j: Job, id: string, deadline: int)
    | ReadStatus(j: Job, id: string, deadline: int, onMessage: bool)
    | Resolving(j: Job, id: string, status: Status)
    | ApprovedReserve(j: Job, id: string, row: Option<Budget>)
    | ExpireLock(j: Job, id: string)
    | ExpireWrite(j: Job, id: string)
    // execute
    | Answered(j: Job, d: PolicyDecision)
    | Operating(j: Job)
    | CommitLock(j: Job)
    | CommitCharge(j: Job)
    | FailRead(j: Job, errorType: string, error: string)
    | FailRelease(j: Job, row: Option<Budget>, errorType: string, error: string)
    // upsert_budget
    | UpsertLock(k: BudgetKey, limit: int, actor: string)
    | UpsertInsert(k: BudgetKey, limit: int, actor: string)
    | UpsertWrite(k: BudgetKey, limit: int, actor: string)
    // resolve_hitl
    | ResolveLock(id: string, approved: bool, comment: Option<string>, actor: string, now: int)
    | ResolveWrite(id: string, approved: bool, comment: Option<string>, actor: string, now: int)
    | RaiseConflict
    | Publish(id: string)
    // register_agent, create_policy
    | AdminInsert(name: string, event: Event, actor: string)
    // shared by all
    | ResetCell(k: BudgetKey, v: int, w: Purpose)
    | Appending(w: Purpose)
    | Inserting(w: Purpose, record: AuditLog)
    | Committing(next: Pc)
    | Ended(e: Ending)

  datatype Proc = Proc(pc: Pc, tx: Tx)

  /** What a run leaves behind, in the order it happened. */
  datatype Happening =
    | Committed(pid: nat, entries: seq<AuditLog>)
    | Granted(pid: nat, k: BudgetKey, amount: int)
    | Operated(pid: nat, j: Job, raised: bool)
    | Waited(pid: nat, id: string)                  // began to wait for an approval
    | Heard(pid: nat, id: string, status: Status)   // stopped waiting, having read this status

  datatype Env = Env(crypto: Crypto, timeout: int)

  datatype State = State(
    clock: int,
    budgets: map<BudgetKey, Budget>,
    hitls: map<string, Hitl>,
    others: set<string>,
    log: seq<AuditLog>,
    redis: map<BudgetKey, int>,
    published: set<string>,
    procs: map<nat, Proc>,
    history: seq<Happening>)

  function Init(): State { State(0, map[], map[], {}, [], map[], {}, map[], []) }

  // ---------------------------------------------------------------------------------------------
  // Entries.
  // ---------------------------------------------------------------------------------------------

  function EventFor(w: Purpose): Event
  {
    match w
    case ForEvaluation(j, d, _) => Evaluated(j.intent, d)
    case ForRequest(j, d, id) => HitlRequested(id, j.intent, d.risk, d.reasons)
    case ForExpiry(_, id) => HitlExpired(id)
    case ForCompletion(j) => Completed(j.intent)
    case ForFailure(j, errorType, error) => Failed(j.intent, errorType, Clipped(error))
    case ForLimit(k, limit, _) => BudgetUpdated(k.agent, k.currency, limit)
    case ForResolution(id, approved, comment, _) => HitlResolved(id, approved, comment)
    case ForAdmin(_, event, _) => event
  }

  function ActorFor(w: Purpose): string
  {
    match w
    case ForEvaluation(j, _, _) => j.actor
    case ForRequest(j, _, _) => j.intent.agent
    case ForExpiry(j, _) => j.actor
    case ForCompletion(j) => j.actor
    case ForFailure(j, _, _) => j.actor
    case ForLimit(_, _, actor) => actor
    case ForResolution(_, _, _, actor) => actor
    case ForAdmin(_, _, actor) => actor
  }

  function After(w: Purpose): Pc
  {
    match w
    case ForEvaluation(j, d, row) => Route(j, d, row)
    case ForRequest(j, _, id) => Committing(Subscribe(j, id))
    case ForExpiry(_, id) => Committing(Ended(TimedOut(id)))
    case ForCompletion(_) => Committing(Ended(Finished))
    case ForFailure(_, _, _) => Committing(Ended(OperationRaised))
    case ForLimit(_, _, _) => Committing(Ended(Finished))
    case ForResolution(id, _, _, _) => Committing(Publish(id))
    case ForAdmin(_, _, _) => Committing(Ended(Finished))
  }

  /** Events the administrative calls append: they change neither ledger nor approvals. */
  predicate AdminEvent(e: Event) { e.AgentRegistered? || e.PolicyCreated? }

  // ---------------------------------------------------------------------------------------------
  // Steps.
  // ---------------------------------------------------------------------------------------------

  /** What a step may depend on besides the state: tables it reads, the environment, the operation. */
  datatype Choice = Choice(
    early: Option<string>,        // the agent or the action is refused before any policy is looked at
    base: int,
    results: seq<RuleResult>,     // what the enabled policies contribute
    id: string,                   // a generated row identifier
    message: bool,                // the subscription delivers a message
    failure: Option<(string, string)>)  // the operation raises

  function KeyOf(i: Intent): Option<BudgetKey>
  {
    if i.amount.Some? && i.currency.Some? then Some(BudgetKey(i.agent, i.currency.value)) else None
  }

  function Cell(s: State, k: BudgetKey): Option<int> { Find(s.redis, k) }

  function SetCell(s: State, k: BudgetKey, v: Option<int>): State
  {
    s.(redis := if v.Some? then s.redis[k := v.value] else s.redis - {k})
  }

  predicate HeldByOther(s: State, pid: nat, r: Resource)
  {
    exists q | q in s.procs && q != pid :: r in s.procs[q].tx.held
  }

  predicate PendingByOther(s: State, pid: nat, sequence: int)
  {
    exists q | q in s.procs && q != pid :: exists r | r in s.procs[q].tx.entries :: r.sequence == sequence
  }

  /** A committed record already has this sequence number or this hash. */
  predicate Duplicate(log: seq<AuditLog>, r: AuditLog)
  {
    exists x | x in log :: x.sequence == r.sequence || x.entryHash == r.entryHash
  }

  predicate KeyTaken(s: State, key: string) { exists id | id in s.hitls :: s.hitls[id].key == key }

  /** The row that the lookup by idempotency key finds. */
  ghost function HolderOf(s: State, key: string): (id: string)
    requires KeyTaken(s, key)
    ensures id in s.hitls && s.hitls[id].key == key
  {
    var id :| id in s.hitls && s.hitls[id].key == key;
    id
  }

  function Enter(s: State, pid: nat, p: Proc): State { s.(procs := s.procs[pid := p]) }

  function Go(s: State, pid: nat, pc: Pc): State
    requires pid in s.procs
  {
    Enter(s, pid, s.procs[pid].(pc := pc))
  }

  /** An exception inside `session.begin()`: the transaction vanishes, whatever Redis has seen. */
  function Abort(s: State, pid: nat): State { Enter(s, pid, Proc(Ended(Raised), NO_TX)) }

  function Hold(s: State, pid: nat, r: Resource, write: Write, pc: Pc): State
    requires pid in s.procs
  {
    var tx := s.procs[pid].tx;
    Enter(s, pid, Proc(pc, tx.(held := tx.held + {r}, write := write)))
  }

  function WriteRow(s: State, pid: nat, write: Write, pc: Pc): State
    requires pid in s.procs
  {
    Enter(s, pid, Proc(pc, s.procs[pid].tx.(write := write)))
  }

  function Record(s: State, h: Happening): State { s.(history := s.history + [h]) }

  function Published(s: State, tx: Tx): State
  {
    var t := s.(log := s.log + tx.entries);
    match tx.write
    case NoWrite => t
    case PutBudget(k, row) => t.(budgets := t.budgets[k := row])
    case PutHitl(id, row) => t.(hitls := t.hitls[id := row])
    case PutOther(name) => t.(others := t.others + {name})
  }

  function CommitTx(s: State, pid: nat, next: Pc): State
    requires pid in s.procs
  {
    var tx := s.procs[pid].tx;
    Record(Enter(Published(s, tx), pid, Proc(next, NO_TX)), Committed(pid, tx.entries))
  }

  function Refusal(d: PolicyDecision, remaining: Option<int>): PolicyDecision
  {
    d.(outcome := RequireApproval, risk := Max(d.risk, 90), reasons := d.reasons + ["Budget reservation failed"],
      remaining := remaining)
  }

  function Opened(env: Env, intent: Intent, now: int): Hitl
  {
    Hitl(intent.key, intent, Pending, None, None, now, now + env.timeout, None)
  }

  function Resolved(row: Hitl, approved: bool, comment: Option<string>, actor: string, now: int): Hitl
  {
    var status := if approved then Approved else Rejected;
    row.(status := status, reviewer := Some(actor), comment := comment, resolvedAt := Some(now))
  }

  function ExpiredAt(row: Hitl, now: int): Hitl { row.(status := Expired, resolvedAt := Some(now)) }

  function Refused(): PolicyDecision { Denied("Currency is required for financial intent") }

  /** One reservation against the cell; the grant is remembered in the history. */
  function TryReserve(s: State, pid: nat, row: Option<Budget>, k: BudgetKey, amount: int): (bool, Option<int>, State)
  {
    var r := Reserve(row, Cell(s, k), amount);
    var t := SetCell(s, k, r.cell);
    (r.granted, r.remaining, if r.granted then Record(t, Granted(pid, k, amount)) else t)
  }

  // The steps of `evaluate_or_wait` inside its transaction. `None` means blocked, or a choice that
  // does not apply.

  ghost function EvalStartStep(s: State, pid: nat, j: Job, c: Choice): Option<State>
    requires pid in s.procs
  {
    if c.early.Some? then Some(Go(s, pid, Appending(ForEvaluation(j, Denied(c.early.value), None))))
    else if j.intent.amount.None? then Some(Go(s, pid, EvalDecide(j, None, None)))
    else if j.intent.currency.None? then Some(Go(s, pid, Appending(ForEvaluation(j, Refused(), None))))
    else Some(Go(s, pid, EvalGet(j, Find(s.budgets, KeyOf(j.intent).value))))
  }

  ghost function EvalGetStep(s: State, pid: nat, j: Job, row: Option<Budget>, k: BudgetKey): Option<State>
    requires pid in s.procs
  {
    if !Usable(row) then Some(Go(s, pid, EvalDecide(j, row, None)))
    else if Cell(s, k).None? then Some(Go(s, pid, EvalSetNx(j, row)))
    else Some(Go(s, pid, EvalDecide(j, row, Cell(s, k))))
  }

  ghost function EvalSetNxStep(s: State, pid: nat, j: Job, row: Option<Budget>, k: BudgetKey): Option<State>
    requires pid in s.procs && row.Some?
  {
    Some(Go(if Cell(s, k).None? then SetCell(s, k, Some(Max(Room(row.value), 0))) else s, pid, EvalGetAgain(j, row)))
  }

  /** The key can be gone again by the second read; then there is no number to read. */
  ghost function EvalGetAgainStep(s: State, pid: nat, j: Job, row: Option<Budget>, k: BudgetKey): Option<State>
    requires pid in s.procs
  {
    if Cell(s, k).None? then Some(Abort(s, pid)) else Some(Go(s, pid, EvalDecide(j, row, Cell(s, k))))
  }

  ghost function EvalDecideStep(
      s: State, pid: nat, j: Job, row: Option<Budget>, remaining: Option<int>, c: Choice): Option<State>
    requires pid in s.procs
  {
    var d := Decide(c.base, c.results + BudgetResult(j.intent, remaining), remaining);
    Some(Go(s, pid, Appending(ForEvaluation(j, d, row))))
  }

  ghost function RouteStep(s: State, pid: nat, j: Job, d: PolicyDecision, row: Option<Budget>): Option<State>
    requires pid in s.procs
  {
    if d.outcome == Deny then Some(Go(s, pid, Committing(Answered(j, d))))
    else if d.outcome == RequireApproval then Some(Go(s, pid, HitlLookup(j, d)))
    else if KeyOf(j.intent).None? then Some(Go(s, pid, Committing(Answered(j, d))))
    else
      var (granted, remaining, t) := TryReserve(s, pid, row, KeyOf(j.intent).value, j.intent.amount.value);
      Some(Go(t, pid, Committing(Answered(j, if granted then d else Refusal(d, remaining)))))
  }

  ghost function HitlLookupStep(s: State, pid: nat, j: Job, d: PolicyDecision): Option<State>
    requires pid in s.procs
  {
    if KeyTaken(s, j.intent.key) then Some(Go(s, pid, Committing(Subscribe(j, HolderOf(s, j.intent.key)))))
    else Some(Go(s, pid, HitlInsert(j, d, s.clock)))
  }

  ghost function HitlInsertStep(
      env: Env, s: State, pid: nat, j: Job, d: PolicyDecision, now: int, c: Choice): Option<State>
    requires pid in s.procs
  {
    if HeldByOther(s, pid, HitlKey(j.intent.key)) || c.id in s.hitls then None
    else if KeyTaken(s, j.intent.key) then Some(Abort(s, pid))
    else Some(Hold(s, pid, HitlKey(j.intent.key), PutHitl(c.id, Opened(env, j.intent, now)),
      Appending(ForRequest(j, d, c.id))))
  }

  // The steps of the waiter, and of the call that answers for it.

  ghost function SubscribeStep(env: Env, s: State, pid: nat, j: Job, id: string): Option<State>
    requires pid in s.procs
  {
    Some(Go(Record(s, Waited(pid, id)), pid, Waiting(j, id, s.clock + env.timeout)))
  }

  ghost function WaitingStep(s: State, pid: nat, j: Job, id: string, deadline: int, c: Choice): Option<State>
    requires pid in s.procs
  {
    if deadline <= s.clock then Some(Go(s, pid, ExpireLock(j, id)))
    else if c.message && id !in s.published then None
    else Some(Go(s, pid, ReadStatus(j, id, deadline, c.message)))
  }

  ghost function ReadStatusStep(s: State, pid: nat, j: Job, id: string, deadline: int, onMessage: bool): Option<State>
    requires pid in s.procs
  {
    if id !in s.hitls then Some(Abort(s, pid))
    else if onMessage || Terminal(s.hitls[id].status) then Some(Go(s, pid, Resolving(j, id, s.hitls[id].status)))
    else Some(Go(s, pid, Waiting(j, id, deadline)))
  }

  function Approval(id: string): PolicyDecision { PolicyDecision(Allow, 0, ["HITL approval granted"], [], None,
      Some(id)) }

  ghost function ResolvingStep(s: State, pid: nat, j: Job, id: string, status: Status): Option<State>
    requires pid in s.procs
  {
    var t := Record(s, Heard(pid, id, status));
    if status != Approved then Some(Go(t, pid, Ended(AnsweredNo(id, status))))
    else if KeyOf(j.intent).None? then Some(Go(t, pid, Answered(j.(via := Some(id)), Approval(id))))
    else Some(Go(t, pid, ApprovedReserve(j, id, Find(s.budgets, KeyOf(j.intent).value))))
  }

  function LateRefusal(id: string, remaining: Option<int>): PolicyDecision
  {
    PolicyDecision(Deny, 100, ["Budget reservation failed after approval"], ["system-budget"], remaining, Some(id))
  }

  ghost function ApprovedReserveStep(
      s: State, pid: nat, j: Job, id: string, row: Option<Budget>, k: BudgetKey): Option<State>
    requires pid in s.procs && j.intent.amount.Some?
  {
    var (granted, remaining, t) := TryReserve(s, pid, row, k, j.intent.amount.value);
    Some(Go(t, pid, Answered(j.(via := Some(id)), if granted then Approval(id) else LateRefusal(id, remaining))))
  }

  ghost function ExpireLockStep(s: State, pid: nat, j: Job, id: string): Option<State>
    requires pid in s.procs
  {
    if id !in s.hitls then Some(Go(s, pid, Committing(Ended(TimedOut(id)))))
    else if HeldByOther(s, pid, HitlRow(id)) then None
    else Some(Hold(s, pid, HitlRow(id), NoWrite, ExpireWrite(j, id)))
  }

  ghost function ExpireWriteStep(s: State, pid: nat, j: Job, id: string): Option<State>
    requires pid in s.procs && id in s.hitls
  {
    if s.hitls[id].status != Pending then Some(Go(s, pid, Committing(Ended(TimedOut(id)))))
    else Some(WriteRow(s, pid, PutHitl(id, ExpiredAt(s.hitls[id], s.clock)), Appending(ForExpiry(j, id))))
  }

  // The steps of `execute` after its decision.

  ghost function AnsweredStep(s: State, pid: nat, j: Job, d: PolicyDecision): Option<State>
    requires pid in s.procs
  {
    if !j.execute then Some(Go(s, pid, Ended(Returned(d))))
    else if d.outcome == Deny then Some(Go(s, pid, Ended(DeniedByPolicy)))
    else if d.outcome != Allow then Some(Go(s, pid, Ended(NotApproved)))
    else Some(Go(s, pid, Operating(j)))
  }

  ghost function OperatingStep(s: State, pid: nat, j: Job, c: Choice): Option<State>
    requires pid in s.procs
  {
    var t := Record(s, Operated(pid, j, c.failure.Some?));
    if c.failure.Some? then Some(Go(t, pid, FailRead(j, c.failure.value.0, c.failure.value.1)))
    else Some(Go(t, pid, CommitLock(j)))
  }

  ghost function CommitLockStep(s: State, pid: nat, j: Job): Option<State>
    requires pid in s.procs
  {
    if KeyOf(j.intent).None? then Some(Go(s, pid, Appending(ForCompletion(j))))
    else
      var k := KeyOf(j.intent).value;
      if k !in s.budgets then Some(Abort(s, pid))
      else if HeldByOther(s, pid, BudgetSlot(k)) then None
      else Some(Hold(s, pid, BudgetSlot(k), NoWrite, CommitCharge(j)))
  }

  ghost function CommitChargeStep(s: State, pid: nat, j: Job, k: BudgetKey): Option<State>
    requires pid in s.procs && j.intent.amount.Some?
  {
    match Commit(Find(s.budgets, k), j.intent.amount.value)
    case Err(_) => Some(Abort(s, pid))
    case Ok(row) => Some(WriteRow(s, pid, PutBudget(k, row), ResetCell(k, Room(row), ForCompletion(j))))
  }

  ghost function FailReadStep(s: State, pid: nat, j: Job, errorType: string, error: string): Option<State>
    requires pid in s.procs
  {
    if KeyOf(j.intent).None? then Some(Go(s, pid, Appending(ForFailure(j, errorType, error))))
    else Some(Go(s, pid, FailRelease(j, Find(s.budgets, KeyOf(j.intent).value), errorType, error)))
  }

  ghost function FailReleaseStep(
      s: State, pid: nat, j: Job, row: Option<Budget>, errorType: string, error: string, k: BudgetKey): Option<State>
    requires pid in s.procs && j.intent.amount.Some?
  {
    Some(Go(SetCell(s, k, Release(row, Cell(s, k), j.intent.amount.value)), pid,
      Appending(ForFailure(j, errorType, error))))
  }

  // The steps of the API calls that write budgets, approvals, agents and policies.

  ghost function UpsertLockStep(s: State, pid: nat, k: BudgetKey, limit: int, actor: string): Option<State>
    requires pid in s.procs
  {
    if k !in s.budgets then Some(Go(s, pid, UpsertInsert(k, limit, actor)))
    else if HeldByOther(s, pid, BudgetSlot(k)) then None
    else Some(Hold(s, pid, BudgetSlot(k), NoWrite, UpsertWrite(k, limit, actor)))
  }

  ghost function UpsertInsertStep(s: State, pid: nat, k: BudgetKey, limit: int, actor: string): Option<State>
    requires pid in s.procs
  {
    if HeldByOther(s, pid, BudgetSlot(k)) then None
    else if k in s.budgets then Some(Abort(s, pid))
    else
      var row := Upsert(None, limit).value;
      Some(Hold(s, pid, BudgetSlot(k), PutBudget(k, row), ResetCell(k, Room(row), ForLimit(k, limit, actor))))
  }

  ghost function UpsertWriteStep(s: State, pid: nat, k: BudgetKey, limit: int, actor: string): Option<State>
    requires pid in s.procs
  {
    match Upsert(Find(s.budgets, k), limit)
    case None => Some(Abort(s, pid))
    case Some(row) => Some(WriteRow(s, pid, PutBudget(k, row), ResetCell(k, Room(row), ForLimit(k, limit, actor))))
  }

  ghost function ResolveLockStep(
      s: State, pid: nat, id: string, approved: bool, comment: Option<string>, actor: string, now: int): Option<State>
    requires pid in s.procs
  {
    if id !in s.hitls then Some(Abort(s, pid))
    else if HeldByOther(s, pid, HitlRow(id)) then None
    else Some(Hold(s, pid, HitlRow(id), NoWrite, ResolveWrite(id, approved, comment, actor, now)))
  }

  /** A late resolution marks the row expired and then raises, so the mark is never committed. */
  ghost function ResolveWriteStep(
      s: State, pid: nat, id: string, approved: bool, comment: Option<string>, actor: string, now: int): Option<State>
    requires pid in s.procs && id in s.hitls
  {
    if s.hitls[id].status != Pending then Some(Abort(s, pid))
    else if s.hitls[id].expiresAt <= now then
      Some(WriteRow(s, pid, PutHitl(id, ExpiredAt(s.hitls[id], now)), RaiseConflict))
    else
      Some(WriteRow(s, pid, PutHitl(id, Resolved(s.hitls[id], approved, comment, actor, now)),
        Appending(ForResolution(id, approved, comment, actor))))
  }

  ghost function AdminInsertStep(s: State, pid: nat, name: string, event: Event, actor: string): Option<State>
    requires pid in s.procs
  {
    if HeldByOther(s, pid, OtherKey(name)) then None
    else if name in s.others then Some(Abort(s, pid))
    else Some(Hold(s, pid, OtherKey(name), PutOther(name), Appending(ForAdmin(name, event, actor))))
  }

  // The steps every transaction takes: the cell reset, the two halves of an append, the commit.

  ghost function ResetCellStep(s: State, pid: nat, k: BudgetKey, v: int, w: Purpose): Option<State>
    requires pid in s.procs
  {
    if v < 0 then Some(Abort(s, pid)) else Some(Go(SetCell(s, k, Some(v)), pid, Appending(w)))
  }

  /** `append` reads the head of the log and builds the record ... */
  ghost function AppendingStep(env: Env, s: State, pid: nat, w: Purpose): Option<State>
    requires pid in s.procs
  {
    if !ValidName(ActorFor(w)) || !ValidName(EventType(EventFor(w))) then Some(Abort(s, pid))
    else
      var log := s.log + s.procs[pid].tx.entries;
      Some(Go(s, pid, Inserting(w,
        Seal(env.crypto, log, EventType(EventFor(w)), ActorFor(w), EventPayload(EventFor(w)), s.clock))))
  }

  /** ... and inserts it later, when the sequence number may be pending elsewhere or already taken. */
  ghost function InsertingStep(s: State, pid: nat, w: Purpose, record: AuditLog): Option<State>
    requires pid in s.procs
  {
    var tx := s.procs[pid].tx;
    if PendingByOther(s, pid, record.sequence) then None
    else if Duplicate(s.log, record) then Some(Abort(s, pid))
    else Some(Enter(s, pid, Proc(After(w), tx.(entries := tx.entries + [record]))))
  }

  /** The next step of a program; `None` when it is blocked, has ended, or the choice does not apply. */
  ghost function Advance(env: Env, s: State, pid: nat, c: Choice): Option<State>
  {
    if pid !in s.procs then None
    else
      match s.procs[pid].pc
      case EvalStart(j) => EvalStartStep(s, pid, j, c)
      case EvalGet(j, row) => if KeyOf(j.intent).None? then None else EvalGetStep(s, pid, j, row, KeyOf(j.intent).value)
      case EvalSetNx(j, row) =>
        if KeyOf(j.intent).None? || row.None? then None else EvalSetNxStep(s, pid, j, row, KeyOf(j.intent).value)
      case EvalGetAgain(j, row) =>
        if KeyOf(j.intent).None? then None else EvalGetAgainStep(s, pid, j, row, KeyOf(j.intent).value)
      case EvalDecide(j, row, remaining) => EvalDecideStep(s, pid, j, row, remaining, c)
      case Route(j, d, row) => RouteStep(s, pid, j, d, row)
      case HitlLookup(j, d) => HitlLookupStep(s, pid, j, d)
      case HitlInsert(j, d, now) => HitlInsertStep(env, s, pid, j, d, now, c)
      case Subscribe(j, id) => SubscribeStep(env, s, pid, j, id)
      case Waiting(j, id, deadline) => WaitingStep(s, pid, j, id, deadline, c)
      case ReadStatus(j, id, deadline, onMessage) => ReadStatusStep(s, pid, j, id, deadline, onMessage)
      case Resolving(j, id, status) => ResolvingStep(s, pid, j, id, status)
      case ApprovedReserve(j, id, row) =>
        if KeyOf(j.intent).None? then None else ApprovedReserveStep(s, pid, j, id, row, KeyOf(j.intent).value)
      case ExpireLock(j, id) => ExpireLockStep(s, pid, j, id)
      case ExpireWrite(j, id) => if id !in s.hitls then None else ExpireWriteStep(s, pid, j, id)
      case Answered(j, d) => AnsweredStep(s, pid, j, d)
      case Operating(j) => OperatingStep(s, pid, j, c)
      case CommitLock(j) => CommitLockStep(s, pid, j)
      case CommitCharge(j) => if KeyOf(j.intent).None? then None else CommitChargeStep(s, pid, j, KeyOf(j.intent).value)
      case FailRead(j, errorType, error) => FailReadStep(s, pid, j, errorType, error)
      case FailRelease(j, row, errorType, error) =>
        if KeyOf(j.intent).None? then None else FailReleaseStep(s, pid, j, row, errorType, error, KeyOf(j.intent).value)
      case UpsertLock(k, limit, actor) => UpsertLockStep(s, pid, k, limit, actor)
      case UpsertInsert(k, limit, actor) => UpsertInsertStep(s, pid, k, limit, actor)
      case UpsertWrite(k, limit, actor) => UpsertWriteStep(s, pid, k, limit, actor)
      case ResolveLock(id, approved, comment, actor, now) => ResolveLockStep(s, pid, id, approved, comment, actor, now)
      case ResolveWrite(id, approved, comment, actor, now) =>
        if id !in s.hitls then Some(Abort(s, pid)) else ResolveWriteStep(s, pid, id, approved, comment, actor, now)
      case RaiseConflict => Some(Abort(s, pid))
      case Publish(id) => Some(Go(s.(published := s.published + {id}), pid, Ended(Finished)))
      case AdminInsert(name, event, actor) => AdminInsertStep(s, pid, name, event, actor)
      case ResetCell(k, v, w) => ResetCellStep(s, pid, k, v, w)
      case Appending(w) => AppendingStep(env, s, pid, w)
      case Inserting(w, record) => InsertingStep(s, pid, w, record)
      case Committing(next) => Some(CommitTx(s, pid, next))
      case Ended(_) => None
  }

  // ---------------------------------------------------------------------------------------------
  // Runs.
  // ---------------------------------------------------------------------------------------------

  datatype Action =
    | Spawn(pid: nat, pc: Pc)
    | Step(pid: nat, choice: Choice)
    | Crash(pid: nat)                             // cancellation or a lost connection, at any point
    | Tick(now: int)
    | Havoc(k: BudgetKey, v: Option<int>)         // anything else that happens to a Redis key

  /** Calls as request validation lets them in. */
  predicate Admissible(s: State, pc: Pc)
  {
    match pc
    case EvalStart(j) => ValidIntent(j.intent) && j.via.None?
    case UpsertLock(_, limit, _) => limit > 0
    case ResolveLock(_, _, _, _, now) => now == s.clock
    case AdminInsert(_, event, _) => AdminEvent(event)
    case _ => false
  }

  ghost function Do(env: Env, s: State, a: Action): Option<State>
  {
    match a
    case Spawn(pid, pc) => if pid in s.procs || !Admissible(s, pc) then None else Some(Enter(s, pid, Proc(pc, NO_TX)))
    case Step(pid, c) => Advance(env, s, pid, c)
    case Crash(pid) => if pid !in s.procs || s.procs[pid].pc.Ended? then None else Some(Abort(s, pid))
    case Tick(now) => if now < s.clock then None else Some(s.(clock := now))
    case Havoc(k, v) => Some(SetCell(s, k, v))
  }

  /** The state a sequence of actions leads to, when each is possible where it stands. */
  ghost function Run(env: Env, actions: seq<Action>): Option<State>
  {
    if actions == [] then Some(Init())
    else
      match Run(env, actions[..|actions| - 1])
      case None => None
      case Some(s) => Do(env, s, actions[|actions| - 1])
  }

  ghost predicate Reaches(env: Env, actions: seq<Action>, s: State) { Run(env, actions) == Some(s) }
}
