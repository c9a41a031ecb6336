/**
 The interceptor as it runs when calls do not overlap. What reviewers do during a wait, the passing
 of time and the expiry of Redis keys stay open.
 */
module Interceptor {
  import opened Wrappers
  import opened Schemas
  import opened Governor
  import opened PolicyRules
  import opened AuditChain
  import opened Events
  import opened Replay
  import opened Protocol
  import opened ProtocolInvariant
  import opened Services
  import opened Engine
  import opened ApiRouter

  /** The exceptions that end a call. */
  datatype Failure =
    | EvaluationFailed(e: EngineError)
    | AppendFailed
    | ReserveFailed(g: GovernorError)
    | CommitFailed(g: GovernorError)
    | RowGone
    | ApprovalTimeout
    | ApprovalExpired
    | ApprovalDenied
    | DecidedAgainst
    | Unapproved
    | OperationFailed(kind: string, text: string)

  /** One second, in the clock's microseconds. */
  const SECOND := 1_000_000

  class Subscription {
    const id: string
    /** Redis has not yet been heard to confirm the subscription. */
    var confirmation: bool

    constructor (id: string)
      ensures this.id == id && confirmation
    {
      this.id, confirmation := id, true;
    }
  }

  // ---------------------------------------------------------------------------------------------
  // Cells and the one reservation a run can hold.
  // ---------------------------------------------------------------------------------------------

  predicate CoherentExcept(budgets: map<BudgetKey, Budget>, cells: map<BudgetKey, int>, k: BudgetKey)
  {
    forall c | c in cells && c != k :: c in budgets && cells[c] == Room(budgets[c])
  }

  /** The run's amount, if it has one, is set aside and the ledger can honour it. */
  predicate Holding(budgets: map<BudgetKey, Budget>, cells: map<BudgetKey, int>, intent: Intent)
  {
    match KeyOf(intent)
    case None => Coherent(budgets, cells)
    case Some(k) =>
      && CoherentExcept(budgets, cells, k)
      && k in budgets && budgets[k].active && 0 < intent.amount.value <= Room(budgets[k])
      && (k in cells ==> cells[k] == Room(budgets[k]) - intent.amount.value)
  }

  lemma BudgetObjects(results: seq<RuleResult>, intent: Intent, figure: Option<int>)
    requires intent.amount.Some?
    ensures figure.None? || intent.amount.value > figure.value ==>
      OutcomeOf(results + BudgetResult(intent, figure)) != Allow
  {
    var b := BudgetResult(intent, figure);
    if b != [] {
      assert b[0] in results + b;
    }
  }

  /** When the cells are coherent, an intent the engine allows gets its reservation. */
  lemma AllowedIsGranted(
      lib: Library, agent: Option<Agent>, policies: seq<Policy>, intent: Intent, row: Option<Budget>,
      before: Option<int>, after: Option<int>, figure: Option<int>, d: PolicyDecision)
    requires KeyOf(intent).Some? && intent.amount.value > 0
    requires row.Some? ==> Sane(row.value)
    requires before.Some? ==> row.Some? && before.value == Room(row.value)
    requires FigureFrom(row, before, figure) && Inspected(row, before, after)
    requires Evaluate(lib, agent, policies, intent, figure) == Ok(d) && d.outcome == Allow
    ensures Usable(row) && intent.amount.value <= Room(row.value)
    ensures var r := Reserve(row, after, intent.amount.value);
      r.granted && r.cell == Some(Room(row.value) - intent.amount.value)
  {
    hide AllResults, OutcomeOf;
    BudgetObjects(AllResults(lib, policies, agent.value, intent, |policies|).value, intent, figure);
  }

  /** With coherent cells the budget stands in the way of an intent exactly when the ledger cannot honour it. */
  lemma BudgetSilentIff(intent: Intent, row: Option<Budget>, before: Option<int>, figure: Option<int>)
    requires KeyOf(intent).Some? && (row.Some? ==> Sane(row.value))
    requires before.Some? ==> row.Some? && before.value == Room(row.value)
    requires FigureFrom(row, before, figure)
    ensures BudgetResult(intent, figure) == [] <==> Usable(row) && intent.amount.value <= Room(row.value)
  {
  }

  /** The ledger after a completed execution. */
  ghost predicate Charged(before: map<BudgetKey, Budget>, after: map<BudgetKey, Budget>, intent: Intent)
  {
    match KeyOf(intent)
    case None => after == before
    case Some(k) =>
      var c := Commit(Find(before, k), intent.amount.value);
      c.Ok? && after == before[k := c.value]
  }

  /** A reservation that is held can be charged, and the reset cell then agrees with the ledger. */
  lemma CommitRestores(
      before: map<BudgetKey, Budget>, held: map<BudgetKey, int>, after: map<BudgetKey, Budget>,
      cells: map<BudgetKey, int>, intent: Intent)
    requires Holding(before, held, intent)
    ensures KeyOf(intent).Some? ==> Commit(Find(before, KeyOf(intent).value), intent.amount.value).Ok?
    ensures Charged(before, after, intent)
      && cells == (
        if KeyOf(intent).None? then held
        else held[KeyOf(intent).value := Room(Commit(Find(before, KeyOf(intent).value), intent.amount.value).value)])
      ==> Coherent(after, cells)
  {
  }

  /** Two states of the cells that differ at one key at most. */
  predicate SameElsewhere(before: map<BudgetKey, int>, after: map<BudgetKey, int>, k: Option<BudgetKey>)
  {
    if k.None? then after == before else after - {k.value} == before - {k.value}
  }

  lemma ElsewhereSame(before: map<BudgetKey, int>, after: map<BudgetKey, int>, k: Option<BudgetKey>, c: BudgetKey)
    requires SameElsewhere(before, after, k) && k != Some(c)
    ensures Find(after, c) == Find(before, c)
  {
    if k.Some? {
      assert c in after <==> c in after - {k.value};
      assert c in before <==> c in before - {k.value};
      assert c in after ==> (after - {k.value})[c] == after[c];
    }
  }

  lemma ReleaseRestores(
      budgets: map<BudgetKey, Budget>, held: map<BudgetKey, int>, cells: map<BudgetKey, int>, intent: Intent)
    requires Holding(budgets, held, intent) && SameElsewhere(held, cells, KeyOf(intent))
    requires KeyOf(intent).Some? ==>
      Find(cells, KeyOf(intent).value) ==
        Release(Find(budgets, KeyOf(intent).value), Find(held, KeyOf(intent).value), intent.amount.value)
    ensures Coherent(budgets, cells)
  {
    if KeyOf(intent).Some? {
      var k := KeyOf(intent).value;
      forall c | c in cells && c != k ensures c in budgets && cells[c] == Room(budgets[c]) {
        ElsewhereSame(held, cells, Some(k), c);
      }
    }
  }

  /** An approval is honoured by its reservation, or refused with it; no other cell is touched. */
  ghost predicate Honoured(
      budgets: map<BudgetKey, Budget>, before: map<BudgetKey, int>, after: map<BudgetKey, int>, intent: Intent,
      id: string, r: PolicyDecision)
  {
    && SameElsewhere(before, after, KeyOf(intent))
    && match KeyOf(intent)
       case None => r == Approval(id)
       case Some(k) =>
         var s := Reserve(Find(budgets, k), Find(before, k), intent.amount.value);
         && intent.amount.value > 0 && r == (if s.granted then Approval(id) else LateRefusal(id, s.remaining))
         && Find(after, k) == s.cell
  }

  predicate GrantedAfterApproval(id: string, r: PolicyDecision)
  {
    r == PolicyDecision(Allow, 0, ["HITL approval granted"], [], None, Some(id))
  }

  predicate RefusedAfterApproval(id: string, r: PolicyDecision)
  {
    && r.outcome == Deny && r.risk == 100 && r.reasons == ["Budget reservation failed after approval"]
    && r.policyIds == ["system-budget"] && r.hitlId == Some(id)
  }

  lemma HonouredMeans(
      budgets: map<BudgetKey, Budget>, before: map<BudgetKey, int>, after: map<BudgetKey, int>, intent: Intent,
      id: string, r: PolicyDecision)
    requires Honoured(budgets, before, after, intent, id, r)
    ensures GrantedAfterApproval(id, r) || RefusedAfterApproval(id, r)
    ensures KeyOf(intent).None? ==> GrantedAfterApproval(id, r)
  {
    hide Reserve, SameElsewhere;
  }

  lemma DecidedKey(before: map<string, Hitl>, after: map<string, Hitl>, id: string)
    requires Decided(before, after)
    ensures id in before ==> id in after && after[id].key == before[id].key
  {
    assert id in after.Keys <==> id in before.Keys;
  }

  /** The ledger can honour the intent's amount, if it has one. */
  predicate Affordable(budgets: map<BudgetKey, Budget>, intent: Intent)
  {
    match KeyOf(intent)
    case None => true
    case Some(k) => k in budgets && budgets[k].active && intent.amount.value <= Room(budgets[k])
  }

  lemma AnswerHolds(
      budgets: map<BudgetKey, Budget>, before: map<BudgetKey, int>, after: map<BudgetKey, int>, intent: Intent,
      id: string, r: Result<PolicyDecision, Failure>)
    requires Coherent(budgets, before) && (forall k | k in budgets :: Sane(budgets[k])) && ValidIntent(intent)
    requires r.Err? ==> after == before
    requires r.Ok? ==> Honoured(budgets, before, after, intent, id, r.value)
    ensures r.Ok? && r.value.outcome == Allow ==> Holding(budgets, after, intent)
    ensures !(r.Ok? && r.value.outcome == Allow) ==> Coherent(budgets, after)
    ensures r.Ok? ==> r.value.outcome != RequireApproval && (r.value.outcome == Allow <==> Affordable(budgets, intent))
  {
    if r.Ok? && KeyOf(intent).Some? {
      var k := KeyOf(intent).value;
      forall c | c in after && c != k ensures c in budgets && after[c] == Room(budgets[c]) {
        ElsewhereSame(before, after, Some(k), c);
      }
    }
  }

  // ---------------------------------------------------------------------------------------------
  // The steps of the first transaction, on values.
  // ---------------------------------------------------------------------------------------------

  /** The engine's decision on some budget figure. */
  ghost predicate Said(lib: Library, agent: Option<Agent>, policies: seq<Policy>, intent: Intent, d: PolicyDecision)
  {
    exists figure :: Evaluate(lib, agent, policies, intent, figure) == Ok(d)
  }

  /** The engine raised, on some budget figure. */
  ghost predicate SaidNothing(
      lib: Library, agent: Option<Agent>, policies: seq<Policy>, budgets: map<BudgetKey, Budget>,
      cells: map<BudgetKey, int>, intent: Intent, e: EngineError)
  {
    match e
    case RuleRaised(err) => exists figure :: Evaluate(lib, agent, policies, intent, figure) == Err(err)
    case NoFigure(g) =>
      && g == LostCell && KeyOf(intent).Some?
      && Usable(Find(budgets, KeyOf(intent).value)) && KeyOf(intent).value !in cells
  }

  /** Why the first transaction can raise: the engine did, a name is refused, or the amount is not positive. */
  ghost predicate Excuse(
      lib: Library, agent: Option<Agent>, policies: seq<Policy>, budgets: map<BudgetKey, Budget>,
      cells: map<BudgetKey, int>, intent: Intent, actor: string, f: Failure)
  {
    match f
    case EvaluationFailed(e) => SaidNothing(lib, agent, policies, budgets, cells, intent, e)
    case AppendFailed => !ValidName(actor) || !ValidName(intent.agent)
    case ReserveFailed(g) => g == NonPositiveAmount && !ValidIntent(intent)
    case _ => false
  }

  lemma ExcusedByName(
      lib: Library, agent: Option<Agent>, policies: seq<Policy>, budgets: map<BudgetKey, Budget>,
      cells: map<BudgetKey, int>, intent: Intent, actor: string)
    requires !ValidName(actor) || !ValidName(intent.agent)
    ensures Excuse(lib, agent, policies, budgets, cells, intent, actor, AppendFailed)
  {
  }

  lemma ExcusedByAmount(
      lib: Library, agent: Option<Agent>, policies: seq<Policy>, budgets: map<BudgetKey, Budget>,
      cells: map<BudgetKey, int>, intent: Intent, actor: string)
    requires !ValidIntent(intent)
    ensures Excuse(lib, agent, policies, budgets, cells, intent, actor, ReserveFailed(NonPositiveAmount))
  {
  }

  /** A cell that is gone stays an excuse when more of them expire. */
  lemma ExcuseLasts(
      lib: Library, agent: Option<Agent>, policies: seq<Policy>, budgets: map<BudgetKey, Budget>,
      cells: map<BudgetKey, int>, fewer: map<BudgetKey, int>, intent: Intent, actor: string, f: Failure)
    requires Excuse(lib, agent, policies, budgets, cells, intent, actor, f) && fewer.Keys <= cells.Keys
    ensures Excuse(lib, agent, policies, budgets, fewer, intent, actor, f)
  {
  }

  /** `r` is the decision `d`, sent to a reviewer because its reservation was refused. */
  predicate RefusalOf(d: PolicyDecision, r: PolicyDecision)
  {
    && r.outcome == RequireApproval && r.risk == Max(d.risk, 90)
    && r.reasons == d.reasons + ["Budget reservation failed"] && r.policyIds == d.policyIds && r.hitlId == d.hitlId
  }

  /** One wait: for which row, when the deadline was set, and when the clock was first held against it. */
  datatype Wait = Wait(id: string, started: int, first: int)

  /** The deadline had passed before anything was read. */
  predicate TooSlow(w: Wait, timeout: nat) { w.started + timeout <= w.first }

  /** The answer that the status of the row calls for. */
  predicate AnswerIs(
      intent: Intent, w: Wait, timeout: nat, before: map<string, Hitl>, after: map<string, Hitl>,
      r: Result<PolicyDecision, Failure>)
  {
    && w.id in after && after[w.id].key == intent.key
    && if TooSlow(w, timeout) then r == Err(ApprovalTimeout)
       else
         match after[w.id].status
         case Approved =>
           && r.Ok? && (GrantedAfterApproval(w.id, r.value) || RefusedAfterApproval(w.id, r.value))
           && (KeyOf(intent).None? ==> GrantedAfterApproval(w.id, r.value))
         case Rejected => r == Err(ApprovalDenied)
         case Expired =>
           r == Err(if w.id in before && before[w.id].status == Expired then ApprovalExpired else ApprovalTimeout)
         case Pending => false
         case Cancelled => false
  }

  /** What `evaluate_or_wait` answers once the engine has spoken. */
  predicate Answers(
      intent: Intent, said: PolicyDecision, wait: Option<Wait>, timeout: nat, before: map<string, Hitl>,
      after: map<string, Hitl>, r: Result<PolicyDecision, Failure>)
  {
    match wait
    case Some(w) => said.outcome == RequireApproval && AnswerIs(intent, w, timeout, before, after, r)
    case None =>
      r.Ok? ==>
        && said.outcome != RequireApproval
        && (r.value == said || (said.outcome == Allow && KeyOf(intent).Some? && RefusalOf(said, r.value)))
  }

  /** Only a decision that asks for approval points to a row. */
  lemma SaidHasNoRow(lib: Library, agent: Option<Agent>, policies: seq<Policy>, intent: Intent, d: PolicyDecision)
    requires Said(lib, agent, policies, intent, d)
    ensures d.hitlId.None? && forall r :: RefusalOf(d, r) ==> r.hitlId.None?
  {
    hide AllResults, OutcomeOf, MaxRisk, SortedIds, Reasons;
  }

  /** The wait's answer, from what it found: the row was there before, or has just been opened. */
  lemma AwaitedAnswer(
      intent: Intent, w: Wait, timeout: nat, before: map<string, Hitl>, rows: map<string, Hitl>,
      after: map<string, Hitl>, r: Result<PolicyDecision, Failure>)
    requires w.id in rows && rows[w.id].key == intent.key && Decided(rows, after)
    requires if w.id in before then rows == before else rows[w.id].status == Pending
    requires r != Err(ReserveFailed(NonPositiveAmount)) && r != Err(AppendFailed)
    requires TooSlow(w, timeout) ==> r == Err(ApprovalTimeout)
    requires !TooSlow(w, timeout) && w.id in after ==>
      match after[w.id].status
      case Approved => r.Ok? || r == Err(ReserveFailed(NonPositiveAmount))
      case Rejected => r == Err(ApprovalDenied)
      case Expired => r == Err(if rows[w.id].status == Expired then ApprovalExpired else ApprovalTimeout)
      case Pending => r == Err(AppendFailed)
      case Cancelled => false
    requires r.Ok? ==> GrantedAfterApproval(w.id, r.value) || RefusedAfterApproval(w.id, r.value)
    requires r.Ok? && KeyOf(intent).None? ==> GrantedAfterApproval(w.id, r.value)
    ensures AnswerIs(intent, w, timeout, before, after, r)
  {
    assert w.id in after.Keys;
  }

  /** The times of a wait, between two readings of the clock. */
  predicate InOrder(wait: Option<Wait>, from: int, to: int, timeout: nat, r: Result<PolicyDecision, Failure>)
  {
    wait.Some? ==>
      && from <= wait.value.started <= wait.value.first <= to
      && (r == Err(ApprovalTimeout) ==> wait.value.started + timeout <= to)
  }

  lemma OrderLasts(
      wait: Option<Wait>, from: int, to: int, later: int, timeout: nat, r: Result<PolicyDecision, Failure>)
    requires InOrder(wait, from, to, timeout, r) && to <= later
    ensures InOrder(wait, from, later, timeout, r)
  {
  }

  /** A row as it is created: open, undated, and due exactly the timeout after its creation. */
  predicate JustOpened(row: Hitl, intent: Intent, from: int, to: int, timeout: nat)
  {
    && row.key == intent.key && row.intent == intent && row.status == Pending
    && row.reviewer.None? && row.comment.None? && row.resolvedAt.None?
    && from <= row.createdAt <= to && row.expiresAt == row.createdAt + timeout
  }

  lemma Unopened(row: Hitl, intent: Intent, from: int, to: int, timeout: nat)
    requires JustOpened(row, intent, from, to, timeout)
    ensures row.status == Pending
  {
  }

  lemma OpenedSince(row: Hitl, intent: Intent, earlier: int, from: int, to: int, timeout: nat)
    requires JustOpened(row, intent, from, to, timeout) && earlier <= from
    ensures JustOpened(row, intent, earlier, to, timeout)
  {
  }

  /** What reviewers do: they decide, and what they decide is a yes or a no. */
  predicate OnlyReviewed(before: map<string, Hitl>, after: map<string, Hitl>)
  {
    && after.Keys == before.Keys
    && forall id | id in before :: after[id] == before[id] || after[id].status in {Approved, Rejected}
  }

  lemma ReviewedRow(before: map<string, Hitl>, after: map<string, Hitl>, id: string)
    requires OnlyReviewed(before, after) && id in before
    ensures id in after && (after[id] == before[id] || after[id].status in {Approved, Rejected})
  {
    assert id in after.Keys;
  }

  lemma SaidIt(
      lib: Library, agent: Option<Agent>, policies: seq<Policy>, intent: Intent, figure: Option<int>, d: PolicyDecision)
    requires Evaluate(lib, agent, policies, intent, figure) == Ok(d)
    ensures Said(lib, agent, policies, intent, d)
  {
  }

  lemma ExpiryInspected(row: Option<Budget>, before: Option<int>)
    ensures Inspected(row, before, None)
  {
  }

  lemma SealIsEvaluated(c: Crypto, log: seq<AuditLog>, intent: Intent, d: PolicyDecision, actor: string, now: int)
    ensures IsEvaluated(Seal(c, log, EventType(Evaluated(intent, d)), actor, EventPayload(Evaluated(intent, d)), now),
      intent, d)
  {
    EventReadsBack(Evaluated(intent, d));
  }

  lemma EvaluationKeepsCells(
      budgets: map<BudgetKey, Budget>, before: map<BudgetKey, int>, after: map<BudgetKey, int>, intent: Intent)
    requires Coherent(budgets, before) && forall k | k in budgets :: Sane(budgets[k])
    requires SameElsewhere(before, after, KeyOf(intent))
    requires KeyOf(intent).Some? ==>
      Inspected(Find(budgets, KeyOf(intent).value), Find(before, KeyOf(intent).value), Find(after, KeyOf(intent).value))
    ensures Coherent(budgets, after)
  {
    forall c | c in after ensures c in budgets && after[c] == Room(budgets[c]) {
      if KeyOf(intent) != Some(c) {
        ElsewhereSame(before, after, KeyOf(intent), c);
      }
    }
  }

  /** An allow with its reservation, or the refusal of it; no other cell is touched. */
  ghost predicate ReservedFor(
      row: Option<Budget>, before: map<BudgetKey, int>, after: map<BudgetKey, int>, intent: Intent,
      d: PolicyDecision, r: Result<PolicyDecision, Failure>)
  {
    && SameElsewhere(before, after, KeyOf(intent))
    && match KeyOf(intent)
       case None => r == Ok(d)
       case Some(k) =>
         var s := Reserve(row, Find(before, k), intent.amount.value);
         if intent.amount.value <= 0 then r == Err(ReserveFailed(NonPositiveAmount))
         else r == Ok(if s.granted then d else Refusal(d, s.remaining)) && Find(after, k) == s.cell
  }

  lemma GrantHolds(
      lib: Library, agent: Option<Agent>, policies: seq<Policy>, intent: Intent, figure: Option<int>, d: PolicyDecision,
      budgets: map<BudgetKey, Budget>, row: Option<Budget>, before: map<BudgetKey, int>, mid: map<BudgetKey, int>,
      after: map<BudgetKey, int>, r: Result<PolicyDecision, Failure>)
    requires Coherent(budgets, before) && Coherent(budgets, mid) && (forall k | k in budgets :: Sane(budgets[k]))
      && ValidIntent(intent)
    requires Evaluate(lib, agent, policies, intent, figure) == Ok(d) && d.outcome == Allow
    requires ReservedFor(row, mid, after, intent, d, r)
    requires KeyOf(intent).Some? ==>
      var k := KeyOf(intent).value;
      && row == Find(budgets, k)
      && FigureFrom(Find(budgets, k), Find(before, k), figure)
      && Inspected(Find(budgets, k), Find(before, k), Find(mid, k))
    ensures r == Ok(d)
    ensures Holding(budgets, after, intent)
  {
    hide Evaluate, FigureFrom, Inspected, Reserve;
    if KeyOf(intent).Some? {
      var k := KeyOf(intent).value;
      AllowedIsGranted(lib, agent, policies, intent, Find(budgets, k), Find(before, k), Find(mid, k), figure, d);
      forall c | c in after && c != k ensures c in budgets && after[c] == Room(budgets[c]) {
        ElsewhereSame(mid, after, Some(k), c);
      }
    }
  }

  // ---------------------------------------------------------------------------------------------
  // The rows, and what is decided about them meanwhile.
  // ---------------------------------------------------------------------------------------------

  lemma RowOpens(env: Env, rows: map<string, Hitl>, now: int, id: string, intent: Intent)
    requires RowsOk(env, rows, now) && id !in rows && forall a | a in rows :: rows[a].key != intent.key
    ensures RowsOk(env, rows[id := Opened(env, intent, now)], now)
  {
    assert RowOk(env, now, Opened(env, intent, now));
    RowChanged(env, rows, now, id, Opened(env, intent, now));
  }

  lemma AnnouncedRow(published: set<string>, rows: map<string, Hitl>, id: string)
    requires Announced(published, rows)
    ensures id in published ==> id in rows && Terminal(rows[id].status)
  {
  }

  lemma RowIs(env: Env, rows: map<string, Hitl>, now: int, id: string)
    requires RowsOk(env, rows, now)
    ensures id in rows ==> rows[id].status != Cancelled && rows[id].expiresAt <= now + env.timeout
  {
    assert id in rows ==> RowOk(env, now, rows[id]);
  }

  lemma RowExpires(env: Env, rows: map<string, Hitl>, now: int, id: string)
    requires RowsOk(env, rows, now) && id in rows && rows[id].status == Pending && rows[id].expiresAt <= now
    ensures var after := rows[id := ExpiredAt(rows[id], now)]; RowsOk(env, after, now) && Decided(rows, after)
  {
    assert RowOk(env, now, rows[id]);
    RowChanged(env, rows, now, id, ExpiredAt(rows[id], now));
  }

  lemma DecidedRow(before: map<string, Hitl>, after: map<string, Hitl>, id: string)
    requires Decided(before, after)
    ensures id in after <==> id in before
    ensures id in after ==> after[id].expiresAt == before[id].expiresAt
    ensures id in after && before[id].status != Pending ==> after[id] == before[id]
  {
    assert id in after.Keys <==> id in before.Keys;
  }

  lemma DecidedTwice(before: map<string, Hitl>, mid: map<string, Hitl>, after: map<string, Hitl>)
    requires Decided(before, mid) && Decided(mid, after)
    ensures Decided(before, after)
  {
    forall id | id in before
      ensures id in after && after[id].key == before[id].key && after[id].expiresAt == before[id].expiresAt
      ensures before[id].status != Pending ==> after[id] == before[id]
    {
      assert id in mid.Keys;
    }
  }

  lemma DecidedByNobody(rows: map<string, Hitl>)
    ensures Decided(rows, rows)
  {
  }

  lemma DecidedByOne(
      before: map<string, Hitl>, after: map<string, Hitl>, id: string, approved: bool,
      comment: Option<string>, actor: string, now: int)
    requires after == before
      || (id in before && before[id].status == Pending
          && after == before[id := Resolved(before[id], approved, comment, actor, now)])
    ensures Decided(before, after)
  {
  }

  class AgentInterceptor {
    const store: Store
    const engine: DeterministicPolicyEngine
    const governor: TokenBucketGovernor

    constructor (store: Store, engine: DeterministicPolicyEngine, governor: TokenBucketGovernor)
      ensures this.store == store && this.engine == engine && this.governor == governor
    {
      this.store, this.engine, this.governor := store, engine, governor;
    }

    ghost predicate Valid()
      reads store, store.audit, store.clock
    {
      store.Valid() && engine.governor == governor && governor.redis == store.redis
    }

    // ---------------------------------------------------------------------------------------------
    // The wait.
    // ---------------------------------------------------------------------------------------------

    /** Any reviewer may call in at any time. */
    method OthersMayDecide(id: string)
      requires Valid()
      modifies store`hitls, store`published, store.audit`log, store.clock
      ensures Valid() && Decided(old(store.hitls), store.hitls) && old(store.clock.now) <= store.clock.now
      ensures OnlyReviewed(old(store.hitls), store.hitls) && old(store.audit.log) <= store.audit.log
    {
      hide WellLinked, RowsOk, Announced, EventOf, EventEffect, EntryEffect, Decided;
      var called: bool := *;
      if called {
        var approved: bool, comment: Option<string>, reviewer: string := *, *, *;
        var router := new Router(store, governor);
        ghost var now: int;
        var r;
        r, now := router.ResolveHitl(id, approved, comment, reviewer);
        DecidedByOne(old(store.hitls), store.hitls, id, approved, comment, reviewer, now);
      } else {
        DecidedByNobody(store.hitls);
      }
    }

    /** `get_message`: the confirmation is swallowed at once; otherwise a message, or the full timeout. */
    method GetMessage(sub: Subscription, timeout: int) returns (message: bool)
      requires Valid() && timeout > 0
      modifies store`hitls, store`published, store.audit`log, store.clock, sub
      ensures Valid() && Decided(old(store.hitls), store.hitls)
      ensures OnlyReviewed(old(store.hitls), store.hitls) && old(store.audit.log) <= store.audit.log
      ensures old(store.clock.now) <= store.clock.now
      ensures message ==> sub.id in store.published
      ensures sub.confirmation ==> old(sub.confirmation)
      ensures !message ==>
        (old(sub.confirmation) && !sub.confirmation) || old(store.clock.now) + timeout <= store.clock.now
    {
      hide WellLinked, RowsOk, Announced, Decided, OnlyReviewed;
      OthersMayDecide(sub.id);
      if sub.confirmation {
        sub.confirmation := false;
        return false;
      }
      var delivered: bool := *;
      if delivered && sub.id in store.published {
        return true;
      }
      ghost var before := store.clock.now;
      store.clock.Sleep(timeout);
      RowsLater(store.Environment(), store.hitls, before, store.clock.now);
      return false;
    }

    method ExpireTransaction(id: string, actor: string) returns (ok: bool)
      requires Valid() && (id in store.hitls ==> store.hitls[id].expiresAt <= store.clock.now)
      modifies store`hitls, store.audit`log, store.clock
      ensures Valid() && Decided(old(store.hitls), store.hitls)
      ensures ok ==> id in store.hitls ==> Terminal(store.hitls[id].status)
      ensures ok && id in old(store.hitls) && old(store.hitls)[id].status == Pending ==>
        && store.hitls - {id} == old(store.hitls) - {id}
        && store.hitls[id] ==
          old(store.hitls)[id].(status := Expired, resolvedAt := store.hitls[id].resolvedAt)
        && store.hitls[id].resolvedAt.Some?
        && old(store.clock.now) <= store.hitls[id].resolvedAt.value <= store.clock.now
        && |store.audit.log| == |old(store.audit.log)| + 1 && old(store.audit.log) <= store.audit.log
        && EventIn(store.audit.log[|old(store.audit.log)|]) == Some(HitlExpired(id))
        && store.audit.log[|old(store.audit.log)|].actor == actor
      ensures !ok || id !in old(store.hitls) || old(store.hitls)[id].status != Pending ==>
        store.hitls == old(store.hitls) && store.audit.log == old(store.audit.log)
      ensures old(store.clock.now) <= store.clock.now
      ensures ok <==> id !in old(store.hitls) || old(store.hitls)[id].status != Pending || ValidName(actor)
    {
      hide WellLinked, RowsOk, Decided, Seal, EventOf, EventPayload, EventEffect, EntryEffect, RowOk;
      ok := true;
      ghost var env := store.Environment();
      DecidedByNobody(store.hitls);
      RowIs(env, store.hitls, store.clock.now, id);
      if id in store.hitls && store.hitls[id].status == Pending {
        var saved := store.hitls;
        ghost var before := store.clock.now;
        var now := store.clock.Read();
        RowsLater(env, saved, before, now);
        store.hitls := store.hitls[id := ExpiredAt(store.hitls[id], now)];
        RowExpires(env, saved, now, id);
        ok := store.Append(HitlExpired(id), actor);
        RowsLater(env, saved, now, store.clock.now);
        RowsLater(env, store.hitls, now, store.clock.now);
        if !ok {
          store.hitls := saved;
        }
      }
    }

    method ResolutionDecision(intent: Intent, id: string, status: Status) returns (r: Result<PolicyDecision, Failure>)
      requires Valid()
      modifies store.redis
      ensures status == Approved && KeyOf(intent).None? ==> r == Ok(Approval(id))
      ensures status == Approved && KeyOf(intent).Some? && intent.amount.value > 0 ==>
        var s := Reserve(Find(store.budgets, KeyOf(intent).value), old(store.redis.Cell(KeyOf(intent).value)),
          intent.amount.value);
        r == Ok(if s.granted then Approval(id) else LateRefusal(id, s.remaining))
          && store.redis.Cell(KeyOf(intent).value) == s.cell
      ensures status == Approved && KeyOf(intent).Some? && intent.amount.value <= 0 ==>
        r == Err(ReserveFailed(NonPositiveAmount)) && !ValidIntent(intent)
      ensures r.Ok? ==>
        status == Approved
          && Honoured(store.budgets, old(store.redis.cells), store.redis.cells, intent, id, r.value)
      ensures status == Expired ==> r == Err(ApprovalExpired)
      ensures status != Approved && status != Expired ==> r == Err(ApprovalDenied)
      ensures r.Err? || KeyOf(intent).None? ==> store.redis.cells == old(store.redis.cells)
      ensures KeyOf(intent).Some? ==>
        store.redis.cells - {KeyOf(intent).value} == old(store.redis.cells) - {KeyOf(intent).value}
    {
      if status == Approved {
        if KeyOf(intent).Some? {
          var k := KeyOf(intent).value;
          var row := store.Load(k);
          var reserved := governor.ReserveBudget(row, k, intent.amount.value);
          if reserved.Err? {
            return Err(ReserveFailed(reserved.error));
          }
          if !reserved.value.0 {
            return Ok(LateRefusal(id, reserved.value.1));
          }
        }
        return Ok(Approval(id));
      }
      if status == Expired {
        return Err(ApprovalExpired);
      }
      r := Err(ApprovalDenied);
    }

    /**
     Every turn of the loop ends the wait, or brings the deadline closer, or uses up the one
     confirmation. However it ends, a row that was there is decided, unless the expiry could not be
     recorded; and the answer is the one its status calls for.
     */
    method AwaitResolution(intent: Intent, id: string, actor: string)
      returns (r: Result<PolicyDecision, Failure>, ghost w: Wait)
      requires Valid()
      modifies store`hitls, store`published, store.audit`log, store.clock, store.redis
      ensures Valid() && Decided(old(store.hitls), store.hitls) && old(store.audit.log) <= store.audit.log
      ensures w.id == id && old(store.clock.now) <= w.started <= w.first <= store.clock.now
      ensures r == Err(ApprovalTimeout) ==> w.started + store.timeout <= store.clock.now
      ensures TooSlow(w, store.timeout) ==>
        r == Err(if id in old(store.hitls) && old(store.hitls)[id].status == Pending && !ValidName(actor)
          then AppendFailed else ApprovalTimeout)
      ensures !TooSlow(w, store.timeout) && id !in old(store.hitls) ==> r == Err(RowGone)
      ensures !TooSlow(w, store.timeout) && id in store.hitls ==>
        match store.hitls[id].status
        case Approved => r.Ok? || (r == Err(ReserveFailed(NonPositiveAmount)) && !ValidIntent(intent))
        case Rejected => r == Err(ApprovalDenied)
        case Expired => r == Err(if old(store.hitls)[id].status == Expired then ApprovalExpired else ApprovalTimeout)
        case Pending => r == Err(AppendFailed) && !ValidName(actor)
        case Cancelled => false
      ensures id in store.hitls && r != Err(AppendFailed) ==> Terminal(store.hitls[id].status)
      ensures r.Err? ==> store.redis.cells == old(store.redis.cells)
      ensures r.Ok? ==> Honoured(store.budgets, old(store.redis.cells), store.redis.cells, intent, id, r.value)
    {
      hide WellLinked, RowsOk, Decided, OnlyReviewed, RowOk, Reserve, Announced, Approval, LateRefusal, Honoured, Sane,
        ValidName, ValidIntent;
      var sub := new Subscription(id);
      ghost var env := store.Environment();
      RowIs(env, store.hitls, store.clock.now, id);
      var started := store.clock.Read();
      RowsLater(env, store.hitls, old(store.clock.now), started);
      var deadline := started + store.timeout;
      DecidedByNobody(store.hitls);
      w := Wait(id, started, started);
      ghost var looked := false;
      while true
        invariant Valid() && Decided(old(store.hitls), store.hitls) && old(store.audit.log) <= store.audit.log
        invariant started <= store.clock.now && id in old(store.hitls) ==> old(store.hitls)[id].expiresAt <= deadline
        invariant store.redis.cells == old(store.redis.cells)
        invariant w == Wait(id, started, w.first) && started <= w.first <= store.clock.now
        invariant !looked ==> store.hitls == old(store.hitls)
        invariant looked ==> w.first < deadline && id in store.hitls && store.hitls[id].status == Pending
        invariant looked ==> id in old(store.hitls) && old(store.hitls)[id].status == Pending
        decreases if sub.confirmation then 1 else 0, deadline - store.clock.now
      {
        ghost var before, rows := store.clock.now, store.hitls;
        var now := store.clock.Read();
        if !looked { w := w.(first := now); }
        RowsLater(env, store.hitls, before, now);
        DecidedRow(old(store.hitls), store.hitls, id);
        var remaining := deadline - now;
        if remaining <= 0 {
          var ok := ExpireTransaction(id, actor);
          DecidedTwice(old(store.hitls), rows, store.hitls);
          return Err(if ok then ApprovalTimeout else AppendFailed), w;
        }
        var message := GetMessage(sub, Min(remaining, SECOND));
        DecidedTwice(old(store.hitls), rows, store.hitls);
        RowIs(env, store.hitls, store.clock.now, id);
        AnnouncedRow(store.published, store.hitls, id);
        DecidedRow(rows, store.hitls, id);
        if id !in store.hitls {
          return Err(RowGone), w;
        }
        ReviewedRow(rows, store.hitls, id);
        looked := true;
        var status := store.hitls[id].status;
        if message || Terminal(status) {
          r := ResolutionDecision(intent, id, status);
          return;
        }
      }
    }

    // ---------------------------------------------------------------------------------------------
    // The transactions.
    // ---------------------------------------------------------------------------------------------

    /** The row of the intent's key: the one there is, or a new pending one that the log records. */
    method CreateOrGetHitl(intent: Intent, d: PolicyDecision, newId: string) returns (r: Option<string>)
      requires Valid() && newId !in store.hitls
      modifies store`hitls, store.audit`log, store.clock
      ensures old(store.clock.now) <= store.clock.now
      ensures r.Some? ==> Valid() && r.value in store.hitls && store.hitls[r.value].key == intent.key
      ensures r.Some? && r.value in old(store.hitls) ==>
        store.hitls == old(store.hitls) && store.audit.log == old(store.audit.log)
      ensures r.Some? && r.value !in old(store.hitls) ==>
        && r.value == newId && store.hitls - {newId} == old(store.hitls) && store.hitls[newId].intent == intent
        && store.hitls[newId].status == Pending
        && |store.audit.log| == |old(store.audit.log)| + 1 && old(store.audit.log) <= store.audit.log
        && EntryEffect(store.audit.log[|old(store.audit.log)|]) == OpenHitl(newId, intent.key, intent.agent)
        && EventIn(store.audit.log[|old(store.audit.log)|]) == Some(HitlRequested(newId, intent, d.risk, d.reasons))
        && store.audit.log[|old(store.audit.log)|].actor == intent.agent
        && JustOpened(store.hitls[newId], intent, old(store.clock.now), store.clock.now, store.timeout)
      ensures r.None? ==> !ValidName(intent.agent)
    {
      hide WellLinked, RowsOk, Seal, EventOf, EventPayload, EntryEffect, RowOk;
      ghost var env, before := store.Environment(), store.clock.now;
      var existing := store.FindByKey(intent.key);
      if existing.Some? {
        return existing;
      }
      var saved := store.hitls;
      var now := store.clock.Read();
      RowsLater(env, saved, before, now);
      store.hitls := store.hitls[newId := Opened(Env(store.audit.crypto, store.timeout), intent, now)];
      RowOpens(env, saved, now, newId, intent);
      assert store.hitls - {newId} == saved;
      var ok := store.Append(HitlRequested(newId, intent, d.risk, d.reasons), intent.agent);
      RowsLater(env, store.hitls, now, store.clock.now);
      r := if ok then Some(newId) else None;
    }

    /** The reservation for an intent the engine allowed. */
    method ReserveAllowed(intent: Intent, d: PolicyDecision, row: BudgetRow?)
      returns (r: Result<PolicyDecision, Failure>)
      requires governor.redis == store.redis
      modifies store.redis
      ensures ReservedFor(RowValue(row), old(store.redis.cells), store.redis.cells, intent, d, r)
      ensures KeyOf(intent).None? ==> r == Ok(d)
      ensures r.Ok? ==> r.value == d || RefusalOf(d, r.value)
      ensures r.Err? ==> r == Err(ReserveFailed(NonPositiveAmount)) && !ValidIntent(intent)
    {
      hide Reserve;
      if KeyOf(intent).Some? {
        var reserved := governor.ReserveBudget(row, KeyOf(intent).value, intent.amount.value);
        if reserved.Err? {
          return Err(ReserveFailed(reserved.error));
        }
        if !reserved.value.0 {
          return Ok(Refusal(d, reserved.value.1));
        }
      }
      r := Ok(d);
    }

    /** The engine's decision and its audit entry. */
    method EvaluateAndRecord(intent: Intent, actor: string, row: BudgetRow?)
      returns (r: Result<PolicyDecision, Failure>, ghost figure: Option<int>)
      requires Valid() && (KeyOf(intent).None? ==> row == null)
      modifies store.audit`log, store.redis, store.clock
      ensures Valid() && old(store.clock.now) <= store.clock.now
      ensures r.Err? ==> store.audit.log == old(store.audit.log) && (r.error.EvaluationFailed? || r.error.AppendFailed?)
      ensures r == Err(AppendFailed) ==> !ValidName(actor)
      ensures r.Err? && (KeyOf(intent).Some? ==> RowValue(row) == Find(store.budgets, KeyOf(intent).value)) ==>
        Excuse(engine.lib, Find(store.agents, intent.agent), store.policies, store.budgets,
          store.redis.cells, intent, actor, r.error)
      ensures r.Ok? ==>
        && ValidName(actor) && |store.audit.log| == |old(store.audit.log)| + 1
        && old(store.audit.log) <= store.audit.log
        && IsEvaluated(store.audit.log[|old(store.audit.log)|], intent, r.value)
        && Evaluate(engine.lib, Find(store.agents, intent.agent), store.policies, intent, figure) == Ok(r.value)
      ensures SameElsewhere(old(store.redis.cells), store.redis.cells, KeyOf(intent))
      ensures KeyOf(intent).Some? ==>
        var k := KeyOf(intent).value;
        && (r.Ok? ==> FigureFrom(RowValue(row), old(store.redis.Cell(k)), figure))
        && Inspected(RowValue(row), old(store.redis.Cell(k)), store.redis.Cell(k))
    {
      hide WellLinked, RowsOk, Announced, Seal, EventOf, EventPayload, EventType, EntryEffect, EventEffect, IsEvaluated,
        FigureFrom, Inspected, Evaluate, ValidName;
      ghost var now := store.clock.now;
      var evaluated;
      evaluated, figure := engine.EvaluateIntent(store, intent, row);
      if evaluated.Err? {
        return Err(EvaluationFailed(evaluated.error)), figure;
      }
      if KeyOf(intent).Some? {
        store.redis.MayExpire(KeyOf(intent).value);
        ExpiryInspected(RowValue(row), old(store.redis.Cell(KeyOf(intent).value)));
      }
      var ok := store.Append(Evaluated(intent, evaluated.value), actor);
      RowsLater(store.Environment(), store.hitls, now, store.clock.now);
      if !ok {
        return Err(AppendFailed), figure;
      }
      SealIsEvaluated(store.audit.crypto, old(store.audit.log), intent, evaluated.value, actor, store.clock.now);
      r := Ok(evaluated.value);
    }

    /**
     The first transaction of `evaluate_or_wait`: the decision, its entry, and the reservation or the
     approval row it calls for. An exception leaves the tables and the log as they were.
     */
    method DecideIntent(intent: Intent, actor: string, newId: string)
      returns (r: Result<PolicyDecision, Failure>, ghost said: PolicyDecision)
      requires Valid() && newId !in store.hitls
      modifies store`hitls, store.audit`log, store.redis, store.clock
      ensures Valid()
      ensures r.Err? ==> store.hitls == old(store.hitls) && store.audit.log == old(store.audit.log)
      ensures r.Ok? ==>
        && ValidName(actor) && |old(store.audit.log)| < |store.audit.log| && old(store.audit.log) <= store.audit.log
        && IsEvaluated(store.audit.log[|old(store.audit.log)|], intent, said)
        && Said(engine.lib, Find(store.agents, intent.agent), store.policies, intent, said)
      ensures r.Ok? && said.outcome == RequireApproval ==>
        r.value == said.(hitlId := r.value.hitlId) && r.value.hitlId.Some?
        && r.value.hitlId.value in store.hitls && store.hitls[r.value.hitlId.value].key == intent.key
        && (r.value.hitlId.value in old(store.hitls) ==> store.hitls == old(store.hitls))
        && (r.value.hitlId.value !in old(store.hitls) ==>
          JustOpened(store.hitls[r.value.hitlId.value], intent, old(store.clock.now), store.clock.now, store.timeout))
      ensures r.Ok? && said.outcome != RequireApproval ==>
        store.hitls == old(store.hitls) && |store.audit.log| == |old(store.audit.log)| + 1
      ensures r.Ok? && said.outcome != RequireApproval ==>
        r.value == said || (said.outcome == Allow && RefusalOf(said, r.value))
      ensures r.Ok? && said.outcome == Allow && KeyOf(intent).None? ==> r.value == said
      ensures ValidIntent(intent) && old(Coherent(store.budgets, store.redis.cells)) ==>
        && !(r.Err? && r.error.ReserveFailed?)
        && (r.Ok? && said.outcome == Allow ==> r.value == said)
        && if r.Ok? && said.outcome == Allow then Holding(store.budgets, store.redis.cells, intent)
          else Coherent(store.budgets, store.redis.cells)
      ensures r.Err? ==> Excuse(engine.lib, Find(store.agents, intent.agent), store.policies, store.budgets,
          store.redis.cells, intent, actor, r.error)
      ensures old(store.clock.now) <= store.clock.now
    {
      hide WellLinked, RowsOk, Announced, EntryEffect, EventOf, IsEvaluated, Coherent, Holding, Said, SaidNothing,
        Excuse, RefusalOf, JustOpened, Reserve, FigureFrom, Inspected, Evaluate, Refusal, ValidName, Sane,
          SameElsewhere,
        ReservedFor, RowValue;
      var saved, rows := store.audit.log, store.hitls;
      ghost var cells, agent := store.redis.cells, Find(store.agents, intent.agent);
      ghost var coherent := Coherent(store.budgets, cells);
      said := Refused();
      var row: BudgetRow? := null;
      if KeyOf(intent).Some? {
        row := store.Load(KeyOf(intent).value);
      }
      ghost var figure;
      var evaluated;
      evaluated, figure := EvaluateAndRecord(intent, actor, row);
      if coherent {
        EvaluationKeepsCells(store.budgets, cells, store.redis.cells, intent);
      }
      if evaluated.Err? {
        return Err(evaluated.error), said;
      }
      var decision := evaluated.value;
      said := decision;
      SaidIt(engine.lib, agent, store.policies, intent, figure, said);
      if decision.outcome == Deny {
        return Ok(decision), said;
      }
      if decision.outcome == Allow {
        ghost var before := store.redis.cells;
        r := ReserveAllowed(intent, decision, row);
        if coherent && ValidIntent(intent) {
          GrantHolds(engine.lib, agent, store.policies, intent, figure, said, store.budgets, RowValue(row),
            cells, before, store.redis.cells, r);
        }
        if r.Err? {
          ExcusedByAmount(engine.lib, agent, store.policies, store.budgets, store.redis.cells, intent, actor);
          store.audit.log := saved;
        }
        return r, said;
      }
      ghost var now := store.clock.now;
      var id := CreateOrGetHitl(intent, decision, newId);
      RowsLater(store.Environment(), rows, now, store.clock.now);
      if id.Some? && id.value !in rows {
        OpenedSince(store.hitls[id.value], intent, old(store.clock.now), now, store.clock.now, store.timeout);
      }
      if id.None? {
        ExcusedByName(engine.lib, agent, store.policies, store.budgets, store.redis.cells, intent, actor);
        store.audit.log, store.hitls := saved, rows;
        return Err(AppendFailed), said;
      }
      return Ok(decision.(hitlId := id)), said;
    }

    /** The ledger row is charged and the cell reset to what is left; a refused entry undoes only the charge. */
    method CommitExecution(intent: Intent, actor: string) returns (r: Result<(), Failure>)
      requires Valid()
      modifies store`budgets, store.audit`log, store.redis, store.clock
      ensures Valid() && old(store.clock.now) <= store.clock.now
      ensures r.Err? ==> store.budgets == old(store.budgets) && store.audit.log == old(store.audit.log)
      ensures r.Ok? ==>
        && |store.audit.log| == |old(store.audit.log)| + 1 && old(store.audit.log) <= store.audit.log
        && EntryEffect(store.audit.log[|old(store.audit.log)|]) == EventEffect(Completed(intent), actor)
        && EventIn(store.audit.log[|old(store.audit.log)|]) == Some(Completed(intent))
        && store.audit.log[|old(store.audit.log)|].actor == actor
      ensures r.Ok? ==> Charged(old(store.budgets), store.budgets, intent)
      ensures old(Holding(store.budgets, store.redis.cells, intent)) && ValidName(actor) ==>
        r.Ok? && Coherent(store.budgets, store.redis.cells)
      ensures KeyOf(intent).None? ==>
        && store.budgets == old(store.budgets) && store.redis.cells == old(store.redis.cells)
        && r == if ValidName(actor) then Ok(()) else Err(AppendFailed)
      ensures KeyOf(intent).Some? ==>
        var k := KeyOf(intent).value;
        match Commit(Find(old(store.budgets), k), intent.amount.value)
        case Err(e) => r == Err(CommitFailed(e)) && store.redis.cells == old(store.redis.cells)
        case Ok(row) =>
          && store.redis.cells == old(store.redis.cells)[k := Room(row)]
          && r == (if ValidName(actor) then Ok(()) else Err(AppendFailed))
          && (r.Ok? ==> store.budgets == old(store.budgets)[k := row])
    {
      hide WellLinked, RowsOk, Announced, Seal, EventOf, EventPayload, EventType, EntryEffect, EventEffect, ValidName;
      ghost var before, budgets, cells := store.clock.now, store.budgets, store.redis.cells;
      var row: BudgetRow? := null;
      if KeyOf(intent).Some? {
        row := store.Load(KeyOf(intent).value);
        var committed := governor.CommitBudget(row, intent.amount.value);
        if committed.Err? {
          return Err(CommitFailed(committed.error));
        }
        CommitKeepsCap(Find(store.budgets, KeyOf(intent).value), intent.amount.value);
        var reset := governor.Reset(KeyOf(intent).value, row.limit - row.consumed);
        assert reset.Ok?;
      }
      var ok := store.Append(Completed(intent), actor);
      RowsLater(store.Environment(), store.hitls, before, store.clock.now);
      if !ok {
        return Err(AppendFailed);
      }
      if KeyOf(intent).Some? {
        store.budgets := store.budgets[KeyOf(intent).value := row.Value()];
      }
      r := Ok(());
      if Holding(budgets, cells, intent) {
        CommitRestores(budgets, cells, store.budgets, store.redis.cells, intent);
      }
    }

    method RecordExecutionFailure(intent: Intent, actor: string, kind: string, text: string) returns (ok: bool)
      requires Valid()
      modifies store.audit`log, store.redis, store.clock
      ensures Valid() && old(store.clock.now) <= store.clock.now
      ensures ok <==> ValidName(actor)
      ensures !ok ==> store.audit.log == old(store.audit.log)
      ensures ok ==>
        && |store.audit.log| == |old(store.audit.log)| + 1 && old(store.audit.log) <= store.audit.log
        && store.audit.log[|old(store.audit.log)|].eventType == "execution_failed"
        && EventIn(store.audit.log[|old(store.audit.log)|]) == Some(Failed(intent, kind, Clipped(text)))
        && store.audit.log[|old(store.audit.log)|].actor == actor
      ensures old(Holding(store.budgets, store.redis.cells, intent)) ==> Coherent(store.budgets, store.redis.cells)
      ensures SameElsewhere(old(store.redis.cells), store.redis.cells, KeyOf(intent))
      ensures KeyOf(intent).Some? ==>
        var k := KeyOf(intent).value;
        store.redis.Cell(k) == Release(Find(store.budgets, k), old(store.redis.Cell(k)), intent.amount.value)
    {
      hide WellLinked, RowsOk, Announced, EventOf, EventPayload, EntryEffect, EventEffect, Clipped, ValidName, Release;
      ghost var before, cells := store.clock.now, store.redis.cells;
      if KeyOf(intent).Some? {
        var row := store.Load(KeyOf(intent).value);
        governor.ReleaseBudget(row, KeyOf(intent).value, intent.amount.value);
      }
      ok := store.Append(Failed(intent, kind, Clipped(text)), actor);
      RowsLater(store.Environment(), store.hitls, before, store.clock.now);
      if Holding(store.budgets, cells, intent) {
        ReleaseRestores(store.budgets, cells, store.redis.cells, intent);
      }
    }

    // ---------------------------------------------------------------------------------------------
    // The calls.
    // ---------------------------------------------------------------------------------------------

    /** A key's time to live may run out at any moment. */
    method KeyMayExpire(intent: Intent)
      requires governor.redis == store.redis
      modifies store.redis
      ensures store.redis.cells.Keys <= old(store.redis.cells).Keys
      ensures old(Coherent(store.budgets, store.redis.cells)) ==> Coherent(store.budgets, store.redis.cells)
      ensures old(Holding(store.budgets, store.redis.cells, intent)) ==>
        Holding(store.budgets, store.redis.cells, intent)
    {
      if KeyOf(intent).Some? {
        store.redis.MayExpire(KeyOf(intent).value);
      }
    }

    /**
     With the engine's decision come its entry, and then the answer it calls for: a denial as it is, an
     allow with its reservation, or what the reviewer's row says when the wait is over.
     */
    method EvaluateOrWait(intent: Intent, actor: string, newId: string)
      returns (r: Result<PolicyDecision, Failure>, ghost said: PolicyDecision, ghost wait: Option<Wait>)
      requires Valid() && newId !in store.hitls && ValidIntent(intent)
      modifies store`hitls, store`published, store.audit`log, store.redis, store.clock
      ensures Valid() && old(store.audit.log) <= store.audit.log
      ensures r.Ok? || wait.Some? ==>
        && ValidName(actor) && Said(engine.lib, Find(store.agents, intent.agent), store.policies, intent, said)
        && |old(store.audit.log)| < |store.audit.log|
        && IsEvaluated(store.audit.log[|old(store.audit.log)|], intent, said)
      ensures Answers(intent, said, wait, store.timeout, old(store.hitls), store.hitls, r)
      ensures InOrder(wait, old(store.clock.now), store.clock.now, store.timeout, r)
      ensures wait.None? ==>
        && store.hitls == old(store.hitls)
        && |store.audit.log| == |old(store.audit.log)| + (if r.Ok? then 1 else 0)
      ensures wait.None? && r.Err? ==>
        Excuse(engine.lib, Find(store.agents, intent.agent), store.policies, store.budgets,
          store.redis.cells, intent, actor, r.error)
      ensures r.Ok? && r.value.outcome == Allow ==>
        || said.outcome == Allow
        || (said.outcome == RequireApproval
            && exists id | id in store.hitls :: ApprovedRow(store.hitls, id, intent.key))
      ensures old(Coherent(store.budgets, store.redis.cells)) ==>
        && (r.Ok? && said.outcome == Allow ==> r.value == said)
        && (r.Ok? && said.outcome == RequireApproval ==>
          (r.value.outcome == Allow <==> Affordable(store.budgets, intent)))
        && (r.Ok? ==> r.value.outcome != RequireApproval)
        && (if r.Ok? && r.value.outcome == Allow then Holding(store.budgets, store.redis.cells, intent)
          else Coherent(store.budgets, store.redis.cells))
      ensures r.Err? ==>
        !r.error.CommitFailed? && !r.error.Unapproved? && !r.error.DecidedAgainst? && !r.error.ReserveFailed?
    {
      hide WellLinked, RowsOk, Announced, Said, SaidNothing, Coherent, Holding, Affordable, IsEvaluated, EventOf,
        Decided,
        RefusalOf, JustOpened, Honoured, GrantedAfterApproval, RefusedAfterApproval, Reserve;
      wait := None;
      r, said := DecideIntent(intent, actor, newId);
      if r.Err? {
        return;
      }
      ghost var asked := store.clock.now;
      SaidHasNoRow(engine.lib, Find(store.agents, intent.agent), store.policies, intent, said);
      KeyMayExpire(intent);
      if r.value.outcome == RequireApproval && r.value.hitlId.Some? {
        var id := r.value.hitlId.value;
        ghost var rows, cells := store.hitls, store.redis.cells;
        ghost var w;
        r, w := AwaitResolution(intent, id, actor);
        wait := Some(w);
        if old(Coherent(store.budgets, store.redis.cells)) {
          AnswerHolds(store.budgets, cells, store.redis.cells, intent, id, r);
        }
        if r.Ok? { HonouredMeans(store.budgets, cells, store.redis.cells, intent, id, r.value); }
        DecidedKey(rows, store.hitls, id);
        if id !in old(store.hitls) { Unopened(rows[id], intent, old(store.clock.now), asked, store.timeout); }
        AwaitedAnswer(intent, w, store.timeout, old(store.hitls), rows, store.hitls, r);
      }
    }

    /**
     `execute`, around an operation that succeeds or raises. The operation runs if and only if the
     answer is an allow. With coherent cells at the start, an intent that the engine allowed is run, one
     that a reviewer approved is run if the ledger can honour it, no commit meets the cap, and the cells
     are coherent again at the end, however the run ends.
     */
    method Execute(intent: Intent, actor: string, newId: string, operation: Option<(string, string)>)
      returns (r: Result<(), Failure>, ghost ran: bool, ghost answer: Result<PolicyDecision, Failure>,
        ghost said: PolicyDecision, ghost wait: Option<Wait>)
      requires Valid() && newId !in store.hitls && ValidIntent(intent)
      modifies store`budgets, store`hitls, store`published, store.audit`log, store.redis, store.clock
      ensures Valid() && old(store.audit.log) <= store.audit.log
      ensures answer.Ok? || wait.Some? ==>
        && ValidName(actor) && Said(engine.lib, Find(store.agents, intent.agent), store.policies, intent, said)
        && |old(store.audit.log)| < |store.audit.log|
        && IsEvaluated(store.audit.log[|old(store.audit.log)|], intent, said)
      ensures Answers(intent, said, wait, store.timeout, old(store.hitls), store.hitls, answer)
      ensures InOrder(wait, old(store.clock.now), store.clock.now, store.timeout, answer)
      ensures wait.None? && answer.Err? ==>
        Excuse(engine.lib, Find(store.agents, intent.agent), store.policies, store.budgets, store.redis.cells, intent,
          actor, answer.error)
      ensures wait.None? ==>
        && store.hitls == old(store.hitls)
        && (r.Ok? || (ran && operation.Some?) ==> |store.audit.log| == |old(store.audit.log)| + 2)
        && (!ran ==> |store.audit.log| == |old(store.audit.log)| + (if answer.Ok? then 1 else 0))
      ensures ran <==> answer.Ok? && answer.value.outcome == Allow
      ensures !ran ==>
        && r == Err(if answer.Err? then answer.error else if answer.value.outcome == Deny then DecidedAgainst
          else Unapproved)
        && store.budgets == old(store.budgets)
      ensures old(Coherent(store.budgets, store.redis.cells)) ==>
        && Coherent(store.budgets, store.redis.cells)
        && (answer.Ok? ==>
          (ran <==>
            (said.outcome == Allow
              || (said.outcome == RequireApproval && Affordable(old(store.budgets), intent)))))
        && (ran && operation.None? ==> r.Ok?)
      ensures old(Coherent(store.budgets, store.redis.cells)) && r.Err? ==>
        !r.error.CommitFailed? && !r.error.ReserveFailed? && !r.error.Unapproved?
      ensures r.Err? ==> store.budgets == old(store.budgets)
      ensures r.Ok? ==> ran && operation.None? && Charged(old(store.budgets), store.budgets, intent)
      ensures r.Ok? ==>
        store.audit.log != []
          && EntryEffect(store.audit.log[|store.audit.log| - 1]) == EventEffect(Completed(intent), actor)
          && EventIn(store.audit.log[|store.audit.log| - 1]) == Some(Completed(intent))
      ensures ran && operation.Some? ==>
        && r == Err(OperationFailed(operation.value.0, operation.value.1))
        && store.audit.log != [] && store.audit.log[|store.audit.log| - 1].eventType == "execution_failed"
        && EventIn(store.audit.log[|store.audit.log| - 1]) ==
          Some(Failed(intent, operation.value.0, Clipped(operation.value.1)))
      ensures ran ==> exists d: PolicyDecision ::
        && Said(engine.lib, Find(store.agents, intent.agent), store.policies, intent, d)
        && (d.outcome == Allow
          || (d.outcome == RequireApproval
              && exists id | id in store.hitls :: ApprovedRow(store.hitls, id, intent.key)))
    {
      hide WellLinked, RowsOk, Announced, Said, SaidNothing, Coherent, Holding, Affordable, ApprovedRow, AnswerIs,
        Answers, InOrder, Excuse, IsEvaluated, EventOf, EntryEffect, EventEffect, Clipped, Charged, Commit, Release,
          ValidName,
        SameElsewhere;
      ran := false;
      var decided;
      decided, said, wait := EvaluateOrWait(intent, actor, newId);
      answer := decided;
      ghost var before := store.redis.cells;
      KeyMayExpire(intent);
      if decided.Err? {
        if wait.None? {
          ExcuseLasts(engine.lib, Find(store.agents, intent.agent), store.policies, store.budgets, before,
            store.redis.cells, intent, actor, decided.error);
        }
        return Err(decided.error), ran, answer, said, wait;
      }
      if decided.value.outcome == Deny {
        return Err(DecidedAgainst), ran, answer, said, wait;
      }
      if decided.value.outcome != Allow {
        return Err(Unapproved), ran, answer, said, wait;
      }
      ran := true;
      KeyMayExpire(intent);
      ghost var until := store.clock.now;
      if operation.Some? {
        var ok := RecordExecutionFailure(intent, actor, operation.value.0, operation.value.1);
        assert ok;
        OrderLasts(wait, old(store.clock.now), until, store.clock.now, store.timeout, answer);
        return Err(OperationFailed(operation.value.0, operation.value.1)), ran, answer, said, wait;
      }
      r := CommitExecution(intent, actor);
      OrderLasts(wait, old(store.clock.now), until, store.clock.now, store.timeout, answer);
    }
  }
}
