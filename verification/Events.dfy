/**
 What the audit entries say, and the ledger and approval tables read back out of them.

 Amounts and timestamps are written as the decimal text of their whole number of units.
 */
module Events {
  import opened Wrappers
  import opened Json
  import opened Schemas
  import opened Governor
  import opened AuditChain
  import JsonParser

  datatype Event =
    | Evaluated(intent: Intent, decision: PolicyDecision)
    | HitlRequested(id: string, intent: Intent, risk: int, reasons: seq<string>)
    | HitlResolved(id: string, approved: bool, comment: Option<string>)
    | HitlExpired(id: string)
    | BudgetUpdated(agent: string, currency: string, limit: int)
    | Completed(intent: Intent)
    | Failed(intent: Intent, errorType: string, error: string)
    | AgentRegistered(id: string)
    | PolicyCreated(id: string, name: string, version: int)

  /** The text of an exception is recorded up to this length. */
  const ERROR_LENGTH := 1000

  function Clipped(text: string): string { if |text| <= ERROR_LENGTH then text else text[..ERROR_LENGTH] }

  function EventType(e: Event): string
  {
    match e
    case Evaluated(_, _) => "execution_intent_evaluated"
    case HitlRequested(_, _, _, _) => "hitl_requested"
    case HitlResolved(_, _, _) => "hitl_resolved"
    case HitlExpired(_) => "hitl_expired"
    case BudgetUpdated(_, _, _) => "budget_updated"
    case Completed(_) => "execution_completed"
    case Failed(_, _, _) => "execution_failed"
    case AgentRegistered(_) => "agent_registered"
    case PolicyCreated(_, _, _) => "policy_created"
  }

  function OptionalText(o: Option<string>): Json { match o case None => JNull case Some(s) => JStr(s) }

  function OptionalMoney(o: Option<int>): Json { match o case None => JNull case Some(n) => JStr(IntOn(n, "")) }

  function Texts(xs: seq<string>): Json { JArr(seq(|xs|, i requires 0 <= i < |xs| => JStr(xs[i]))) }

  function IntentJson(i: Intent): Json
  {
    JObj([
      Member("agent_id", JStr(i.agent)),
      Member("action", JStr(i.action)),
      Member("payload", JObj(i.payload)),
      Member("requested_amount", OptionalMoney(i.amount)),
      Member("currency", OptionalText(i.currency)),
      Member("idempotency_key", JStr(i.key)),
      Member("correlation_id", OptionalText(i.correlation))])
  }

  function OutcomeText(o: Outcome): string
  {
    match o case Allow => "allow" case RequireApproval => "require_approval" case Deny => "deny"
  }

  function DecisionJson(d: PolicyDecision): Json
  {
    JObj([
      Member("outcome", JStr(OutcomeText(d.outcome))),
      Member("risk_score", JInt(d.risk)),
      Member("reasons", Texts(d.reasons)),
      Member("policy_ids", Texts(d.policyIds)),
      Member("remaining_budget", OptionalMoney(d.remaining)),
      Member("hitl_transaction_id", OptionalText(d.hitlId))])
  }

  function EventPayload(e: Event): Json
  {
    match e
    case Evaluated(intent, d) => JObj([Member("intent", IntentJson(intent)), Member("decision", DecisionJson(d))])
    case HitlRequested(id, intent, risk, reasons) =>
      JObj([Member("hitl_transaction_id", JStr(id)), Member("intent", IntentJson(intent)),
        Member("risk_score", JInt(risk)), Member("reasons", Texts(reasons))])
    case HitlResolved(id, approved, comment) =>
      JObj([Member("hitl_transaction_id", JStr(id)),
        Member("decision", JStr(if approved then "approved" else "rejected")),
        Member("comment", OptionalText(comment))])
    case HitlExpired(id) => JObj([Member("hitl_transaction_id", JStr(id))])
    case BudgetUpdated(agent, currency, limit) =>
      JObj([Member("agent_id", JStr(agent)), Member("currency", JStr(currency)),
        Member("limit_amount", JStr(IntOn(limit, "")))])
    case Completed(intent) => JObj([Member("intent", IntentJson(intent))])
    case Failed(intent, errorType, error) =>
      JObj([Member("intent", IntentJson(intent)), Member("error_type", JStr(errorType)), Member("error", JStr(error))])
    case AgentRegistered(id) => JObj([Member("agent_id", JStr(id))])
    case PolicyCreated(id, name, version) =>
      JObj([Member("policy_id", JStr(id)), Member("name", JStr(name)), Member("version", JInt(version))])
  }

  // ---------------------------------------------------------------------------------------------
  // The tables, read back from the entries alone.
  // ---------------------------------------------------------------------------------------------

  datatype Status = Pending | Approved | Rejected | Expired | Cancelled

  /** The part of an approval row that the log records. */
  datatype HitlView = HitlView(
    key: string,
    agent: string,
    status: Status,
    reviewer: Option<string>,
    comment: Option<string>)

  datatype Tables = Tables(budgets: map<BudgetKey, Budget>, hitls: map<string, HitlView>)

  datatype Effect =
    | NoEffect
    | SetLimit(k: BudgetKey, limit: int)
    | Charge(k: BudgetKey, amount: int)
    | OpenHitl(id: string, key: string, agent: string)
    | CloseHitl(id: string, approved: bool, reviewer: string, comment: Option<string>)
    | ExpireHitl(id: string)

  function Text(v: Option<Json>): Option<string> { if v.Some? && v.value.JStr? then Some(v.value.s) else None }

  function Money(v: Option<Json>): Option<int>
  {
    match Text(v)
    case None => None
    case Some(s) =>
      match JsonParser.ParseInt(s)
      case Some((JInt(n), rest)) => if rest == "" then Some(n) else None
      case _ => None
  }

  function Field(v: Json, name: string): Option<Json> { if v.JObj? then Get(v.members, name) else None }

  /** The effect an entry has on the tables, decoded from its type, actor and payload. */
  function EffectOf(eventType: string, actor: string, payload: Json): Effect
  {
    if eventType == "budget_updated" then
      match (Text(Field(payload, "agent_id")), Text(Field(payload, "currency")), Money(Field(payload, "limit_amount")))
      case (Some(agent), Some(currency), Some(limit)) => SetLimit(BudgetKey(agent, currency), limit)
      case _ => NoEffect
    else if eventType == "execution_completed" then
      var intent := GetOr(if payload.JObj? then payload.members else [], "intent", JNull);
      match (Text(Field(intent, "agent_id")), Text(Field(intent, "currency")), Money(Field(intent, "requested_amount")))
      case (Some(agent), Some(currency), Some(amount)) => Charge(BudgetKey(agent, currency), amount)
      case _ => NoEffect
    else if eventType == "hitl_requested" then
      var intent := GetOr(if payload.JObj? then payload.members else [], "intent", JNull);
      match (Text(Field(payload, "hitl_transaction_id")), Text(Field(intent, "idempotency_key")),
        Text(Field(intent, "agent_id")))
      case (Some(id), Some(key), Some(agent)) => OpenHitl(id, key, agent)
      case _ => NoEffect
    else if eventType == "hitl_resolved" then
      match (Text(Field(payload, "hitl_transaction_id")), Text(Field(payload, "decision")))
      case (Some(id), Some(decision)) => CloseHitl(id, decision == "approved", actor, Text(Field(payload, "comment")))
      case _ => NoEffect
    else if eventType == "hitl_expired" then
      match Text(Field(payload, "hitl_transaction_id"))
      case Some(id) => ExpireHitl(id)
      case _ => NoEffect
    else NoEffect
  }

  function EntryEffect(r: AuditLog): Effect { EffectOf(r.eventType, r.actor, r.payload) }

  /** What an event means, without its encoding. */
  function EventEffect(e: Event, actor: string): Effect
  {
    match e
    case BudgetUpdated(agent, currency, limit) => SetLimit(BudgetKey(agent, currency), limit)
    case Completed(intent) =>
      if intent.amount.Some? && intent.currency.Some? then
        Charge(BudgetKey(intent.agent, intent.currency.value), intent.amount.value)
      else NoEffect
    case HitlRequested(id, intent, _, _) => OpenHitl(id, intent.key, intent.agent)
    case HitlResolved(id, approved, comment) => CloseHitl(id, approved, actor, comment)
    case HitlExpired(id) => ExpireHitl(id)
    case _ => NoEffect
  }

  lemma MoneyReadsBack(n: int)
    ensures Money(Some(JStr(IntOn(n, "")))) == Some(n)
    ensures Money(Some(JNull)) == None
  {
    JsonParser.IntParses(n, "");
    JsonParser.NatParses(if n < 0 then -n else n, "");
    if n < 0 {
      assert IntOn(n, "")[1..] == NatOn(-n, "");
    }
  }

  /** The first member with a key is what `get` finds. */
  lemma {:induction false} GetAt(ms: seq<Member>, n: nat)
    requires n < |ms| && forall i | 0 <= i < n :: ms[i].key != ms[n].key
    ensures Get(ms, ms[n].key) == Some(ms[n].value)
  {
    if n > 0 {
      assert ms[0].key != ms[n].key;
      forall i | 0 <= i < n - 1 ensures ms[1..][i].key != ms[1..][n - 1].key {
        assert ms[1..][i] == ms[i + 1];
      }
      GetAt(ms[1..], n - 1);
    }
  }

  lemma IntentFields(i: Intent)
    ensures var v := IntentJson(i);
      && Field(v, "agent_id") == Some(JStr(i.agent)) && Field(v, "action") == Some(JStr(i.action))
      && Field(v, "payload") == Some(JObj(i.payload)) && Field(v, "requested_amount") == Some(OptionalMoney(i.amount))
      && Field(v, "currency") == Some(OptionalText(i.currency)) && Field(v, "idempotency_key") == Some(JStr(i.key))
      && Field(v, "correlation_id") == Some(OptionalText(i.correlation))
  {
    hide OptionalMoney, OptionalText;
    var ms := IntentJson(i).members;
    GetAt(ms, 0);
    GetAt(ms, 1);
    GetAt(ms, 2);
    GetAt(ms, 3);
    GetAt(ms, 4);
    GetAt(ms, 5);
    GetAt(ms, 6);
  }

  lemma IntentReadsBack(i: Intent)
    ensures Text(Field(IntentJson(i), "agent_id")) == Some(i.agent)
    ensures Text(Field(IntentJson(i), "currency")) == i.currency
    ensures Money(Field(IntentJson(i), "requested_amount")) == i.amount
    ensures Text(Field(IntentJson(i), "idempotency_key")) == Some(i.key)
  {
    hide IntentJson, Field, Money;
    IntentFields(i);
    MoneyReadsBack(if i.amount.Some? then i.amount.value else 0);
  }

  lemma BudgetReadsBack(e: Event, actor: string)
    requires e.BudgetUpdated? || e.Completed?
    ensures EffectOf(EventType(e), actor, EventPayload(e)) == EventEffect(e, actor)
  {
    var ms := EventPayload(e).members;
    GetAt(ms, 0);
    if e.BudgetUpdated? {
      GetAt(ms, 1); GetAt(ms, 2);
      MoneyReadsBack(e.limit);
    } else {
      IntentReadsBack(e.intent);
    }
  }

  lemma HitlReadsBack(e: Event, actor: string)
    requires e.HitlRequested? || e.HitlResolved? || e.HitlExpired?
    ensures EffectOf(EventType(e), actor, EventPayload(e)) == EventEffect(e, actor)
  {
    var ms := EventPayload(e).members;
    GetAt(ms, 0);
    if e.HitlRequested? {
      GetAt(ms, 1);
      IntentReadsBack(e.intent);
    } else if e.HitlResolved? {
      GetAt(ms, 1); GetAt(ms, 2);
    }
  }

  /** An entry's effect can be decoded from the entry: nothing else is needed to replay it. */
  lemma EffectReadsBack(e: Event, actor: string)
    ensures EffectOf(EventType(e), actor, EventPayload(e)) == EventEffect(e, actor)
  {
    if e.BudgetUpdated? || e.Completed? {
      BudgetReadsBack(e, actor);
    } else if e.HitlRequested? || e.HitlResolved? || e.HitlExpired? {
      HitlReadsBack(e, actor);
    } else {
      assert EventType(e)[0] in {'e', 'a', 'p'};
      assert EventType(e)[0] == 'e' ==> EventType(e)[10] in {'f', 'i'};
    }
  }

  // ---------------------------------------------------------------------------------------------
  // The event itself, read back from the entry alone.
  // ---------------------------------------------------------------------------------------------

  function Whole(v: Option<Json>): Option<int> { if v.Some? && v.value.JInt? then Some(v.value.n) else None }

  function TextList(v: Option<Json>): Option<seq<string>>
  {
    if v.Some? && v.value.JArr? && forall x | x in v.value.items :: x.JStr? then
      Some(seq(|v.value.items|, i requires 0 <= i < |v.value.items| => v.value.items[i].s))
    else None
  }

  function OutcomeNamed(name: string): Option<Outcome>
  {
    if name == "allow" then Some(Allow)
    else if name == "require_approval" then Some(RequireApproval)
    else if name == "deny" then Some(Deny)
    else None
  }

  function IntentOf(v: Json): Option<Intent>
  {
    match (Text(Field(v, "agent_id")), Text(Field(v, "action")), Field(v, "payload"), Text(Field(v, "idempotency_key")))
    case (Some(agent), Some(action), Some(JObj(payload)), Some(key)) =>
      Some(Intent(agent, action, payload, Money(Field(v, "requested_amount")), Text(Field(v, "currency")), key,
        Text(Field(v, "correlation_id"))))
    case _ => None
  }

  function DecisionOf(v: Json): Option<PolicyDecision>
  {
    match (Text(Field(v, "outcome")), Whole(Field(v, "risk_score")), TextList(Field(v, "reasons")),
      TextList(Field(v, "policy_ids")))
    case (Some(name), Some(risk), Some(reasons), Some(ids)) =>
      (match OutcomeNamed(name)
       case Some(outcome) =>
         Some(PolicyDecision(outcome, risk, reasons, ids, Money(Field(v, "remaining_budget")),
           Text(Field(v, "hitl_transaction_id"))))
       case None => None)
    case _ => None
  }

  function Inner(payload: Json, name: string): Json
  {
    match Field(payload, name) case Some(v) => v case None => JNull
  }

  function ExecutionEvent(eventType: string, payload: Json): Option<Event>
  {
    match IntentOf(Inner(payload, "intent"))
    case None => None
    case Some(intent) =>
      if eventType == "execution_intent_evaluated" then
        match DecisionOf(Inner(payload, "decision")) case Some(d) => Some(Evaluated(intent, d)) case None => None
      else if eventType == "execution_completed" then Some(Completed(intent))
      else if eventType == "execution_failed" then
        match (Text(Field(payload, "error_type")), Text(Field(payload, "error")))
        case (Some(errorType), Some(error)) => Some(Failed(intent, errorType, error))
        case _ => None
      else None
  }

  function ApprovalEvent(eventType: string, payload: Json): Option<Event>
  {
    match Text(Field(payload, "hitl_transaction_id"))
    case None => None
    case Some(id) =>
      if eventType == "hitl_requested" then
        match (IntentOf(Inner(payload, "intent")), Whole(Field(payload, "risk_score")),
          TextList(Field(payload, "reasons")))
        case (Some(intent), Some(risk), Some(reasons)) => Some(HitlRequested(id, intent, risk, reasons))
        case _ => None
      else if eventType == "hitl_resolved" then
        var decision, comment := Text(Field(payload, "decision")), Text(Field(payload, "comment"));
        if decision == Some("approved") then Some(HitlResolved(id, true, comment))
        else if decision == Some("rejected") then Some(HitlResolved(id, false, comment))
        else None
      else if eventType == "hitl_expired" then Some(HitlExpired(id))
      else None
  }

  function TableEvent(eventType: string, payload: Json): Option<Event>
  {
    if eventType == "budget_updated" then
      match (Text(Field(payload, "agent_id")), Text(Field(payload, "currency")), Money(Field(payload, "limit_amount")))
      case (Some(agent), Some(currency), Some(limit)) => Some(BudgetUpdated(agent, currency, limit))
      case _ => None
    else if eventType == "agent_registered" then
      match Text(Field(payload, "agent_id")) case Some(id) => Some(AgentRegistered(id)) case None => None
    else if eventType == "policy_created" then
      match (Text(Field(payload, "policy_id")), Text(Field(payload, "name")), Whole(Field(payload, "version")))
      case (Some(id), Some(name), Some(version)) => Some(PolicyCreated(id, name, version))
      case _ => None
    else None
  }

  function EventOf(eventType: string, payload: Json): Option<Event>
  {
    if ExecutionEvent(eventType, payload).Some? then ExecutionEvent(eventType, payload)
    else if ApprovalEvent(eventType, payload).Some? then ApprovalEvent(eventType, payload)
    else TableEvent(eventType, payload)
  }

  function EventIn(r: AuditLog): Option<Event> { EventOf(r.eventType, r.payload) }

  lemma TextsReadBack(xs: seq<string>)
    ensures TextList(Some(Texts(xs))) == Some(xs)
  {
    assert TextList(Some(Texts(xs))).value == xs;
  }

  lemma WholeIntentReadsBack(i: Intent)
    ensures IntentOf(IntentJson(i)) == Some(i)
  {
    hide IntentJson, Field, Money;
    IntentFields(i);
    MoneyReadsBack(if i.amount.Some? then i.amount.value else 0);
  }

  lemma DecisionFields(d: PolicyDecision)
    ensures var v := DecisionJson(d);
      && Field(v, "outcome") == Some(JStr(OutcomeText(d.outcome))) && Field(v, "risk_score") == Some(JInt(d.risk))
      && Field(v, "reasons") == Some(Texts(d.reasons)) && Field(v, "policy_ids") == Some(Texts(d.policyIds))
      && Field(v, "remaining_budget") == Some(OptionalMoney(d.remaining))
      && Field(v, "hitl_transaction_id") == Some(OptionalText(d.hitlId))
  {
    hide Texts, OptionalMoney, OptionalText, OutcomeText;
    var ms := DecisionJson(d).members;
    GetAt(ms, 0);
    GetAt(ms, 1);
    GetAt(ms, 2);
    GetAt(ms, 3);
    GetAt(ms, 4);
    GetAt(ms, 5);
  }

  lemma DecisionReadsBack(d: PolicyDecision)
    ensures DecisionOf(DecisionJson(d)) == Some(d)
  {
    hide DecisionJson, Field, Texts, TextList, Money;
    DecisionFields(d);
    MoneyReadsBack(if d.remaining.Some? then d.remaining.value else 0);
    TextsReadBack(d.reasons);
    TextsReadBack(d.policyIds);
  }

  lemma ExecutionReadsBack(e: Event)
    requires e.Evaluated? || e.Completed? || e.Failed?
    ensures ExecutionEvent(EventType(e), EventPayload(e)) == Some(e)
  {
    hide IntentJson, IntentOf, DecisionJson, DecisionOf;
    var ms := EventPayload(e).members;
    assert EventType(e)[10] in {'i', 'c', 'f'};
    WholeIntentReadsBack(e.intent);
    GetAt(ms, 0);
    if e.Evaluated? {
      DecisionReadsBack(e.decision);
      GetAt(ms, 1);
    } else if e.Failed? {
      GetAt(ms, 1);
      GetAt(ms, 2);
    }
  }

  lemma ApprovalReadsBack(e: Event)
    requires e.HitlRequested? || e.HitlResolved? || e.HitlExpired?
    ensures ApprovalEvent(EventType(e), EventPayload(e)) == Some(e)
    ensures ExecutionEvent(EventType(e), EventPayload(e)) == None
  {
    hide IntentJson, IntentOf;
    var ms := EventPayload(e).members;
    assert EventType(e)[0] == 'h';
    GetAt(ms, 0);
    if e.HitlRequested? {
      WholeIntentReadsBack(e.intent);
      TextsReadBack(e.reasons);
      GetAt(ms, 1);
      GetAt(ms, 2);
      GetAt(ms, 3);
    } else if e.HitlResolved? {
      GetAt(ms, 1);
      GetAt(ms, 2);
    }
  }

  lemma TableReadsBack(e: Event)
    requires e.BudgetUpdated? || e.AgentRegistered? || e.PolicyCreated?
    ensures TableEvent(EventType(e), EventPayload(e)) == Some(e)
    ensures ExecutionEvent(EventType(e), EventPayload(e)) == None
      && ApprovalEvent(EventType(e), EventPayload(e)) == None
  {
    hide IntentJson, IntentOf;
    var ms := EventPayload(e).members;
    assert EventType(e)[0] in {'b', 'a', 'p'};
    GetAt(ms, 0);
    if e.BudgetUpdated? {
      MoneyReadsBack(e.limit);
      GetAt(ms, 1);
      GetAt(ms, 2);
    } else if e.PolicyCreated? {
      GetAt(ms, 1);
      GetAt(ms, 2);
    }
  }

  /** Every event, down to its last field, can be read back from the entry that records it. */
  lemma EventReadsBack(e: Event)
    ensures EventOf(EventType(e), EventPayload(e)) == Some(e)
  {
    hide EventType, EventPayload, ExecutionEvent, ApprovalEvent, TableEvent;
    if e.Evaluated? || e.Completed? || e.Failed? {
      ExecutionReadsBack(e);
    } else if e.HitlRequested? || e.HitlResolved? || e.HitlExpired? {
      ApprovalReadsBack(e);
    } else {
      TableReadsBack(e);
    }
  }

  /** The intent an entry is about. */
  function IntentStated(r: AuditLog): Option<Intent> { IntentOf(Inner(r.payload, "intent")) }

  lemma IntentRecorded(e: Event, r: AuditLog)
    requires e.Evaluated? || e.Completed? || e.Failed?
    requires EventIn(r) == Some(e)
    ensures IntentStated(r) == Some(e.intent)
  {
    hide IntentOf, DecisionOf;
  }

  /** The outcome an entry of the evaluation states, as text. */
  function OutcomeStated(r: AuditLog): Option<string> { Text(Field(Inner(r.payload, "decision"), "outcome")) }

  /** A recorded evaluation says in words what was decided. */
  lemma OutcomeInWords(r: AuditLog, intent: Intent, d: PolicyDecision)
    requires EventIn(r) == Some(Evaluated(intent, d))
    ensures r.eventType == "execution_intent_evaluated"
    ensures OutcomeStated(r) == Some("allow") <==> d.outcome == Allow
    ensures OutcomeStated(r) == Some("require_approval") <==> d.outcome == RequireApproval
    ensures OutcomeStated(r) == Some("deny") <==> d.outcome == Deny
    ensures IntentStated(r) == Some(intent) && EntryEffect(r) == NoEffect
  {
    hide IntentOf;
  }
}
