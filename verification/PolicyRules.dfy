/**
 The rule interpreter: what one rule, one policy and the whole rule set contribute to a decision.

 Reading a decimal out of a condition value and searching the serialised payload are parameters;
 neither sees the requested amount. A condition may raise, and then the evaluation has no decision.
 */
module PolicyRules {
  import opened Wrappers
  import opened Json
  import opened Schemas

  /** What `Decimal(str(value))` can be, in 1/10000 units. */
  datatype Number = NotNumeric | NaN | NegativeInfinity | Finite(r: real) | PositiveInfinity

  datatype Library = Library(decimal: Json -> Number, contains: (Json, seq<Member>) -> bool)

  datatype EvalError = InvalidCondition | NegativeCondition | InvalidComparison | UnhashableEffect

  datatype Threshold = At(r: real) | Unbounded

  function DecimalCondition(lib: Library, v: Json): Result<Threshold, EvalError>
  {
    match lib.decimal(v)
    case NotNumeric => Err(InvalidCondition)
    case NaN => Err(InvalidComparison)
    case NegativeInfinity => Err(NegativeCondition)
    case Finite(r) => if r < 0.0 then Err(NegativeCondition) else Ok(At(r))
    case PositiveInfinity => Ok(Unbounded)
  }

  predicate MatchStringList(v: Json, actual: string)
  {
    && v.JArr?
    && (forall x | x in v.items :: x.JStr?)
    && (JStr(actual) in v.items || JStr("*") in v.items)
  }

  /** Booleans are the numbers 0 and 1 in Python comparisons. */
  function AsNumbers(v: Json): Json
    decreases v
  {
    match v
    case JBool(b) => JInt(if b then 1 else 0)
    case JArr(items) => JArr(seq(|items|, i requires 0 <= i < |items| => AsNumbers(items[i])))
    case JObj(ms) => JObj(seq(|ms|, i requires 0 <= i < |ms| => Member(ms[i].key, AsNumbers(ms[i].value))))
    case _ => v
  }

  predicate PythonEqual(a: Json, b: Json) { Canonical(AsNumbers(a)) == Canonical(AsNumbers(b)) }

  predicate PayloadEquals(expected: Json, actual: seq<Member>)
  {
    expected.JObj? && forall e | e in expected.members :: PythonEqual(GetOr(actual, e.key, JNull), e.value)
  }

  predicate PayloadContains(lib: Library, expected: Json, actual: seq<Member>)
  {
    expected.JObj? && forall e | e in expected.members :: lib.contains(e.value, actual)
  }

  const ALLOWED_KEYS := {
    "actions", "agent_ids", "tenant_ids", "risk_tiers", "amount_gte", "amount_gt", "payload_equals", "payload_contains"}

  function AmountOf(intent: Intent): int { if intent.amount.Some? then intent.amount.value else 0 }

  predicate Selected(cs: seq<Member>, key: string, actual: string)
  {
    match Get(cs, key) case None => true case Some(v) => MatchStringList(v, actual)
  }

  /** One amount condition; the threshold is read, and may raise, before it is compared. */
  function Gate(lib: Library, cs: seq<Member>, key: string, amount: int, strict: bool): Result<bool, EvalError>
  {
    match Get(cs, key)
    case None => Ok(true)
    case Some(v) =>
      match DecimalCondition(lib, v)
      case Err(e) => Err(e)
      case Ok(Unbounded) => Ok(false)
      case Ok(At(r)) => Ok(if strict then amount as real > r else amount as real >= r)
  }

  /** `_matches`, with its order of short-circuiting. */
  function Matches(lib: Library, conditions: Json, agent: Agent, intent: Intent): Result<bool, EvalError>
  {
    if !conditions.JObj? then Ok(false)
    else
      var cs := conditions.members;
      if exists m | m in cs :: m.key !in ALLOWED_KEYS then Ok(false)
      else if !Selected(cs, "actions", intent.action) || !Selected(cs, "agent_ids", agent.id)
        || !Selected(cs, "tenant_ids", agent.tenant) || !Selected(cs, "risk_tiers", agent.riskTier) then Ok(false)
      else
        match Gate(lib, cs, "amount_gte", AmountOf(intent), false)
        case Err(e) => Err(e)
        case Ok(false) => Ok(false)
        case Ok(true) =>
          match Gate(lib, cs, "amount_gt", AmountOf(intent), true)
          case Err(e) => Err(e)
          case Ok(false) => Ok(false)
          case Ok(true) =>
            Ok((match Get(cs, "payload_equals") case None => true case Some(v) => PayloadEquals(v, intent.payload))
            && (match Get(cs, "payload_contains")
               case None => true
               case Some(v) => PayloadContains(lib, v, intent.payload)))
  }

  /** Outcome, risk and policy of a rule result: all of it but the wording. */
  datatype Verdict = Verdict(outcome: Outcome, risk: int, policyId: string)

  function VerdictOf(r: RuleResult): Verdict { Verdict(r.outcome, r.risk, r.policyId) }

  /** `isinstance(risk_score, int)` also holds of booleans. */
  function RiskValue(v: Json): Option<int>
  {
    match v
    case JInt(n) => Some(n)
    case JBool(b) => Some(if b then 1 else 0)
    case _ => None
  }

  /** What a rule object that matches contributes. */
  function RuleVerdict(policyId: string, rule: seq<Member>): Result<Verdict, EvalError>
  {
    var effect := GetOr(rule, "effect", JStr("deny"));
    var risk := GetOr(rule, "risk_score", JInt(50));
    if effect.JArr? || effect.JObj? then Err(UnhashableEffect)
    else if effect !in {JStr("allow"), JStr("deny"), JStr("require_approval")} then Ok(Verdict(Deny, 100, policyId))
    else if !RiskValue(risk).Some? || !(0 <= RiskValue(risk).value <= 100) then Ok(Verdict(Deny, 100, policyId))
    else
      var outcome := if effect == JStr("allow") then Allow else if effect == JStr("deny") then Deny
        else RequireApproval;
      Ok(Verdict(outcome, RiskValue(risk).value, policyId))
  }

  /** The characters that `str.strip` removes. */
  predicate WhiteSpace(c: char)
  {
    var code := c as int;
    || 9 <= code <= 13 || 28 <= code <= 32 || code in {133, 160, 5760, 8232, 8233, 8239, 8287, 12288}
    || 8192 <= code <= 8202
  }

  predicate Blank(s: string) { forall c | c in s :: WhiteSpace(c) }

  /** The wording of a result; `verdict` is what the rule contributes. */
  function RuleReason(policy: Policy, index: int, rule: seq<Member>, verdict: Verdict): string
  {
    var effect := GetOr(rule, "effect", JStr("deny"));
    var risk := RiskValue(GetOr(rule, "risk_score", JInt(50)));
    var matched := "Policy " + policy.name + " rule " + IntOn(index, " matched");
    if effect !in {JStr("allow"), JStr("deny"), JStr("require_approval")} then
      "Invalid effect in policy rule " + IntOn(index, "")
    else if risk.None? || !(0 <= risk.value <= 100) then "Invalid risk_score in policy rule " + IntOn(index, "")
    else
      match GetOr(rule, "reason", JStr(matched))
      case JStr(s) => if Blank(s) then matched else s
      case _ => matched
  }

  /** One turn of the loop over the rules of a policy. */
  function RuleStep(
      lib: Library, policy: Policy, agent: Agent, intent: Intent, index: int, rule: Json)
    : Result<Option<RuleResult>, EvalError>
  {
    if !rule.JObj? then
      Ok(Some(RuleResult(Deny, 100, "Malformed rule at index " + IntOn(index, ""), policy.id)))
    else
      match Matches(lib, GetOr(rule.members, "when", JObj([])), agent, intent)
      case Err(e) => Err(e)
      case Ok(false) => Ok(None)
      case Ok(true) =>
        match RuleVerdict(policy.id, rule.members)
        case Err(e) => Err(e)
        case Ok(v) => Ok(Some(RuleResult(v.outcome, v.risk, RuleReason(policy, index, rule.members, v), v.policyId)))
  }

  function Optional<T>(o: Option<T>): seq<T> { match o case Some(x) => [x] case None => [] }

  /** Results of the first `n` rules; the first rule that raises ends the evaluation. */
  function RuleResults(
      lib: Library, policy: Policy, agent: Agent, intent: Intent, rules: seq<Json>, n: nat)
    : Result<seq<RuleResult>, EvalError>
    requires n <= |rules|
  {
    if n == 0 then Ok([])
    else
      match RuleResults(lib, policy, agent, intent, rules, n - 1)
      case Err(e) => Err(e)
      case Ok(xs) =>
        match RuleStep(lib, policy, agent, intent, n - 1, rules[n - 1])
        case Err(e) => Err(e)
        case Ok(o) => Ok(xs + Optional(o))
  }

  datatype Rules = Malformed(reason: string) | RuleList(rules: seq<Json>)

  function RulesOf(policy: Policy): Rules
  {
    if !policy.definition.JObj? then Malformed("Policy definition is malformed")
    else
      var rules := GetOr(policy.definition.members, "rules", JArr([]));
      if !rules.JArr? then Malformed("Policy rules must be a list") else RuleList(rules.items)
  }

  function PolicyResults(lib: Library, policy: Policy, agent: Agent, intent: Intent): Result<seq<RuleResult>, EvalError>
  {
    match RulesOf(policy)
    case Malformed(reason) => Ok([RuleResult(Deny, 100, reason, policy.id)])
    case RuleList(rules) => RuleResults(lib, policy, agent, intent, rules, |rules|)
  }

  function AllResults(
      lib: Library, policies: seq<Policy>, agent: Agent, intent: Intent, n: nat)
    : Result<seq<RuleResult>, EvalError>
    requires n <= |policies|
  {
    if n == 0 then Ok([])
    else
      match AllResults(lib, policies, agent, intent, n - 1)
      case Err(e) => Err(e)
      case Ok(xs) =>
        match PolicyResults(lib, policies[n - 1], agent, intent)
        case Err(e) => Err(e)
        case Ok(ys) => Ok(xs + ys)
  }

  lemma {:induction false} ErrorStops(
      lib: Library, policy: Policy, agent: Agent, intent: Intent, rules: seq<Json>, m: nat, n: nat)
    requires m <= n <= |rules| && RuleResults(lib, policy, agent, intent, rules, m).Err?
    ensures RuleResults(lib, policy, agent, intent, rules, n) == RuleResults(lib, policy, agent, intent, rules, m)
  {
    if m < n {
      ErrorStops(lib, policy, agent, intent, rules, m, n - 1);
    }
  }

  /** `_evaluate_policy`: the loop that grows the list of results. */
  method EvaluatePolicy(lib: Library, policy: Policy, agent: Agent, intent: Intent)
    returns (r: Result<seq<RuleResult>, EvalError>)
    ensures r == PolicyResults(lib, policy, agent, intent)
  {
    if !policy.definition.JObj? {
      return Ok([RuleResult(Deny, 100, "Policy definition is malformed", policy.id)]);
    }
    var rules := GetOr(policy.definition.members, "rules", JArr([]));
    if !rules.JArr? {
      return Ok([RuleResult(Deny, 100, "Policy rules must be a list", policy.id)]);
    }
    var results: seq<RuleResult> := [];
    for index := 0 to |rules.items|
      invariant RuleResults(lib, policy, agent, intent, rules.items, index) == Ok(results)
    {
      var step := RuleStep(lib, policy, agent, intent, index, rules.items[index]);
      if step.Err? {
        ErrorStops(lib, policy, agent, intent, rules.items, index + 1, |rules.items|);
        return Err(step.error);
      }
      results := results + Optional(step.value);
    }
    r := Ok(results);
  }

  lemma {:induction false} ErrorStopsPolicies(
      lib: Library, policies: seq<Policy>, agent: Agent, intent: Intent, m: nat, n: nat)
    requires m <= n <= |policies| && AllResults(lib, policies, agent, intent, m).Err?
    ensures AllResults(lib, policies, agent, intent, n) == AllResults(lib, policies, agent, intent, m)
  {
    if m < n {
      ErrorStopsPolicies(lib, policies, agent, intent, m, n - 1);
    }
  }

  // ---------------------------------------------------------------------------------------------
  // From results to a decision.
  // ---------------------------------------------------------------------------------------------

  function BaseRisk(tier: string): int
  {
    if tier == "low" then 10
    else if tier == "standard" then 25
    else if tier == "high" then 50
    else if tier == "critical" then 75
    else 100
  }

  function BudgetResult(intent: Intent, remaining: Option<int>): seq<RuleResult>
  {
    if intent.amount.None? then []
    else if remaining.None? then [RuleResult(Deny, 100, "No active budget assigned", "system-budget")]
    else if intent.amount.value > remaining.value then
      [RuleResult(RequireApproval, 90, "Requested amount exceeds remaining budget", "system-budget")]
    else []
  }

  predicate AnyOutcome(results: seq<RuleResult>, o: Outcome) { exists r | r in results :: r.outcome == o }

  function OutcomeOf(results: seq<RuleResult>): Outcome
  {
    if AnyOutcome(results, Deny) then Deny
    else if AnyOutcome(results, RequireApproval) then RequireApproval
    else Allow
  }

  function MaxRisk(base: int, results: seq<RuleResult>): int
  {
    if results == [] then base else Max(results[|results| - 1].risk, MaxRisk(base, results[..|results| - 1]))
  }

  function InsertId(id: string, ids: seq<string>): seq<string>
  {
    if ids == [] then [id]
    else if ids[0] == id then ids
    else if Before(ids[0], id) then [ids[0]] + InsertId(id, ids[1..])
    else [id] + ids
  }

  /** `sorted(set(...))` of the policy identifiers. */
  function SortedIds(results: seq<RuleResult>): seq<string>
  {
    if results == [] then [] else InsertId(results[|results| - 1].policyId, SortedIds(results[..|results| - 1]))
  }

  function Reasons(results: seq<RuleResult>): seq<string>
  {
    if results == [] then ["All deterministic controls passed"]
    else seq(|results|, i requires 0 <= i < |results| => results[i].reason)
  }

  function Decide(base: int, results: seq<RuleResult>, remaining: Option<int>): PolicyDecision
  {
    PolicyDecision(OutcomeOf(results), Min(100, MaxRisk(base, results)), Reasons(results), SortedIds(results),
      remaining, None)
  }

  function Denied(reason: string): PolicyDecision { PolicyDecision(Deny, 100, [reason], [], None, None) }

  /**
   The whole of `evaluate`, given the budget figure the governor reports. The figure is only looked
   at when an amount is requested.
   */
  function Evaluate(
      lib: Library, agent: Option<Agent>, policies: seq<Policy>, intent: Intent,
      remaining: Option<int>): Result<PolicyDecision, EvalError>
  {
    if agent.None? || !agent.value.active then Ok(Denied("Agent is not registered or active"))
    else if intent.action !in agent.value.allowedActions && "*" !in agent.value.allowedActions then
      Ok(Denied("Action is not allowed for agent"))
    else
      match AllResults(lib, policies, agent.value, intent, |policies|)
      case Err(e) => Err(e)
      case Ok(results) =>
        if intent.amount.Some? && intent.currency.None? then Ok(Denied("Currency is required for financial intent"))
        else Ok(Decide(BaseRisk(agent.value.riskTier), results + BudgetResult(intent, remaining),
          if intent.amount.Some? then remaining else None))
  }
}
