/**
 The values that pass between the components. Money is a whole number of 1/10000 currency units,
 the precision of the ledger columns.
 */
module Schemas {
  import opened Wrappers
  import opened Json

  datatype Intent = Intent(
    agent: string,
    action: string,
    payload: seq<Member>,
    amount: Option<int>,
    currency: Option<string>,
    key: string,
    correlation: Option<string>)

  /** What request validation guarantees of the amount. */
  predicate ValidIntent(i: Intent) { i.amount.Some? ==> i.amount.value > 0 }

  datatype Outcome = Allow | RequireApproval | Deny

  datatype RuleResult = RuleResult(outcome: Outcome, risk: int, reason: string, policyId: string)

  datatype PolicyDecision = PolicyDecision(
    outcome: Outcome,
    risk: int,
    reasons: seq<string>,
    policyIds: seq<string>,
    remaining: Option<int>,
    hitlId: Option<string>)

  datatype Agent = Agent(id: string, tenant: string, allowedActions: seq<string>, riskTier: string, active: bool)

  datatype Policy = Policy(id: string, name: string, definition: Json)

  datatype BudgetKey = BudgetKey(agent: string, currency: string)

  function Min(a: int, b: int): int { if a <= b then a else b }

  function Max(a: int, b: int): int { if a >= b then a else b }
}
