/** The policy engine as it runs inside a transaction. */
module Engine {
  import opened Wrappers
  import opened Schemas
  import opened Governor
  import opened PolicyRules
  import opened Replay
  import opened Protocol
  import opened Services

  datatype EngineError = RuleRaised(e: EvalError) | NoFigure(g: GovernorError)

  /** The figure the decision is based on; a missing budget gives none. */
  ghost predicate FigureFrom(row: Option<Budget>, cell: Option<int>, figure: Option<int>)
  {
    if Usable(row) then figure.Some? && (figure == cell || Left(row.value, figure.value)) else figure.None?
  }

  /** Looking at a budget leaves its cell absent, as it was, or filled from the ledger. */
  ghost predicate Inspected(row: Option<Budget>, before: Option<int>, after: Option<int>)
  {
    after.None? || after == before || (Usable(row) && Left(row.value, after.value))
  }

  class DeterministicPolicyEngine {
    const governor: TokenBucketGovernor
    const lib: Library

    constructor (governor: TokenBucketGovernor, lib: Library)
      ensures this.governor == governor && this.lib == lib
    {
      this.governor, this.lib := governor, lib;
    }

    /** The results of all enabled policies, in order; the first rule that raises ends it. */
    method EvaluatePolicies(policies: seq<Policy>, agent: Agent, intent: Intent)
      returns (r: Result<seq<RuleResult>, EvalError>)
      ensures r == AllResults(lib, policies, agent, intent, |policies|)
    {
      var results: seq<RuleResult> := [];
      for n := 0 to |policies|
        invariant AllResults(lib, policies, agent, intent, n) == Ok(results)
      {
        var one := EvaluatePolicy(lib, policies[n], agent, intent);
        if one.Err? {
          ErrorStopsPolicies(lib, policies, agent, intent, n + 1, |policies|);
          return Err(one.error);
        }
        results := results + one.value;
      }
      r := Ok(results);
    }

    /** `evaluate`, with the ledger row that the session loads for the intent. */
    method EvaluateIntent(store: Store, intent: Intent, row: BudgetRow?)
      returns (r: Result<PolicyDecision, EngineError>, ghost figure: Option<int>)
      requires governor.redis == store.redis
      requires KeyOf(intent).None? ==> row == null
      modifies store.redis
      ensures r.Ok? ==> Evaluate(lib, Find(store.agents, intent.agent), store.policies, intent, figure) == Ok(r.value)
      ensures r.Err? && r.error.RuleRaised? ==>
        Evaluate(lib, Find(store.agents, intent.agent), store.policies, intent, figure) == Err(r.error.e)
      ensures r.Err? && r.error.NoFigure? ==>
        && r.error.g == LostCell && KeyOf(intent).Some? && Usable(RowValue(row))
        && store.redis.Cell(KeyOf(intent).value).None?
      ensures KeyOf(intent).Some? && r.Ok? ==>
        FigureFrom(RowValue(row), old(store.redis.Cell(KeyOf(intent).value)), figure)
      ensures KeyOf(intent).Some? ==>
        store.redis.cells - {KeyOf(intent).value} == old(store.redis.cells) - {KeyOf(intent).value}
      ensures KeyOf(intent).None? ==> store.redis.cells == old(store.redis.cells)
      ensures KeyOf(intent).Some? ==>
        Inspected(RowValue(row), old(store.redis.Cell(KeyOf(intent).value)), store.redis.Cell(KeyOf(intent).value))
    {
      figure := if Usable(RowValue(row)) then Some(Max(Room(RowValue(row).value), 0)) else None;
      if intent.agent !in store.agents || !store.agents[intent.agent].active {
        return Ok(Denied("Agent is not registered or active")), figure;
      }
      var agent := store.agents[intent.agent];
      if intent.action !in agent.allowedActions && "*" !in agent.allowedActions {
        return Ok(Denied("Action is not allowed for agent")), figure;
      }
      var results := EvaluatePolicies(store.policies, agent, intent);
      if results.Err? {
        return Err(RuleRaised(results.error)), figure;
      }
      var remaining: Option<int> := None;
      if intent.amount.Some? {
        if intent.currency.None? {
          return Ok(Denied("Currency is required for financial intent")), figure;
        }
        var reported := governor.RemainingBudget(row, KeyOf(intent).value);
        if reported.Err? {
          return Err(NoFigure(reported.error)), figure;
        }
        remaining := reported.value;
        figure := remaining;
      }
      r := Ok(Decide(BaseRisk(agent.riskTier), results.value + BudgetResult(intent, remaining), remaining));
    }
  }
}
