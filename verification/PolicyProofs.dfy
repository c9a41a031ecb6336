/**
 What the rule interpreter guarantees: a decision is the join of what its rules contribute, so the
 order of rules and policies cannot matter, more rules cannot soften it, and a larger amount cannot
 soften it either.
 */
module PolicyProofs {
  import opened Wrappers
  import opened Json
  import opened Schemas
  import opened PolicyRules

  // ---------------------------------------------------------------------------------------------
  // Severity: allow < require_approval < deny < error.
  // ---------------------------------------------------------------------------------------------

  function Rank(o: Outcome): nat
  {
    match o case Allow => 0 case RequireApproval => 1 case Deny => 2
  }

  function Severity(r: Result<PolicyDecision, EvalError>): nat
  {
    match r case Ok(d) => Rank(d.outcome) case Err(_) => 3
  }

  predicate AtMostAsSevere(a: Result<PolicyDecision, EvalError>, b: Result<PolicyDecision, EvalError>)
  {
    Severity(a) <= Severity(b) && (a.Ok? && b.Ok? ==> a.value.risk <= b.value.risk)
  }

  // ---------------------------------------------------------------------------------------------
  // What rules contribute, without any position in it.
  // ---------------------------------------------------------------------------------------------

  predicate RuleRaises(lib: Library, policyId: string, agent: Agent, intent: Intent, rule: Json)
  {
    && rule.JObj?
    && var m := Matches(lib, GetOr(rule.members, "when", JObj([])), agent, intent);
       m.Err? || (m.value && RuleVerdict(policyId, rule.members).Err?)
  }

  function RuleContribution(lib: Library, policyId: string, agent: Agent, intent: Intent, rule: Json): Option<Verdict>
    requires !RuleRaises(lib, policyId, agent, intent, rule)
  {
    if !rule.JObj? then Some(Verdict(Deny, 100, policyId))
    else if Matches(lib, GetOr(rule.members, "when", JObj([])), agent, intent).value then
      Some(RuleVerdict(policyId, rule.members).value)
    else None
  }

  predicate RuleGives(lib: Library, policyId: string, agent: Agent, intent: Intent, rule: Json, v: Verdict)
  {
    !RuleRaises(lib, policyId, agent, intent, rule) && RuleContribution(lib, policyId, agent, intent, rule) == Some(v)
  }

  predicate Raises(lib: Library, p: Policy, agent: Agent, intent: Intent)
  {
    RulesOf(p).RuleList? && exists rule | rule in RulesOf(p).rules :: RuleRaises(lib, p.id, agent, intent, rule)
  }

  predicate Gives(lib: Library, p: Policy, agent: Agent, intent: Intent, v: Verdict)
  {
    match RulesOf(p)
    case Malformed(_) => v == Verdict(Deny, 100, p.id)
    case RuleList(rules) => exists rule | rule in rules :: RuleGives(lib, p.id, agent, intent, rule, v)
  }

  predicate Has(results: seq<RuleResult>, v: Verdict) { exists r | r in results :: VerdictOf(r) == v }

  lemma HasConcat(xs: seq<RuleResult>, ys: seq<RuleResult>, v: Verdict)
    ensures Has(xs + ys, v) <==> Has(xs, v) || Has(ys, v)
  {
    if Has(xs, v) { var r :| r in xs && VerdictOf(r) == v; assert r in xs + ys; }
    if Has(ys, v) { var r :| r in ys && VerdictOf(r) == v; assert r in xs + ys; }
  }

  lemma HasOne(r: RuleResult, v: Verdict)
    ensures Has([r], v) <==> VerdictOf(r) == v
    ensures !Has([], v)
  {
    assert r in [r];
  }

  lemma StepGives(lib: Library, p: Policy, agent: Agent, intent: Intent, index: int, rule: Json, v: Verdict)
    ensures RuleStep(lib, p, agent, intent, index, rule).Err? <==> RuleRaises(lib, p.id, agent, intent, rule)
    ensures var s := RuleStep(lib, p, agent, intent, index, rule);
      s.Ok? ==> (Has(Optional(s.value), v) <==> RuleGives(lib, p.id, agent, intent, rule, v))
  {
    var s := RuleStep(lib, p, agent, intent, index, rule);
    if s.Ok? && s.value.Some? {
      HasOne(s.value.value, v);
    }
  }

  predicate SomeRaises(lib: Library, policyId: string, agent: Agent, intent: Intent, rules: seq<Json>, n: nat)
    requires n <= |rules|
  {
    n > 0 && (SomeRaises(lib, policyId, agent, intent, rules, n - 1)
      || RuleRaises(lib, policyId, agent, intent, rules[n - 1]))
  }

  predicate SomeGives(
      lib: Library, policyId: string, agent: Agent, intent: Intent, rules: seq<Json>, n: nat, v: Verdict)
    requires n <= |rules|
  {
    n > 0 && (SomeGives(lib, policyId, agent, intent, rules, n - 1, v)
      || RuleGives(lib, policyId, agent, intent, rules[n - 1], v))
  }

  lemma {:induction false} SomeIsExists(
      lib: Library, policyId: string, agent: Agent, intent: Intent, rules: seq<Json>, n: nat, v: Verdict)
    requires n <= |rules|
    ensures SomeRaises(lib, policyId, agent, intent, rules, n) <==>
      exists rule | rule in rules[..n] :: RuleRaises(lib, policyId, agent, intent, rule)
    ensures SomeGives(lib, policyId, agent, intent, rules, n, v) <==>
      exists rule | rule in rules[..n] :: RuleGives(lib, policyId, agent, intent, rule, v)
  {
    if n > 0 {
      SomeIsExists(lib, policyId, agent, intent, rules, n - 1, v);
      assert rules[..n] == rules[..n - 1] + [rules[n - 1]];
    }
  }

  lemma {:induction false} RuleResultsJoin(
      lib: Library, p: Policy, agent: Agent, intent: Intent, rules: seq<Json>, n: nat, v: Verdict)
    requires n <= |rules|
    ensures RuleResults(lib, p, agent, intent, rules, n).Err? <==> SomeRaises(lib, p.id, agent, intent, rules, n)
    ensures var r := RuleResults(lib, p, agent, intent, rules, n);
      r.Ok? ==> (Has(r.value, v) <==> SomeGives(lib, p.id, agent, intent, rules, n, v))
  {
    if n > 0 {
      RuleResultsJoin(lib, p, agent, intent, rules, n - 1, v);
      StepGives(lib, p, agent, intent, n - 1, rules[n - 1], v);
      var before := RuleResults(lib, p, agent, intent, rules, n - 1);
      var step := RuleStep(lib, p, agent, intent, n - 1, rules[n - 1]);
      if before.Ok? && step.Ok? {
        HasConcat(before.value, Optional(step.value), v);
      }
    }
  }

  lemma PolicyResultsJoin(lib: Library, p: Policy, agent: Agent, intent: Intent, v: Verdict)
    ensures PolicyResults(lib, p, agent, intent).Err? <==> Raises(lib, p, agent, intent)
    ensures var r := PolicyResults(lib, p, agent, intent);
      r.Ok? ==> (Has(r.value, v) <==> Gives(lib, p, agent, intent, v))
  {
    match RulesOf(p)
    case Malformed(reason) =>
      HasOne(RuleResult(Deny, 100, reason, p.id), v);
    case RuleList(rules) =>
      RuleResultsJoin(lib, p, agent, intent, rules, |rules|, v);
      SomeIsExists(lib, p.id, agent, intent, rules, |rules|, v);
      assert rules[..|rules|] == rules;
  }

  lemma {:induction false} AllResultsJoin(
      lib: Library, ps: seq<Policy>, agent: Agent, intent: Intent, n: nat, v: Verdict)
    requires n <= |ps|
    ensures AllResults(lib, ps, agent, intent, n).Err? <==> exists p | p in ps[..n] :: Raises(lib, p, agent, intent)
    ensures var r := AllResults(lib, ps, agent, intent, n);
      r.Ok? ==> (Has(r.value, v) <==> exists p | p in ps[..n] :: Gives(lib, p, agent, intent, v))
  {
    hide PolicyResults, Raises, Gives;
    if n > 0 {
      AllResultsJoin(lib, ps, agent, intent, n - 1, v);
      PolicyResultsJoin(lib, ps[n - 1], agent, intent, v);
      assert ps[..n] == ps[..n - 1] + [ps[n - 1]];
      var before := AllResults(lib, ps, agent, intent, n - 1);
      var last := PolicyResults(lib, ps[n - 1], agent, intent);
      if before.Ok? && last.Ok? {
        HasConcat(before.value, last.value, v);
      }
    }
  }

  // ---------------------------------------------------------------------------------------------
  // A decision reads its results only through the set of their verdicts.
  // ---------------------------------------------------------------------------------------------

  ghost predicate Covered(xs: seq<RuleResult>, ys: seq<RuleResult>) { forall v | Has(xs, v) :: Has(ys, v) }

  lemma {:induction false} MaxRiskBounds(base: int, xs: seq<RuleResult>)
    ensures base <= MaxRisk(base, xs)
    ensures forall r | r in xs :: r.risk <= MaxRisk(base, xs)
    ensures MaxRisk(base, xs) == base || exists r | r in xs :: r.risk == MaxRisk(base, xs)
  {
    if xs != [] {
      var n := |xs| - 1;
      MaxRiskBounds(base, xs[..n]);
      assert xs == xs[..n] + [xs[n]];
      assert xs[n] in xs;
    }
  }

  lemma CoveredWeaker(base: int, xs: seq<RuleResult>, ys: seq<RuleResult>)
    requires Covered(xs, ys)
    ensures Rank(OutcomeOf(xs)) <= Rank(OutcomeOf(ys))
    ensures MaxRisk(base, xs) <= MaxRisk(base, ys)
  {
    MaxRiskBounds(base, xs);
    MaxRiskBounds(base, ys);
    forall r | r in xs ensures exists q :: q in ys && VerdictOf(q) == VerdictOf(r) {
      assert Has(xs, VerdictOf(r));
      assert Has(ys, VerdictOf(r));
    }
  }

  predicate Ascending(ids: seq<string>)
  {
    ids == [] || ((forall x | x in ids[1..] :: Before(ids[0], x)) && Ascending(ids[1..]))
  }

  lemma {:induction false} InsertIdAscending(id: string, ids: seq<string>)
    requires Ascending(ids)
    ensures Ascending(InsertId(id, ids))
    ensures forall x :: x in InsertId(id, ids) <==> x == id || x in ids
  {
    if ids != [] {
      assert ids == [ids[0]] + ids[1..];
      BeforeTrichotomy(ids[0], id);
      if ids[0] == id {
      } else if Before(ids[0], id) {
        InsertIdAscending(id, ids[1..]);
        assert InsertId(id, ids)[1..] == InsertId(id, ids[1..]);
      } else {
        forall x | x in ids ensures Before(id, x) {
          if x != ids[0] { BeforeTransitive(id, ids[0], x); }
        }
        assert InsertId(id, ids)[1..] == ids;
      }
    }
  }

  lemma {:induction false} SortedIdsAscending(xs: seq<RuleResult>)
    ensures Ascending(SortedIds(xs))
    ensures forall id :: id in SortedIds(xs) <==> exists r | r in xs :: r.policyId == id
  {
    if xs != [] {
      var n := |xs| - 1;
      SortedIdsAscending(xs[..n]);
      InsertIdAscending(xs[n].policyId, SortedIds(xs[..n]));
      assert xs == xs[..n] + [xs[n]];
      assert xs[n] in xs;
    }
  }

  lemma {:induction false} AscendingUnique(a: seq<string>, b: seq<string>)
    requires Ascending(a) && Ascending(b)
    requires forall x :: x in a <==> x in b
    ensures a == b
  {
    assert a != [] ==> a[0] in b;
    assert b != [] ==> b[0] in a;
    if a != [] {
      assert b == [b[0]] + b[1..] && a == [a[0]] + a[1..];
      BeforeTrichotomy(a[0], b[0]);
      assert a[0] == b[0];
      BeforeTrichotomy(a[0], a[0]);
      forall x ensures x in a[1..] <==> x in b[1..] {
        assert x in a <==> x in b;
      }
      AscendingUnique(a[1..], b[1..]);
    }
  }

  lemma SameVerdictsSameDecision(base: int, xs: seq<RuleResult>, ys: seq<RuleResult>, remaining: Option<int>)
    requires Covered(xs, ys) && Covered(ys, xs)
    ensures var d, e := Decide(base, xs, remaining), Decide(base, ys, remaining);
      d.outcome == e.outcome && d.risk == e.risk && d.policyIds == e.policyIds && d.remaining == e.remaining
  {
    CoveredWeaker(base, xs, ys);
    CoveredWeaker(base, ys, xs);
    SortedIdsAscending(xs);
    SortedIdsAscending(ys);
    forall id ensures id in SortedIds(xs) <==> id in SortedIds(ys) {
      if id in SortedIds(xs) { var r :| r in xs && r.policyId == id; assert Has(xs, VerdictOf(r)); }
      if id in SortedIds(ys) { var r :| r in ys && r.policyId == id; assert Has(ys, VerdictOf(r)); }
    }
    AscendingUnique(SortedIds(xs), SortedIds(ys));
  }

  // ---------------------------------------------------------------------------------------------
  // The decision is the join of the contributions.
  // ---------------------------------------------------------------------------------------------

  /** The agent is registered, active and permitted the action; otherwise no policy is looked at. */
  predicate Admitted(agent: Option<Agent>, intent: Intent)
  {
    && agent.Some? && agent.value.active
    && (intent.action in agent.value.allowedActions || "*" in agent.value.allowedActions)
  }

  predicate Contributes(lib: Library, ps: seq<Policy>, agent: Agent, intent: Intent, remaining: Option<int>, v: Verdict)
  {
    (exists p | p in ps :: Gives(lib, p, agent, intent, v)) || Has(BudgetResult(intent, remaining), v)
  }

  lemma ResultsAre(lib: Library, ps: seq<Policy>, agent: Agent, intent: Intent, remaining: Option<int>, v: Verdict)
    ensures var r := AllResults(lib, ps, agent, intent, |ps|);
      && (r.Err? <==> exists p | p in ps :: Raises(lib, p, agent, intent))
      && (r.Ok? ==> (Has(r.value + BudgetResult(intent, remaining), v) <==>
        Contributes(lib, ps, agent, intent, remaining, v)))
  {
    AllResultsJoin(lib, ps, agent, intent, |ps|, v);
    assert ps[..|ps|] == ps;
    var r := AllResults(lib, ps, agent, intent, |ps|);
    if r.Ok? {
      HasConcat(r.value, BudgetResult(intent, remaining), v);
    }
  }

  lemma RisksInRange(lib: Library, ps: seq<Policy>, agent: Agent, intent: Intent, remaining: Option<int>, v: Verdict)
    requires Contributes(lib, ps, agent, intent, remaining, v)
    ensures 0 <= v.risk <= 100
  {
  }

  lemma JoinOfResults(base: int, xs: seq<RuleResult>, remaining: Option<int>)
    requires base <= 100 && forall v | Has(xs, v) :: v.risk <= 100
    ensures var d := Decide(base, xs, remaining);
      && (d.outcome == Deny <==> exists v :: Has(xs, v) && v.outcome == Deny)
      && (d.outcome == Allow <==> forall v :: Has(xs, v) ==> v.outcome == Allow)
      && base <= d.risk && (forall v :: Has(xs, v) ==> v.risk <= d.risk)
      && (d.risk == base || exists v :: Has(xs, v) && v.risk == d.risk)
      && Ascending(d.policyIds)
      && (forall id :: id in d.policyIds <==> exists v :: Has(xs, v) && v.policyId == id)
  {
    forall r | r in xs ensures Has(xs, VerdictOf(r)) {
    }
    MaxRiskBounds(base, xs);
    SortedIdsAscending(xs);
    var d := Decide(base, xs, remaining);
    if d.risk != base {
      var r :| r in xs && r.risk == MaxRisk(base, xs);
      assert Has(xs, VerdictOf(r)) && VerdictOf(r).risk <= 100;
    }
    forall id ensures id in d.policyIds <==> exists v :: Has(xs, v) && v.policyId == id {
      if id in d.policyIds { var r :| r in xs && r.policyId == id; assert Has(xs, VerdictOf(r)); }
    }
  }

  /**
   An admitted evaluation raises exactly when some rule raises; otherwise outcome, risk and policy
   identifiers are the join over everything that contributes.
   */
  lemma DecisionIsJoin(lib: Library, agent: Option<Agent>, ps: seq<Policy>, intent: Intent, remaining: Option<int>)
    requires Admitted(agent, intent)
    ensures var r := Evaluate(lib, agent, ps, intent, remaining);
      && (r.Err? <==> exists p | p in ps :: Raises(lib, p, agent.value, intent))
      && (r.Ok? && !(intent.amount.Some? && intent.currency.None?) ==>
        && (r.value.outcome == Deny <==>
          exists v :: Contributes(lib, ps, agent.value, intent, remaining, v) && v.outcome == Deny)
        && (r.value.outcome == Allow <==>
          forall v :: Contributes(lib, ps, agent.value, intent, remaining, v) ==> v.outcome == Allow)
        && BaseRisk(agent.value.riskTier) <= r.value.risk
        && (forall v :: Contributes(lib, ps, agent.value, intent, remaining, v) ==> v.risk <= r.value.risk)
        && (r.value.risk == BaseRisk(agent.value.riskTier)
          || exists v :: Contributes(lib, ps, agent.value, intent, remaining, v) && v.risk == r.value.risk)
        && Ascending(r.value.policyIds)
        && (forall id :: id in r.value.policyIds <==>
          exists v :: Contributes(lib, ps, agent.value, intent, remaining, v) && v.policyId == id))
  {
    hide AllResults, BudgetResult, Raises, Gives, Contributes, OutcomeOf, MaxRisk, SortedIds, Reasons;
    var a := agent.value;
    ResultsAre(lib, ps, a, intent, remaining, Verdict(Deny, 0, ""));
    var all := AllResults(lib, ps, a, intent, |ps|);
    if all.Ok? && !(intent.amount.Some? && intent.currency.None?) {
      var xs := all.value + BudgetResult(intent, remaining);
      forall v ensures Has(xs, v) <==> Contributes(lib, ps, a, intent, remaining, v) {
        ResultsAre(lib, ps, a, intent, remaining, v);
      }
      forall v | Contributes(lib, ps, a, intent, remaining, v) ensures v.risk <= 100 {
        RisksInRange(lib, ps, a, intent, remaining, v);
      }
      JoinOfResults(BaseRisk(a.riskTier), xs, remaining);
    }
  }

  // ---------------------------------------------------------------------------------------------
  // Order independence and strengthening.
  // ---------------------------------------------------------------------------------------------

  /** A policy without the order of its rules. */
  datatype Shape = Broken(id: string) | Bag(id: string, rules: multiset<Json>)

  ghost function ShapeOf(p: Policy): Shape
  {
    match RulesOf(p) case Malformed(_) => Broken(p.id) case RuleList(rules) => Bag(p.id, multiset(rules))
  }

  ghost function Shapes(ps: seq<Policy>): (r: seq<Shape>)
    ensures |r| == |ps| && forall i | 0 <= i < |ps| :: r[i] == ShapeOf(ps[i])
  {
    seq(|ps|, i requires 0 <= i < |ps| => ShapeOf(ps[i]))
  }

  /** The same policies in another order, each with its rules in another order. */
  ghost predicate Rearranged(ps: seq<Policy>, qs: seq<Policy>) { multiset(Shapes(ps)) == multiset(Shapes(qs)) }

  /** `q` is `p` with further rules. */
  ghost predicate Strengthened(p: Policy, q: Policy)
  {
    && p.id == q.id
    && (RulesOf(p).Malformed? <==> RulesOf(q).Malformed?)
    && (RulesOf(p).RuleList? ==> forall rule | rule in RulesOf(p).rules :: rule in RulesOf(q).rules)
  }

  ghost predicate AllStrengthened(ps: seq<Policy>, qs: seq<Policy>)
  {
    forall p | p in ps :: exists q | q in qs :: Strengthened(p, q)
  }

  lemma SameShapeStrengthened(p: Policy, q: Policy)
    requires ShapeOf(p) == ShapeOf(q)
    ensures Strengthened(p, q)
  {
    if RulesOf(p).RuleList? {
      forall rule | rule in RulesOf(p).rules ensures rule in RulesOf(q).rules {
        assert rule in multiset(RulesOf(q).rules);
      }
    }
  }

  lemma RearrangedStrengthens(ps: seq<Policy>, qs: seq<Policy>)
    requires Rearranged(ps, qs)
    ensures AllStrengthened(ps, qs)
  {
    forall p | p in ps ensures exists q | q in qs :: Strengthened(p, q) {
      var i :| 0 <= i < |ps| && ps[i] == p;
      assert Shapes(ps)[i] in multiset(Shapes(qs));
      var j :| 0 <= j < |qs| && Shapes(qs)[j] == ShapeOf(p);
      SameShapeStrengthened(p, qs[j]);
    }
  }

  lemma StrengthenedGives(lib: Library, agent: Agent, p: Policy, q: Policy, intent: Intent, v: Verdict)
    requires Strengthened(p, q)
    ensures Raises(lib, p, agent, intent) ==> Raises(lib, q, agent, intent)
    ensures Gives(lib, p, agent, intent, v) ==> Gives(lib, q, agent, intent, v)
  {
  }

  lemma StrengthenedContributes(
      lib: Library, agent: Agent, ps: seq<Policy>, qs: seq<Policy>, intent: Intent, remaining: Option<int>, v: Verdict)
    requires AllStrengthened(ps, qs)
    ensures (exists p | p in ps :: Raises(lib, p, agent, intent)) ==>
      exists q | q in qs :: Raises(lib, q, agent, intent)
    ensures Contributes(lib, ps, agent, intent, remaining, v) ==> Contributes(lib, qs, agent, intent, remaining, v)
  {
    if p :| p in ps && Raises(lib, p, agent, intent) {
      var q :| q in qs && Strengthened(p, q);
      StrengthenedGives(lib, agent, p, q, intent, v);
    }
    if p :| p in ps && Gives(lib, p, agent, intent, v) {
      var q :| q in qs && Strengthened(p, q);
      StrengthenedGives(lib, agent, p, q, intent, v);
    }
  }

  lemma StrengthenedCovers(
      lib: Library, agent: Agent, ps: seq<Policy>, qs: seq<Policy>, intent: Intent, remaining: Option<int>)
    requires AllStrengthened(ps, qs)
    ensures var r, s := AllResults(lib, ps, agent, intent, |ps|), AllResults(lib, qs, agent, intent, |qs|);
      && (r.Err? ==> s.Err?)
      && (r.Ok? && s.Ok? ==>
        Covered(r.value + BudgetResult(intent, remaining), s.value + BudgetResult(intent, remaining)))
  {
    var r, s := AllResults(lib, ps, agent, intent, |ps|), AllResults(lib, qs, agent, intent, |qs|);
    forall v
      ensures r.Ok? && s.Ok? && Has(r.value + BudgetResult(intent, remaining), v) ==>
        Has(s.value + BudgetResult(intent, remaining), v)
    {
      ResultsAre(lib, ps, agent, intent, remaining, v);
      ResultsAre(lib, qs, agent, intent, remaining, v);
      StrengthenedContributes(lib, agent, ps, qs, intent, remaining, v);
    }
    assert r.Err? ==> s.Err? by {
      var v := Verdict(Deny, 0, "");
      ResultsAre(lib, ps, agent, intent, remaining, v);
      ResultsAre(lib, qs, agent, intent, remaining, v);
      StrengthenedContributes(lib, agent, ps, qs, intent, remaining, v);
    }
  }

  /** Adding rules to policies, or policies to the set, never softens a decision. */
  lemma StrengtheningNeverSoftens(
      lib: Library, agent: Option<Agent>, ps: seq<Policy>, qs: seq<Policy>, intent: Intent, remaining: Option<int>)
    requires AllStrengthened(ps, qs)
    ensures AtMostAsSevere(Evaluate(lib, agent, ps, intent, remaining), Evaluate(lib, agent, qs, intent, remaining))
  {
    if Admitted(agent, intent) {
      StrengthenedCovers(lib, agent.value, ps, qs, intent, remaining);
      var r, s := AllResults(lib, ps, agent.value, intent, |ps|), AllResults(lib, qs, agent.value, intent, |qs|);
      if r.Ok? && s.Ok? {
        CoveredWeaker(BaseRisk(agent.value.riskTier), r.value + BudgetResult(intent, remaining),
          s.value + BudgetResult(intent, remaining));
      }
    }
  }

  /** Neither the order of the policies nor the order of the rules inside them matters. */
  lemma OrderIndependent(
      lib: Library, agent: Option<Agent>, ps: seq<Policy>, qs: seq<Policy>, intent: Intent, remaining: Option<int>)
    requires Rearranged(ps, qs)
    ensures var r, s := Evaluate(lib, agent, ps, intent, remaining), Evaluate(lib, agent, qs, intent, remaining);
      && (r.Err? <==> s.Err?)
      && (r.Ok? ==>
        && r.value.outcome == s.value.outcome && r.value.risk == s.value.risk
        && r.value.policyIds == s.value.policyIds && r.value.remaining == s.value.remaining)
  {
    RearrangedStrengthens(ps, qs);
    RearrangedStrengthens(qs, ps);
    if Admitted(agent, intent) {
      StrengthenedCovers(lib, agent.value, ps, qs, intent, remaining);
      StrengthenedCovers(lib, agent.value, qs, ps, intent, remaining);
      var r, s := AllResults(lib, ps, agent.value, intent, |ps|), AllResults(lib, qs, agent.value, intent, |qs|);
      if r.Ok? && s.Ok? {
        SameVerdictsSameDecision(BaseRisk(agent.value.riskTier), r.value + BudgetResult(intent, remaining),
          s.value + BudgetResult(intent, remaining),
          if intent.amount.Some? then remaining else None);
      }
    }
  }

  // ---------------------------------------------------------------------------------------------
  // Amount monotonicity.
  // ---------------------------------------------------------------------------------------------

  /** `j` is `i` with a larger amount; asking for no amount is least. */
  predicate Raised(i: Intent, j: Intent)
  {
    && j == i.(amount := j.amount)
    && (i.amount.Some? ==> j.amount.Some? && i.amount.value <= j.amount.value)
  }

  /** A condition moves from "no" to "yes" to "raises" as the amount grows. */
  lemma MatchesMonotone(lib: Library, conditions: Json, agent: Agent, i: Intent, j: Intent)
    requires ValidIntent(i) && ValidIntent(j) && Raised(i, j)
    ensures var m, n := Matches(lib, conditions, agent, i), Matches(lib, conditions, agent, j);
      && (m.Err? ==> n.Err?)
      && (m == Ok(true) ==> n.Err? || n == Ok(true))
  {
    assert AmountOf(i) <= AmountOf(j);
  }

  lemma RaisedGives(lib: Library, p: Policy, agent: Agent, i: Intent, j: Intent, v: Verdict)
    requires ValidIntent(i) && ValidIntent(j) && Raised(i, j)
    ensures Raises(lib, p, agent, i) ==> Raises(lib, p, agent, j)
    ensures Gives(lib, p, agent, i, v) ==> Gives(lib, p, agent, j, v) || Raises(lib, p, agent, j)
  {
    if RulesOf(p).RuleList? {
      forall rule | rule in RulesOf(p).rules
        ensures RuleRaises(lib, p.id, agent, i, rule) ==> RuleRaises(lib, p.id, agent, j, rule)
        ensures RuleGives(lib, p.id, agent, i, rule, v) ==>
          RuleGives(lib, p.id, agent, j, rule, v) || RuleRaises(lib, p.id, agent, j, rule)
      {
        if rule.JObj? {
          MatchesMonotone(lib, GetOr(rule.members, "when", JObj([])), agent, i, j);
        }
      }
    }
  }

  /** Some result in `ys` is at least as severe and at least as risky. */
  predicate Dominated(x: RuleResult, ys: seq<RuleResult>)
  {
    exists y | y in ys :: Rank(x.outcome) <= Rank(y.outcome) && x.risk <= y.risk
  }

  lemma RaisedCovers(lib: Library, agent: Agent, ps: seq<Policy>, i: Intent, j: Intent, remaining: Option<int>)
    requires ValidIntent(i) && ValidIntent(j) && Raised(i, j)
    ensures var r, s := AllResults(lib, ps, agent, i, |ps|), AllResults(lib, ps, agent, j, |ps|);
      && (r.Err? ==> s.Err?)
      && (r.Ok? && s.Ok? ==>
        forall x | x in r.value + BudgetResult(i, remaining) :: Dominated(x, s.value + BudgetResult(j, remaining)))
  {
    hide AllResults, Raises, Rank;
    var r, s := AllResults(lib, ps, agent, i, |ps|), AllResults(lib, ps, agent, j, |ps|);
    var none := Verdict(Deny, 0, "");
    ResultsAre(lib, ps, agent, i, remaining, none);
    ResultsAre(lib, ps, agent, j, remaining, none);
    if p :| p in ps && Raises(lib, p, agent, i) {
      RaisedGives(lib, p, agent, i, j, none);
    }
    if r.Ok? && s.Ok? {
      var ys := s.value + BudgetResult(j, remaining);
      forall x | x in r.value + BudgetResult(i, remaining) ensures Dominated(x, ys) {
        var v := VerdictOf(x);
        assert Has(r.value + BudgetResult(i, remaining), v);
        ResultsAre(lib, ps, agent, i, remaining, v);
        ResultsAre(lib, ps, agent, j, remaining, v);
        if p :| p in ps && Gives(lib, p, agent, i, v) {
          RaisedGives(lib, p, agent, i, j, v);
        } else {
          assert BudgetResult(i, remaining) == BudgetResult(j, remaining);
        }
        assert Has(ys, v);
      }
    }
  }

  lemma DominatedDecision(base: int, xs: seq<RuleResult>, ys: seq<RuleResult>)
    requires forall x | x in xs :: Dominated(x, ys)
    ensures Rank(OutcomeOf(xs)) <= Rank(OutcomeOf(ys))
    ensures MaxRisk(base, xs) <= MaxRisk(base, ys)
  {
    MaxRiskBounds(base, xs);
    MaxRiskBounds(base, ys);
    if x :| x in xs && x.risk == MaxRisk(base, xs) {
      assert Dominated(x, ys);
    }
    if x :| x in xs && x.outcome == OutcomeOf(xs) {
      assert Dominated(x, ys);
    }
  }

  /** With all else fixed, asking for more is never judged more leniently. */
  lemma AmountMonotone(
      lib: Library, agent: Option<Agent>, ps: seq<Policy>, i: Intent, j: Intent, remaining: Option<int>)
    requires ValidIntent(i) && ValidIntent(j) && Raised(i, j)
    ensures AtMostAsSevere(Evaluate(lib, agent, ps, i, remaining), Evaluate(lib, agent, ps, j, remaining))
  {
    hide AllResults, Dominated, MaxRisk, OutcomeOf, SortedIds, Reasons, BaseRisk;
    if Admitted(agent, i) {
      RaisedCovers(lib, agent.value, ps, i, j, remaining);
      var r, s := AllResults(lib, ps, agent.value, i, |ps|), AllResults(lib, ps, agent.value, j, |ps|);
      if r.Ok? && s.Ok? {
        DominatedDecision(BaseRisk(agent.value.riskTier), r.value + BudgetResult(i, remaining),
          s.value + BudgetResult(j, remaining));
      }
    }
  }

  // ---------------------------------------------------------------------------------------------
  // Malformed policies: which of them fail closed.
  // ---------------------------------------------------------------------------------------------

  function WhenOf(rule: seq<Member>): Json { GetOr(rule, "when", JObj([])) }

  /** A selector that is no list of strings. */
  predicate BadList(cs: seq<Member>, key: string)
  {
    Get(cs, key).Some? && !(Get(cs, key).value.JArr? && forall x | x in Get(cs, key).value.items :: x.JStr?)
  }

  predicate BadSelector(cs: seq<Member>)
  {
    BadList(cs, "actions") || BadList(cs, "agent_ids") || BadList(cs, "tenant_ids") || BadList(cs, "risk_tiers")
  }

  /** An amount that is no number, or a negative one. */
  predicate BadAmount(lib: Library, cs: seq<Member>)
  {
    || (Get(cs, "amount_gte").Some? && DecimalCondition(lib, Get(cs, "amount_gte").value).Err?)
    || (Get(cs, "amount_gt").Some? && DecimalCondition(lib, Get(cs, "amount_gt").value).Err?)
  }

  /** A comparison with the payload that is no object. */
  predicate BadPayload(cs: seq<Member>)
  {
    || (Get(cs, "payload_equals").Some? && !Get(cs, "payload_equals").value.JObj?)
    || (Get(cs, "payload_contains").Some? && !Get(cs, "payload_contains").value.JObj?)
  }

  predicate UnknownKey(cs: seq<Member>) { exists m | m in cs :: m.key !in ALLOWED_KEYS }

  predicate MalformedWhen(lib: Library, conditions: Json)
  {
    || !conditions.JObj? || UnknownKey(conditions.members)
    || BadSelector(conditions.members) || BadAmount(lib, conditions.members) || BadPayload(conditions.members)
  }

  /** The malformed conditions that give up quietly, whatever the intent. */
  predicate InertWhen(lib: Library, conditions: Json)
  {
    || !conditions.JObj? || UnknownKey(conditions.members) || BadSelector(conditions.members)
    || (BadPayload(conditions.members) && !BadAmount(lib, conditions.members))
  }

  predicate MalformedEffect(rule: seq<Member>)
  {
    GetOr(rule, "effect", JStr("deny")) !in {JStr("allow"), JStr("deny"), JStr("require_approval")}
  }

  predicate MalformedRisk(rule: seq<Member>)
  {
    var risk := RiskValue(GetOr(rule, "risk_score", JInt(50)));
    risk.None? || !(0 <= risk.value <= 100)
  }

  predicate MalformedRule(lib: Library, rule: Json)
  {
    || !rule.JObj? || MalformedWhen(lib, WhenOf(rule.members))
    || MalformedEffect(rule.members) || MalformedRisk(rule.members)
  }

  /** A rule that is no object, or whose condition is looked at and holds or raises. */
  predicate Noticed(lib: Library, agent: Agent, intent: Intent, rule: Json)
  {
    rule.JObj? ==> var m := Matches(lib, WhenOf(rule.members), agent, intent); m.Err? || m.value
  }

  /** The rule ends the evaluation by raising, or puts a denial into it. */
  predicate FailsClosed(lib: Library, policyId: string, agent: Agent, intent: Intent, rule: Json)
  {
    || RuleRaises(lib, policyId, agent, intent, rule)
    || (RuleContribution(lib, policyId, agent, intent, rule).Some?
        && RuleContribution(lib, policyId, agent, intent, rule).value.outcome == Deny)
  }

  lemma InertNeverMatches(lib: Library, conditions: Json, agent: Agent, intent: Intent)
    requires InertWhen(lib, conditions)
    ensures Matches(lib, conditions, agent, intent) == Ok(false)
  {
  }

  /** A malformed condition never holds: it is passed over, or it raises. */
  lemma MalformedNeverHolds(lib: Library, conditions: Json, agent: Agent, intent: Intent)
    requires MalformedWhen(lib, conditions)
    ensures var m := Matches(lib, conditions, agent, intent); m.Err? || m == Ok(false)
    ensures !(conditions.JObj? && BadAmount(lib, conditions.members)) ==>
      Matches(lib, conditions, agent, intent) == Ok(false)
  {
  }

  /** Of the malformed rules, exactly those that are noticed fail closed, and the others do nothing. */
  lemma MalformedRuleClosedIff(lib: Library, policyId: string, agent: Agent, intent: Intent, rule: Json)
    requires MalformedRule(lib, rule)
    ensures FailsClosed(lib, policyId, agent, intent, rule) <==> Noticed(lib, agent, intent, rule)
    ensures !Noticed(lib, agent, intent, rule) ==> RuleContribution(lib, policyId, agent, intent, rule) == None
  {
    hide Matches, MalformedWhen;
    if rule.JObj? && MalformedWhen(lib, WhenOf(rule.members)) {
      MalformedNeverHolds(lib, WhenOf(rule.members), agent, intent);
    }
  }

  predicate DeniesOrRaises(r: Result<PolicyDecision, EvalError>) { r.Err? || r.value.outcome == Deny }

  /** The guard of the branches that fail closed, over a whole policy. */
  predicate Alarms(lib: Library, p: Policy, agent: Agent, intent: Intent)
  {
    match RulesOf(p)
    case Malformed(_) => true
    case RuleList(rules) => exists rule | rule in rules :: MalformedRule(lib, rule) && Noticed(lib, agent, intent, rule)
  }

  lemma AlarmContributes(lib: Library, p: Policy, agent: Agent, intent: Intent)
    requires Alarms(lib, p, agent, intent)
    ensures Raises(lib, p, agent, intent) || exists v :: Gives(lib, p, agent, intent, v) && v.outcome == Deny
  {
    match RulesOf(p)
    case Malformed(_) =>
      assert Gives(lib, p, agent, intent, Verdict(Deny, 100, p.id));
    case RuleList(rules) =>
      var rule :| rule in rules && MalformedRule(lib, rule) && Noticed(lib, agent, intent, rule);
      MalformedRuleClosedIff(lib, p.id, agent, intent, rule);
      if !RuleRaises(lib, p.id, agent, intent, rule) {
        var v := RuleContribution(lib, p.id, agent, intent, rule).value;
        assert RuleGives(lib, p.id, agent, intent, rule, v);
        assert Gives(lib, p, agent, intent, v);
      }
  }

  /** A malformed definition or rule list, or a malformed rule that is noticed, closes the evaluation. */
  lemma AlarmFailsClosed(
      lib: Library, agent: Option<Agent>, ps: seq<Policy>, intent: Intent, remaining: Option<int>, p: Policy)
    requires Admitted(agent, intent) && p in ps && Alarms(lib, p, agent.value, intent)
    ensures DeniesOrRaises(Evaluate(lib, agent, ps, intent, remaining))
  {
    hide Alarms, Raises, Gives;
    AlarmContributes(lib, p, agent.value, intent);
    DecisionIsJoin(lib, agent, ps, intent, remaining);
    if !Raises(lib, p, agent.value, intent) {
      var v :| Gives(lib, p, agent.value, intent, v) && v.outcome == Deny;
      assert Contributes(lib, ps, agent.value, intent, remaining, v);
    }
  }

  // The other malformed rules might as well not be there.

  /** A rule whose condition no intent can meet. */
  predicate Inert(lib: Library, rule: Json) { rule.JObj? && InertWhen(lib, WhenOf(rule.members)) }

  /** A policy with such rules only, or with none: a definition without `rules` reads as an empty list. */
  predicate Harmless(lib: Library, p: Policy)
  {
    RulesOf(p).RuleList? && forall rule | rule in RulesOf(p).rules :: Inert(lib, rule)
  }

  /** `q` is `p`, some inert rules left out. */
  ghost predicate Pruned(lib: Library, p: Policy, q: Policy)
  {
    && p.id == q.id && (RulesOf(p).Malformed? <==> RulesOf(q).Malformed?)
    && (RulesOf(p).RuleList? ==>
      && (forall rule | rule in RulesOf(q).rules :: rule in RulesOf(p).rules)
      && (forall rule | rule in RulesOf(p).rules && !Inert(lib, rule) :: rule in RulesOf(q).rules))
  }

  /** `qs` is `ps`, some harmless policies and inert rules left out. */
  ghost predicate AllPruned(lib: Library, ps: seq<Policy>, qs: seq<Policy>)
  {
    && (forall p | p in ps :: Harmless(lib, p) || exists q | q in qs :: Pruned(lib, p, q))
    && (forall q | q in qs :: exists p | p in ps :: Pruned(lib, p, q))
  }

  lemma InertGivesNothing(lib: Library, policyId: string, agent: Agent, intent: Intent, rule: Json, v: Verdict)
    requires Inert(lib, rule)
    ensures !RuleRaises(lib, policyId, agent, intent, rule) && !RuleGives(lib, policyId, agent, intent, rule, v)
  {
    hide Matches, InertWhen;
    InertNeverMatches(lib, WhenOf(rule.members), agent, intent);
  }

  lemma HarmlessGivesNothing(lib: Library, p: Policy, agent: Agent, intent: Intent, v: Verdict)
    requires Harmless(lib, p)
    ensures !Raises(lib, p, agent, intent) && !Gives(lib, p, agent, intent, v)
  {
    hide RuleRaises, RuleGives, Inert;
    forall rule | rule in RulesOf(p).rules
      ensures !RuleRaises(lib, p.id, agent, intent, rule) && !RuleGives(lib, p.id, agent, intent, rule, v)
    {
      InertGivesNothing(lib, p.id, agent, intent, rule, v);
    }
  }

  lemma PrunedGives(lib: Library, agent: Agent, p: Policy, q: Policy, intent: Intent, v: Verdict)
    requires Pruned(lib, p, q)
    ensures Raises(lib, p, agent, intent) <==> Raises(lib, q, agent, intent)
    ensures Gives(lib, p, agent, intent, v) <==> Gives(lib, q, agent, intent, v)
  {
    hide RuleRaises, RuleGives, Inert;
    if RulesOf(p).RuleList? {
      forall rule | rule in RulesOf(p).rules && Inert(lib, rule)
        ensures !RuleRaises(lib, p.id, agent, intent, rule) && !RuleGives(lib, p.id, agent, intent, rule, v)
      {
        InertGivesNothing(lib, p.id, agent, intent, rule, v);
      }
    }
  }

  lemma PrunedContributes(
      lib: Library, agent: Agent, ps: seq<Policy>, qs: seq<Policy>, intent: Intent, remaining: Option<int>, v: Verdict)
    requires AllPruned(lib, ps, qs)
    ensures (exists p | p in ps :: Raises(lib, p, agent, intent)) <==>
      exists q | q in qs :: Raises(lib, q, agent, intent)
    ensures Contributes(lib, ps, agent, intent, remaining, v) <==> Contributes(lib, qs, agent, intent, remaining, v)
  {
    hide Raises, Gives, Pruned, Harmless;
    forall p, q | p in ps && q in qs && Pruned(lib, p, q)
      ensures Raises(lib, p, agent, intent) <==> Raises(lib, q, agent, intent)
      ensures Gives(lib, p, agent, intent, v) <==> Gives(lib, q, agent, intent, v)
    {
      PrunedGives(lib, agent, p, q, intent, v);
    }
    forall p | p in ps && Harmless(lib, p)
      ensures !Raises(lib, p, agent, intent) && !Gives(lib, p, agent, intent, v)
    {
      HarmlessGivesNothing(lib, p, agent, intent, v);
    }
  }

  /** Inert rules and harmless policies change nothing about a decision, whatever effect they name. */
  lemma InertRulesIgnored(
      lib: Library, agent: Option<Agent>, ps: seq<Policy>, qs: seq<Policy>, intent: Intent, remaining: Option<int>)
    requires AllPruned(lib, ps, qs)
    ensures var r, s := Evaluate(lib, agent, ps, intent, remaining), Evaluate(lib, agent, qs, intent, remaining);
      && (r.Err? <==> s.Err?)
      && (r.Ok? ==>
        && r.value.outcome == s.value.outcome && r.value.risk == s.value.risk
        && r.value.policyIds == s.value.policyIds && r.value.remaining == s.value.remaining)
  {
    hide Contributes, Raises, AllPruned;
    if Admitted(agent, intent) {
      var a := agent.value;
      var r, s := AllResults(lib, ps, a, intent, |ps|), AllResults(lib, qs, a, intent, |qs|);
      forall v
        ensures r.Err? <==> s.Err?
        ensures r.Ok? && s.Ok? ==>
          (Has(r.value + BudgetResult(intent, remaining), v) <==> Has(s.value + BudgetResult(intent, remaining), v))
      {
        ResultsAre(lib, ps, a, intent, remaining, v);
        ResultsAre(lib, qs, a, intent, remaining, v);
        PrunedContributes(lib, a, ps, qs, intent, remaining, v);
      }
      assert r.Err? <==> s.Err? by {
        ResultsAre(lib, ps, a, intent, remaining, Verdict(Deny, 0, ""));
        ResultsAre(lib, qs, a, intent, remaining, Verdict(Deny, 0, ""));
        PrunedContributes(lib, a, ps, qs, intent, remaining, Verdict(Deny, 0, ""));
      }
      if r.Ok? {
        SameVerdictsSameDecision(BaseRisk(a.riskTier), r.value + BudgetResult(intent, remaining),
          s.value + BudgetResult(intent, remaining), if intent.amount.Some? then remaining else None);
      }
    }
  }

  // ---------------------------------------------------------------------------------------------
  // Policies in which everything is malformed.
  // ---------------------------------------------------------------------------------------------

  /** Nothing in the policy is well formed; a definition without `rules` counts. */
  predicate AllMalformed(lib: Library, p: Policy)
  {
    RulesOf(p).RuleList? ==> forall rule | rule in RulesOf(p).rules :: MalformedRule(lib, rule)
  }

  /** Nothing but a policy can stand in the way of the intent. */
  predicate WithinBudget(intent: Intent, remaining: Option<int>)
  {
    intent.amount.Some? ==> intent.currency.Some? && remaining.Some? && intent.amount.value <= remaining.value
  }

  lemma UnnoticedGivesNothing(lib: Library, p: Policy, agent: Agent, intent: Intent, v: Verdict)
    requires AllMalformed(lib, p) && !Alarms(lib, p, agent, intent)
    ensures !Raises(lib, p, agent, intent) && !Gives(lib, p, agent, intent, v)
  {
    hide MalformedRule, Noticed, RuleRaises;
    forall rule | rule in RulesOf(p).rules
      ensures !RuleRaises(lib, p.id, agent, intent, rule) && !RuleGives(lib, p.id, agent, intent, rule, v)
    {
      assert !Noticed(lib, agent, intent, rule);
      MalformedRuleClosedIff(lib, p.id, agent, intent, rule);
    }
  }

  lemma NothingContributes(
      lib: Library, agent: Option<Agent>, ps: seq<Policy>, intent: Intent, remaining: Option<int>)
    requires Admitted(agent, intent) && WithinBudget(intent, remaining)
    requires forall p | p in ps :: !Raises(lib, p, agent.value, intent)
    requires forall p, v | p in ps :: !Gives(lib, p, agent.value, intent, v)
    ensures var r := Evaluate(lib, agent, ps, intent, remaining); r.Ok? && r.value.outcome == Allow
  {
    hide Raises, Gives;
    DecisionIsJoin(lib, agent, ps, intent, remaining);
    forall v ensures !Contributes(lib, ps, agent.value, intent, remaining, v) {
    }
  }

  /**
   Which malformed policies fail closed: those whose definition or rule list is malformed, or that
   have a rule that is noticed. All others let every admitted intent within its budget pass.
   */
  lemma MalformedPoliciesCloseIff(
      lib: Library, agent: Option<Agent>, ps: seq<Policy>, intent: Intent, remaining: Option<int>)
    requires Admitted(agent, intent) && WithinBudget(intent, remaining)
    requires forall p | p in ps :: AllMalformed(lib, p)
    ensures var r := Evaluate(lib, agent, ps, intent, remaining);
      if exists p | p in ps :: Alarms(lib, p, agent.value, intent) then DeniesOrRaises(r)
      else r.Ok? && r.value.outcome == Allow
  {
    hide Evaluate, Raises, Gives, Alarms, AllMalformed;
    if p :| p in ps && Alarms(lib, p, agent.value, intent) {
      AlarmFailsClosed(lib, agent, ps, intent, remaining, p);
    } else {
      forall p, v | p in ps
        ensures !Raises(lib, p, agent.value, intent) && !Gives(lib, p, agent.value, intent, v)
      {
        UnnoticedGivesNothing(lib, p, agent.value, intent, v);
      }
      forall p | p in ps ensures !Raises(lib, p, agent.value, intent) {
        UnnoticedGivesNothing(lib, p, agent.value, intent, Verdict(Deny, 0, ""));
      }
      NothingContributes(lib, agent, ps, intent, remaining);
    }
  }

  /** One rule that denies everything, under a given condition. */
  function DenyWhen(key: string, value: Json): Policy
  {
    var rule := JObj([Member("when", JObj([Member(key, value)])), Member("effect", JStr("deny"))]);
    Policy("p", "deny", JObj([Member("rules", JArr([rule]))]))
  }

  /** A misspelt condition, a string where a list belongs, a misspelt `rules`. */
  function Misspelt(): Policy { DenyWhen("amount_ge", JInt(0)) }

  function Unlisted(): Policy { DenyWhen("actions", JStr("*")) }

  function Ruleless(): Policy
  {
    Policy("p", "deny", JObj([Member("rule", JArr([JObj([Member("effect", JStr("deny"))])]))]))
  }

  lemma InertIsMalformed(lib: Library, conditions: Json)
    requires InertWhen(lib, conditions)
    ensures MalformedWhen(lib, conditions)
  {
  }

  lemma DenyWhenHarmless(lib: Library, key: string, value: Json)
    requires InertWhen(lib, JObj([Member(key, value)]))
    ensures Harmless(lib, DenyWhen(key, value)) && AllMalformed(lib, DenyWhen(key, value))
  {
    hide InertWhen;
    var rules := RulesOf(DenyWhen(key, value)).rules;
    assert forall rule | rule in rules :: rule == rules[0];
    assert WhenOf(rules[0].members) == JObj([Member(key, value)]);
    InertIsMalformed(lib, JObj([Member(key, value)]));
  }

  lemma ExamplesHarmless(lib: Library)
    ensures Harmless(lib, Misspelt()) && Harmless(lib, Unlisted()) && Harmless(lib, Ruleless())
  {
    var misspelt := [Member("amount_ge", JInt(0))];
    assert misspelt[0] in misspelt;
    assert "amount_ge"[8] == 'e' && "amount_gt"[8] == 't' && |"amount_gte"| == 10;
    assert UnknownKey(misspelt);
    DenyWhenHarmless(lib, "amount_ge", JInt(0));
    DenyWhenHarmless(lib, "actions", JStr("*"));
    assert "rule" != "rules";
  }

  /** Each of them allows every admitted intent within its budget, although it was meant to deny. */
  lemma MalformedPolicyAllows(lib: Library, agent: Option<Agent>, intent: Intent, remaining: Option<int>, p: Policy)
    requires Admitted(agent, intent) && WithinBudget(intent, remaining)
    requires p in {Misspelt(), Unlisted(), Ruleless()}
    ensures var r := Evaluate(lib, agent, [p], intent, remaining); r.Ok? && r.value.outcome == Allow
  {
    hide Evaluate, Raises, Gives, Harmless, Misspelt, Unlisted, Ruleless;
    ExamplesHarmless(lib);
    forall q, v | q in [p]
      ensures !Raises(lib, q, agent.value, intent) && !Gives(lib, q, agent.value, intent, v)
    {
      HarmlessGivesNothing(lib, q, agent.value, intent, v);
    }
    HarmlessGivesNothing(lib, p, agent.value, intent, Verdict(Deny, 0, ""));
    NothingContributes(lib, agent, [p], intent, remaining);
  }

  /** A `reason` that is no text is not malformed: the wording is replaced and the rule counts as it is. */
  lemma ReasonIsOnlyWording(
      lib: Library, policyId: string, agent: Agent, intent: Intent, a: seq<Member>, b: seq<Member>, v: Verdict)
    requires Get(a, "when") == Get(b, "when") && Get(a, "effect") == Get(b, "effect")
    requires Get(a, "risk_score") == Get(b, "risk_score")
    ensures RuleRaises(lib, policyId, agent, intent, JObj(a)) <==> RuleRaises(lib, policyId, agent, intent, JObj(b))
    ensures RuleGives(lib, policyId, agent, intent, JObj(a), v) <==> RuleGives(lib, policyId, agent, intent, JObj(b), v)
  {
  }
}
