/**
 What a rule says, read off the rule itself, and what an evaluation makes of it. Nothing here is
 stated through the interpreter: a condition holds by its lists, thresholds and payload members, a
 rule calls for the effect and the risk it names, and a decision is the most severe call.
 */
module PolicyMeaning {
  import opened Wrappers
  import opened Json
  import opened Schemas
  import opened PolicyRules
  import opened PolicyProofs
  import JsonParser

  // ---------------------------------------------------------------------------------------------
  // Equality of payload values, as Python has it.
  // ---------------------------------------------------------------------------------------------

  /** The number a value is; booleans are the numbers 0 and 1. */
  function NumberOf(v: Json): Option<int>
  {
    match v case JInt(n) => Some(n) case JBool(b) => Some(if b then 1 else 0) case _ => None
  }

  /** Lists element by element, dicts member by member in whatever order, numbers by their value. */
  ghost predicate Equals(a: Json, b: Json)
    decreases a
  {
    match (a, b)
    case (JArr(xs), JArr(ys)) => |xs| == |ys| && forall i | 0 <= i < |xs| :: Equals(xs[i], ys[i])
    case (JObj(ms), JObj(ns)) => EqualMembers(ms, ns)
    case _ => if NumberOf(a).Some? then NumberOf(a) == NumberOf(b) else a == b
  }

  ghost predicate EqualMembers(ms: seq<Member>, ns: seq<Member>)
    decreases ms
  {
    if ms == [] then ns == []
    else exists j | 0 <= j < |ns| ::
      && ns[j].key == ms[0].key && Equals(ms[0].value, ns[j].value) && EqualMembers(ms[1..], Without(ns, j))
  }

  /** The members with numbers for booleans. */
  function Numbered(ms: seq<Member>): seq<Member>
  {
    seq(|ms|, i requires 0 <= i < |ms| => Member(ms[i].key, AsNumbers(ms[i].value)))
  }

  lemma NumberedWithout(ns: seq<Member>, j: nat)
    requires j < |ns|
    ensures Numbered(Without(ns, j)) == Without(Numbered(ns), j)
  {
  }

  lemma {:induction false} SameNumbers(a: Json, b: Json)
    ensures Same(AsNumbers(a), AsNumbers(b)) <==> Equals(a, b)
    decreases a, 1
  {
    match (a, b)
    case (JArr(xs), JArr(ys)) =>
      if |xs| == |ys| {
        forall i | 0 <= i < |xs| ensures Same(AsNumbers(xs[i]), AsNumbers(ys[i])) <==> Equals(xs[i], ys[i]) {
          SameNumbers(xs[i], ys[i]);
        }
        var us, vs := AsNumbers(a).items, AsNumbers(b).items;
        assert forall i | 0 <= i < |xs| :: us[i] == AsNumbers(xs[i]) && vs[i] == AsNumbers(ys[i]);
      }
    case (JObj(ms), JObj(ns)) =>
      SameNumberedMembers(ms, ns);
      assert AsNumbers(a).members == Numbered(ms) && AsNumbers(b).members == Numbered(ns);
    case _ =>
  }

  lemma {:induction false} SameNumberedMembers(ms: seq<Member>, ns: seq<Member>)
    ensures SameMembers(Numbered(ms), Numbered(ns)) <==> EqualMembers(ms, ns)
    decreases ms, 0
  {
    if ms != [] {
      assert Numbered(ms)[1..] == Numbered(ms[1..]);
      forall j | 0 <= j < |ns|
        ensures Same(AsNumbers(ms[0].value), AsNumbers(ns[j].value)) <==> Equals(ms[0].value, ns[j].value)
        ensures SameMembers(Numbered(ms)[1..], Without(Numbered(ns), j)) <==> EqualMembers(ms[1..], Without(ns, j))
      {
        SameNumbers(ms[0].value, ns[j].value);
        SameNumberedMembers(ms[1..], Without(ns, j));
        NumberedWithout(ns, j);
      }
    }
  }

  lemma NumberedDistinct(ms: seq<Member>)
    requires DistinctKeys(ms)
    ensures DistinctKeys(Numbered(ms))
  {
    if ms != [] {
      assert Numbered(ms)[1..] == Numbered(ms[1..]);
    }
  }

  lemma {:induction false} NumbersValid(v: Json)
    requires Valid(v)
    ensures Valid(AsNumbers(v))
  {
    match v
    case JArr(items) =>
      forall i | 0 <= i < |items| ensures Valid(AsNumbers(items[i])) {
        NumbersValid(items[i]);
      }
    case JObj(ms) =>
      NumberedDistinct(ms);
      assert AsNumbers(v).members == Numbered(ms);
      forall i | 0 <= i < |ms| ensures Valid(AsNumbers(ms[i].value)) {
        assert ms[i] in ms;
        NumbersValid(ms[i].value);
      }
    case _ =>
  }

  /** The comparison by canonical text is equality of the values. */
  lemma PythonEqualIff(a: Json, b: Json)
    requires Valid(a) && Valid(b)
    ensures PythonEqual(a, b) <==> Equals(a, b)
  {
    NumbersValid(a);
    NumbersValid(b);
    JsonParser.CanonicalInjective(AsNumbers(a), AsNumbers(b));
    SameNumbers(a, b);
  }

  // ---------------------------------------------------------------------------------------------
  // Conditions.
  // ---------------------------------------------------------------------------------------------

  /** A list of strings with this name in it, or with the wildcard. */
  predicate Names(v: Json, actual: string)
  {
    && v.JArr? && (forall i | 0 <= i < |v.items| :: v.items[i].JStr?)
    && exists i | 0 <= i < |v.items| :: v.items[i] == JStr(actual) || v.items[i] == JStr("*")
  }

  predicate Chosen(cs: seq<Member>, key: string, actual: string)
  {
    Get(cs, key).Some? ==> Names(Get(cs, key).value, actual)
  }

  /** What a condition says of the call, apart from amounts and payload. */
  predicate Selects(cs: seq<Member>, agent: Agent, intent: Intent)
  {
    && (forall m | m in cs ::
      m.key in {"actions", "agent_ids", "tenant_ids", "risk_tiers", "amount_gte", "amount_gt", "payload_equals",
        "payload_contains"})
    && Chosen(cs, "actions", intent.action) && Chosen(cs, "agent_ids", agent.id)
    && Chosen(cs, "tenant_ids", agent.tenant) && Chosen(cs, "risk_tiers", agent.riskTier)
  }

  /** A number that is not negative; infinity is one, and no amount reaches it. */
  predicate Readable(lib: Library, v: Json)
  {
    var n := lib.decimal(v);
    n.PositiveInfinity? || (n.Finite? && n.r >= 0.0)
  }

  function Asked(intent: Intent): real { match intent.amount case None => 0.0 case Some(n) => n as real }

  predicate Reaches(lib: Library, cs: seq<Member>, intent: Intent)
  {
    match Get(cs, "amount_gte")
    case None => true
    case Some(v) => lib.decimal(v).Finite? && 0.0 <= lib.decimal(v).r <= Asked(intent)
  }

  predicate Exceeds(lib: Library, cs: seq<Member>, intent: Intent)
  {
    match Get(cs, "amount_gt")
    case None => true
    case Some(v) => lib.decimal(v).Finite? && 0.0 <= lib.decimal(v).r < Asked(intent)
  }

  predicate PayloadFits(lib: Library, cs: seq<Member>, payload: seq<Member>)
  {
    && (Get(cs, "payload_equals").Some? ==>
      var v := Get(cs, "payload_equals").value;
      v.JObj? && forall e | e in v.members ::
        PythonEqual((match Get(payload, e.key) case Some(x) => x case None => JNull), e.value))
    && (Get(cs, "payload_contains").Some? ==>
      var v := Get(cs, "payload_contains").value;
      v.JObj? && forall e | e in v.members :: lib.contains(e.value, payload))
  }

  predicate Holds(lib: Library, conditions: Json, agent: Agent, intent: Intent)
  {
    && conditions.JObj? && Selects(conditions.members, agent, intent)
    && Reaches(lib, conditions.members, intent) && Exceeds(lib, conditions.members, intent)
    && PayloadFits(lib, conditions.members, intent.payload)
  }

  /** An amount that is reached cannot be read. */
  predicate Unreadable(lib: Library, conditions: Json, agent: Agent, intent: Intent)
  {
    && conditions.JObj? && Selects(conditions.members, agent, intent)
    && var gte, gt := Get(conditions.members, "amount_gte"), Get(conditions.members, "amount_gt");
      || (gte.Some? && !Readable(lib, gte.value))
      || (Reaches(lib, conditions.members, intent) && gt.Some? && !Readable(lib, gt.value))
  }

  lemma NamesIff(v: Json, actual: string)
    ensures MatchStringList(v, actual) <==> Names(v, actual)
  {
    if v.JArr? && exists i | 0 <= i < |v.items| :: v.items[i] == JStr(actual) || v.items[i] == JStr("*") {
      assert JStr(actual) in v.items || JStr("*") in v.items;
    }
  }

  lemma ChosenIff(cs: seq<Member>, key: string, actual: string)
    ensures Selected(cs, key, actual) <==> Chosen(cs, key, actual)
  {
    hide MatchStringList, Names;
    if Get(cs, key).Some? {
      NamesIff(Get(cs, key).value, actual);
    }
  }

  lemma GatesIff(lib: Library, cs: seq<Member>, intent: Intent)
    ensures var gte := Gate(lib, cs, "amount_gte", AmountOf(intent), false);
      && (gte == Ok(true) <==> Reaches(lib, cs, intent))
      && (gte.Err? <==> Get(cs, "amount_gte").Some? && !Readable(lib, Get(cs, "amount_gte").value))
    ensures var gt := Gate(lib, cs, "amount_gt", AmountOf(intent), true);
      && (gt == Ok(true) <==> Exceeds(lib, cs, intent))
      && (gt.Err? <==> Get(cs, "amount_gt").Some? && !Readable(lib, Get(cs, "amount_gt").value))
  {
  }

  /** A condition holds by its lists, thresholds and payload members, and raises by an amount it reaches. */
  lemma MatchesIff(lib: Library, conditions: Json, agent: Agent, intent: Intent)
    ensures Matches(lib, conditions, agent, intent) == Ok(true) <==> Holds(lib, conditions, agent, intent)
    ensures Matches(lib, conditions, agent, intent).Err? <==> Unreadable(lib, conditions, agent, intent)
  {
    hide Selected, Chosen, Gate, Reaches, Exceeds, Readable, PythonEqual;
    if conditions.JObj? {
      var cs := conditions.members;
      ChosenIff(cs, "actions", intent.action);
      ChosenIff(cs, "agent_ids", agent.id);
      ChosenIff(cs, "tenant_ids", agent.tenant);
      ChosenIff(cs, "risk_tiers", agent.riskTier);
      GatesIff(lib, cs, intent);
    }
  }

  // ---------------------------------------------------------------------------------------------
  // Rules.
  // ---------------------------------------------------------------------------------------------

  /** A rule without a condition applies to every call. */
  function Condition(rule: seq<Member>): Json { match Get(rule, "when") case None => JObj([]) case Some(v) => v }

  /** The rule's effect is this text; a rule that names none denies. */
  predicate EffectIs(rule: seq<Member>, name: string)
  {
    match Get(rule, "effect") case None => name == "deny" case Some(v) => v == JStr(name)
  }

  predicate EffectKnown(rule: seq<Member>)
  {
    EffectIs(rule, "allow") || EffectIs(rule, "require_approval") || EffectIs(rule, "deny")
  }

  /** Looking a list or an object up in a set raises. */
  predicate Unhashable(rule: seq<Member>)
  {
    Get(rule, "effect").Some? && (Get(rule, "effect").value.JArr? || Get(rule, "effect").value.JObj?)
  }

  /** The rule's risk is this number; a rule that names none has risk 50. */
  predicate RiskIs(rule: seq<Member>, n: int)
  {
    match Get(rule, "risk_score")
    case None => n == 50
    case Some(JInt(m)) => n == m && 0 <= n <= 100
    case Some(JBool(b)) => n == if b then 1 else 0
    case Some(_) => false
  }

  predicate RiskKnown(rule: seq<Member>)
  {
    match Get(rule, "risk_score")
    case Some(JInt(m)) => 0 <= m <= 100
    case Some(v) => v.JBool?
    case None => true
  }

  /** What a rule that applies calls for: what it says, or a denial when it cannot be understood. */
  predicate Says(rule: seq<Member>, o: Outcome, n: int)
  {
    if EffectKnown(rule) && RiskKnown(rule) then
      && RiskIs(rule, n)
      && match o
         case Allow => EffectIs(rule, "allow")
         case RequireApproval => EffectIs(rule, "require_approval")
         case Deny => EffectIs(rule, "deny")
    else o == Deny && n == 100
  }

  predicate RuleCalls(lib: Library, agent: Agent, intent: Intent, rule: Json, o: Outcome, n: int)
  {
    if rule.JObj? then
      && Holds(lib, Condition(rule.members), agent, intent) && !Unhashable(rule.members)
      && Says(rule.members, o, n)
    else o == Deny && n == 100
  }

  predicate RuleFails(lib: Library, agent: Agent, intent: Intent, rule: Json)
  {
    && rule.JObj?
    && (Unreadable(lib, Condition(rule.members), agent, intent)
      || (Holds(lib, Condition(rule.members), agent, intent) && Unhashable(rule.members)))
  }

  lemma VerdictSays(policyId: string, rule: seq<Member>, v: Verdict)
    ensures RuleVerdict(policyId, rule).Err? <==> Unhashable(rule)
    ensures !Unhashable(rule) ==>
      (RuleVerdict(policyId, rule) == Ok(v) <==> v.policyId == policyId && Says(rule, v.outcome, v.risk))
  {
    assert "allow"[0] == 'a' && "deny"[0] == 'd' && "require_approval"[0] == 'r';
  }

  /** A rule contributes exactly what it calls for, and raises exactly when its text makes it raise. */
  lemma RuleMeaning(lib: Library, policyId: string, agent: Agent, intent: Intent, rule: Json, v: Verdict)
    ensures RuleRaises(lib, policyId, agent, intent, rule) <==> RuleFails(lib, agent, intent, rule)
    ensures RuleGives(lib, policyId, agent, intent, rule, v) <==>
      v.policyId == policyId && RuleCalls(lib, agent, intent, rule, v.outcome, v.risk)
  {
    hide Matches, Holds, Unreadable, RuleVerdict, Says, Unhashable;
    if rule.JObj? {
      MatchesIff(lib, Condition(rule.members), agent, intent);
      VerdictSays(policyId, rule.members, v);
    }
  }

  // ---------------------------------------------------------------------------------------------
  // Policies and the decision.
  // ---------------------------------------------------------------------------------------------

  predicate PolicyCalls(lib: Library, p: Policy, agent: Agent, intent: Intent, o: Outcome, n: int)
  {
    if !p.definition.JObj? then o == Deny && n == 100
    else
      match Get(p.definition.members, "rules")
      case None => false
      case Some(JArr(rules)) => exists rule | rule in rules :: RuleCalls(lib, agent, intent, rule, o, n)
      case Some(_) => o == Deny && n == 100
  }

  predicate PolicyFails(lib: Library, p: Policy, agent: Agent, intent: Intent)
  {
    && p.definition.JObj?
    && match Get(p.definition.members, "rules")
       case Some(JArr(rules)) => exists rule | rule in rules :: RuleFails(lib, agent, intent, rule)
       case _ => false
  }

  lemma PolicyMeans(lib: Library, p: Policy, agent: Agent, intent: Intent, v: Verdict)
    ensures Raises(lib, p, agent, intent) <==> PolicyFails(lib, p, agent, intent)
    ensures Gives(lib, p, agent, intent, v) <==>
      v.policyId == p.id && PolicyCalls(lib, p, agent, intent, v.outcome, v.risk)
  {
    hide RuleRaises, RuleFails, RuleGives, RuleCalls;
    if RulesOf(p).RuleList? {
      forall rule | rule in RulesOf(p).rules
        ensures RuleRaises(lib, p.id, agent, intent, rule) <==> RuleFails(lib, agent, intent, rule)
        ensures RuleGives(lib, p.id, agent, intent, rule, v) <==>
          v.policyId == p.id && RuleCalls(lib, agent, intent, rule, v.outcome, v.risk)
      {
        RuleMeaning(lib, p.id, agent, intent, rule, v);
      }
    }
  }

  /** What the budget calls for, given the figure the governor reports. */
  predicate BudgetCalls(intent: Intent, remaining: Option<int>, o: Outcome, n: int)
  {
    && intent.amount.Some?
    && match remaining
       case None => o == Deny && n == 100
       case Some(figure) => intent.amount.value > figure && o == RequireApproval && n == 90
  }

  /** Somebody, the policy with this identifier or the budget, calls for this outcome and risk. */
  predicate Calls(
      lib: Library, ps: seq<Policy>, agent: Agent, intent: Intent, remaining: Option<int>,
      o: Outcome, n: int, id: string)
  {
    || (exists p | p in ps :: p.id == id && PolicyCalls(lib, p, agent, intent, o, n))
    || (id == "system-budget" && BudgetCalls(intent, remaining, o, n))
  }

  lemma CallsContribute(
      lib: Library, ps: seq<Policy>, agent: Agent, intent: Intent, remaining: Option<int>, v: Verdict)
    ensures Contributes(lib, ps, agent, intent, remaining, v) <==>
      Calls(lib, ps, agent, intent, remaining, v.outcome, v.risk, v.policyId)
  {
    hide Gives, PolicyCalls;
    forall p | p in ps
      ensures Gives(lib, p, agent, intent, v) <==>
        v.policyId == p.id && PolicyCalls(lib, p, agent, intent, v.outcome, v.risk)
    {
      PolicyMeans(lib, p, agent, intent, v);
    }
    var b := BudgetResult(intent, remaining);
    if b != [] { HasOne(b[0], v); } else { assert !Has([], v); }
  }

  /** The risk an agent's tier starts from. */
  predicate TierRisk(tier: string, n: int)
  {
    || (tier == "low" && n == 10) || (tier == "standard" && n == 25) || (tier == "high" && n == 50)
    || (tier == "critical" && n == 75) || (tier !in {"low", "standard", "high", "critical"} && n == 100)
  }

  /** The decision, from all that is called for. */
  ghost predicate Joins(
      lib: Library, ps: seq<Policy>, agent: Agent, intent: Intent, remaining: Option<int>, d: PolicyDecision)
  {
    && (d.outcome == Deny <==> exists n, id :: Calls(lib, ps, agent, intent, remaining, Deny, n, id))
    && (d.outcome == Allow <==>
      forall o, n, id :: Calls(lib, ps, agent, intent, remaining, o, n, id) ==> o == Allow)
    && (forall o, n, id :: Calls(lib, ps, agent, intent, remaining, o, n, id) ==> n <= d.risk)
    && (forall base :: TierRisk(agent.riskTier, base) ==>
      base <= d.risk
        && (d.risk == base || exists o, id :: Calls(lib, ps, agent, intent, remaining, o, d.risk, id)))
    && Ascending(d.policyIds)
    && (forall id :: id in d.policyIds <==> exists o, n :: Calls(lib, ps, agent, intent, remaining, o, n, id))
    && d.remaining == (if intent.amount.Some? then remaining else None) && d.hitlId.None?
  }

  lemma JoinMeans(lib: Library, agent: Option<Agent>, ps: seq<Policy>, intent: Intent, remaining: Option<int>)
    requires Admitted(agent, intent) && Evaluate(lib, agent, ps, intent, remaining).Ok?
    requires intent.amount.Some? ==> intent.currency.Some?
    ensures Joins(lib, ps, agent.value, intent, remaining, Evaluate(lib, agent, ps, intent, remaining).value)
  {
    hide Contributes, Calls, AllResults, BudgetResult, Ascending, OutcomeOf, MaxRisk, SortedIds, Reasons;
    var a, d := agent.value, Evaluate(lib, agent, ps, intent, remaining).value;
    DecisionIsJoin(lib, agent, ps, intent, remaining);
    forall v: Verdict
      ensures Contributes(lib, ps, a, intent, remaining, v) <==>
        Calls(lib, ps, a, intent, remaining, v.outcome, v.risk, v.policyId)
    {
      CallsContribute(lib, ps, a, intent, remaining, v);
    }
    forall o, n, id | Calls(lib, ps, a, intent, remaining, o, n, id)
      ensures Contributes(lib, ps, a, intent, remaining, Verdict(o, n, id))
    {
      CallsContribute(lib, ps, a, intent, remaining, Verdict(o, n, id));
    }
  }

  /**
   The whole evaluation. Who is not admitted is denied; a rule that raises ends it; an amount without
   a currency is denied; otherwise the decision is the most severe of all that is called for.
   */
  lemma EvaluationMeans(lib: Library, agent: Option<Agent>, ps: seq<Policy>, intent: Intent, remaining: Option<int>)
    ensures var r := Evaluate(lib, agent, ps, intent, remaining);
      && (!Admitted(agent, intent) ==> r.Ok? && r.value.outcome == Deny && r.value.risk == 100)
      && (Admitted(agent, intent) ==>
        && (r.Err? <==> exists p | p in ps :: PolicyFails(lib, p, agent.value, intent))
        && (r.Ok? ==>
          if intent.amount.Some? && intent.currency.None? then r.value.outcome == Deny && r.value.risk == 100
          else Joins(lib, ps, agent.value, intent, remaining, r.value)))
  {
    hide Joins, AllResults, PolicyFails, Raises, Contributes;
    if Admitted(agent, intent) {
      DecisionIsJoin(lib, agent, ps, intent, remaining);
      forall p | p in ps ensures Raises(lib, p, agent.value, intent) <==> PolicyFails(lib, p, agent.value, intent) {
        PolicyMeans(lib, p, agent.value, intent, Verdict(Deny, 0, ""));
      }
      if Evaluate(lib, agent, ps, intent, remaining).Ok? && (intent.amount.Some? ==> intent.currency.Some?) {
        JoinMeans(lib, agent, ps, intent, remaining);
      }
    }
  }

  // ---------------------------------------------------------------------------------------------
  // What one rule is good for.
  // ---------------------------------------------------------------------------------------------

  /** The policy's definition lists this rule. */
  predicate Lists(p: Policy, rule: seq<Member>)
  {
    && p.definition.JObj? && Get(p.definition.members, "rules").Some?
    && var rules := Get(p.definition.members, "rules").value; rules.JArr? && JObj(rule) in rules.items
  }

  /**
   A well-formed rule that applies is heeded: a denial denies, a call for approval is at least that, and
   whatever it says, its risk is not undercut and its policy is named.
   */
  lemma RuleIsHeeded(
      lib: Library, agent: Option<Agent>, ps: seq<Policy>, intent: Intent, remaining: Option<int>,
      p: Policy, rule: seq<Member>, n: int)
    requires Admitted(agent, intent) && p in ps && Lists(p, rule)
    requires Holds(lib, Condition(rule), agent.value, intent) && EffectKnown(rule) && RiskIs(rule, n)
    ensures var r := Evaluate(lib, agent, ps, intent, remaining);
      r.Ok? ==>
        && (EffectIs(rule, "deny") ==> r.value.outcome == Deny)
        && (EffectIs(rule, "require_approval") ==> r.value.outcome != Allow)
        && n <= r.value.risk
        && ((intent.amount.Some? ==> intent.currency.Some?) ==> p.id in r.value.policyIds)
  {
    hide Evaluate, Holds;
    EvaluationMeans(lib, agent, ps, intent, remaining);
    var o := if EffectIs(rule, "deny") then Deny else if EffectIs(rule, "allow") then Allow else RequireApproval;
    assert "allow"[0] == 'a' && "deny"[0] == 'd' && "require_approval"[0] == 'r';
    assert RuleCalls(lib, agent.value, intent, JObj(rule), o, n);
    assert PolicyCalls(lib, p, agent.value, intent, o, n);
    assert Calls(lib, ps, agent.value, intent, remaining, o, n, p.id);
  }

  lemma {:induction false} StepReported(
      lib: Library, p: Policy, agent: Agent, intent: Intent, rules: seq<Json>, k: nat, n: nat)
    requires k < n <= |rules| && RuleResults(lib, p, agent, intent, rules, n).Ok?
    ensures var step := RuleStep(lib, p, agent, intent, k, rules[k]);
      step.Ok? && (step.value.Some? ==> step.value.value in RuleResults(lib, p, agent, intent, rules, n).value)
  {
    hide RuleStep;
    if k < n - 1 {
      StepReported(lib, p, agent, intent, rules, k, n - 1);
    }
  }

  lemma {:induction false} ResultsReported(
      lib: Library, ps: seq<Policy>, agent: Agent, intent: Intent, k: nat, n: nat)
    requires k < n <= |ps| && AllResults(lib, ps, agent, intent, n).Ok?
    ensures var one := PolicyResults(lib, ps[k], agent, intent);
      one.Ok? && forall x | x in one.value :: x in AllResults(lib, ps, agent, intent, n).value
  {
    hide PolicyResults;
    if k < n - 1 {
      ResultsReported(lib, ps, agent, intent, k, n - 1);
    }
  }

  predicate ReasonIs(rule: seq<Member>, text: string) { Get(rule, "reason") == Some(JStr(text)) && !Blank(text) }

  lemma StepReason(lib: Library, p: Policy, agent: Agent, intent: Intent, k: nat, rule: seq<Member>, text: string)
    requires Holds(lib, Condition(rule), agent, intent) && EffectKnown(rule) && RiskKnown(rule) && ReasonIs(rule, text)
    ensures var step := RuleStep(lib, p, agent, intent, k, JObj(rule));
      step.Ok? && step.value.Some? && step.value.value.reason == text
  {
    hide Holds, Matches, IntOn;
    MatchesIff(lib, Condition(rule), agent, intent);
  }

  lemma ReasonReported(base: int, results: seq<RuleResult>, remaining: Option<int>)
    ensures var reasons := Decide(base, results, remaining).reasons;
      if results == [] then reasons == ["All deterministic controls passed"]
      else |reasons| == |results| && forall i | 0 <= i < |results| :: reasons[i] == results[i].reason
  {
  }

  /** The reason a rule states is among the reasons of the decision. */
  lemma ReasonIsGiven(
      lib: Library, agent: Option<Agent>, ps: seq<Policy>, intent: Intent, remaining: Option<int>,
      p: Policy, rule: seq<Member>, text: string)
    requires Admitted(agent, intent) && p in ps && Lists(p, rule) && (intent.amount.Some? ==> intent.currency.Some?)
    requires Holds(lib, Condition(rule), agent.value, intent) && EffectKnown(rule) && RiskKnown(rule)
    requires ReasonIs(rule, text)
    ensures var r := Evaluate(lib, agent, ps, intent, remaining); r.Ok? ==> text in r.value.reasons
  {
    hide RuleStep, RuleResults, Holds, Reasons;
    var a, r := agent.value, Evaluate(lib, agent, ps, intent, remaining);
    if r.Ok? {
      var k :| 0 <= k < |ps| && ps[k] == p;
      var rules := RulesOf(p).rules;
      var m :| 0 <= m < |rules| && rules[m] == JObj(rule);
      ResultsReported(lib, ps, a, intent, k, |ps|);
      StepReported(lib, p, a, intent, rules, m, |rules|);
      StepReason(lib, p, a, intent, m, rule, text);
      var x := RuleStep(lib, p, a, intent, m, JObj(rule)).value.value;
      var results := AllResults(lib, ps, a, intent, |ps|).value + BudgetResult(intent, remaining);
      assert x in results;
      var i :| 0 <= i < |results| && results[i] == x;
      ReasonReported(BaseRisk(a.riskTier), results, if intent.amount.Some? then remaining else None);
      assert r.value.reasons[i] == text;
    }
  }
}
